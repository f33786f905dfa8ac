/**
  The asset inventory (infrastructure/models.py). Every asset subtype
  (Rack, RackedAsset and its BladeChassis/RackServer children, GeneralServer
  and its BladeServer/VirtualServer children) keeps its shared attributes in
  one base `Asset` table, so all of them share the `(name, site)` uniqueness
  key. A row is an `Asset` value whose `kind` carries the subtype's own
  fields. Foreign keys are primary keys (`nat`); the acting user is an
  explicit input instead of the request-scoped middleware lookup.
 */
module Infrastructure {
  import opened Wrappers
  import opened Text

  type SiteId = nat
  type TeamId = nat
  type UserId = nat

  /** The ten lifecycle states an asset may be in. */
  datatype Status =
    | NeedsSetup | Installed | ColdStandby | HotStandby | Live
    | PuppetDevel | Spare | Obsolete | Decommissioned | Broken

  const DefaultStatus: Status := NeedsSetup

  const StatusMaxLength: nat := 16

  /** The code stored in the `status` column for each state. */
  function StatusCode(s: Status): (code: string)
    ensures 0 < |code| <= StatusMaxLength
  {
    match s
    case NeedsSetup => "needs-setup"
    case Installed => "installed"
    case ColdStandby => "cold-standby"
    case HotStandby => "hot-standby"
    case Live => "live"
    case PuppetDevel => "puppet_devel"
    case Spare => "spare"
    case Obsolete => "obsolete"
    case Decommissioned => "decommissioned"
    case Broken => "broken"
  }

  /** Reads a stored status code back; anything outside the ten codes is refused. */
  function ParseStatus(code: string): (r: Option<Status>)
    ensures r.Some? ==> StatusCode(r.value) == code
  {
    if code == "needs-setup" then Some(NeedsSetup)
    else if code == "installed" then Some(Installed)
    else if code == "cold-standby" then Some(ColdStandby)
    else if code == "hot-standby" then Some(HotStandby)
    else if code == "live" then Some(Live)
    else if code == "puppet_devel" then Some(PuppetDevel)
    else if code == "spare" then Some(Spare)
    else if code == "obsolete" then Some(Obsolete)
    else if code == "decommissioned" then Some(Decommissioned)
    else if code == "broken" then Some(Broken)
    else None
  }

  /** Every state's code reads back as that state, so the ten codes are distinct. */
  lemma ParseStatusCode(s: Status)
    ensures ParseStatus(StatusCode(s)) == Some(s)
  {
  }

  datatype RackOrFrame = RackType | FrameType

  datatype OperatingSystem =
    | CentOS6 | CentOS7 | OEL6 | OEL7 | RHEL6 | RHEL7 | VMware
    | Windows2003 | Windows2008 | Windows2012 | WindowsCore

  /** Fields shared by rack servers and general servers. */
  datatype ServerFields = ServerFields(os: OperatingSystem, model: nat, domain: nat, role: nat, environment: nat)

  datatype RackedKind =
    | PlainRacked
    | BladeChassis(chassisModel: nat)
    | RackServer(server: ServerFields)

  datatype GeneralKind =
    | PlainGeneral
    | BladeServer(chassis: nat, bladePosition: nat)
    | VirtualServer(runningOn: nat)

  /** The subtype of an asset row, with the subtype's own columns. */
  datatype Kind =
    | PlainAsset
    | Rack(manufacturer: string, rackOrFrame: RackOrFrame, units: int)
    | Racked(inRack: Option<nat>, position: Option<nat>, racked: RackedKind)
    | General(server: ServerFields, general: GeneralKind)

  datatype Asset = Asset(
    name: string,
    description: string,
    owner: TeamId,
    site: SiteId,
    status: Status,
    serialnumber: string,
    supportContract: string,
    isVirtual: bool,
    vmHost: bool,
    lastEditor: Option<UserId>,
    notes: string,
    kind: Kind)

  /** An unsaved asset as the model's field defaults leave it. */
  function NewAsset(name: string, owner: TeamId, site: SiteId, kind: Kind): (a: Asset)
    ensures a.status == NeedsSetup && StatusCode(a.status) == "needs-setup"
    ensures a.serialnumber == [] && a.supportContract == [] && a.description == [] && a.notes == []
    ensures !a.isVirtual && !a.vmHost && a.lastEditor == None
    ensures a.name == name && a.owner == owner && a.site == site && a.kind == kind
  {
    Asset(name, "", owner, site, DefaultStatus, "", "", false, false, None, "", kind)
  }

  predicate IsVirtualServerKind(k: Kind)
  {
    k.General? && k.general.VirtualServer?
  }

  /**
    What every stored asset row satisfies. The virtual flag is not part of
    it: a virtual server's base row edited through an `Asset` or
    `GeneralServer` instance runs only `Asset.save` and stores `is_virtual`
    as edited.
   */
  predicate Persistable(a: Asset)
  {
    NoUpper(a.name) && NoLower(a.serialnumber) && a.lastEditor.Some?
  }

  /** Two rows with the same value of the `(name, site)` key. */
  predicate SameKey(a: Asset, b: Asset)
  {
    a.name == b.name && a.site == b.site
  }

  ghost predicate KeysUnique(rows: map<nat, Asset>)
  {
    forall p, q :: p in rows && q in rows && p != q ==> !SameKey(rows[p], rows[q])
  }

  // ---- Asset.save ----

  /**
    The field rewrites of `Asset.save`: serial number upper-cased, name
    lower-cased, last editor set to the acting user. Nothing else changes.
   */
  function NormaliseAsset(a: Asset, actor: Option<UserId>): (r: Asset)
    ensures NoLower(r.serialnumber) && SameIgnoringCase(r.serialnumber, a.serialnumber)
    ensures NoUpper(r.name) && SameIgnoringCase(r.name, a.name)
    ensures r.lastEditor == actor
    ensures r == a.(name := r.name, serialnumber := r.serialnumber, lastEditor := actor)
  {
    UpperHasNoLower(a.serialnumber);
    UpperSameIgnoringCase(a.serialnumber);
    LowerHasNoUpper(a.name);
    LowerSameIgnoringCase(a.name);
    a.(serialnumber := Upper(a.serialnumber), name := Lower(a.name), lastEditor := actor)
  }

  /** The stored serial number is the upper-cased input; the stored name the lower-cased input. */
  lemma NormaliseAssetExact(a: Asset, actor: Option<UserId>)
    ensures NormaliseAsset(a, actor).serialnumber == Upper(a.serialnumber)
    ensures NormaliseAsset(a, actor).name == Lower(a.name)
  {
    var r := NormaliseAsset(a, actor);
    NoLowerIsUpper(r.serialnumber, a.serialnumber);
    NoUpperIsLower(r.name, a.name);
  }

  /** Normalising a normalised row by the same actor changes nothing. */
  lemma NormaliseAssetIdempotent(a: Asset, actor: Option<UserId>)
    ensures NormaliseAsset(NormaliseAsset(a, actor), actor) == NormaliseAsset(a, actor)
  {
    var r := NormaliseAsset(a, actor);
    UpperFixesNoLower(r.serialnumber);
    LowerFixesNoUpper(r.name);
  }

  /** Names that differ only in case are normalised to the same stored name. */
  lemma NormaliseAssetFoldsCase(a: Asset, b: Asset, actor: Option<UserId>, actor': Option<UserId>)
    requires SameIgnoringCase(a.name, b.name) && a.site == b.site
    ensures SameKey(NormaliseAsset(a, actor), NormaliseAsset(b, actor'))
  {
    NormaliseAssetExact(a, actor);
    NormaliseAssetExact(b, actor');
  }

  // ---- RackedAsset.save and VirtualServer.save ----

  /**
    The site of the rack `inRack` refers to. The source reads `self.rack.site`
    (see `RackSiteAsWritten`); the evidently intended rule, modelled here, is
    `site := in_rack.site`. Because `in_rack` is nullable, an unset rack is an
    error, as dereferencing `None` would be, rather than a precondition: the
    save has no site to derive and stops before any field is rewritten.
   */
  function RackSite(rows: map<nat, Asset>, inRack: Option<nat>): (r: Result<SiteId, SaveError>)
    ensures inRack.None? ==> r == Failure(RackMissing)
    ensures r.Success? <==> inRack.Some? && inRack.value in rows && rows[inRack.value].kind.Rack?
    ensures r.Success? ==> r.value == rows[inRack.value].site
  {
    match inRack
    case None => Failure(RackMissing)
    case Some(rack) =>
      if rack in rows && rows[rack].kind.Rack? then Success(rows[rack].site)
      else Failure(RackNotFound)
  }

  /**
    `self.rack` as the source writes it. `RackedAsset` has no field `rack`;
    because `Rack` inherits from `Asset`, Django gives every asset a reverse
    one-to-one accessor `rack` to the Rack child sharing its own base row.
    It yields a site only when the asset being saved is itself a rack.
   */
  function RackSiteAsWritten(rows: map<nat, Asset>, pk: Option<nat>): (r: Result<SiteId, SaveError>)
    ensures r.Success? <==> pk.Some? && pk.value in rows && rows[pk.value].kind.Rack?
  {
    if pk.Some? && pk.value in rows && rows[pk.value].kind.Rack? then Success(rows[pk.value].site)
    else Failure(RackNotFound)
  }

  /** As written, saving a racked asset fails whenever its own row is not a rack, which is always. */
  lemma RackedSaveAsWrittenFails(rows: map<nat, Asset>, pk: Option<nat>)
    requires pk.Some? && pk.value in rows ==> rows[pk.value].kind.Racked?
    ensures RackSiteAsWritten(rows, pk).Failure?
  {
  }

  /** A blade chassis placed in an existing rack: the as-written save fails, the intended one takes the rack's site. */
  lemma RackedSaveExample()
    ensures var rack := NewAsset("ra01", 1, 7, Rack("", RackType, 42));
            var chassis := NewAsset("CHASSIS1", 1, 3, Racked(Some(0), None, BladeChassis(0)));
            var rows := map[0 := rack];
            && RackSiteAsWritten(rows, None).Failure?
            && SubtypeStep(rows, chassis) == Success(chassis.(site := 7))
  {
  }

  datatype SaveError =
    | EditorMissing   // `last_editor` is NOT NULL and no acting user was supplied
    | RackMissing     // `in_rack` is unset, so the site cannot be derived
    | RackNotFound    // `in_rack` names no rack row
    | DuplicateKey    // a uniqueness constraint refused the row
    | RelatedNotFound // a referenced row that the save reads does not exist

  /**
    The subtype's own step, run before `Asset.save`: `RackedAsset.save`
    overwrites the site from the rack, `VirtualServer.save` forces the
    virtual flag; the other subtypes inherit `Asset.save` unchanged.
   */
  function SubtypeStep(rows: map<nat, Asset>, a: Asset): (r: Result<Asset, SaveError>)
    ensures a.kind.Racked? ==> r.Success? == RackSite(rows, a.kind.inRack).Success?
    ensures a.kind.Racked? && r.Success? ==> r.value == a.(site := RackSite(rows, a.kind.inRack).value)
    ensures IsVirtualServerKind(a.kind) ==> r == Success(a.(isVirtual := true))
    ensures !a.kind.Racked? && !IsVirtualServerKind(a.kind) ==> r == Success(a)
  {
    match a.kind
    case Racked(inRack, _, _) =>
      (match RackSite(rows, inRack)
       case Success(site) => Success(a.(site := site))
       case Failure(e) => Failure(e))
    case General(_, VirtualServer(_)) => Success(a.(isVirtual := true))
    case _ => Success(a)
  }

  /** The complete field pipeline of a save: the subtype's step, then `Asset.save`'s rewrites. */
  function SaveStep(rows: map<nat, Asset>, a: Asset, actor: Option<UserId>): (r: Result<Asset, SaveError>)
    ensures r.Success? <==> SubtypeStep(rows, a).Success?
  {
    match SubtypeStep(rows, a)
    case Success(d) => Success(NormaliseAsset(d, actor))
    case Failure(e) => Failure(e)
  }

  /**
    What a successful save stores, field by field: the name and serial number
    normalised, the editor stamped, a racked asset's site taken from its
    rack whatever site was supplied, a virtual server flagged virtual, and
    every other field as supplied.
   */
  lemma SaveStepFields(rows: map<nat, Asset>, a: Asset, actor: Option<UserId>)
    requires SaveStep(rows, a, actor).Success?
    ensures var r := SaveStep(rows, a, actor).value;
      && r.serialnumber == Upper(a.serialnumber)
      && r.name == Lower(a.name)
      && r.lastEditor == actor
      && (a.kind.Racked? ==> a.kind.inRack.Some? && r.site == rows[a.kind.inRack.value].site)
      && (!a.kind.Racked? ==> r.site == a.site)
      && (IsVirtualServerKind(a.kind) ==> r.isVirtual)
      && (!IsVirtualServerKind(a.kind) ==> r.isVirtual == a.isVirtual)
      && r.description == a.description && r.owner == a.owner && r.status == a.status
      && r.supportContract == a.supportContract && r.vmHost == a.vmHost
      && r.notes == a.notes && r.kind == a.kind
  {
    NormaliseAssetExact(SubtypeStep(rows, a).value, actor);
  }

  /** A blank serial number stays blank. */
  lemma BlankSerialStaysBlank(rows: map<nat, Asset>, a: Asset, actor: Option<UserId>)
    requires a.serialnumber == [] && SaveStep(rows, a, actor).Success?
    ensures SaveStep(rows, a, actor).value.serialnumber == []
  {
  }

  /** Saving an already saved row again by the same actor stores the same row. */
  lemma SaveStepIdempotent(rows: map<nat, Asset>, a: Asset, actor: Option<UserId>)
    requires SaveStep(rows, a, actor).Success?
    ensures SaveStep(rows, SaveStep(rows, a, actor).value, actor) == SaveStep(rows, a, actor)
  {
    var d := SubtypeStep(rows, a).value;
    var r := NormaliseAsset(d, actor);
    assert SubtypeStep(rows, r) == Success(r);
    NormaliseAssetIdempotent(d, actor);
  }

  /** A row that passed the pipeline with an actor can be persisted. */
  lemma SaveStepPersistable(rows: map<nat, Asset>, a: Asset, actor: UserId)
    requires SaveStep(rows, a, Some(actor)).Success?
    ensures Persistable(SaveStep(rows, a, Some(actor)).value)
  {
  }

  // ---- Model.save: the write into the base table ----

  /** The key a save writes under: the object's own key, or the next free one. */
  function Target(pk: Option<nat>, nextPk: nat): nat
  {
    if pk.Some? then pk.value else nextPk
  }

  /** Some row other than the one being written already holds `obj`'s `(name, site)`. */
  predicate KeyTaken(rows: map<nat, Asset>, target: nat, obj: Asset)
  {
    exists p :: p in rows && p != target && SameKey(rows[p], obj)
  }

  /**
    The database's verdict on writing `obj`: the NOT NULL editor column,
    then the `(name, site)` unique constraint. On success the row's key.
   */
  function WriteOutcome(rows: map<nat, Asset>, nextPk: nat, pk: Option<nat>, obj: Asset): (r: Result<nat, SaveError>)
    ensures r.Success? <==> obj.lastEditor.Some? && !KeyTaken(rows, Target(pk, nextPk), obj)
    ensures r.Success? ==> r.value == Target(pk, nextPk)
    ensures r.Failure? ==> r.error in {EditorMissing, DuplicateKey}
  {
    if obj.lastEditor.None? then Failure(EditorMissing)
    else if KeyTaken(rows, Target(pk, nextPk), obj) then Failure(DuplicateKey)
    else Success(Target(pk, nextPk))
  }

  /** A write the database accepts keeps the `(name, site)` key unique. */
  lemma WritePreservesKeys(rows: map<nat, Asset>, nextPk: nat, pk: Option<nat>, obj: Asset)
    requires KeysUnique(rows)
    requires WriteOutcome(rows, nextPk, pk, obj).Success?
    ensures KeysUnique(rows[Target(pk, nextPk) := obj])
  {
    var t := Target(pk, nextPk);
    var rows' := rows[t := obj];
    forall p, q | p in rows' && q in rows' && p != q
      ensures !SameKey(rows'[p], rows'[q])
    {
      if p == t {
        assert !SameKey(rows[q], obj);
      } else if q == t {
        assert !SameKey(rows[p], obj);
      }
    }
  }

  /**
    A new asset whose name differs from a stored one only in case, at the
    same site, is refused: the key is compared after lower-casing, so "ABC"
    and "abc" clash.
   */
  lemma CaseInsensitiveClash(rows: map<nat, Asset>, nextPk: nat, q: nat, a: Asset, actor: Option<UserId>)
    requires q in rows && q < nextPk && NoUpper(rows[q].name)
    requires SameIgnoringCase(a.name, rows[q].name) && a.site == rows[q].site
    requires !a.kind.Racked?
    ensures SaveStep(rows, a, actor).Success?
    ensures WriteOutcome(rows, nextPk, None, SaveStep(rows, a, actor).value).Failure?
  {
    var obj := SaveStep(rows, a, actor).value;
    NormaliseAssetExact(SubtypeStep(rows, a).value, actor);
    LowerFixesNoUpper(rows[q].name);
    assert obj.name == rows[q].name;
    assert KeyTaken(rows, Target(None, nextPk), obj);
  }

  /** The stored base table together with its primary-key sequence. */
  class AssetTable {
    var rows: map<nat, Asset>
    var nextPk: nat

    ghost predicate Valid()
      reads this
    {
      && (forall p :: p in rows ==> p < nextPk)
      && (forall p :: p in rows ==> Persistable(rows[p]))
      && KeysUnique(rows)
    }

    constructor ()
      ensures Valid() && rows == map[] && nextPk == 0
    {
      rows := map[];
      nextPk := 0;
    }

    /** The insert or update `Model.save` sends to the database. */
    method Write(pk: Option<nat>, obj: Asset) returns (r: Result<nat, SaveError>)
      requires Valid()
      requires NoUpper(obj.name) && NoLower(obj.serialnumber)
      modifies this
      ensures Valid()
      ensures r == WriteOutcome(old(rows), old(nextPk), pk, obj)
      ensures r.Success? ==> rows == old(rows)[r.value := obj]
      ensures r.Success? ==> nextPk == (if r.value >= old(nextPk) then r.value + 1 else old(nextPk))
      ensures r.Failure? ==> rows == old(rows) && nextPk == old(nextPk)
    {
      if obj.lastEditor.None? {
        return Failure(EditorMissing);
      }
      var target := if pk.Some? then pk.value else nextPk;
      if KeyTaken(rows, target, obj) {
        return Failure(DuplicateKey);
      }
      WritePreservesKeys(rows, nextPk, pk, obj);
      rows := rows[target := obj];
      if target >= nextPk {
        nextPk := target + 1;
      }
      r := Success(target);
    }

    /**
      `Asset.save`: rewrites the object's fields (`obj` is the object after
      the call, whether or not the write succeeds), then writes it. Applied
      to a row of a subtype it is a save through an `Asset` or
      `GeneralServer` instance, as the change screens of those two classes
      do: no subtype step runs, so a racked row keeps the site as edited and
      a virtual server keeps `is_virtual` as edited.
     */
    method SaveAsset(pk: Option<nat>, a: Asset, actor: Option<UserId>) returns (obj: Asset, r: Result<nat, SaveError>)
      requires Valid()
      modifies this
      ensures Valid()
      ensures obj == NormaliseAsset(a, actor)
      ensures r == WriteOutcome(old(rows), old(nextPk), pk, obj)
      ensures r.Success? ==> rows == old(rows)[r.value := obj]
      ensures r.Success? ==> nextPk == (if r.value >= old(nextPk) then r.value + 1 else old(nextPk))
      ensures r.Failure? ==> rows == old(rows) && nextPk == old(nextPk)
    {
      obj := a;
      obj := obj.(serialnumber := Upper(obj.serialnumber));
      obj := obj.(name := Lower(obj.name));
      obj := obj.(lastEditor := actor);
      LowerHasNoUpper(a.name);
      UpperHasNoLower(a.serialnumber);
      r := Write(pk, obj);
    }

    /** `RackedAsset.save`: the site is taken from the rack, then `Asset.save` runs. */
    method SaveRackedAsset(pk: Option<nat>, a: Asset, actor: Option<UserId>) returns (obj: Asset, r: Result<nat, SaveError>)
      requires Valid()
      requires a.kind.Racked?
      modifies this
      ensures Valid()
      ensures RackSite(old(rows), a.kind.inRack).Failure? ==>
        obj == a && r == Failure(RackSite(old(rows), a.kind.inRack).error) && rows == old(rows) && nextPk == old(nextPk)
      ensures RackSite(old(rows), a.kind.inRack).Success? ==> obj == SaveStep(old(rows), a, actor).value
      ensures RackSite(old(rows), a.kind.inRack).Success? ==> r == WriteOutcome(old(rows), old(nextPk), pk, obj)
      ensures r.Success? ==> rows == old(rows)[r.value := obj]
      ensures r.Success? ==> nextPk == (if r.value >= old(nextPk) then r.value + 1 else old(nextPk))
      ensures r.Success? ==> a.kind.inRack.Some? && rows[r.value].site == old(rows)[a.kind.inRack.value].site
      ensures r.Failure? ==> rows == old(rows) && nextPk == old(nextPk)
    {
      var site := RackSite(rows, a.kind.inRack);
      if site.Failure? {
        return a, Failure(site.error);
      }
      var b := a.(site := site.value);
      obj, r := SaveAsset(pk, b, actor);
    }

    /** `VirtualServer.save`: the virtual flag is forced, then `Asset.save` runs. */
    method SaveVirtualServer(pk: Option<nat>, a: Asset, actor: Option<UserId>) returns (obj: Asset, r: Result<nat, SaveError>)
      requires Valid()
      requires IsVirtualServerKind(a.kind)
      modifies this
      ensures Valid()
      ensures obj == SaveStep(old(rows), a, actor).value && obj.isVirtual
      ensures r == WriteOutcome(old(rows), old(nextPk), pk, obj)
      ensures r.Success? ==> rows == old(rows)[r.value := obj]
      ensures r.Success? ==> nextPk == (if r.value >= old(nextPk) then r.value + 1 else old(nextPk))
      ensures r.Failure? ==> rows == old(rows) && nextPk == old(nextPk)
    {
      var b := a.(isVirtual := true);
      obj, r := SaveAsset(pk, b, actor);
    }

    /**
      `save()` on an object whose class is the row's most derived type
      (`kind`): Python's method resolution picks that class's `save`, which
      chains to `Asset.save`. Saves through a base-class instance are
      `SaveAsset`.
     */
    method Save(pk: Option<nat>, a: Asset, actor: Option<UserId>) returns (obj: Asset, r: Result<nat, SaveError>)
      requires Valid()
      modifies this
      ensures Valid()
      ensures SaveStep(old(rows), a, actor).Failure? ==>
        obj == a && r == Failure(SaveStep(old(rows), a, actor).error)
      ensures SaveStep(old(rows), a, actor).Success? ==>
        obj == SaveStep(old(rows), a, actor).value && r == WriteOutcome(old(rows), old(nextPk), pk, obj)
      ensures r.Success? ==> rows == old(rows)[r.value := obj] && Persistable(obj)
      ensures r.Success? && IsVirtualServerKind(a.kind) ==> rows[r.value].isVirtual
      ensures r.Success? && a.kind.Racked? ==> a.kind.inRack.Some? && rows[r.value].site == old(rows)[a.kind.inRack.value].site
      ensures r.Success? ==> nextPk == (if r.value >= old(nextPk) then r.value + 1 else old(nextPk))
      ensures r.Failure? ==> rows == old(rows) && nextPk == old(nextPk)
    {
      if a.kind.Racked? {
        obj, r := SaveRackedAsset(pk, a, actor);
      } else if IsVirtualServerKind(a.kind) {
        obj, r := SaveVirtualServer(pk, a, actor);
      } else {
        obj, r := SaveAsset(pk, a, actor);
      }
    }
  }

  // ---- Hardware metadata ----

  const GenericUnitsDefault: nat := 1
  const BladeChassisUnitsDefault: nat := 10
  const BladeCapacityDefault: nat := 16

  datatype HardwareKind =
    | ServerModel
    | RackedServerModel(units: nat)
    | BladeChassisModel(units: nat, bladeCapacity: nat)

  datatype HardwareMeta = HardwareMeta(manufacturer: string, modelNameOrNumber: string, kind: HardwareKind)

  /** A racked server model; `units` falls back to the generic default of one unit. */
  function NewRackedServerModel(manufacturer: string, model: string, units: Option<nat>): (h: HardwareMeta)
    ensures h.kind.RackedServerModel?
    ensures h.kind.units == (if units.Some? then units.value else 1)
    ensures h.manufacturer == manufacturer && h.modelNameOrNumber == model
  {
    HardwareMeta(manufacturer, model, RackedServerModel(if units.Some? then units.value else GenericUnitsDefault))
  }

  /** A blade chassis model; its `units` default is overridden to ten, its capacity defaults to sixteen. */
  function NewBladeChassisModel(manufacturer: string, model: string, units: Option<nat>, bladeCapacity: Option<nat>): (h: HardwareMeta)
    ensures h.kind.BladeChassisModel?
    ensures h.kind.units == (if units.Some? then units.value else 10)
    ensures h.kind.bladeCapacity == (if bladeCapacity.Some? then bladeCapacity.value else 16)
    ensures h.manufacturer == manufacturer && h.modelNameOrNumber == model
  {
    HardwareMeta(manufacturer, model,
      BladeChassisModel(if units.Some? then units.value else BladeChassisUnitsDefault,
                        if bladeCapacity.Some? then bladeCapacity.value else BladeCapacityDefault))
  }

  /** The only subtype whose unit default differs from the generic one. */
  lemma UnitDefaultsDiffer(mf: string, model: string)
    ensures NewBladeChassisModel(mf, model, None, None).kind.units != NewRackedServerModel(mf, model, None).kind.units
  {
  }

  /**
    The field rewrites of `HardwareMeta.save`: the model upper-cased, the
    manufacturer passed through `titlecase`, an external library function the
    model knows nothing about.
   */
  function NormaliseHardware(h: HardwareMeta, titlecase: string -> string): (r: HardwareMeta)
    ensures NoLower(r.modelNameOrNumber) && SameIgnoringCase(r.modelNameOrNumber, h.modelNameOrNumber)
    ensures r.manufacturer == titlecase(h.manufacturer)
    ensures r.kind == h.kind
  {
    UpperHasNoLower(h.modelNameOrNumber);
    UpperSameIgnoringCase(h.modelNameOrNumber);
    h.(modelNameOrNumber := Upper(h.modelNameOrNumber), manufacturer := titlecase(h.manufacturer))
  }

  /** The stored model string is the upper-cased input, and saving it again leaves it as it is. */
  lemma NormaliseHardwareModel(h: HardwareMeta, titlecase: string -> string)
    ensures NormaliseHardware(h, titlecase).modelNameOrNumber == Upper(h.modelNameOrNumber)
    ensures NormaliseHardware(NormaliseHardware(h, titlecase), titlecase).modelNameOrNumber
         == NormaliseHardware(h, titlecase).modelNameOrNumber
  {
    var r := NormaliseHardware(h, titlecase);
    NoLowerIsUpper(r.modelNameOrNumber, h.modelNameOrNumber);
    UpperFixesNoLower(r.modelNameOrNumber);
  }

  /** One concrete hardware-model table (blade chassis models, server models or racked server models). */
  class HardwareTable {
    var rows: map<nat, HardwareMeta>
    var nextPk: nat
    const titlecase: string -> string

    ghost predicate Valid()
      reads this
    {
      && (forall p :: p in rows ==> p < nextPk)
      && (forall p :: p in rows ==> NoLower(rows[p].modelNameOrNumber))
    }

    constructor (titlecase: string -> string)
      ensures Valid() && rows == map[] && nextPk == 0 && this.titlecase == titlecase
    {
      rows := map[];
      nextPk := 0;
      this.titlecase := titlecase;
    }

    /** `HardwareMeta.save`: the two rewrites, then the write; the table has no uniqueness key. */
    method Save(pk: Option<nat>, h: HardwareMeta) returns (obj: HardwareMeta, key: nat)
      requires Valid()
      modifies this
      ensures Valid()
      ensures obj == NormaliseHardware(h, titlecase)
      ensures key == Target(pk, old(nextPk))
      ensures rows == old(rows)[key := obj]
      ensures nextPk == (if key >= old(nextPk) then key + 1 else old(nextPk))
    {
      obj := h.(modelNameOrNumber := Upper(h.modelNameOrNumber));
      obj := obj.(manufacturer := titlecase(obj.manufacturer));
      UpperHasNoLower(h.modelNameOrNumber);
      key := if pk.Some? then pk.value else nextPk;
      rows := rows[key := obj];
      if key >= nextPk {
        nextPk := key + 1;
      }
    }
  }
}
