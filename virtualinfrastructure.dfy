/**
  Virtualisation inventory (virtualinfrastructure/models.py). Pools and
  hosts share the `VirtualComponentAbstract` table; a host is tied one-to-one
  to a physical asset, and its name is always copied from that asset.
  Virtual servers are general servers kept in the asset table of
  `Infrastructure`; their save is `Infrastructure.AssetTable.SaveVirtualServer`.
 */
module VirtualInfrastructure {
  import opened Wrappers
  import opened Ordering
  import Infrastructure

  /** The two values of the `type` choice field. */
  datatype ComponentType = ServerType | PoolType

  function TypeCode(t: ComponentType): (code: string)
    ensures code == "server" || code == "pool"
  {
    match t
    case ServerType => "server"
    case PoolType => "pool"
  }

  function ParseType(code: string): (r: Option<ComponentType>)
    ensures r.Some? <==> code == "server" || code == "pool"
    ensures r.Some? ==> TypeCode(r.value) == code
  {
    if code == "server" then Some(ServerType)
    else if code == "pool" then Some(PoolType)
    else None
  }

  lemma ParseTypeCode(t: ComponentType)
    ensures ParseType(TypeCode(t)) == Some(t)
  {
  }

  datatype ComponentKind =
    | Pool(sites: set<Infrastructure.SiteId>, hosts: set<nat>)
    | Host(physicalServer: nat)

  datatype Component = Component(name: string, ctype: ComponentType, hypervisor: nat, kind: ComponentKind)

  /** The listing key `(type, name)`. */
  function ListingKey(c: Component): (string, string)
  {
    (TypeCode(c.ctype), c.name)
  }

  /**
    The components in listing order: every pool before every server (the
    code "pool" sorts first), each group by name, and nothing added or lost.
   */
  function Listing(cs: seq<Component>): (r: seq<Component>)
    ensures multiset(r) == multiset(cs)
    ensures forall i, j :: 0 <= i < j < |r| ==> KeyLe(ListingKey(r[i]), ListingKey(r[j]))
  {
    SortBy(cs, ListingKey)
  }

  /** In a listing no server precedes a pool, and equal types are ordered by name. */
  lemma ListingGroupsByType(cs: seq<Component>, i: nat, j: nat)
    requires i < j < |Listing(cs)|
    ensures var r := Listing(cs);
      && !(r[i].ctype == ServerType && r[j].ctype == PoolType)
      && (r[i].ctype == r[j].ctype ==> LexLe(r[i].name, r[j].name))
  {
    var r := Listing(cs);
    assert KeyLe(ListingKey(r[i]), ListingKey(r[j]));
  }

  /**
    In a listing a row is out of input order only among ties: a later row
    whose key sorts no later than an earlier row's has exactly that key.
   */
  lemma ListingTiesOnly(cs: seq<Component>, i: nat, j: nat)
    requires i < j < |Listing(cs)|
    requires KeyLe(ListingKey(Listing(cs)[j]), ListingKey(Listing(cs)[i]))
    ensures Listing(cs)[i].ctype == Listing(cs)[j].ctype && Listing(cs)[i].name == Listing(cs)[j].name
  {
    var r := Listing(cs);
    KeyLeAntisymmetric(ListingKey(r[i]), ListingKey(r[j]));
  }

  /** `VirtualServerHost.save`'s rewrite: the host's name becomes the physical asset's name. */
  function NameHost(c: Component, physicalName: string): (r: Component)
    ensures r.name == physicalName
    ensures r.ctype == c.ctype && r.hypervisor == c.hypervisor && r.kind == c.kind
  {
    c.(name := physicalName)
  }

  /** Saving a host twice gives the same name as saving it once. */
  lemma NameHostIdempotent(c: Component, physicalName: string)
    ensures NameHost(NameHost(c, physicalName), physicalName) == NameHost(c, physicalName)
  {
  }

  /** Another host row already links to physical asset `phys`. */
  predicate LinkTaken(rows: map<nat, Component>, target: nat, phys: nat)
  {
    exists p :: p in rows && p != target && rows[p].kind.Host? && rows[p].kind.physicalServer == phys
  }

  /** The one-to-one `physical_server` link: no physical asset backs two hosts. */
  ghost predicate LinksUnique(rows: map<nat, Component>)
  {
    forall p, q :: p in rows && q in rows && p != q && rows[p].kind.Host? && rows[q].kind.Host?
      ==> rows[p].kind.physicalServer != rows[q].kind.physicalServer
  }

  /** A host write the unique constraint accepts keeps the link one-to-one. */
  lemma WriteHostPreservesLinks(rows: map<nat, Component>, target: nat, obj: Component)
    requires LinksUnique(rows) && obj.kind.Host?
    requires !LinkTaken(rows, target, obj.kind.physicalServer)
    ensures LinksUnique(rows[target := obj])
  {
    var rows' := rows[target := obj];
    forall p, q | p in rows' && q in rows' && p != q && rows'[p].kind.Host? && rows'[q].kind.Host?
      ensures rows'[p].kind.physicalServer != rows'[q].kind.physicalServer
    {
      if p == target {
        assert rows'[q] == rows[q];
      } else if q == target {
        assert rows'[p] == rows[p];
      }
    }
  }

  /** A pool write never touches the link relation of the hosts. */
  lemma WritePoolPreservesLinks(rows: map<nat, Component>, target: nat, obj: Component)
    requires LinksUnique(rows) && obj.kind.Pool?
    ensures LinksUnique(rows[target := obj])
  {
    var rows' := rows[target := obj];
    forall p, q | p in rows' && q in rows' && p != q && rows'[p].kind.Host? && rows'[q].kind.Host?
      ensures rows'[p].kind.physicalServer != rows'[q].kind.physicalServer
    {
      assert p != target && q != target;
      assert rows'[p] == rows[p] && rows'[q] == rows[q];
    }
  }

  /** The `VirtualComponentAbstract` table shared by pools and hosts. */
  class ComponentTable {
    var rows: map<nat, Component>
    var nextPk: nat

    ghost predicate Valid()
      reads this
    {
      && (forall p :: p in rows ==> p < nextPk)
      && LinksUnique(rows)
    }

    constructor ()
      ensures Valid() && rows == map[] && nextPk == 0
    {
      rows := map[];
      nextPk := 0;
    }

    /**
      `VirtualServerHost.save`. Only assets flagged `vm_host` are offered as
      the physical server, so a caller never links any other asset. The name
      is copied from the physical asset and the row is written unless another
      host already links to the same asset.
     */
    method SaveHost(pk: Option<nat>, c: Component, assets: Infrastructure.AssetTable)
      returns (obj: Component, r: Result<nat, Infrastructure.SaveError>)
      requires Valid()
      requires c.kind.Host?
      requires c.kind.physicalServer in assets.rows ==> assets.rows[c.kind.physicalServer].vmHost
      modifies this
      ensures Valid()
      ensures c.kind.physicalServer !in assets.rows ==>
        obj == c && r == Failure(Infrastructure.RelatedNotFound)
      ensures c.kind.physicalServer in assets.rows ==>
        obj == NameHost(c, assets.rows[c.kind.physicalServer].name)
      ensures c.kind.physicalServer in assets.rows ==>
        (r.Success? <==> !LinkTaken(old(rows), Infrastructure.Target(pk, old(nextPk)), c.kind.physicalServer))
      ensures r.Failure? && c.kind.physicalServer in assets.rows ==> r == Failure(Infrastructure.DuplicateKey)
      ensures r.Success? ==> r.value == Infrastructure.Target(pk, old(nextPk)) && rows == old(rows)[r.value := obj]
      ensures r.Success? ==> nextPk == (if r.value >= old(nextPk) then r.value + 1 else old(nextPk))
      ensures r.Success? ==> rows[r.value].name == assets.rows[c.kind.physicalServer].name
      ensures r.Failure? ==> rows == old(rows) && nextPk == old(nextPk)
    {
      var phys := c.kind.physicalServer;
      if phys !in assets.rows {
        return c, Failure(Infrastructure.RelatedNotFound);
      }
      obj := c.(name := assets.rows[phys].name);
      var target := if pk.Some? then pk.value else nextPk;
      if LinkTaken(rows, target, phys) {
        return obj, Failure(Infrastructure.DuplicateKey);
      }
      WriteHostPreservesLinks(rows, target, obj);
      rows := rows[target := obj];
      if target >= nextPk {
        nextPk := target + 1;
      }
      r := Success(target);
    }

    /** A pool has no `save` of its own: the row is written as supplied. */
    method SavePool(pk: Option<nat>, c: Component) returns (key: nat)
      requires Valid()
      requires c.kind.Pool?
      modifies this
      ensures Valid()
      ensures key == Infrastructure.Target(pk, old(nextPk))
      ensures rows == old(rows)[key := c]
      ensures nextPk == (if key >= old(nextPk) then key + 1 else old(nextPk))
    {
      key := if pk.Some? then pk.value else nextPk;
      WritePoolPreservesLinks(rows, key, c);
      rows := rows[key := c];
      if key >= nextPk {
        nextPk := key + 1;
      }
    }
  }
}
