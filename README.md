# Asset inventory write-time rules, modelled in Dafny

This project models the part of the strata-hq asset inventory (a Django
CMDB) that has behaviour: what happens to a row when it is saved.

- **Assets** (`Infrastructure`). All asset subtypes live in one base table
  keyed by primary key. `(name, site)` is unique across that table. Every
  save upper-cases the serial number (ASCII), lower-cases the name (ASCII)
  and stamps the acting user as last editor.
  - `RackedAsset.save` first takes the site from the rack.
  - `VirtualServer.save` first forces `is_virtual`.
  - `AssetTable.Save` dispatches on the object's class, taken to be the
    row's most derived type (`kind`). A save through an `Asset` or
    `GeneralServer` instance, as those classes' change screens make, runs
    only `Asset.save`; that is `AssetTable.SaveAsset` applied to the row.
  - `SaveRackedAsset`, `SaveVirtualServer` and `Save` are proved equal to
    the pure pipeline `SaveStep` followed by the database verdict
    `WriteOutcome`; `SaveAsset` to `NormaliseAsset` followed by
    `WriteOutcome`. Every save keeps the
    table invariant `Valid`: names lower-case, serials upper-case, an
    editor on every row, and unique keys. A virtual server saved through
    its own class is stored flagged virtual; a base-class save stores the
    flag as edited.
- **Hardware models** (`Infrastructure`). `HardwareMeta.save` upper-cases
  the model string and passes the manufacturer through the external
  `titlecase` library, which is an uninterpreted `string -> string`. The
  unit defaults are 1 for the generic case and 10 for blade chassis; blade
  capacity defaults to 16.
- **Virtual components** (`VirtualInfrastructure`). A host's name is copied
  from its physical asset. At most one host links to each physical asset.
  Listings sort by `(type, name)`.
- **Sites and teams** (`Management`, pure). Field validity as
  `Model.full_clean` checks it (the site name, the site description's
  length, the team name, a required team email of at most 254 characters), name uniqueness, and
  the table invariant that adding a row preserves.

Helper modules: `Text` (ASCII case mapping), `Ordering` (code-point
lexicographic order and an insertion sort) and `Wrappers` (Option/Result).

Inputs that the source takes from its surroundings are explicit parameters:
- the acting user (`actor: Option<UserId>`);
- the `titlecase` function;
- the asset table that a virtual host reads its physical server from.

Notes on the code:
- `RackedAsset` declares no `abstract = True`, so plain racked assets
  exist (`PlainRacked`).
- `RackedAsset.save` derives the site before `Asset.save` runs. The fields
  the two steps touch are disjoint.
- A `vm_host = False` physical server is excluded by `limit_choices_to`.
  Form and model validation enforce it; no database constraint does. The
  model states it as a precondition of `SaveHost`.

## Model

| member | source | states |
|---|---|---|
| Text.Upper | infrastructure/models.py:62 | upper-casing keeps the length and maps each character on its own (ASCII only) |
| Text.Lower | infrastructure/models.py:65 | lower-casing keeps the length and maps each character on its own (ASCII only) |
| Text.UpperSameIgnoringCase | infrastructure/models.py:62 | upper-casing changes nothing but the case of letters |
| Text.NoLowerIsUpper | infrastructure/models.py:62 | a string with no lower-case letter that matches `s` up to case is exactly `Upper(s)` |
| Ordering.LexLeTotal | virtualinfrastructure/models.py:25 | any two strings are comparable in the listing order |
| Ordering.LexLeTransitive | virtualinfrastructure/models.py:25 | the string order is transitive |
| Ordering.LexLeAntisymmetric | virtualinfrastructure/models.py:25 | two strings that sort no later than each other are equal |
| Ordering.KeyLeTransitive | virtualinfrastructure/models.py:25 | the two-column order is transitive |
| Ordering.SortBy | virtualinfrastructure/models.py:25 | the listing is in key order and is a permutation of the rows |
| Management.CharFieldErrors | management/models.py:7-9 | a char field has no errors iff it is non-blank or blank is allowed, no longer than its limit, and (for a non-blank slug field) a slug; `Blank` only for a blank required value |
| Management.SiteErrors | management/models.py:7-9 | a site has no errors iff its name is a slug of at most 32 characters not yet used and its description has at most 32 characters; `Duplicate` only when the name passed its own checks |
| Management.AddSite | management/models.py:7-9 | creating a site succeeds iff the row is valid and the name free, and then appends exactly that row |
| Management.AddSitePreservesValid | management/models.py:7-9 | a successful site insert keeps every site row valid and every name unique |
| Management.AddSiteRefusesTakenName | management/models.py:7 | a name already in the site table is refused as a duplicate, the only error when the description is valid |
| Management.TeamErrors | management/models.py:19-21 | a team has no errors iff its name is non-empty, at most 32 characters and not yet used, and its email is neither blank nor longer than 254 characters (each reported as its own error) |
| Management.AddTeam | management/models.py:19-21 | creating a team succeeds iff the row is valid and the name free, and then appends exactly that row |
| Management.AddTeamPreservesValid | management/models.py:19-21 | a successful team insert keeps every team row valid and every name unique |
| Management.AddTeamRefusesTakenName | management/models.py:19 | a name already in the team table is refused as a duplicate, the only error when the email is given and at most 254 characters |
| Infrastructure.StatusCode | infrastructure/models.py:10-19 | each of the ten states has a code that fits the 16-character status column |
| Infrastructure.ParseStatus | infrastructure/models.py:10-19 | a stored code is accepted only as the state whose code it is |
| Infrastructure.ParseStatusCode | infrastructure/models.py:10-19 | every state's code reads back as that state |
| Infrastructure.NewAsset | infrastructure/models.py:42-47 | a new asset starts as 'needs-setup', not virtual, not a VM host, with blank serial and no editor |
| Infrastructure.NormaliseAsset | infrastructure/models.py:60-69 | the stored serial has no lower-case letter, the name no upper-case letter, both equal the input up to case, the editor is the actor, all else unchanged |
| Infrastructure.NormaliseAssetExact | infrastructure/models.py:62-65 | the stored serial is the upper-cased input and the stored name the lower-cased input |
| Infrastructure.NormaliseAssetIdempotent | infrastructure/models.py:62-69 | normalising a normalised row by the same actor changes nothing |
| Infrastructure.NormaliseAssetFoldsCase | infrastructure/models.py:54-65 | names equal up to case at one site end with the same `(name, site)` key |
| Infrastructure.RackSite | infrastructure/models.py:92-98 | the derived site is the referenced rack's site; an unset rack is `RackMissing`, a key naming no rack is an error |
| Infrastructure.RackSiteAsWritten | infrastructure/models.py:98 | `self.rack` as written yields a site only if the asset's own row is a rack |
| Infrastructure.RackedSaveAsWrittenFails | infrastructure/models.py:98 | as written, the site lookup fails for every racked asset |
| Infrastructure.RackedSaveExample | infrastructure/models.py:97-99 | for a chassis in an existing rack, the as-written lookup fails while the intended step takes the rack's site |
| Infrastructure.SubtypeStep | infrastructure/models.py:97-98 | a racked asset's site is replaced by the rack's site; a virtual server is flagged virtual; other subtypes are untouched |
| Infrastructure.SaveStep | infrastructure/models.py:60-71 | the whole field pipeline fails only when the subtype step does |
| Infrastructure.SaveStepFields | infrastructure/models.py:60-99 | after a save: serial upper-cased, name lower-cased, editor the actor, racked site from the rack whatever was supplied, virtual flag forced, every other field as supplied |
| Infrastructure.BlankSerialStaysBlank | infrastructure/models.py:62 | a blank serial number is stored blank |
| Infrastructure.SaveStepIdempotent | infrastructure/models.py:62-65 | saving an already saved row again stores the same row |
| Infrastructure.SaveStepPersistable | infrastructure/models.py:60-69 | a row that passed the pipeline with an actor meets the stored-row invariant |
| Infrastructure.WriteOutcome | infrastructure/models.py:49-54 | a write succeeds iff there is an editor and no other row holds the `(name, site)` key, under the object's key or the next free one |
| Infrastructure.WritePreservesKeys | infrastructure/models.py:54 | an accepted write keeps `(name, site)` unique |
| Infrastructure.CaseInsensitiveClash | infrastructure/models.py:54-65 | a new asset whose name differs only in case from a stored one at the same site is refused |
| Infrastructure.AssetTable.Write | infrastructure/models.py:71 | the insert or update stores exactly the accepted row, advances the key sequence past it, and leaves the table unchanged on refusal |
| Infrastructure.AssetTable.SaveAsset | infrastructure/models.py:60-71 | any row, including a subtype row saved through a base-class instance, is normalised and written with `WriteOutcome`'s verdict; the table invariant holds |
| Infrastructure.AssetTable.SaveRackedAsset | infrastructure/models.py:97-99 | without a rack the object and table are untouched; otherwise the stored site equals the rack's site |
| Infrastructure.AssetTable.SaveVirtualServer | virtualinfrastructure/models.py:53-57 | the stored row is flagged virtual and normalised as by `Asset.save` |
| Infrastructure.AssetTable.Save | infrastructure/models.py:60-99 | a save through the row's own class stores `SaveStep`'s row under `WriteOutcome`'s verdict: persistable, a racked site from the rack, a virtual server flagged |
| Infrastructure.NewRackedServerModel | infrastructure/models.py:119-121 | a racked hardware model defaults to one unit |
| Infrastructure.NewBladeChassisModel | infrastructure/models.py:128-131 | a blade chassis model defaults to ten units and a capacity of sixteen |
| Infrastructure.UnitDefaultsDiffer | infrastructure/models.py:120-131 | the blade chassis unit default differs from the generic one |
| Infrastructure.NormaliseHardware | infrastructure/models.py:110-113 | the model string has no lower-case letter and equals the input up to case; the manufacturer is `titlecase` of the input; the kind is unchanged |
| Infrastructure.NormaliseHardwareModel | infrastructure/models.py:111 | the model string is the upper-cased input, stable under a second save |
| Infrastructure.HardwareTable.Save | infrastructure/models.py:110-113 | the stored row is the normalised object under its key |
| VirtualInfrastructure.TypeCode | virtualinfrastructure/models.py:18 | a component's type code is 'server' or 'pool' |
| VirtualInfrastructure.ParseType | virtualinfrastructure/models.py:18 | exactly the codes 'server' and 'pool' are accepted, as their own types |
| VirtualInfrastructure.ParseTypeCode | virtualinfrastructure/models.py:18 | every type's code reads back as that type |
| VirtualInfrastructure.Listing | virtualinfrastructure/models.py:24-25 | the listing is a permutation of the components ordered by `(type, name)` |
| VirtualInfrastructure.ListingTiesOnly | virtualinfrastructure/models.py:25 | a later row sorting no later than an earlier one has the same `(type, name)` |
| VirtualInfrastructure.ListingGroupsByType | virtualinfrastructure/models.py:25 | no server is listed before a pool, and equal types are listed by name |
| VirtualInfrastructure.NameHost | virtualinfrastructure/models.py:43 | the host's name is the physical asset's name whatever was supplied; other fields unchanged |
| VirtualInfrastructure.NameHostIdempotent | virtualinfrastructure/models.py:43 | saving twice gives the same name as saving once |
| VirtualInfrastructure.WriteHostPreservesLinks | virtualinfrastructure/models.py:36 | a host write accepted by the one-to-one constraint keeps links unique |
| VirtualInfrastructure.WritePoolPreservesLinks | virtualinfrastructure/models.py:28-30 | writing a pool never breaks the host links |
| VirtualInfrastructure.ComponentTable.SaveHost | virtualinfrastructure/models.py:35-45 | the host takes the physical asset's name; a second host for one asset is refused; a missing asset is refused |
| VirtualInfrastructure.ComponentTable.SavePool | virtualinfrastructure/models.py:28-30 | a pool is stored as supplied and the link invariant holds |

## Findings

| source | as written | input that shows it | evidently intended | confidence | as-written member | corrected member |
|---|---|---|---|---|---|---|
| infrastructure/models.py:98 | `self.site = self.rack.site` | a BladeChassis with `in_rack` set to an existing rack | `self.site = self.in_rack.site` | high; not executed | Infrastructure.RackSiteAsWritten, Infrastructure.RackedSaveExample | Infrastructure.RackSite, Infrastructure.AssetTable.SaveRackedAsset |

`RackedAsset` has no field `rack`; the field is `in_rack`. Because `Rack`
inherits from `Asset`, Django gives every asset a reverse one-to-one
accessor `rack`. It reaches the `Rack` child of the asset's own base row.
A racked asset is never a rack, so that lookup raises and every racked save
fails (`RackedSaveAsWrittenFails`). The rest of the model uses the intended
rule. An unset `in_rack` is an error (`RackMissing`), because `in_rack` is
nullable and reading `.site` of `None` raises.

## Left out

- The acting user comes from `CuserMiddleware.get_user()`, request-scoped state. It is a parameter here. With no actor the write is refused (`EditorMissing`), because `last_editor` is a NOT NULL foreign key.
- `last_edit` (`auto_now`) is not modelled: it depends on the wall clock.
- `support_contract_end` is not modelled: it is a plain optional timestamp that no save rule reads or writes.
- Case mapping is ASCII only. Python's full Unicode `upper`/`lower` can change string lengths, and the model does not follow that.
- Infrastructure.NormaliseHardware: says nothing about the manufacturer except that it is the `titlecase` library's output. That library is not part of this model.
- Column width limits (`max_length` of asset, component and hardware fields) and the integer ranges of the small-integer fields are not modelled. Whether they are enforced depends on the database backend.
- Foreign-key integrity and cascades are checked only where a save reads the referenced row (the rack, the physical server). Many-to-many join tables are plain sets.
- When several constraints fail at once, the model reports NOT NULL before uniqueness. Real databases differ.
- Infrastructure.AssetTable.SaveAsset: a base-class instance carries no subtype fields, and the database keeps the child row. The model writes the whole row it is given, so a base-class save is modelled by passing the stored `kind` unchanged.
- The primary-key sequence always moves past the highest key written, including keys supplied explicitly.
- Listing order is modelled only for virtual components. Asset ordering by name and rack ordering by `(site name, name)` are the same kind of ORDER BY and add nothing.
- String order is by code point. Database collations may order differently.
- Management.TeamErrors, Management.AddTeam: check that the email is not blank and at most 254 characters (`EmailField`'s default `max_length`); the `EmailField` format check (`validate_email`) is not modelled.
- The `admin.py` files, `__str__` formatting, the `strata` WebLogic schema and its start/stop actions are not modelled. They are user interface, display or no-ops.
- The reference tables `ServerRole`, `Environment`, `Domain` and `Hypervisor` are not modelled. They are field declarations with no write-time rule.
