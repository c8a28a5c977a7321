/** Discovery into the registry: one sync pass, and why repeating it comes to rest. */
module RegistryImporter {
  import opened Prelude

  const NAME_MAX := 32
  const LAST_INDEX := 99
  const IDENT_MAX := 128

  /** Registry limits of the Data contract. */
  datatype Limits = Limits(areas: nat, devices: nat)

  datatype Area = Area(id: Id, name: string, order: nat)

  datatype Device = Device(
    id: Id,
    name: string,
    kind: string,
    area: Option<Id>,
    provider: Id,
    ref: Id,
    traits: string,
    limits: string,
    source: string,
    syncedAt: Moment,
    orphaned: bool,
    overrides: set<string>,
    aliases: seq<string>)

  datatype Registry = Registry(areas: seq<Area>, devices: seq<Device>, revision: nat)

  datatype Found = Found(ref: Id, name: string, kind: string, traits: string, limits: string, areaName: Option<string>)

  datatype Skip = DuplicateRef | LimitExceeded | AreaLimitExceeded

  datatype Report = Report(added: seq<Id>, updated: seq<Id>, orphaned: seq<Id>, skipped: seq<(string, Skip)>)

  datatype Pass = Pass(registry: Registry, report: Report)

  /** Why a pass stops; what it wrote before stays written. */
  datatype SyncProblem = NoUniqueName | DuplicateDeviceId

  // Names

  predicate Blank(c: char) {
    c == ' ' || c == '\t' || c == '\n' || c == '\r'
  }

  /** Every run of blanks becomes one space; none is left at either end. */
  function Collapsed(s: string, pending: bool): string
    decreases |s|
  {
    if s == "" then ""
    else if Blank(s[0]) then Collapsed(s[1..], pending)
    else (if pending then " " else "") + [s[0]]
           + (if |s| > 1 && Blank(s[1]) then Collapsed(s[1..], true) else Collapsed(s[1..], false))
  }

  function Clip(name: string): string {
    var cleaned := Collapsed(name, false);
    var named := if cleaned == "" then "\U{8BBE}\U{5907}" else cleaned;
    if |named| > NAME_MAX then named[..NAME_MAX] else named
  }

  function Decimal(n: nat): (s: string)
    ensures |s| >= 1
  {
    if n < 10 then [('0' as int + n) as char] else Decimal(n / 10) + [('0' as int + n % 10) as char]
  }

  /** The name itself, then the name cut to make room for a number. */
  function Candidate(name: string, index: nat): string {
    if index <= 1 then name
    else
      var suffix := Decimal(index);
      (if |suffix| <= NAME_MAX && |name| > NAME_MAX - |suffix| then name[..NAME_MAX - |suffix|] else name) + suffix
  }

  predicate Taken(devices: seq<Device>, area: Option<Id>, except: Option<Id>, name: string) {
    exists i :: 0 <= i < |devices| && devices[i].area == area && Some(devices[i].id) != except
                && devices[i].name == name
  }

  /** The least index from k on whose candidate is free. */
  function LeastFree(devices: seq<Device>, area: Option<Id>, except: Option<Id>, name: string, k: nat): (r: Option<nat>)
    ensures r.Some? ==> k <= r.value <= LAST_INDEX && !Taken(devices, area, except, Candidate(name, r.value))
    ensures r.Some? ==> forall j :: k <= j < r.value ==> Taken(devices, area, except, Candidate(name, j))
    ensures r.None? ==> forall j :: k <= j <= LAST_INDEX ==> Taken(devices, area, except, Candidate(name, j))
    decreases LAST_INDEX + 1 - k
  {
    if k > LAST_INDEX then None
    else if !Taken(devices, area, except, Candidate(name, k)) then Some(k)
    else LeastFree(devices, area, except, name, k + 1)
  }

  function UniqueName(devices: seq<Device>, area: Option<Id>, except: Option<Id>, name: string): Option<string> {
    var k := LeastFree(devices, area, except, name, 1);
    if k.None? then None else Some(Candidate(name, k.value))
  }

  // Identifiers

  predicate IdentChar(c: char) {
    'A' <= c <= 'Z' || 'a' <= c <= 'z' || '0' <= c <= '9' || c == '.' || c == '_' || c == ':' || c == '-'
  }

  /** Every run of other characters becomes one dash. */
  function Ident(s: string): string {
    if s == "" then ""
    else if IdentChar(s[0]) then [s[0]] + Ident(s[1..])
    else if |s| > 1 && !IdentChar(s[1]) then Ident(s[1..])
    else "-" + Ident(s[1..])
  }

  function StripDashes(s: string): string
    decreases |s|
  {
    if s == "" then s
    else if s[0] == '-' then StripDashes(s[1..])
    else if s[|s| - 1] == '-' then StripDashes(s[..|s| - 1])
    else s
  }

  function Cut(s: string): string {
    if |s| > IDENT_MAX then s[..IDENT_MAX] else s
  }

  function DeviceIdFor(provider: Id, ref: Id): Id {
    Cut(Ident(provider + "." + ref))
  }

  function AreaBase(name: string): string {
    var stripped := StripDashes(Ident(name));
    var base := if stripped == "" then "area" else stripped;
    if 'A' <= base[0] <= 'Z' || 'a' <= base[0] <= 'z' || '0' <= base[0] <= '9' then base else "area-" + base
  }

  function AreaCandidate(base: string, index: nat): string {
    if index <= 1 then base else base + "-" + Decimal(index)
  }

  predicate AreaIdTaken(areas: seq<Area>, id: Id) {
    exists i :: 0 <= i < |areas| && areas[i].id == id
  }

  /** The first free area id, counting up to one more than there are areas. */
  function AreaIndex(areas: seq<Area>, base: string, k: nat): nat
    decreases |areas| + 1 - k
  {
    if k > |areas| || !AreaIdTaken(areas, AreaCandidate(base, k)) then k else AreaIndex(areas, base, k + 1)
  }

  function AreaIdFor(areas: seq<Area>, name: string): Id {
    Cut(AreaCandidate(AreaBase(name), AreaIndex(areas, AreaBase(name), 1)))
  }

  // Lookups

  function FirstArea(areas: seq<Area>, name: string): (r: Option<nat>)
    ensures r.Some? ==> r.value < |areas| && areas[r.value].name == name
                        && forall j :: 0 <= j < r.value ==> areas[j].name != name
    ensures r.None? ==> forall j :: 0 <= j < |areas| ==> areas[j].name != name
    decreases |areas|
  {
    if areas == [] then None
    else
      var r := FirstArea(areas[..|areas| - 1], name);
      if r.Some? then r else if areas[|areas| - 1].name == name then Some(|areas| - 1) else None
  }

  predicate IsOf(device: Device, provider: Id, ref: Id) {
    device.provider == provider && device.ref == ref
  }

  function FirstDevice(devices: seq<Device>, provider: Id, ref: Id): (r: Option<nat>)
    ensures r.Some? ==> r.value < |devices| && IsOf(devices[r.value], provider, ref)
    ensures r.Some? ==> forall j :: 0 <= j < r.value ==> !IsOf(devices[j], provider, ref)
    ensures r.None? ==> forall j :: 0 <= j < |devices| ==> !IsOf(devices[j], provider, ref)
    decreases |devices|
  {
    if devices == [] then None
    else
      var r := FirstDevice(devices[..|devices| - 1], provider, ref);
      if r.Some? then r else if IsOf(devices[|devices| - 1], provider, ref) then Some(|devices| - 1) else None
  }

  predicate HasId(devices: seq<Device>, id: Id) {
    exists i :: 0 <= i < |devices| && devices[i].id == id
  }

  // One discovered device

  /** The registry with the area of a discovered device in it, if there is room, and that area's id. */
  function EnsureArea(l: Limits, registry: Registry, areaName: Option<string>)
    : (Registry, Option<Id>, Option<(string, Skip)>)
  {
    if areaName.None? || areaName.value == "" then (registry, None, None)
    else
      var name := Clip(areaName.value);
      var existing := FirstArea(registry.areas, name);
      if existing.Some? then (registry, Some(registry.areas[existing.value].id), None)
      else if |registry.areas| >= l.areas then (registry, None, Some((name, AreaLimitExceeded)))
      else
        var area := Area(AreaIdFor(registry.areas, name), name, |registry.areas|);
        (registry.(areas := registry.areas + [area], revision := registry.revision + 1), Some(area.id), None)
  }

  function NewDevice(provider: Id, found: Found, name: string, area: Option<Id>, now: Moment): Device {
    Device(DeviceIdFor(provider, found.ref), name, found.kind, area, provider, found.ref, found.traits, found.limits,
           "imported", now, false, {}, [])
  }

  /** What the Provider decides of a device it lists, and what its Owner has not taken in hand. */
  function Proposed(current: Device, found: Found, name: string, area: Option<Id>, now: Moment): Device {
    current.(kind := found.kind, traits := found.traits, limits := found.limits, syncedAt := now, orphaned := false,
             source := "imported",
             name := if "name" in current.overrides then current.name else name,
             area := if "area_id" in current.overrides then current.area else area)
  }

  /** Everything but the moment of the sync. */
  predicate SameFacts(a: Device, b: Device) {
    a.(syncedAt := b.syncedAt) == b
  }

  function Import(l: Limits, provider: Id, pass: Pass, found: Found, now: Moment): Result<Pass, (Registry, SyncProblem)>
  {
    var (registry, area, full) := EnsureArea(l, pass.registry, found.areaName);
    var report := if full.Some? then pass.report.(skipped := pass.report.skipped + [full.value]) else pass.report;
    var current := FirstDevice(registry.devices, provider, found.ref);
    if current.None? then
      if |registry.devices| >= l.devices then
        Ok(Pass(registry, report.(skipped := report.skipped + [(found.ref, LimitExceeded)])))
      else
        var name := UniqueName(registry.devices, area, None, Clip(found.name));
        if name.None? then Err((registry, NoUniqueName))
        else
          var device := NewDevice(provider, found, name.value, area, now);
          if HasId(registry.devices, device.id) then Err((registry, DuplicateDeviceId))
          else Ok(Pass(registry.(devices := registry.devices + [device], revision := registry.revision + 1),
                       report.(added := report.added + [device.id])))
    else
      var device := registry.devices[current.value];
      var kept := "name" in device.overrides;
      var name := if kept then Some(device.name)
                  else UniqueName(registry.devices, area, Some(device.id), Clip(found.name));
      if name.None? then Err((registry, NoUniqueName))
      else
        var proposed := Proposed(device, found, name.value, area, now);
        if SameFacts(proposed, device) then Ok(Pass(registry, report))
        else Ok(Pass(registry.(devices := registry.devices[current.value := proposed],
                               revision := registry.revision + 1),
                     report.(updated := report.updated + [device.id])))
  }

  /** The first of its ref in the list; any other is skipped. */
  predicate Effective(discovered: seq<Found>, i: nat)
    requires i < |discovered|
  {
    forall j :: 0 <= j < i ==> discovered[j].ref != discovered[i].ref
  }

  function ImportAll(l: Limits, provider: Id, registry: Registry, discovered: seq<Found>, now: Moment, n: nat)
    : Result<Pass, (Registry, SyncProblem)>
    requires n <= |discovered|
  {
    if n == 0 then Ok(Pass(registry, Report([], [], [], [])))
    else
      match ImportAll(l, provider, registry, discovered, now, n - 1)
      case Err(failed) => Err(failed)
      case Ok(pass) =>
        var found := discovered[n - 1];
        if !Effective(discovered, n - 1) then
          Ok(pass.(report := pass.report.(skipped := pass.report.skipped + [(found.ref, DuplicateRef)])))
        else Import(l, provider, pass, found, now)
  }

  predicate Listed(discovered: seq<Found>, ref: Id) {
    exists i :: 0 <= i < |discovered| && discovered[i].ref == ref
  }

  /** A device the Provider no longer lists is orphaned, not deleted. */
  predicate Orphans(device: Device, provider: Id, discovered: seq<Found>) {
    device.provider == provider && !Listed(discovered, device.ref) && !device.orphaned
  }

  function OrphanAll(provider: Id, pass: Pass, discovered: seq<Found>, now: Moment, n: nat): (p: Pass)
    requires n <= |pass.registry.devices|
    ensures |p.registry.devices| == |pass.registry.devices|
  {
    if n == 0 then pass
    else
      var before := OrphanAll(provider, pass, discovered, now, n - 1);
      var device := pass.registry.devices[n - 1];
      if !Orphans(device, provider, discovered) then before
      else
        var orphan := device.(orphaned := true, syncedAt := now);
        Pass(before.registry.(devices := before.registry.devices[n - 1 := orphan],
                              revision := before.registry.revision + 1),
             before.report.(orphaned := before.report.orphaned + [device.id]))
  }

  /** One pass. */
  function Sync(l: Limits, provider: Id, registry: Registry, discovered: seq<Found>, now: Moment)
    : Result<Pass, (Registry, SyncProblem)>
  {
    match ImportAll(l, provider, registry, discovered, now, |discovered|)
    case Err(failed) => Err(failed)
    case Ok(pass) => Ok(OrphanAll(provider, pass, discovered, now, |pass.registry.devices|))
  }

  // Area ids are free

  function ValueOf(s: string): int
    decreases |s|
  {
    if s == "" then 0 else 10 * ValueOf(s[..|s| - 1]) + (s[|s| - 1] as int - '0' as int)
  }

  lemma {:induction false} DecimalReadsBack(n: nat)
    ensures ValueOf(Decimal(n)) == n
  {
    if n >= 10 {
      DecimalReadsBack(n / 10);
      assert Decimal(n)[..|Decimal(n)| - 1] == Decimal(n / 10);
    }
  }

  lemma AreaCandidatesDiffer(base: string, j: nat, k: nat)
    requires 1 <= j < k
    ensures AreaCandidate(base, j) != AreaCandidate(base, k)
  {
    DecimalReadsBack(j);
    DecimalReadsBack(k);
    var at := |base| + 1;
    assert AreaCandidate(base, k)[at..] == Decimal(k);
    if j > 1 { assert AreaCandidate(base, j)[at..] == Decimal(j); }
  }

  lemma {:induction false} CandidateCount(base: string, n: nat)
    ensures |set k | 1 <= k <= n :: AreaCandidate(base, k)| == n
  {
    if n > 0 {
      CandidateCount(base, n - 1);
      var before := set k | 1 <= k <= n - 1 :: AreaCandidate(base, k);
      forall k | 1 <= k <= n - 1 ensures AreaCandidate(base, k) != AreaCandidate(base, n) {
        AreaCandidatesDiffer(base, k, n);
      }
      assert (set k | 1 <= k <= n :: AreaCandidate(base, k)) == before + {AreaCandidate(base, n)};
    }
  }

  lemma {:induction false} IdCount(areas: seq<Area>)
    ensures |set i | 0 <= i < |areas| :: areas[i].id| <= |areas|
    decreases |areas|
  {
    if areas != [] {
      var n := |areas| - 1;
      IdCount(areas[..n]);
      var before := set i | 0 <= i < |areas[..n]| :: areas[..n][i].id;
      assert (set i | 0 <= i < |areas| :: areas[i].id) == before + {areas[n].id};
    }
  }

  /** Among one more candidates than there are areas, one is free. */
  lemma FreeCandidateExists(areas: seq<Area>, base: string)
    ensures exists k :: 1 <= k <= |areas| + 1 && !AreaIdTaken(areas, AreaCandidate(base, k))
  {
    var m := |areas| + 1;
    var candidates := set k | 1 <= k <= m :: AreaCandidate(base, k);
    var ids := set i | 0 <= i < |areas| :: areas[i].id;
    CandidateCount(base, m);
    IdCount(areas);
    if forall k :: 1 <= k <= m ==> AreaIdTaken(areas, AreaCandidate(base, k)) {
      assert candidates <= ids;
      SubsetSmaller(candidates, ids);
    }
  }

  lemma {:induction false} SubsetSmaller<T>(a: set<T>, b: set<T>)
    requires a <= b
    ensures |a| <= |b|
  {
    if a != {} {
      var x :| x in a;
      SubsetSmaller(a - {x}, b - {x});
    }
  }

  lemma {:induction false} AreaIndexFree(areas: seq<Area>, base: string, k: nat)
    requires 1 <= k <= |areas| + 1 && forall j :: 1 <= j < k ==> AreaIdTaken(areas, AreaCandidate(base, j))
    ensures k <= AreaIndex(areas, base, k) <= |areas| + 1
    ensures !AreaIdTaken(areas, AreaCandidate(base, AreaIndex(areas, base, k)))
    decreases |areas| + 1 - k
  {
    FreeCandidateExists(areas, base);
    if k <= |areas| && AreaIdTaken(areas, AreaCandidate(base, k)) { AreaIndexFree(areas, base, k + 1); }
  }

  // What a pass keeps

  ghost predicate UniqueNames(devices: seq<Device>) {
    forall i, j :: 0 <= i < j < |devices| && devices[i].area == devices[j].area ==> devices[i].name != devices[j].name
  }

  ghost predicate DistinctIds(devices: seq<Device>) {
    forall i, j :: 0 <= i < j < |devices| ==> devices[i].id != devices[j].id
  }

  /** The Owner took neither name nor area of a listed device in hand. */
  ghost predicate NoOverrides(devices: seq<Device>, provider: Id, discovered: seq<Found>) {
    forall i :: 0 <= i < |devices| && devices[i].provider == provider && Listed(discovered, devices[i].ref) ==>
      "name" !in devices[i].overrides && "area_id" !in devices[i].overrides
  }

  ghost predicate Sound(registry: Registry, provider: Id, discovered: seq<Found>) {
    UniqueNames(registry.devices) && DistinctIds(registry.devices)
      && NoOverrides(registry.devices, provider, discovered)
  }

  /** The least index whose candidate a name is. */
  function LeastIndex(base: string, name: string, k: nat): (r: Option<nat>)
    ensures r.Some? ==> k <= r.value <= LAST_INDEX && Candidate(base, r.value) == name
    ensures r.Some? ==> forall j :: k <= j < r.value ==> Candidate(base, j) != name
    ensures r.None? ==> forall j :: k <= j <= LAST_INDEX ==> Candidate(base, j) != name
    decreases LAST_INDEX + 1 - k
  {
    if k > LAST_INDEX then None
    else if Candidate(base, k) == name then Some(k)
    else LeastIndex(base, name, k + 1)
  }

  function AreaOf(areas: seq<Area>, areaName: Option<string>): Option<Id> {
    if areaName.None? || areaName.value == "" then None
    else
      var existing := FirstArea(areas, Clip(areaName.value));
      if existing.Some? then Some(areas[existing.value].id) else None
  }

  /** Its area exists, or no more fit. */
  ghost predicate AreaSettled(l: Limits, areas: seq<Area>, areaName: Option<string>) {
    areaName.None? || areaName.value == "" || FirstArea(areas, Clip(areaName.value)).Some? || |areas| >= l.areas
  }

  /** A listed device is in the registry as the Provider describes it, under a name derived from its own;
      or no more devices fit. */
  ghost predicate Placed(l: Limits, registry: Registry, provider: Id, found: Found) {
    && AreaSettled(l, registry.areas, found.areaName)
    && var current := FirstDevice(registry.devices, provider, found.ref);
       if current.None? then |registry.devices| >= l.devices
       else AsListed(registry.devices[current.value], found, AreaOf(registry.areas, found.areaName))
  }

  predicate AsListed(device: Device, found: Found, area: Option<Id>) {
    && device.kind == found.kind && device.traits == found.traits && device.limits == found.limits
    && device.source == "imported" && !device.orphaned && device.area == area
    && LeastIndex(Clip(found.name), device.name, 1).Some?
  }

  ghost predicate PlacedTo(l: Limits, registry: Registry, provider: Id, discovered: seq<Found>, n: nat)
    requires n <= |discovered|
  {
    forall i :: 0 <= i < n && Effective(discovered, i) ==> Placed(l, registry, provider, discovered[i])
  }

  /** Listed by the Provider or orphaned. */
  ghost predicate OrphansDone(devices: seq<Device>, provider: Id, discovered: seq<Found>) {
    forall i :: 0 <= i < |devices| ==> !Orphans(devices[i], provider, discovered)
  }

  ghost predicate SettledRegistry(l: Limits, registry: Registry, provider: Id, discovered: seq<Found>) {
    && Sound(registry, provider, discovered) && PlacedTo(l, registry, provider, discovered, |discovered|)
    && OrphansDone(registry.devices, provider, discovered)
  }

  // The first pass settles everything but the names

  lemma FirstAreaIs(areas: seq<Area>, name: string, i: nat)
    requires i < |areas| && areas[i].name == name && forall j :: 0 <= j < i ==> areas[j].name != name
    ensures FirstArea(areas, name) == Some(i)
  {
  }

  lemma FirstAreaStays(areas: seq<Area>, areas': seq<Area>, name: string)
    requires areas <= areas' && FirstArea(areas, name).Some?
    ensures FirstArea(areas', name) == FirstArea(areas, name)
    ensures areas'[FirstArea(areas, name).value] == areas[FirstArea(areas, name).value]
  {
    var i := FirstArea(areas, name).value;
    forall j | 0 <= j <= i ensures areas'[j] == areas[j] {
    }
    FirstAreaIs(areas', name, i);
  }

  lemma FirstDeviceIs(devices: seq<Device>, provider: Id, ref: Id, i: nat)
    requires i < |devices| && IsOf(devices[i], provider, ref)
      && forall j :: 0 <= j < i ==> !IsOf(devices[j], provider, ref)
    ensures FirstDevice(devices, provider, ref) == Some(i)
  {
  }

  lemma NoDeviceIs(devices: seq<Device>, provider: Id, ref: Id)
    requires forall j :: 0 <= j < |devices| ==> !IsOf(devices[j], provider, ref)
    ensures FirstDevice(devices, provider, ref) == None
  {
  }

  /** Rewriting a row leaves the first match of every ref where it was. */
  lemma FirstDeviceAfterUpdate(devices: seq<Device>, i: nat, device: Device, provider: Id, ref: Id)
    requires i < |devices| && device.provider == devices[i].provider && device.ref == devices[i].ref
    ensures FirstDevice(devices[i := device], provider, ref) == FirstDevice(devices, provider, ref)
  {
    var devices' := devices[i := device];
    forall j | 0 <= j < |devices| ensures IsOf(devices'[j], provider, ref) == IsOf(devices[j], provider, ref) {
    }
    var first := FirstDevice(devices, provider, ref);
    if first.Some? {
      FirstDeviceIs(devices', provider, ref, first.value);
    } else {
      NoDeviceIs(devices', provider, ref);
    }
  }

  lemma FirstDeviceAfterAppend(devices: seq<Device>, device: Device, provider: Id, ref: Id)
    ensures FirstDevice(devices + [device], provider, ref)
         == if FirstDevice(devices, provider, ref).Some? then FirstDevice(devices, provider, ref)
            else if IsOf(device, provider, ref) then Some(|devices|) else None
  {
    assert (devices + [device])[..|devices|] == devices;
  }

  /** Making room for an area settles it, moves no device, and changes nobody else's area. */
  lemma EnsureSettles(l: Limits, registry: Registry, areaName: Option<string>)
    ensures var (registry', area, _) := EnsureArea(l, registry, areaName);
      && registry'.devices == registry.devices
      && registry.areas <= registry'.areas && (registry'.areas != registry.areas ==> |registry.areas| < l.areas)
      && AreaSettled(l, registry'.areas, areaName) && area == AreaOf(registry'.areas, areaName)
      && (AreaSettled(l, registry.areas, areaName) ==> registry' == registry)
  {
    if areaName.Some? && areaName.value != "" {
      var name := Clip(areaName.value);
      var existing := FirstArea(registry.areas, name);
      if existing.None? && |registry.areas| < l.areas {
        FirstAreaIs(registry.areas + [Area(AreaIdFor(registry.areas, name), name, |registry.areas|)], name,
                    |registry.areas|);
      }
    }
  }

  lemma PlacedAfterAreas(l: Limits, registry: Registry, registry': Registry, provider: Id, found: Found)
    requires Placed(l, registry, provider, found) && registry'.devices == registry.devices
    requires registry.areas <= registry'.areas && (registry'.areas != registry.areas ==> |registry.areas| < l.areas)
    ensures Placed(l, registry', provider, found)
  {
    if found.areaName.Some? && found.areaName.value != "" {
      var name := Clip(found.areaName.value);
      if FirstArea(registry.areas, name).Some? { FirstAreaStays(registry.areas, registry'.areas, name); }
    }
  }

  lemma PlacedAfterAppend(l: Limits, registry: Registry, registry': Registry, device: Device, provider: Id,
                          found: Found)
    requires Placed(l, registry, provider, found) && !IsOf(device, provider, found.ref)
    requires |registry.devices| < l.devices
    requires registry'.areas == registry.areas && registry'.devices == registry.devices + [device]
    ensures Placed(l, registry', provider, found)
  {
    FirstDeviceAfterAppend(registry.devices, device, provider, found.ref);
  }

  lemma PlacedAfterUpdate(l: Limits, registry: Registry, registry': Registry, i: nat, device: Device, provider: Id,
                          found: Found)
    requires Placed(l, registry, provider, found) && i < |registry.devices|
    requires device.provider == registry.devices[i].provider && device.ref == registry.devices[i].ref
    requires !IsOf(device, provider, found.ref)
    requires registry'.areas == registry.areas && registry'.devices == registry.devices[i := device]
    ensures Placed(l, registry', provider, found)
  {
    FirstDeviceAfterUpdate(registry.devices, i, device, provider, found.ref);
  }

  lemma UniqueNameIndexed(devices: seq<Device>, area: Option<Id>, except: Option<Id>, base: string)
    requires UniqueName(devices, area, except, base).Some?
    ensures var name := UniqueName(devices, area, except, base).value;
      && LeastIndex(base, name, 1).Some? && !Taken(devices, area, except, name)
      && LeastIndex(base, name, 1).value <= LeastFree(devices, area, except, base, 1).value
  {
  }

  lemma AppendSound(registry: Registry, device: Device, provider: Id, discovered: seq<Found>)
    requires Sound(registry, provider, discovered) && !HasId(registry.devices, device.id) && device.overrides == {}
    requires !Taken(registry.devices, device.area, None, device.name)
    ensures Sound(registry.(devices := registry.devices + [device]), provider, discovered)
  {
  }

  lemma UpdateSound(registry: Registry, i: nat, device: Device, provider: Id, discovered: seq<Found>)
    requires Sound(registry, provider, discovered) && i < |registry.devices| && device.id == registry.devices[i].id
    requires device.overrides == registry.devices[i].overrides
    requires device.provider == registry.devices[i].provider && device.ref == registry.devices[i].ref
    requires !Taken(registry.devices, device.area, Some(device.id), device.name)
    ensures Sound(registry.(devices := registry.devices[i := device]), provider, discovered)
  {
    var devices, devices' := registry.devices, registry.devices[i := device];
    forall j | 0 <= j < |devices| && j != i ensures devices[j].area == device.area ==> devices[j].name != device.name {
      assert devices[j].id != device.id;
    }
  }

  /** Importing a device settles it and leaves what was settled before. */
  lemma ImportSettles(l: Limits, provider: Id, pass: Pass, discovered: seq<Found>, n: nat, now: Moment)
    requires n < |discovered| && Effective(discovered, n)
    requires Sound(pass.registry, provider, discovered) && PlacedTo(l, pass.registry, provider, discovered, n)
    requires Import(l, provider, pass, discovered[n], now).Ok?
    ensures var registry := Import(l, provider, pass, discovered[n], now).value.registry;
      Sound(registry, provider, discovered) && PlacedTo(l, registry, provider, discovered, n + 1)
  {
    hide EnsureArea, Placed, AreaSettled, UniqueName, Clip, DeviceIdFor, Import, Sound;
    var found := discovered[n];
    EnsureSettles(l, pass.registry, found.areaName);
    var (registry, area, _) := EnsureArea(l, pass.registry, found.areaName);
    ImportShape(l, provider, pass, found, now);
    var registry' := Import(l, provider, pass, found, now).value.registry;
    forall i | 0 <= i < n && Effective(discovered, i) ensures Placed(l, registry, provider, discovered[i]) {
      PlacedAfterAreas(l, pass.registry, registry, provider, discovered[i]);
    }
    assert Sound(registry, provider, discovered) by { SameDevicesSound(pass.registry, registry, provider, discovered); }
    if FirstDevice(registry.devices, provider, found.ref).Some? {
      UpdateSettles(l, provider, registry, discovered, n, area, registry', now);
    } else if |registry.devices| < l.devices {
      AppendSettles(l, provider, registry, discovered, n, area, registry', now);
    } else {
      assert Placed(l, registry', provider, found) by { LimitPlaced(l, registry, provider, found); }
    }
  }

  lemma SameDevicesSound(registry: Registry, registry': Registry, provider: Id, discovered: seq<Found>)
    requires Sound(registry, provider, discovered) && registry'.devices == registry.devices
    ensures Sound(registry', provider, discovered)
  {
  }

  /** What an import that went through did, once its area was settled. */
  lemma ImportShape(l: Limits, provider: Id, pass: Pass, found: Found, now: Moment)
    requires Import(l, provider, pass, found, now).Ok?
    ensures var (registry, area, _) := EnsureArea(l, pass.registry, found.areaName);
      var registry' := Import(l, provider, pass, found, now).value.registry;
      var current := FirstDevice(registry.devices, provider, found.ref);
      if current.Some? then
        var device := registry.devices[current.value];
        "name" !in device.overrides ==>
          var name := UniqueName(registry.devices, area, Some(device.id), Clip(found.name));
          && name.Some?
          && var proposed := Proposed(device, found, name.value, area, now);
             registry' == if SameFacts(proposed, device) then registry
                          else registry.(devices := registry.devices[current.value := proposed],
                                         revision := registry.revision + 1)
      else if |registry.devices| >= l.devices then registry' == registry
      else
        var name := UniqueName(registry.devices, area, None, Clip(found.name));
        && name.Some?
        && var device := NewDevice(provider, found, name.value, area, now);
           && !HasId(registry.devices, device.id)
           && registry' == registry.(devices := registry.devices + [device], revision := registry.revision + 1)
  {
    hide EnsureArea, UniqueName, Clip, DeviceIdFor;
  }

  lemma LimitPlaced(l: Limits, registry: Registry, provider: Id, found: Found)
    requires AreaSettled(l, registry.areas, found.areaName) && FirstDevice(registry.devices, provider, found.ref).None?
    requires |registry.devices| >= l.devices
    ensures Placed(l, registry, provider, found)
  {
  }

  lemma AppendSettles(l: Limits, provider: Id, registry: Registry, discovered: seq<Found>, n: nat, area: Option<Id>,
                      registry': Registry, now: Moment)
    requires n < |discovered| && Effective(discovered, n) && |registry.devices| < l.devices
    requires Sound(registry, provider, discovered) && PlacedTo(l, registry, provider, discovered, n)
    requires AreaSettled(l, registry.areas, discovered[n].areaName)
    requires area == AreaOf(registry.areas, discovered[n].areaName)
    requires FirstDevice(registry.devices, provider, discovered[n].ref).None?
    requires UniqueName(registry.devices, area, None, Clip(discovered[n].name)).Some?
    requires var device := NewDevice(provider, discovered[n],
                                     UniqueName(registry.devices, area, None, Clip(discovered[n].name)).value, area,
                                     now);
      && !HasId(registry.devices, device.id)
      && registry' == registry.(devices := registry.devices + [device], revision := registry.revision + 1)
    ensures Sound(registry', provider, discovered) && PlacedTo(l, registry', provider, discovered, n + 1)
  {
    var found := discovered[n];
    var base := Clip(found.name);
    hide Clip, Candidate, DeviceIdFor;
    UniqueNameIndexed(registry.devices, area, None, base);
    var device := NewDevice(provider, found, UniqueName(registry.devices, area, None, base).value, area, now);
    hide UniqueName, LeastFree, LeastIndex;
    AppendSound(registry, device, provider, discovered);
    FirstDeviceAfterAppend(registry.devices, device, provider, found.ref);
    assert Placed(l, registry', provider, found);
    forall i | 0 <= i < n && Effective(discovered, i) ensures Placed(l, registry', provider, discovered[i]) {
      PlacedAfterAppend(l, registry, registry', device, provider, discovered[i]);
    }
  }

  lemma UpdateSettles(l: Limits, provider: Id, registry: Registry, discovered: seq<Found>, n: nat, area: Option<Id>,
                      registry': Registry, now: Moment)
    requires n < |discovered| && Effective(discovered, n)
    requires Sound(registry, provider, discovered) && PlacedTo(l, registry, provider, discovered, n)
    requires AreaSettled(l, registry.areas, discovered[n].areaName)
    requires area == AreaOf(registry.areas, discovered[n].areaName)
    requires FirstDevice(registry.devices, provider, discovered[n].ref).Some?
    requires var i := FirstDevice(registry.devices, provider, discovered[n].ref).value;
      var device := registry.devices[i];
      "name" !in device.overrides ==>
        var name := UniqueName(registry.devices, area, Some(device.id), Clip(discovered[n].name));
        && name.Some?
        && var proposed := Proposed(device, discovered[n], name.value, area, now);
           registry' == if SameFacts(proposed, device) then registry
                        else registry.(devices := registry.devices[i := proposed], revision := registry.revision + 1)
    ensures Sound(registry', provider, discovered) && PlacedTo(l, registry', provider, discovered, n + 1)
  {
    var found := discovered[n];
    var base := Clip(found.name);
    var i := FirstDevice(registry.devices, provider, found.ref).value;
    var device := registry.devices[i];
    assert Listed(discovered, device.ref);
    assert "name" !in device.overrides && "area_id" !in device.overrides;
    hide Clip, Candidate, DeviceIdFor;
    UniqueNameIndexed(registry.devices, area, Some(device.id), base);
    var proposed := Proposed(device, found, UniqueName(registry.devices, area, Some(device.id), base).value, area, now);
    hide UniqueName, LeastFree, LeastIndex;
    assert AsListed(proposed, found, area);
    if SameFacts(proposed, device) {
      assert AsListed(device, found, area);
    } else {
      UpdateSound(registry, i, proposed, provider, discovered);
      FirstDeviceAfterUpdate(registry.devices, i, proposed, provider, found.ref);
      forall j | 0 <= j < n && Effective(discovered, j) ensures Placed(l, registry', provider, discovered[j]) {
        PlacedAfterUpdate(l, registry, registry', i, proposed, provider, discovered[j]);
      }
    }
    assert Placed(l, registry', provider, found);
  }

  lemma {:induction false} ImportAllSettles(l: Limits, provider: Id, registry: Registry, discovered: seq<Found>,
                                            now: Moment, n: nat)
    requires n <= |discovered| && Sound(registry, provider, discovered)
    requires ImportAll(l, provider, registry, discovered, now, n).Ok?
    ensures var registry' := ImportAll(l, provider, registry, discovered, now, n).value.registry;
      Sound(registry', provider, discovered) && PlacedTo(l, registry', provider, discovered, n)
  {
    hide Sound, Placed, Import;
    if n > 0 {
      ImportAllSettles(l, provider, registry, discovered, now, n - 1);
      var pass := ImportAll(l, provider, registry, discovered, now, n - 1).value;
      if Effective(discovered, n - 1) { ImportSettles(l, provider, pass, discovered, n - 1, now); }
    }
  }

  predicate OrphanedRow(device: Device, device': Device, orphan: bool, now: Moment) {
    device' == if orphan then device.(orphaned := true, syncedAt := now) else device
  }

  lemma {:induction false} OrphanedRows(provider: Id, pass: Pass, discovered: seq<Found>, now: Moment, n: nat)
    requires n <= |pass.registry.devices|
    ensures var after := OrphanAll(provider, pass, discovered, now, n).registry;
      && after.areas == pass.registry.areas && |after.devices| == |pass.registry.devices|
      && after.revision >= pass.registry.revision
      && (forall i :: 0 <= i < |after.devices| ==>
            OrphanedRow(pass.registry.devices[i], after.devices[i],
                        i < n && Orphans(pass.registry.devices[i], provider, discovered), now))
  {
    if n > 0 { OrphanedRows(provider, pass, discovered, now, n - 1); }
  }

  lemma SameFirstDevice(devices: seq<Device>, devices': seq<Device>, provider: Id, ref: Id)
    requires |devices'| == |devices|
    requires forall i :: 0 <= i < |devices| ==>
      devices'[i].provider == devices[i].provider && devices'[i].ref == devices[i].ref
    ensures FirstDevice(devices', provider, ref) == FirstDevice(devices, provider, ref)
  {
    forall j | 0 <= j < |devices| ensures IsOf(devices'[j], provider, ref) == IsOf(devices[j], provider, ref) {
    }
    var first := FirstDevice(devices, provider, ref);
    if first.Some? {
      FirstDeviceIs(devices', provider, ref, first.value);
    } else {
      NoDeviceIs(devices', provider, ref);
    }
  }

  lemma OrphaningSettles(l: Limits, provider: Id, pass: Pass, discovered: seq<Found>, now: Moment)
    requires Sound(pass.registry, provider, discovered)
    requires PlacedTo(l, pass.registry, provider, discovered, |discovered|)
    ensures SettledRegistry(l, OrphanAll(provider, pass, discovered, now, |pass.registry.devices|).registry, provider,
                            discovered)
  {
    var registry, after := pass.registry, OrphanAll(provider, pass, discovered, now, |pass.registry.devices|).registry;
    OrphanedRows(provider, pass, discovered, now, |registry.devices|);
    hide OrphanAll;
    forall i: nat | i < |registry.devices|
      ensures OrphanedRow(registry.devices[i], after.devices[i], Orphans(registry.devices[i], provider, discovered),
                          now)
    {
    }
    forall i: nat | i < |discovered| && Effective(discovered, i) ensures Placed(l, after, provider, discovered[i]) {
      assert Placed(l, registry, provider, discovered[i]);
      SameFirstDevice(registry.devices, after.devices, provider, discovered[i].ref);
      hide AreaSettled, AsListed;
    }
  }

  /** One completed pass from any sound registry settles areas, placements and facts for good. */
  lemma FirstPassSettles(l: Limits, provider: Id, registry: Registry, discovered: seq<Found>, now: Moment)
    requires Sound(registry, provider, discovered) && Sync(l, provider, registry, discovered, now).Ok?
    ensures SettledRegistry(l, Sync(l, provider, registry, discovered, now).value.registry, provider, discovered)
  {
    hide Sound, PlacedTo, SettledRegistry;
    ImportAllSettles(l, provider, registry, discovered, now, |discovered|);
    OrphaningSettles(l, provider, ImportAll(l, provider, registry, discovered, now, |discovered|).value, discovered,
                     now);
  }

  // Later passes

  /** The name this device would be given again is the one it has. */
  predicate Quiet(devices: seq<Device>, provider: Id, found: Found) {
    var current := FirstDevice(devices, provider, found.ref);
    current.None? ||
    var device := devices[current.value];
    UniqueName(devices, device.area, Some(device.id), Clip(found.name)) == Some(device.name)
  }

  /** How far down the list of candidates a listed device's name is. */
  function Height(devices: seq<Device>, provider: Id, found: Found): nat {
    var current := FirstDevice(devices, provider, found.ref);
    if current.None? then 0
    else
      var index := LeastIndex(Clip(found.name), devices[current.value].name, 1);
      if index.None? then 0 else index.value
  }

  function Potential(devices: seq<Device>, provider: Id, discovered: seq<Found>, n: nat): nat
    requires n <= |discovered|
  {
    if n == 0 then 0
    else
      Potential(devices, provider, discovered, n - 1)
      + if Effective(discovered, n - 1) then Height(devices, provider, discovered[n - 1]) else 0
  }

  /** Names apart, nothing changed but when it was synced. */
  predicate OnlyNames(registry: Registry, registry': Registry) {
    && registry'.areas == registry.areas && |registry'.devices| == |registry.devices|
    && forall i :: 0 <= i < |registry.devices| ==>
         registry'.devices[i] == registry.devices[i].(name := registry'.devices[i].name,
                                                      syncedAt := registry'.devices[i].syncedAt)
  }

  /** A device can always keep its own name, so the free index it is offered is never above it. */
  lemma OwnNameIsFree(devices: seq<Device>, i: nat, base: string)
    requires UniqueNames(devices) && DistinctIds(devices) && i < |devices| && LeastIndex(base, devices[i].name, 1).Some?
    ensures var d := devices[i];
      var name := UniqueName(devices, d.area, Some(d.id), base);
      && name.Some? && LeastIndex(base, name.value, 1).Some?
      && (name.value != d.name ==> LeastIndex(base, name.value, 1).value < LeastIndex(base, d.name, 1).value)
  {
    var d := devices[i];
    hide Candidate;
    forall j | 0 <= j < |devices| && devices[j].area == d.area && devices[j].id != d.id
      ensures devices[j].name != d.name
    {
    }
    assert !Taken(devices, d.area, Some(d.id), d.name);
    var own := LeastIndex(base, d.name, 1).value;
    var free := LeastFree(devices, d.area, Some(d.id), base, 1);
    assert free.Some? && free.value <= own;
    var again := LeastIndex(base, Candidate(base, free.value), 1);
    assert again.Some? && again.value <= free.value;
    if again.value == own { assert Candidate(base, own) == d.name; }
  }

  lemma {:induction false} RenamedHeights(devices: seq<Device>, i: nat, device: Device, provider: Id,
                                          discovered: seq<Found>, k: nat, n: nat)
    requires k < |discovered| && n <= |discovered| && Effective(discovered, k)
    requires i < |devices| && FirstDevice(devices, provider, discovered[k].ref) == Some(i)
    requires device == devices[i].(name := device.name, syncedAt := device.syncedAt)
    ensures Potential(devices[i := device], provider, discovered, n)
      + (if k < n then Height(devices, provider, discovered[k]) else 0)
      == Potential(devices, provider, discovered, n)
      + (if k < n then Height(devices[i := device], provider, discovered[k]) else 0)
  {
    hide Height, Effective, FirstDevice;
    if n > 0 {
      RenamedHeights(devices, i, device, provider, discovered, k, n - 1);
      if k != n - 1 && Effective(discovered, n - 1) {
        EffectivesDiffer(discovered, k, n - 1);
        SameHeight(devices, i, device, provider, discovered[n - 1]);
      }
    }
  }

  lemma EffectivesDiffer(discovered: seq<Found>, j: nat, k: nat)
    requires j < |discovered| && k < |discovered| && j != k && Effective(discovered, j) && Effective(discovered, k)
    ensures discovered[j].ref != discovered[k].ref
  {
  }

  lemma SameHeight(devices: seq<Device>, i: nat, device: Device, provider: Id, found: Found)
    requires i < |devices| && device == devices[i].(name := device.name, syncedAt := device.syncedAt)
    requires !IsOf(device, provider, found.ref)
    ensures Height(devices[i := device], provider, found) == Height(devices, provider, found)
  {
    FirstDeviceAfterUpdate(devices, i, device, provider, found.ref);
    hide LeastIndex, Clip;
  }

  /** Importing a device that is placed comes down to its name. */
  lemma ImportOfPlaced(l: Limits, provider: Id, pass: Pass, found: Found, now: Moment)
    requires Placed(l, pass.registry, provider, found)
    requires var current := FirstDevice(pass.registry.devices, provider, found.ref);
      current.Some? ==>
        var device := pass.registry.devices[current.value];
        && "name" !in device.overrides && "area_id" !in device.overrides
        && UniqueName(pass.registry.devices, device.area, Some(device.id), Clip(found.name)).Some?
    ensures Import(l, provider, pass, found, now).Ok?
    ensures var registry, registry' := pass.registry, Import(l, provider, pass, found, now).value.registry;
      if Quiet(registry.devices, provider, found) then registry' == registry
      else
        var i := FirstDevice(registry.devices, provider, found.ref).value;
        var device := registry.devices[i];
        var name := UniqueName(registry.devices, device.area, Some(device.id), Clip(found.name)).value;
        registry' == registry.(devices := registry.devices[i := device.(name := name, syncedAt := now)],
                               revision := registry.revision + 1)
  {
    EnsureSettles(l, pass.registry, found.areaName);
    hide EnsureArea, UniqueName, Clip, LeastIndex, AreaSettled;
    var current := FirstDevice(pass.registry.devices, provider, found.ref);
    if current.Some? {
      var device := pass.registry.devices[current.value];
      var name := UniqueName(pass.registry.devices, device.area, Some(device.id), Clip(found.name)).value;
      assert Proposed(device, found, name, device.area, now) == device.(name := name, syncedAt := now);
      assert SameFacts(device.(name := name, syncedAt := now), device) <==> name == device.name;
    }
  }

  /** On a settled registry importing a device again cannot fail; it does nothing, or renames the device
      to a lower candidate and keeps everything settled. */
  lemma ImportAgain(l: Limits, provider: Id, pass: Pass, discovered: seq<Found>, k: nat, now: Moment)
    requires k < |discovered| && Effective(discovered, k) && SettledRegistry(l, pass.registry, provider, discovered)
    ensures Import(l, provider, pass, discovered[k], now).Ok?
    ensures var registry, registry' := pass.registry, Import(l, provider, pass, discovered[k], now).value.registry;
      && SettledRegistry(l, registry', provider, discovered) && OnlyNames(registry, registry')
      && (Quiet(registry.devices, provider, discovered[k]) ==> registry' == registry)
      && (!Quiet(registry.devices, provider, discovered[k]) ==>
            Potential(registry'.devices, provider, discovered, |discovered|)
              < Potential(registry.devices, provider, discovered, |discovered|))
  {
    hide Clip, LeastIndex, UniqueName, EnsureArea, Import, Potential, Height;
    var found, registry := discovered[k], pass.registry;
    assert Placed(l, registry, provider, found);
    var current := FirstDevice(registry.devices, provider, found.ref);
    if current.Some? {
      var i := current.value;
      var device := registry.devices[i];
      assert Listed(discovered, device.ref);
      OwnNameIsFree(registry.devices, i, Clip(found.name));
      ImportOfPlaced(l, provider, pass, found, now);
      if !Quiet(registry.devices, provider, found) {
        var name := UniqueName(registry.devices, device.area, Some(device.id), Clip(found.name)).value;
        RenameLowers(l, provider, registry, discovered, k, i, device.(name := name, syncedAt := now));
      }
    } else {
      ImportOfPlaced(l, provider, pass, found, now);
    }
  }

  lemma RenameLowers(l: Limits, provider: Id, registry: Registry, discovered: seq<Found>, k: nat, i: nat,
                     proposed: Device)
    requires k < |discovered| && Effective(discovered, k) && SettledRegistry(l, registry, provider, discovered)
    requires FirstDevice(registry.devices, provider, discovered[k].ref) == Some(i) && i < |registry.devices|
    requires proposed == registry.devices[i].(name := proposed.name, syncedAt := proposed.syncedAt)
    requires UniqueName(registry.devices, proposed.area, Some(proposed.id), Clip(discovered[k].name))
      == Some(proposed.name)
    requires var base := Clip(discovered[k].name);
      && LeastIndex(base, proposed.name, 1).Some? && LeastIndex(base, registry.devices[i].name, 1).Some?
      && LeastIndex(base, proposed.name, 1).value < LeastIndex(base, registry.devices[i].name, 1).value
    ensures SettledRegistry(l, registry.(devices := registry.devices[i := proposed], revision := registry.revision + 1),
                            provider, discovered)
    ensures Potential(registry.devices[i := proposed], provider, discovered, |discovered|)
          < Potential(registry.devices, provider, discovered, |discovered|)
  {
    UniqueNameIndexed(registry.devices, proposed.area, Some(proposed.id), Clip(discovered[k].name));
    hide Clip, LeastIndex, UniqueName, SettledRegistry, Potential;
    RenameSettles(l, provider, registry, discovered, k, i, proposed);
    RenamedHeights(registry.devices, i, proposed, provider, discovered, k, |discovered|);
    FirstDeviceAfterUpdate(registry.devices, i, proposed, provider, discovered[k].ref);
  }

  lemma RenameSettles(l: Limits, provider: Id, registry: Registry, discovered: seq<Found>, k: nat, i: nat,
                      proposed: Device)
    requires k < |discovered| && Effective(discovered, k) && SettledRegistry(l, registry, provider, discovered)
    requires FirstDevice(registry.devices, provider, discovered[k].ref) == Some(i) && i < |registry.devices|
    requires proposed == registry.devices[i].(name := proposed.name, syncedAt := proposed.syncedAt)
    requires LeastIndex(Clip(discovered[k].name), proposed.name, 1).Some?
    requires !Taken(registry.devices, proposed.area, Some(proposed.id), proposed.name)
    ensures SettledRegistry(l, registry.(devices := registry.devices[i := proposed], revision := registry.revision + 1),
                            provider, discovered)
  {
    hide LeastIndex, Clip;
    var registry' := registry.(devices := registry.devices[i := proposed], revision := registry.revision + 1);
    UpdateSound(registry, i, proposed, provider, discovered);
    hide Sound;
    forall j: nat | j < |discovered| && Effective(discovered, j) ensures Placed(l, registry', provider, discovered[j]) {
      assert Placed(l, registry, provider, discovered[j]);
      if j == k {
        FirstDeviceAfterUpdate(registry.devices, i, proposed, provider, discovered[j].ref);
      } else {
        PlacedAfterUpdate(l, registry, registry', i, proposed, provider, discovered[j]);
      }
    }
  }

  /** Only listed devices change, each to a strictly lower candidate, and none goes up. */
  ghost predicate NamesSink(devices: seq<Device>, devices': seq<Device>, provider: Id, discovered: seq<Found>) {
    && |devices'| == |devices|
    && (forall k :: 0 <= k < |discovered| && Effective(discovered, k) ==>
          Height(devices', provider, discovered[k]) <= Height(devices, provider, discovered[k]))
    && (forall i :: 0 <= i < |devices| && devices'[i] != devices[i] ==>
          exists k :: Sank(devices, devices', provider, discovered, i, k))
  }

  ghost predicate Sank(devices: seq<Device>, devices': seq<Device>, provider: Id, discovered: seq<Found>, i: int,
                       k: int)
  {
    && 0 <= k < |discovered| && Effective(discovered, k) && FirstDevice(devices, provider, discovered[k].ref) == Some(i)
    && Height(devices', provider, discovered[k]) < Height(devices, provider, discovered[k])
  }

  lemma RenameSinks(devices: seq<Device>, i: nat, device: Device, provider: Id, discovered: seq<Found>, k: nat)
    requires k < |discovered| && Effective(discovered, k) && i < |devices|
    requires FirstDevice(devices, provider, discovered[k].ref) == Some(i)
    requires device == devices[i].(name := device.name, syncedAt := device.syncedAt)
    requires Height(devices[i := device], provider, discovered[k]) < Height(devices, provider, discovered[k])
    ensures NamesSink(devices, devices[i := device], provider, discovered)
  {
    hide Height;
    forall j: nat | j < |discovered| && Effective(discovered, j) && j != k
      ensures Height(devices[i := device], provider, discovered[j]) == Height(devices, provider, discovered[j])
    {
      assert discovered[k].ref != discovered[j].ref;
      SameHeight(devices, i, device, provider, discovered[j]);
    }
    assert Sank(devices, devices[i := device], provider, discovered, i, k);
  }

  lemma SinksTransitive(a: seq<Device>, b: seq<Device>, c: seq<Device>, provider: Id, discovered: seq<Found>)
    requires NamesSink(a, b, provider, discovered) && NamesSink(b, c, provider, discovered)
    requires forall i :: 0 <= i < |a| ==> b[i].provider == a[i].provider && b[i].ref == a[i].ref
    ensures NamesSink(a, c, provider, discovered)
  {
    hide Height;
    forall i | 0 <= i < |a| && c[i] != a[i] ensures exists k :: Sank(a, c, provider, discovered, i, k) {
      if b[i] != a[i] {
        var k :| Sank(a, b, provider, discovered, i, k);
        assert Sank(a, c, provider, discovered, i, k);
      } else {
        var k :| Sank(b, c, provider, discovered, i, k);
        SameFirstDevice(a, b, provider, discovered[k].ref);
        assert Sank(a, c, provider, discovered, i, k);
      }
    }
  }

  lemma ImportSinks(l: Limits, provider: Id, pass: Pass, discovered: seq<Found>, k: nat, now: Moment)
    requires k < |discovered| && Effective(discovered, k) && SettledRegistry(l, pass.registry, provider, discovered)
    ensures Import(l, provider, pass, discovered[k], now).Ok?
    ensures NamesSink(pass.registry.devices, Import(l, provider, pass, discovered[k], now).value.registry.devices,
                      provider, discovered)
  {
    hide Clip, LeastIndex, UniqueName, EnsureArea, Import, Potential;
    var found, registry := discovered[k], pass.registry;
    assert Placed(l, registry, provider, found);
    var current := FirstDevice(registry.devices, provider, found.ref);
    if current.Some? {
      var i := current.value;
      var device := registry.devices[i];
      assert Listed(discovered, device.ref);
      OwnNameIsFree(registry.devices, i, Clip(found.name));
      ImportOfPlaced(l, provider, pass, found, now);
      if !Quiet(registry.devices, provider, found) {
        var name := UniqueName(registry.devices, device.area, Some(device.id), Clip(found.name)).value;
        var renamed := device.(name := name, syncedAt := now);
        FirstDeviceAfterUpdate(registry.devices, i, renamed, provider, found.ref);
        RenameSinks(registry.devices, i, renamed, provider, discovered, k);
      }
    } else {
      ImportOfPlaced(l, provider, pass, found, now);
    }
  }

  ghost predicate QuietTo(devices: seq<Device>, provider: Id, discovered: seq<Found>, n: nat)
    requires n <= |discovered|
  {
    forall k :: 0 <= k < n && Effective(discovered, k) ==> Quiet(devices, provider, discovered[k])
  }

  ghost predicate AllQuiet(devices: seq<Device>, provider: Id, discovered: seq<Found>) {
    QuietTo(devices, provider, discovered, |discovered|)
  }

  /** What a pass over a settled registry may leave of it. */
  ghost predicate Later(l: Limits, registry: Registry, registry': Registry, provider: Id, discovered: seq<Found>) {
    && SettledRegistry(l, registry', provider, discovered) && OnlyNames(registry, registry')
    && NamesSink(registry.devices, registry'.devices, provider, discovered)
  }

  lemma LaterNext(l: Limits, a: Registry, pass: Pass, provider: Id, discovered: seq<Found>, k: nat, now: Moment)
    requires k < |discovered| && Effective(discovered, k) && SettledRegistry(l, pass.registry, provider, discovered)
    requires Later(l, a, pass.registry, provider, discovered)
    ensures Import(l, provider, pass, discovered[k], now).Ok?
    ensures Later(l, a, Import(l, provider, pass, discovered[k], now).value.registry, provider, discovered)
  {
    hide SettledRegistry, NamesSink, Potential, Import, Quiet;
    ImportAgain(l, provider, pass, discovered, k, now);
    ImportSinks(l, provider, pass, discovered, k, now);
    SinksTransitive(a.devices, pass.registry.devices,
                    Import(l, provider, pass, discovered[k], now).value.registry.devices, provider, discovered);
  }

  lemma LaterItself(l: Limits, registry: Registry, provider: Id, discovered: seq<Found>)
    requires SettledRegistry(l, registry, provider, discovered)
    ensures Later(l, registry, registry, provider, discovered)
  {
    hide SettledRegistry, Height;
  }

  lemma LaterSettled(l: Limits, registry: Registry, registry': Registry, provider: Id, discovered: seq<Found>)
    requires Later(l, registry, registry', provider, discovered)
    ensures SettledRegistry(l, registry', provider, discovered)
  {
    hide SettledRegistry, Height;
  }

  /** Nothing was written while every name was quiet; otherwise the potential fell. */
  ghost predicate Progress(devices: seq<Device>, devices': seq<Device>, provider: Id, discovered: seq<Found>, n: nat)
    requires n <= |discovered|
  {
    if QuietTo(devices, provider, discovered, n) then devices' == devices
    else Potential(devices', provider, discovered, |discovered|)
           < Potential(devices, provider, discovered, |discovered|)
  }

  lemma ProgressNext(a: seq<Device>, b: seq<Device>, c: seq<Device>, provider: Id, discovered: seq<Found>, n: nat)
    requires n < |discovered| && Progress(a, b, provider, discovered, n)
    requires Effective(discovered, n) && Quiet(b, provider, discovered[n]) ==> c == b
    requires Effective(discovered, n) && !Quiet(b, provider, discovered[n]) ==>
      Potential(c, provider, discovered, |discovered|) < Potential(b, provider, discovered, |discovered|)
    requires !Effective(discovered, n) ==> c == b
    ensures Progress(a, c, provider, discovered, n + 1)
  {
    hide Quiet, Potential, Effective;
  }

  lemma {:induction false} ImportAllAgain(l: Limits, provider: Id, registry: Registry, discovered: seq<Found>,
                                          now: Moment, n: nat)
    requires n <= |discovered| && SettledRegistry(l, registry, provider, discovered)
    ensures ImportAll(l, provider, registry, discovered, now, n).Ok?
    ensures var registry' := ImportAll(l, provider, registry, discovered, now, n).value.registry;
      && Later(l, registry, registry', provider, discovered)
      && Progress(registry.devices, registry'.devices, provider, discovered, n)
      && (registry'.devices == registry.devices ==> registry' == registry)
  {
    hide Later, Import, Potential, Quiet, SettledRegistry, Progress, Effective, OnlyNames;
    if n == 0 {
      LaterItself(l, registry, provider, discovered);
      assert Progress(registry.devices, registry.devices, provider, discovered, 0) by {
        NoProgress(registry.devices, provider, discovered);
      }
    } else {
      ImportAllAgain(l, provider, registry, discovered, now, n - 1);
      var pass := ImportAll(l, provider, registry, discovered, now, n - 1).value;
      LaterSettled(l, registry, pass.registry, provider, discovered);
      if Effective(discovered, n - 1) {
        ImportAgain(l, provider, pass, discovered, n - 1, now);
        LaterNext(l, registry, pass, provider, discovered, n - 1, now);
      }
      var registry' := ImportAll(l, provider, registry, discovered, now, n).value.registry;
      ProgressNext(registry.devices, pass.registry.devices, registry'.devices, provider, discovered, n - 1);
      if registry'.devices == registry.devices {
        NoFall(registry.devices, pass.registry.devices, registry'.devices, provider, discovered, n - 1);
      }
    }
  }

  lemma NoProgress(devices: seq<Device>, provider: Id, discovered: seq<Found>)
    ensures Progress(devices, devices, provider, discovered, 0)
  {
  }

  /** Devices back as they were were never changed: the potential does not come back. */
  lemma NoFall(a: seq<Device>, b: seq<Device>, c: seq<Device>, provider: Id, discovered: seq<Found>, n: nat)
    requires n < |discovered| && Progress(a, b, provider, discovered, n) && c == a
    requires Effective(discovered, n) && !Quiet(b, provider, discovered[n]) ==>
      Potential(c, provider, discovered, |discovered|) < Potential(b, provider, discovered, |discovered|)
    requires !Effective(discovered, n) || Quiet(b, provider, discovered[n]) ==> c == b
    ensures b == a && (Effective(discovered, n) ==> Quiet(b, provider, discovered[n]))
  {
    hide Quiet, Potential, Effective;
  }

  lemma {:induction false} NothingToOrphan(provider: Id, pass: Pass, discovered: seq<Found>, now: Moment, n: nat)
    requires n <= |pass.registry.devices| && OrphansDone(pass.registry.devices, provider, discovered)
    ensures OrphanAll(provider, pass, discovered, now, n) == pass
  {
    hide Orphans;
    if n > 0 { NothingToOrphan(provider, pass, discovered, now, n - 1); }
  }

  /** From the second pass on: it cannot fail, only names change, each to a strictly lower candidate,
      names stay unique per area; and it writes nothing exactly when every name is quiet. */
  lemma LaterPasses(l: Limits, provider: Id, registry: Registry, discovered: seq<Found>, now: Moment)
    requires SettledRegistry(l, registry, provider, discovered)
    ensures Sync(l, provider, registry, discovered, now).Ok?
    ensures var registry' := Sync(l, provider, registry, discovered, now).value.registry;
      && Later(l, registry, registry', provider, discovered)
      && (AllQuiet(registry.devices, provider, discovered) ==> registry' == registry)
      && (!AllQuiet(registry.devices, provider, discovered) ==>
            Potential(registry'.devices, provider, discovered, |discovered|)
              < Potential(registry.devices, provider, discovered, |discovered|))
  {
    ImportAllAgain(l, provider, registry, discovered, now, |discovered|);
    hide Potential, Quiet, Sound, PlacedTo, NamesSink, Orphans, QuietTo;
    var pass := ImportAll(l, provider, registry, discovered, now, |discovered|).value;
    NothingToOrphan(provider, pass, discovered, now, |pass.registry.devices|);
  }

  /** The registry after one pass per moment. */
  function Repeated(l: Limits, provider: Id, registry: Registry, discovered: seq<Found>, nows: seq<Moment>): Registry
    decreases |nows|
  {
    if nows == [] then registry
    else
      match Sync(l, provider, Repeated(l, provider, registry, discovered, nows[..|nows| - 1]), discovered,
                 nows[|nows| - 1])
      case Ok(pass) => pass.registry
      case Err((left, _)) => left
  }

  lemma {:induction false} RepeatedSinks(l: Limits, provider: Id, registry: Registry, discovered: seq<Found>,
                                         nows: seq<Moment>)
    requires SettledRegistry(l, registry, provider, discovered)
    ensures var registry' := Repeated(l, provider, registry, discovered, nows);
      && SettledRegistry(l, registry', provider, discovered)
      && (AllQuiet(registry'.devices, provider, discovered)
          || Potential(registry'.devices, provider, discovered, |discovered|) + |nows|
             <= Potential(registry.devices, provider, discovered, |discovered|))
    decreases |nows|
  {
    hide SettledRegistry, Sync, Potential, AllQuiet, OnlyNames, NamesSink;
    if nows != [] {
      RepeatedSinks(l, provider, registry, discovered, nows[..|nows| - 1]);
      LaterPasses(l, provider, Repeated(l, provider, registry, discovered, nows[..|nows| - 1]), discovered,
                  nows[|nows| - 1]);
    }
  }

  /** Convergence: from any sound registry, once a first pass completes, at most as many passes as the
      names stand high bring the registry to rest: every later pass leaves it exactly as it is. */
  lemma ImporterConverges(l: Limits, provider: Id, registry: Registry, discovered: seq<Found>, first: Moment,
                          nows: seq<Moment>, later: Moment)
    requires Sound(registry, provider, discovered) && Sync(l, provider, registry, discovered, first).Ok?
    requires |nows| >= Potential(Sync(l, provider, registry, discovered, first).value.registry.devices, provider,
                                 discovered, |discovered|)
    ensures var rest := Repeated(l, provider, Sync(l, provider, registry, discovered, first).value.registry, discovered,
                                 nows);
      && Sync(l, provider, rest, discovered, later).Ok?
      && Sync(l, provider, rest, discovered, later).value.registry == rest
      && UniqueNames(rest.devices)
  {
    hide Sync, Potential, Quiet, Repeated, NamesSink, PlacedTo, OnlyNames;
    FirstPassSettles(l, provider, registry, discovered, first);
    var settled := Sync(l, provider, registry, discovered, first).value.registry;
    RepeatedSinks(l, provider, settled, discovered, nows);
    var rest := Repeated(l, provider, settled, discovered, nows);
    LaterPasses(l, provider, rest, discovered, later);
    if Potential(rest.devices, provider, discovered, |discovered|) == 0 { QuietAtZero(l, rest, provider, discovered); }
  }

  /** With no height left every listed device either has no row or a name of index 0, which no name has. */
  lemma QuietAtZero(l: Limits, registry: Registry, provider: Id, discovered: seq<Found>)
    requires SettledRegistry(l, registry, provider, discovered)
    requires Potential(registry.devices, provider, discovered, |discovered|) == 0
    ensures AllQuiet(registry.devices, provider, discovered)
  {
    forall k: nat | k < |discovered| && Effective(discovered, k)
      ensures Quiet(registry.devices, provider, discovered[k])
    {
      HeightCounts(registry.devices, provider, discovered, k, |discovered|);
      assert Placed(l, registry, provider, discovered[k]);
      hide Clip, UniqueName;
    }
  }

  lemma {:induction false} HeightCounts(devices: seq<Device>, provider: Id, discovered: seq<Found>, k: nat, n: nat)
    requires k < n <= |discovered| && Effective(discovered, k)
    ensures Potential(devices, provider, discovered, n) >= Height(devices, provider, discovered[k])
  {
    hide Height;
    if k < n - 1 { HeightCounts(devices, provider, discovered, k, n - 1); }
  }

  // The pass, in place

  lemma EffectiveUnseen(discovered: seq<Found>, n: nat, seen: set<Id>)
    requires n < |discovered| && seen == set i | 0 <= i < n :: discovered[i].ref
    ensures Effective(discovered, n) <==> discovered[n].ref !in seen
  {
  }

  /** The Owner's registry, written through one call at a time. */
  class RegistryImporter {
    const limits: Limits
    var registry: Registry

    constructor (limits: Limits, registry: Registry)
      ensures this.limits == limits && this.registry == registry
    {
      this.limits, this.registry := limits, registry;
    }

    /** Count up until a candidate id is free. */
    method AreaId(name: string) returns (id: Id)
      ensures id == AreaIdFor(registry.areas, name)
    {
      var base := AreaBase(name);
      var candidate, index := base, 2;
      AreaIndexFree(registry.areas, base, 1);
      ghost var free := AreaIndex(registry.areas, base, 1);
      while AreaIdTaken(registry.areas, candidate)
        invariant 2 <= index <= free + 1 && candidate == AreaCandidate(base, index - 1)
        invariant AreaIndex(registry.areas, base, index - 1) == free
        decreases free + 1 - index
      {
        candidate := base + "-" + Decimal(index);
        index := index + 1;
      }
      return Cut(candidate);
    }

    method EnsureAreaHere(areaName: Option<string>) returns (area: Option<Id>, full: Option<(string, Skip)>)
      modifies this`registry
      ensures (registry, area, full) == EnsureArea(limits, old(registry), areaName)
    {
      hide Clip, AreaIdFor;
      if areaName.None? || areaName.value == "" {
        return None, None;
      }
      var name := Clip(areaName.value);
      var i := 0;
      while i < |registry.areas|
        invariant 0 <= i <= |registry.areas| && forall j :: 0 <= j < i ==> registry.areas[j].name != name
      {
        if registry.areas[i].name == name {
          FirstAreaIs(registry.areas, name, i);
          return Some(registry.areas[i].id), None;
        }
        i := i + 1;
      }
      if |registry.areas| >= limits.areas {
        return None, Some((name, AreaLimitExceeded));
      }
      var id := AreaId(name);
      registry := registry.(areas := registry.areas + [Area(id, name, |registry.areas|)],
                            revision := registry.revision + 1);
      return Some(id), None;
    }

    /** The name, or the first numbered form of it nobody else in the area has. */
    method UniqueNameHere(area: Option<Id>, except: Option<Id>, name: string) returns (unique: Option<string>)
      ensures unique == UniqueName(registry.devices, area, except, name)
    {
      hide Taken;
      var taken := set i | 0 <= i < |registry.devices| && registry.devices[i].area == area
        && Some(registry.devices[i].id) != except
                     :: registry.devices[i].name;
      forall candidate ensures candidate in taken <==> Taken(registry.devices, area, except, candidate) {
        NamesTaken(registry.devices, area, except, candidate, taken);
      }
      if name !in taken {
        return Some(name);
      }
      for index := 2 to LAST_INDEX + 1
        invariant LeastFree(registry.devices, area, except, name, 1)
          == LeastFree(registry.devices, area, except, name, index)
      {
        if Candidate(name, index) !in taken {
          return Some(Candidate(name, index));
        }
      }
      return None;
    }

    method Current(provider: Id, ref: Id) returns (i: Option<nat>)
      ensures i == FirstDevice(registry.devices, provider, ref)
    {
      for k := 0 to |registry.devices|
        invariant forall j :: 0 <= j < k ==> !IsOf(registry.devices[j], provider, ref)
      {
        if IsOf(registry.devices[k], provider, ref) {
          FirstDeviceIs(registry.devices, provider, ref, k);
          return Some(k);
        }
      }
      NoDeviceIs(registry.devices, provider, ref);
      return None;
    }

    /** One discovered device: its area, then the device itself, created or brought in line. */
    method ImportHere(provider: Id, found: Found, now: Moment, report: Report)
      returns (next: Result<Report, SyncProblem>)
      modifies this`registry
      ensures match Import(limits, provider, Pass(old(registry), report), found, now)
        case Ok(pass) => next == Ok(pass.report) && registry == pass.registry
        case Err((left, problem)) => next == Err(problem) && registry == left
    {
      hide Clip, UniqueName, EnsureArea, FirstDevice, DeviceIdFor;
      var noted := report;
      var area, full := EnsureAreaHere(found.areaName);
      if full.Some? {
        noted := noted.(skipped := noted.skipped + [full.value]);
      }
      var i := Current(provider, found.ref);
      if i.None? {
        next := Create(provider, found, area, now, noted);
      } else {
        FirstDeviceAt(registry.devices, provider, found.ref);
        var device := registry.devices[i.value];
        var name := Some(device.name);
        if "name" !in device.overrides {
          name := UniqueNameHere(area, Some(device.id), Clip(found.name));
        }
        if name.None? {
          return Err(NoUniqueName);
        }
        var proposed := Proposed(device, found, name.value, area, now);
        if !SameFacts(proposed, device) {
          registry := registry.(devices := registry.devices[i.value := proposed], revision := registry.revision + 1);
          noted := noted.(updated := noted.updated + [device.id]);
        }
        next := Ok(noted);
      }
    }

    method Create(provider: Id, found: Found, area: Option<Id>, now: Moment, report: Report)
      returns (next: Result<Report, SyncProblem>)
      modifies this`registry
      ensures var before := old(registry);
        var name := UniqueName(before.devices, area, None, Clip(found.name));
        if |before.devices| >= limits.devices then
          registry == before && next == Ok(report.(skipped := report.skipped + [(found.ref, LimitExceeded)]))
        else if name.None? then registry == before && next == Err(NoUniqueName)
        else
          var device := NewDevice(provider, found, name.value, area, now);
          if HasId(before.devices, device.id) then registry == before && next == Err(DuplicateDeviceId)
          else
            && registry == before.(devices := before.devices + [device], revision := before.revision + 1)
            && next == Ok(report.(added := report.added + [device.id]))
    {
      hide Clip, UniqueName, DeviceIdFor;
      if |registry.devices| >= limits.devices {
        return Ok(report.(skipped := report.skipped + [(found.ref, LimitExceeded)]));
      }
      var name := UniqueNameHere(area, None, Clip(found.name));
      if name.None? {
        return Err(NoUniqueName);
      }
      var device := NewDevice(provider, found, name.value, area, now);
      if HasId(registry.devices, device.id) {
        return Err(DuplicateDeviceId);
      }
      registry := registry.(devices := registry.devices + [device], revision := registry.revision + 1);
      return Ok(report.(added := report.added + [device.id]));
    }

    /** Make the registry agree with what was discovered; a refused write ends the pass where it stands. */
    method SyncHere(provider: Id, discovered: seq<Found>, now: Moment) returns (report: Result<Report, SyncProblem>)
      modifies this`registry
      ensures match Sync(limits, provider, old(registry), discovered, now)
        case Ok(pass) => report == Ok(pass.report) && registry == pass.registry
        case Err((left, problem)) => report == Err(problem) && registry == left
    {
      hide Import;
      var noted := Report([], [], [], []);
      var seen: set<Id> := {};
      for n := 0 to |discovered|
        invariant ImportAll(limits, provider, old(registry), discovered, now, n) == Ok(Pass(registry, noted))
        invariant seen == set i | 0 <= i < n :: discovered[i].ref
      {
        EffectiveUnseen(discovered, n, seen);
        var found := discovered[n];
        if found.ref in seen {
          noted := noted.(skipped := noted.skipped + [(found.ref, DuplicateRef)]);
        } else {
          var next := ImportHere(provider, found, now, noted);
          if next.Err? {
            ImportAllFails(limits, provider, old(registry), discovered, now, n + 1, |discovered|);
            return Err(next.error);
          }
          noted := next.value;
        }
        seen := seen + {found.ref};
      }
      noted := OrphanHere(provider, discovered, seen, now, noted);
      report := Ok(noted);
    }

    /** Mark what the Provider listed before and lists no more. */
    method OrphanHere(provider: Id, discovered: seq<Found>, seen: set<Id>, now: Moment, report: Report)
      returns (noted: Report)
      requires seen == set i | 0 <= i < |discovered| :: discovered[i].ref
      modifies this`registry
      ensures Pass(registry, noted) == OrphanAll(provider, Pass(old(registry), report), discovered, now,
                                                 |old(registry).devices|)
    {
      noted := report;
      var devices := registry.devices;
      for n := 0 to |devices|
        invariant Pass(registry, noted) == OrphanAll(provider, Pass(old(registry), report), discovered, now, n)
      {
        var device := devices[n];
        if device.provider == provider && device.ref !in seen && !device.orphaned {
          registry := registry.(devices := registry.devices[n := device.(orphaned := true, syncedAt := now)],
                                revision := registry.revision + 1);
          noted := noted.(orphaned := noted.orphaned + [device.id]);
        }
      }
    }
  }

  lemma NamesTaken(devices: seq<Device>, area: Option<Id>, except: Option<Id>, name: string, taken: set<string>)
    requires taken == set i | 0 <= i < |devices| && devices[i].area == area
      && Some(devices[i].id) != except :: devices[i].name
    ensures name in taken <==> Taken(devices, area, except, name)
  {
  }

  lemma FirstDeviceAt(devices: seq<Device>, provider: Id, ref: Id)
    ensures FirstDevice(devices, provider, ref).Some? ==> FirstDevice(devices, provider, ref).value < |devices|
  {
  }

  /** A pass that failed on the way has failed. */
  lemma {:induction false} ImportAllFails(l: Limits, provider: Id, registry: Registry, discovered: seq<Found>,
                                          now: Moment, n: nat, m: nat)
    requires n <= m <= |discovered| && ImportAll(l, provider, registry, discovered, now, n).Err?
    ensures ImportAll(l, provider, registry, discovered, now, m) == ImportAll(l, provider, registry, discovered, now, n)
  {
    if n < m { ImportAllFails(l, provider, registry, discovered, now, n, m - 1); }
  }
}
