/** The lineage of an Authority: database marker, external anchor and one-time bootstrap file, and what
    a start does with them when any of its three writes may be the last. */
module AuthorityBootstrap {
  import opened Prelude

  datatype Value = Number(n: int) | Text(s: string) | Other(raw: string)

  /** A JSON object. */
  type Document = map<string, Value>

  datatype Marker = Marker(domain: Id, generation: int, state: Id)

  /** A database without tables, or one with its singleton marker row, if that is there. */
  datatype Database = NoTables | Tables(marker: Option<Marker>)

  datatype World = World(database: Database, anchor: Option<Document>, bootstrap: Option<Document>)

  /** What one start is configured with. Without a bootstrap path an empty database starts a test lineage. */
  datatype Config = Config(domain: Id, generation: int, bootstrapPath: bool)

  datatype Refusal =
    | EmptyButAnchored
    | NoMatchingBootstrap
    | MarkerMissing
    | AnchorMissing
    | LineagesDiffer
    | RepairRefused

  const OPERATION := "owner-authority.bootstrap"
  const STATE_PREFIX := "authority-state_"
  const TEST_STATE := "authority-state_test-only"

  function AnchorOf(marker: Marker): Document {
    map["contract_version" := Number(1), "owner_domain_id" := Text(marker.domain),
        "owner_domain_generation" := Number(marker.generation), "state_id" := Text(marker.state)]
  }

  /** The bootstrap capability of a lineage, and nothing else in it. */
  function BootstrapOf(marker: Marker): Document {
    AnchorOf(marker)["operation" := Text(OPERATION)]
  }

  predicate Says(document: Document, key: string, value: Value) {
    key in document && document[key] == value
  }

  /** What first installation asks of a bootstrap: these keys with these values, whatever else it holds. */
  predicate Admits(document: Document, config: Config) {
    && Says(document, "contract_version", Number(1))
    && Says(document, "operation", Text(OPERATION))
    && Says(document, "owner_domain_id", Text(config.domain))
    && Says(document, "owner_domain_generation", Number(config.generation))
    && "state_id" in document && document["state_id"].Text? && STATE_PREFIX <= document["state_id"].s
  }

  function ReadBootstrap(world: World, config: Config): Option<Document> {
    if config.bootstrapPath then world.bootstrap else None
  }

  /** What a start will write, in this order. */
  datatype Plan = Plan(install: bool, createAnchor: bool, consume: bool, marker: Marker)

  function Inspect(world: World, config: Config): Result<Plan, Refusal> {
    var bootstrap := ReadBootstrap(world, config);
    match world.database
    case NoTables =>
      if world.anchor.Some? then Err(EmptyButAnchored)
      else if bootstrap.None? && !config.bootstrapPath then
        Ok(Plan(true, true, true, Marker(config.domain, config.generation, TEST_STATE)))
      else if bootstrap.None? || !Admits(bootstrap.value, config) then Err(NoMatchingBootstrap)
      else Ok(Plan(true, true, true, Marker(config.domain, config.generation, bootstrap.value["state_id"].s)))
    case Tables(row) =>
      if row.None? then Err(MarkerMissing)
      else
        var marker := row.value;
        var expected := marker.(domain := config.domain, generation := config.generation);
        if world.anchor.None? then
          if bootstrap != Some(BootstrapOf(expected)) then Err(AnchorMissing) else Ok(Plan(false, true, true, marker))
        else if marker != expected || world.anchor.value != AnchorOf(expected) then Err(LineagesDiffer)
        else Ok(Plan(false, false, bootstrap == Some(BootstrapOf(expected)), marker))
  }

  // The three writes

  datatype Write = CommitDatabase(marker: Marker) | CreateAnchor(marker: Marker) | ConsumeBootstrap

  function Writes(plan: Plan, config: Config): seq<Write> {
    (if plan.install then [CommitDatabase(plan.marker)] else [])
    + (if plan.createAnchor then [CreateAnchor(plan.marker)] else [])
    + (if plan.consume && config.bootstrapPath then [ConsumeBootstrap] else [])
  }

  function Written(world: World, write: Write): World {
    match write
    case CommitDatabase(marker) => world.(database := Tables(Some(marker)))
    case CreateAnchor(marker) => world.(anchor := Some(AnchorOf(marker)))
    case ConsumeBootstrap => world.(bootstrap := None)
  }

  function AllWritten(world: World, writes: seq<Write>): World
    decreases |writes|
  {
    if writes == [] then world else Written(AllWritten(world, writes[..|writes| - 1]), writes[|writes| - 1])
  }

  /** A start that gets through its first k writes; it completes when those are all. The repair of the
      Claim histories runs in the database transaction and may refuse it. */
  function Start(world: World, config: Config, repaired: bool, k: nat): World {
    match Inspect(world, config)
    case Err(_) => world
    case Ok(plan) =>
      if !repaired then world
      else
        var writes := Writes(plan, config);
        AllWritten(world, writes[..if k < |writes| then k else |writes|])
  }

  predicate Completes(world: World, config: Config, repaired: bool, k: nat) {
    repaired && Inspect(world, config).Ok? && k >= |Writes(Inspect(world, config).value, config)|
  }

  // Crash and restart from first installation

  /** First installation: nothing there but the exact capability of the lineage to be. */
  ghost predicate FirstInstall(world: World, config: Config, marker: Marker) {
    && config.bootstrapPath
    && marker.domain == config.domain && marker.generation == config.generation && STATE_PREFIX <= marker.state
    && world == World(NoTables, None, Some(BootstrapOf(marker)))
  }

  /** Each stage a crash can leave: before any write, and after each of the three. */
  ghost predicate Stage(world: World, marker: Marker) {
    || world == World(NoTables, None, Some(BootstrapOf(marker)))
    || world == World(Tables(Some(marker)), None, Some(BootstrapOf(marker)))
    || world == World(Tables(Some(marker)), Some(AnchorOf(marker)), Some(BootstrapOf(marker)))
    || world == World(Tables(Some(marker)), Some(AnchorOf(marker)), None)
  }

  ghost predicate Established(world: World, marker: Marker) {
    world == World(Tables(Some(marker)), Some(AnchorOf(marker)), None)
  }

  datatype Attempt = Attempt(repaired: bool, writes: nat)

  ghost function Restarts(world: World, config: Config, attempts: seq<Attempt>): World
    decreases |attempts|
  {
    if attempts == [] then world
    else
      var last := attempts[|attempts| - 1];
      Start(Restarts(world, config, attempts[..|attempts| - 1]), config, last.repaired, last.writes)
  }

  lemma StageStart(world: World, config: Config, marker: Marker, repaired: bool, k: nat)
    requires config.bootstrapPath && marker.domain == config.domain && marker.generation == config.generation
    requires STATE_PREFIX <= marker.state && Stage(world, marker)
    ensures Inspect(world, config).Ok? && Inspect(world, config).value.marker == marker
    ensures Stage(Start(world, config, repaired, k), marker)
    ensures Completes(world, config, repaired, k) ==> Established(Start(world, config, repaired, k), marker)
  {
    var writes := Writes(Inspect(world, config).value, config);
    StagePlan(world, config, marker);
    if repaired {
      var n := if k < |writes| then k else |writes|;
      assert Start(world, config, repaired, k) == AllWritten(world, writes[..n]);
      Unrolled(world, writes, n);
    }
  }

  lemma StagePlan(world: World, config: Config, marker: Marker)
    requires config.bootstrapPath && marker.domain == config.domain && marker.generation == config.generation
    requires STATE_PREFIX <= marker.state && Stage(world, marker)
    ensures Inspect(world, config).Ok?
    ensures var plan := Inspect(world, config).value;
      && plan.marker == marker
      && plan.install == world.database.NoTables? && plan.createAnchor == world.anchor.None?
      && plan.consume == world.bootstrap.Some?
  {
  }

  lemma Unrolled(world: World, writes: seq<Write>, n: nat)
    requires n <= |writes| <= 3
    ensures AllWritten(world, writes[..n])
      == if n == 0 then world
         else if n == 1 then Written(world, writes[0])
         else if n == 2 then Written(Written(world, writes[0]), writes[1])
         else Written(Written(Written(world, writes[0]), writes[1]), writes[2])
  {
    if n >= 1 { assert writes[..1][..0] == [] && AllWritten(world, writes[..1]) == Written(world, writes[0]); }
    if n >= 2 { assert writes[..2][..1] == writes[..1]; }
    if n >= 3 { assert writes[..3][..2] == writes[..2]; }
  }

  lemma {:induction false} RestartsStage(world: World, config: Config, marker: Marker, attempts: seq<Attempt>)
    requires FirstInstall(world, config, marker)
    ensures Stage(Restarts(world, config, attempts), marker)
    decreases |attempts|
  {
    hide Start, Stage;
    if attempts == [] {
      StartsAtStage(world, config, marker);
    } else {
      RestartsStage(world, config, marker, attempts[..|attempts| - 1]);
      var last := attempts[|attempts| - 1];
      StageStart(Restarts(world, config, attempts[..|attempts| - 1]), config, marker, last.repaired, last.writes);
    }
  }

  lemma StartsAtStage(world: World, config: Config, marker: Marker)
    requires FirstInstall(world, config, marker)
    ensures Stage(world, marker)
  {
  }

  /** Crash after any write and restart any number of times: a start is never refused for its lineage, and
      one that completes leaves database and anchor naming the bootstrap's lineage and no bootstrap. */
  lemma CrashesRecover(world: World, config: Config, marker: Marker, attempts: seq<Attempt>, repaired: bool, k: nat)
    requires FirstInstall(world, config, marker)
    ensures var before := Restarts(world, config, attempts);
      && Inspect(before, config).Ok?
      && (Completes(before, config, repaired, k) ==> Established(Start(before, config, repaired, k), marker))
  {
    hide Start, Stage, Inspect;
    RestartsStage(world, config, marker, attempts);
    StageStart(Restarts(world, config, attempts), config, marker, repaired, k);
  }

  /** After any accepted first installation crashed behind its database commit, the restart goes through
      exactly when the bootstrap holds the five keys and no other. */
  lemma RecoveryNeedsExactBootstrap(bootstrap: Document, config: Config)
    requires config.bootstrapPath && Admits(bootstrap, config)
    ensures var world := World(NoTables, None, Some(bootstrap));
      && Inspect(world, config).Ok?
      && (Inspect(Start(world, config, true, 1), config).Ok? <==> |bootstrap| == 5)
  {
    var world := World(NoTables, None, Some(bootstrap));
    var marker := Inspect(world, config).value.marker;
    Unrolled(world, Writes(Inspect(world, config).value, config), 1);
    assert Start(world, config, true, 1) == World(Tables(Some(marker)), None, Some(bootstrap));
    ExactBySize(bootstrap, marker);
  }

  lemma ExactBySize(bootstrap: Document, marker: Marker)
    requires forall key :: key in BootstrapOf(marker) ==> key in bootstrap && bootstrap[key] == BootstrapOf(marker)[key]
    ensures bootstrap == BootstrapOf(marker) <==> |bootstrap| == 5
  {
    var exact := BootstrapOf(marker);
    assert exact.Keys == {"contract_version", "owner_domain_id", "owner_domain_generation", "state_id", "operation"};
    assert |exact| == 5;
    assert exact.Keys <= bootstrap.Keys;
    if |bootstrap| == 5 {
      SameSize(exact.Keys, bootstrap.Keys);
    }
  }

  lemma SameSize<T>(a: set<T>, b: set<T>)
    requires a <= b && |a| == |b|
    ensures a == b
  {
    var rest := b - a;
    assert b == a + rest && |b| == |a| + |rest|;
  }

  // One lineage per anchor

  /** What may happen to an installation: starts under any configuration, a lost database, a new capability. */
  datatype Happening =
    | Started(config: Config, repaired: bool, writes: nat)
    | DatabaseLost
    | BootstrapPlaced(document: Document)

  function After(world: World, happening: Happening): World {
    match happening
    case Started(config, repaired, k) => Start(world, config, repaired, k)
    case DatabaseLost => world.(database := NoTables)
    case BootstrapPlaced(document) => world.(bootstrap := Some(document))
  }

  ghost function AfterAll(world: World, happenings: seq<Happening>): World
    decreases |happenings|
  {
    if happenings == [] then world
    else After(AfterAll(world, happenings[..|happenings| - 1]), happenings[|happenings| - 1])
  }

  /** The database is the one the anchor names, as it was, or it is gone. */
  ghost predicate Anchored(world: World, world': World) {
    && world.anchor.Some? && world'.anchor == world.anchor
    && (world'.database == world.database || world'.database.NoTables?)
  }

  lemma AnchoredStart(world: World, config: Config, repaired: bool, k: nat)
    requires world.anchor.Some?
    ensures Anchored(world, Start(world, config, repaired, k))
  {
    if Inspect(world, config).Ok? && repaired {
      var plan := Inspect(world, config).value;
      assert !plan.install && !plan.createAnchor;
      var writes := Writes(plan, config);
      assert forall i :: 0 <= i < |writes| ==> writes[i].ConsumeBootstrap?;
      Unrolled(world, writes, if k < |writes| then k else |writes|);
    }
  }

  /** Once an anchor is established nothing that happens, not the loss of the database and not a new
      capability, lets an empty database start a second lineage: the anchor stays, and a database that
      is lost stays lost to every start. */
  lemma {:induction false} AnchorAllowsOneLineage(world: World, happenings: seq<Happening>)
    requires world.anchor.Some?
    ensures Anchored(world, AfterAll(world, happenings))
    ensures AfterAll(world, happenings).database.NoTables? ==>
      forall config :: Inspect(AfterAll(world, happenings), config) == Err(EmptyButAnchored)
    decreases |happenings|
  {
    if happenings != [] {
      var before := AfterAll(world, happenings[..|happenings| - 1]);
      AnchorAllowsOneLineage(world, happenings[..|happenings| - 1]);
      match happenings[|happenings| - 1]
      case Started(config, repaired, k) => AnchoredStart(before, config, repaired, k);
      case DatabaseLost =>
      case BootstrapPlaced(_) =>
    }
  }

  // A missing anchor

  lemma NamesOneLineage(marker: Marker, other: Marker)
    ensures AnchorOf(marker) == AnchorOf(other) <==> marker == other
  {
    if AnchorOf(marker) == AnchorOf(other) {
      assert AnchorOf(marker)["owner_domain_id"] == AnchorOf(other)["owner_domain_id"];
      assert AnchorOf(marker)["owner_domain_generation"] == AnchorOf(other)["owner_domain_generation"];
      assert AnchorOf(marker)["state_id"] == AnchorOf(other)["state_id"];
    }
  }

  /** An established lineage admits exactly the starts configured for it, and they write nothing. */
  lemma EstablishedAdmits(world: World, marker: Marker, config: Config, repaired: bool, k: nat)
    requires Established(world, marker)
    ensures Inspect(world, config).Ok? <==> config.domain == marker.domain && config.generation == marker.generation
    ensures Inspect(world, config).Err? ==> Inspect(world, config) == Err(LineagesDiffer)
    ensures Start(world, config, repaired, k) == world
  {
    NamesOneLineage(marker, marker.(domain := config.domain, generation := config.generation));
    hide AnchorOf;
  }

  lemma {:induction false} EstablishedStands(world: World, marker: Marker, starts: seq<Happening>)
    requires Established(world, marker) && forall i :: 0 <= i < |starts| ==> starts[i].Started?
    ensures AfterAll(world, starts) == world
    decreases |starts|
  {
    if starts != [] {
      var n := |starts| - 1;
      EstablishedStands(world, marker, starts[..n]);
      EstablishedAdmits(world, marker, starts[n].config, starts[n].repaired, starts[n].writes);
    }
  }

  /** While the anchor is missing a start compares the bootstrap, not the database row, with its configuration:
      it goes through exactly when the bootstrap is the configured Owner's for the row's state. Completed, it
      leaves the anchor of the row's own Owner, and from then on exactly the starts configured for that Owner
      are accepted: the start that wrote the anchor is accepted again exactly when it was that Owner's. */
  lemma MissingAnchorIsNotCompared(config: Config, marker: Marker, bootstrap: Option<Document>, starts: seq<Happening>,
                                   later: Config)
    requires forall i :: 0 <= i < |starts| ==> starts[i].Started?
    ensures var world := World(Tables(Some(marker)), None, bootstrap);
      var configured := marker.(domain := config.domain, generation := config.generation);
      && (Inspect(world, config).Ok? <==> config.bootstrapPath && bootstrap == Some(BootstrapOf(configured)))
      && (Inspect(world, config).Ok? ==>
            && Completes(world, config, true, 2)
            && Established(AfterAll(Start(world, config, true, 2), starts), marker)
            && var again := Inspect(AfterAll(Start(world, config, true, 2), starts), later);
               && (again.Ok? <==> later.domain == marker.domain && later.generation == marker.generation)
               && (again.Err? ==> again == Err(LineagesDiffer)))
  {
    var world := World(Tables(Some(marker)), None, bootstrap);
    if Inspect(world, config).Ok? {
      var writes := Writes(Inspect(world, config).value, config);
      assert writes == [CreateAnchor(marker), ConsumeBootstrap];
      Unrolled(world, writes, 2);
      var after := Start(world, config, true, 2);
      assert Established(after, marker);
      EstablishedStands(after, marker, starts);
      EstablishedAdmits(after, marker, later, true, 0);
    }
  }

  // A start, in place

  class HubDatabase {
    const config: Config
    var database: Database
    var anchor: Option<Document>
    var bootstrap: Option<Document>

    function Found(): World
      reads this
    {
      World(database, anchor, bootstrap)
    }

    constructor (config: Config, world: World)
      ensures this.config == config && Found() == world
    {
      this.config := config;
      database, anchor, bootstrap := world.database, world.anchor, world.bootstrap;
    }

    /** Create first-install state, finish one that was interrupted, or verify the lineage there is. */
    method InitializeSchema(repaired: bool) returns (refused: Option<Refusal>)
      modifies this
      ensures refused.None? <==> Inspect(old(Found()), config).Ok? && repaired
      ensures refused.None? ==> Found() == Start(old(Found()), config, repaired, 3)
      ensures refused.Some? ==> Found() == old(Found())
    {
      var inspected := Inspect(Found(), config);
      if inspected.Err? {
        return Some(inspected.error);
      }
      if !repaired {
        return Some(RepairRefused);
      }
      var plan := inspected.value;
      ghost var writes := Writes(plan, config);
      Unrolled(Found(), writes, |writes|);
      if plan.install {
        database := Tables(Some(plan.marker));
      }
      if plan.createAnchor {
        anchor := Some(AnchorOf(plan.marker));
      }
      if plan.consume && config.bootstrapPath {
        bootstrap := None;
      }
      assert writes[..|writes|] == writes;
      return None;
    }
  }
}
