/** The last observed fact per target and its change stream: the memory cache, the SQLite cache, and a
    reader that follows either. */
module Observations {
  import opened Prelude

  datatype Fact = Fact(reachable: bool, state: Option<string>)

  datatype Observed = Observed(target: Id, fact: Fact, at: Moment, number: nat)

  /** One Owner's rows, by target. */
  type Rows = map<Id, Observed>

  // One Owner's cache

  datatype Cache = Cache(rows: Rows, top: nat)

  predicate Unchanged(rows: Rows, target: Id, fact: Fact) {
    target in rows && rows[target].fact == fact
  }

  /** Record an observation; only a changed one takes the number given and is returned. */
  function Recorded(rows: Rows, target: Id, fact: Fact, at: Moment, number: nat): (Rows, Option<Observed>) {
    if Unchanged(rows, target, fact) then (rows[target := rows[target].(at := at)], None)
    else
      var observed := Observed(target, fact, at, number);
      (rows[target := observed], Some(observed))
  }

  function PutMemory(cache: Cache, target: Id, fact: Fact, at: Moment): (Cache, Option<Observed>) {
    var (rows, observed) := Recorded(cache.rows, target, fact, at, cache.top + 1);
    (Cache(rows, if observed.Some? then cache.top + 1 else cache.top), observed)
  }

  function Forgotten(rows: Rows, targets: set<Id>): Rows {
    rows - targets
  }

  /** `MAX(seq)` over the rows that are there, or 0. */
  ghost predicate IsMaxNumber(rows: Rows, n: nat) {
    && (forall t :: t in rows ==> rows[t].number <= n)
    && (n == 0 || exists t :: t in rows && rows[t].number == n)
  }

  lemma {:induction false} MaxNumberExists(rows: Rows)
    ensures exists n: nat :: IsMaxNumber(rows, n)
    decreases |rows|
  {
    if rows == map[] {
      assert IsMaxNumber(rows, 0);
    } else {
      var t :| t in rows;
      var rest := rows - {t};
      assert rest.Keys == rows.Keys - {t};
      MaxNumberExists(rest);
      var n: nat :| IsMaxNumber(rest, n);
      var m := if rows[t].number > n then rows[t].number else n;
      forall u | u in rows ensures rows[u].number <= m {
        if u != t { assert u in rest; }
      }
      assert IsMaxNumber(rows, m);
    }
  }

  ghost function MaxNumber(rows: Rows): (n: nat)
    ensures IsMaxNumber(rows, n)
  {
    MaxNumberExists(rows);
    var n: nat :| IsMaxNumber(rows, n);
    n
  }

  lemma MaxNumberIs(rows: Rows, n: nat)
    requires IsMaxNumber(rows, n)
    ensures MaxNumber(rows) == n
  {
  }

  ghost function PutSqlite(rows: Rows, target: Id, fact: Fact, at: Moment): (Rows, Option<Observed>) {
    Recorded(rows, target, fact, at, MaxNumber(rows) + 1)
  }

  // Changes

  /** Exactly the rows after the cursor, in the order of their numbers. */
  ghost predicate IsChanges(rows: Rows, cursor: nat, changes: seq<Observed>) {
    && IsRows(rows, cursor, changes) && Ascending(changes)
    && (forall t :: t in rows && rows[t].number > cursor ==> rows[t] in changes)
  }

  ghost predicate RowsNamed(rows: Rows) {
    forall t :: t in rows ==> rows[t].target == t
  }

  /** Those changes are collected, in order, and every other row after the cursor is among the rest, no earlier. */
  ghost predicate Collected(rows: Rows, cursor: nat, changes: seq<Observed>, rest: set<Id>) {
    && IsRows(rows, cursor, changes) && Ascending(changes)
    && (forall t :: t in rest ==> t in rows && rows[t].number > cursor)
    && (forall i, t :: 0 <= i < |changes| && t in rest ==>
          changes[i].number <= rows[t].number && changes[i].target != t)
    && (forall t :: t in rows && rows[t].number > cursor ==> t in rest || rows[t] in changes)
  }

  predicate IsRows(rows: Rows, cursor: nat, changes: seq<Observed>) {
    forall i :: 0 <= i < |changes| ==>
      changes[i].number > cursor && changes[i].target in rows && rows[changes[i].target] == changes[i]
  }

  predicate Ascending(changes: seq<Observed>) {
    forall i, j :: 0 <= i < j < |changes| ==>
      changes[i].number <= changes[j].number && changes[i].target != changes[j].target
  }

  lemma OneMoreCollected(rows: Rows, cursor: nat, changes: seq<Observed>, rest: set<Id>, least: Id)
    requires RowsNamed(rows) && Collected(rows, cursor, changes, rest)
    requires least in rest && forall t :: t in rest ==> rows[least].number <= rows[t].number
    ensures Collected(rows, cursor, changes + [rows[least]], rest - {least})
  {
    var more := changes + [rows[least]];
    assert Ascending(more);
    forall t | t in rows && rows[t].number > cursor ensures t in rest - {least} || rows[t] in more {
      if t == least { assert more[|changes|] == rows[t]; }
    }
  }

  /** Rows after the cursor, sorted by number: take the least of what is left until nothing is. */
  method ChangesAfter(rows: Rows, cursor: nat) returns (changes: seq<Observed>)
    requires RowsNamed(rows)
    ensures IsChanges(rows, cursor, changes)
  {
    changes := [];
    var rest := set t | t in rows && rows[t].number > cursor;
    while rest != {}
      invariant rest <= rows.Keys && Collected(rows, cursor, changes, rest)
      decreases rest
    {
      var least := Least(rows, rest);
      OneMoreCollected(rows, cursor, changes, rest, least);
      changes := changes + [rows[least]];
      rest := rest - {least};
    }
  }

  method Least(rows: Rows, among: set<Id>) returns (least: Id)
    requires among != {} && among <= rows.Keys
    ensures least in among && forall t :: t in among ==> rows[least].number <= rows[t].number
  {
    least :| least in among;
    var rest := among - {least};
    while rest != {}
      invariant rest <= among && least in among
      invariant forall t :: t in among && t !in rest ==> rows[least].number <= rows[t].number
      decreases rest
    {
      var t :| t in rest;
      if rows[t].number < rows[least].number {
        least := t;
      }
      rest := rest - {t};
    }
  }

  // A reader

  datatype Reader = Reader(cursor: nat, replica: map<Id, Fact>)

  /** Apply changes one by one and advance to the last number seen. */
  function Followed(reader: Reader, changes: seq<Observed>): Reader
    decreases |changes|
  {
    if changes == [] then reader
    else
      var last := changes[|changes| - 1];
      var before := Followed(reader, changes[..|changes| - 1]);
      Reader(last.number, before.replica[last.target := last.fact])
  }

  ghost predicate Numbered(cache: Cache) {
    && RowsNamed(cache.rows)
    && (forall t :: t in cache.rows ==> 1 <= cache.rows[t].number <= cache.top)
    && (forall t, u :: t in cache.rows && u in cache.rows && cache.rows[t].number == cache.rows[u].number ==> t == u)
  }

  /** Everything numbered up to the cursor is as the replica has it. */
  ghost predicate UpToDate(cache: Cache, reader: Reader) {
    && reader.cursor <= cache.top
    && forall t :: t in cache.rows && cache.rows[t].number <= reader.cursor ==>
         t in reader.replica && reader.replica[t] == cache.rows[t].fact
  }

  lemma PutKeeps(cache: Cache, reader: Reader, target: Id, fact: Fact, at: Moment)
    requires Numbered(cache) && UpToDate(cache, reader)
    ensures Numbered(PutMemory(cache, target, fact, at).0) && UpToDate(PutMemory(cache, target, fact, at).0, reader)
  {
  }

  lemma ForgetKeeps(cache: Cache, reader: Reader, targets: set<Id>)
    requires Numbered(cache) && UpToDate(cache, reader)
    ensures Numbered(cache.(rows := Forgotten(cache.rows, targets)))
    ensures UpToDate(cache.(rows := Forgotten(cache.rows, targets)), reader)
  {
  }

  lemma {:induction false} FollowedReplica(reader: Reader, changes: seq<Observed>)
    requires forall i, j :: 0 <= i < j < |changes| ==> changes[i].target != changes[j].target
    ensures forall i :: 0 <= i < |changes| ==>
      changes[i].target in Followed(reader, changes).replica
        && Followed(reader, changes).replica[changes[i].target] == changes[i].fact
    ensures forall t :: t in reader.replica && (forall i :: 0 <= i < |changes| ==> changes[i].target != t) ==>
      t in Followed(reader, changes).replica && Followed(reader, changes).replica[t] == reader.replica[t]
    ensures Followed(reader, changes).cursor == if changes == [] then reader.cursor else changes[|changes| - 1].number
    decreases |changes|
  {
    if changes != [] { FollowedReplica(reader, changes[..|changes| - 1]); }
  }

  /** One read from an up-to-date reader's cursor brings every live target. */
  lemma ReadCatchesUp(cache: Cache, reader: Reader, changes: seq<Observed>)
    requires Numbered(cache) && UpToDate(cache, reader) && IsChanges(cache.rows, reader.cursor, changes)
    ensures Numbered(cache) && UpToDate(cache, Followed(reader, changes))
    ensures forall t :: t in cache.rows ==>
      t in Followed(reader, changes).replica && Followed(reader, changes).replica[t] == cache.rows[t].fact
  {
    FollowedReplica(reader, changes);
    forall t | t in cache.rows
      ensures t in Followed(reader, changes).replica && Followed(reader, changes).replica[t] == cache.rows[t].fact
    {
      if cache.rows[t].number > reader.cursor {
        var i :| 0 <= i < |changes| && changes[i] == cache.rows[t];
      } else {
        assert forall i :: 0 <= i < |changes| ==> changes[i].target != t;
      }
    }
  }

  // Runs

  datatype Step =
    | Put(target: Id, fact: Fact, at: Moment)
    | Forget(targets: set<Id>)
    | Read(changes: seq<Observed>) // the reader asks for what is after its cursor and applies it

  datatype Memory = Memory(cache: Cache, reader: Reader)

  const Start := Memory(Cache(map[], 0), Reader(0, map[]))

  ghost function Do(m: Memory, step: Step): Memory {
    match step
    case Put(target, fact, at) => m.(cache := PutMemory(m.cache, target, fact, at).0)
    case Forget(targets) => m.(cache := m.cache.(rows := Forgotten(m.cache.rows, targets)))
    case Read(changes) =>
      if IsChanges(m.cache.rows, m.reader.cursor, changes) then m.(reader := Followed(m.reader, changes)) else m
  }

  ghost function DoAll(steps: seq<Step>): Memory
    decreases |steps|
  {
    if steps == [] then Start else Do(DoAll(steps[..|steps| - 1]), steps[|steps| - 1])
  }

  lemma {:induction false} RunUpToDate(steps: seq<Step>)
    ensures Numbered(DoAll(steps).cache) && UpToDate(DoAll(steps).cache, DoAll(steps).reader)
    decreases |steps|
  {
    if steps != [] {
      var m := DoAll(steps[..|steps| - 1]);
      RunUpToDate(steps[..|steps| - 1]);
      hide Numbered, UpToDate;
      match steps[|steps| - 1]
      case Put(target, fact, at) => PutKeeps(m.cache, m.reader, target, fact, at);
      case Forget(targets) => ForgetKeeps(m.cache, m.reader, targets);
      case Read(changes) =>
        if IsChanges(m.cache.rows, m.reader.cursor, changes) { ReadCatchesUp(m.cache, m.reader, changes); }
    }
  }

  /** A reader that applies what is after its cursor and moves to the last number holds, after every
      read, the current value of every live target, across any puts and forgets. */
  lemma ReplicaHoldsLiveTargets(steps: seq<Step>, changes: seq<Observed>, t: Id)
    requires IsChanges(DoAll(steps).cache.rows, DoAll(steps).reader.cursor, changes)
    ensures var after := DoAll(steps + [Read(changes)]);
      t in after.cache.rows ==> t in after.reader.replica && after.reader.replica[t] == after.cache.rows[t].fact
  {
    RunUpToDate(steps);
    assert (steps + [Read(changes)])[..|steps|] == steps;
    ReadCatchesUp(DoAll(steps).cache, DoAll(steps).reader, changes);
  }

  // SQLite against memory

  datatype Sqlite = Sqlite(rows: Rows, reader: Reader)

  const SqliteStart := Sqlite(map[], Reader(0, map[]))

  ghost function SqliteDo(q: Sqlite, step: Step): Sqlite {
    match step
    case Put(target, fact, at) => q.(rows := PutSqlite(q.rows, target, fact, at).0)
    case Forget(targets) => q.(rows := Forgotten(q.rows, targets))
    case Read(changes) =>
      if IsChanges(q.rows, q.reader.cursor, changes) then q.(reader := Followed(q.reader, changes)) else q
  }

  ghost function SqliteAll(q: Sqlite, steps: seq<Step>): Sqlite
    decreases |steps|
  {
    if steps == [] then q else SqliteDo(SqliteAll(q, steps[..|steps| - 1]), steps[|steps| - 1])
  }

  ghost function SqliteRows(steps: seq<Step>): Rows {
    SqliteAll(SqliteStart, steps).rows
  }

  /** The same rows with the same numbers, the same number to come, and the same reader. */
  ghost predicate Matches(steps: seq<Step>) {
    && SqliteRows(steps) == DoAll(steps).cache.rows && MaxNumber(SqliteRows(steps)) == DoAll(steps).cache.top
    && SqliteAll(SqliteStart, steps).reader == DoAll(steps).reader
  }

  ghost predicate DropsNewest(rows: Rows, targets: set<Id>) {
    exists t :: t in targets && t in rows && rows[t].number == MaxNumber(rows)
  }

  /** No forget takes the row with the Owner's highest number. */
  ghost predicate KeepsNewest(steps: seq<Step>)
    decreases |steps|
  {
    steps == [] ||
    var n := |steps| - 1;
    KeepsNewest(steps[..n]) && (steps[n].Forget? ==> !DropsNewest(SqliteRows(steps[..n]), steps[n].targets))
  }

  ghost predicate MatchesThroughout(steps: seq<Step>)
    decreases |steps|
  {
    Matches(steps) && (steps != [] ==> MatchesThroughout(steps[..|steps| - 1]))
  }

  lemma PutMatches(rows: Rows, cache: Cache, target: Id, fact: Fact, at: Moment)
    requires rows == cache.rows && MaxNumber(rows) == cache.top && Numbered(cache)
    ensures PutSqlite(rows, target, fact, at).1 == PutMemory(cache, target, fact, at).1
    ensures PutSqlite(rows, target, fact, at).0 == PutMemory(cache, target, fact, at).0.rows
    ensures MaxNumber(PutSqlite(rows, target, fact, at).0) == PutMemory(cache, target, fact, at).0.top
  {
    var rows' := PutSqlite(rows, target, fact, at).0;
    var n := PutMemory(cache, target, fact, at).0.top;
    if Unchanged(rows, target, fact) {
      if n > 0 {
        var t :| t in rows && rows[t].number == n;
        assert rows'[t].number == n;
      }
    } else {
      assert rows'[target].number == n;
    }
    MaxNumberIs(rows', n);
  }

  /** A forget leaves the highest number in place exactly when it does not take the row that has it. */
  lemma ForgetMatches(cache: Cache, targets: set<Id>)
    requires MaxNumber(cache.rows) == cache.top && Numbered(cache)
    ensures MaxNumber(Forgotten(cache.rows, targets)) == cache.top <==> !DropsNewest(cache.rows, targets)
  {
    var left := Forgotten(cache.rows, targets);
    if cache.top > 0 {
      var newest :| newest in cache.rows && cache.rows[newest].number == cache.top;
      assert DropsNewest(cache.rows, targets) <==> newest in targets;
      if newest !in targets {
        assert left[newest].number == cache.top;
        MaxNumberIs(left, cache.top);
      }
    }
  }

  /** The SQLite cache matches the memory cache step for step exactly on the runs where no forget drops
      the Owner's newest row. */
  lemma {:induction false} SqliteMatchesMemory(steps: seq<Step>)
    ensures MatchesThroughout(steps) <==> KeepsNewest(steps)
    decreases |steps|
  {
    if steps == [] {
      MaxNumberIs(map[], 0);
    } else {
      var n := |steps| - 1;
      SqliteMatchesMemory(steps[..n]);
      if MatchesThroughout(steps[..n]) {
        RunUpToDate(steps[..n]);
        hide Numbered, UpToDate, DropsNewest, MaxNumber, PutMemory, PutSqlite;
        var cache := DoAll(steps[..n]).cache;
        match steps[n]
        case Put(target, fact, at) => PutMatches(cache.rows, cache, target, fact, at);
        case Forget(targets) => ForgetMatches(cache, targets);
        case Read(_) =>
      }
    }
  }

  lemma MatchesNow(steps: seq<Step>)
    requires MatchesThroughout(steps)
    ensures Matches(steps)
  {
  }

  /** So on those runs a reader of the SQLite cache, too, holds every live target after each read. */
  lemma SqliteReplicaHoldsLiveTargets(steps: seq<Step>, changes: seq<Observed>, t: Id)
    requires KeepsNewest(steps)
    requires IsChanges(SqliteRows(steps), SqliteAll(SqliteStart, steps).reader.cursor, changes)
    ensures var after := SqliteAll(SqliteStart, steps + [Read(changes)]);
      t in after.rows ==> t in after.reader.replica && after.reader.replica[t] == after.rows[t].fact
  {
    SqliteMatchesMemory(steps);
    MatchesNow(steps);
    ReplicaHoldsLiveTargets(steps, changes, t);
    assert (steps + [Read(changes)])[..|steps|] == steps;
    hide IsChanges, MatchesThroughout, KeepsNewest;
  }

  /** The reader is past the number of this row. */
  ghost predicate Passed(q: Sqlite, t: Id) {
    RowsNamed(q.rows) && t in q.rows && q.rows[t].number <= q.reader.cursor
  }

  /** Nothing in these steps changes the row: no forget of it and no observation of another fact. */
  predicate Leaves(steps: seq<Step>, t: Id, fact: Fact) {
    forall i :: 0 <= i < |steps| ==>
      (steps[i].Put? && steps[i].target == t ==> steps[i].fact == fact) && (steps[i].Forget? ==> t !in steps[i].targets)
  }

  function Seen(reader: Reader, t: Id): Option<Fact> {
    if t in reader.replica then Some(reader.replica[t]) else None
  }

  lemma {:induction false} FollowedElsewhere(reader: Reader, changes: seq<Observed>, t: Id)
    requires forall i :: 0 <= i < |changes| ==> changes[i].target != t && changes[i].number > reader.cursor
    ensures Seen(Followed(reader, changes), t) == Seen(reader, t) && Followed(reader, changes).cursor >= reader.cursor
    decreases |changes|
  {
    if changes != [] {
      FollowedElsewhere(reader, changes[..|changes| - 1], t);
      assert changes[|changes| - 1].target != t;
    }
  }

  lemma PassedByStep(q: Sqlite, step: Step, t: Id)
    requires Passed(q, t) && Leaves([step], t, q.rows[t].fact)
    ensures var q' := SqliteDo(q, step);
      Passed(q', t) && q'.rows[t].fact == q.rows[t].fact && Seen(q'.reader, t) == Seen(q.reader, t)
  {
    assert [step][0] == step;
    if step.Read? && IsChanges(q.rows, q.reader.cursor, step.changes) {
      FollowedElsewhere(q.reader, step.changes, t);
    }
    hide MaxNumber;
  }

  /** A row the reader is past is never seen: as long as it stays as it is, whatever else is put, forgotten and
      read, the replica of its target stays as it is. */
  lemma {:induction false} PassedIsNeverSeen(q: Sqlite, steps: seq<Step>, t: Id)
    requires Passed(q, t) && Leaves(steps, t, q.rows[t].fact)
    ensures var q' := SqliteAll(q, steps);
      Passed(q', t) && q'.rows[t].fact == q.rows[t].fact && Seen(q'.reader, t) == Seen(q.reader, t)
    decreases |steps|
  {
    if steps != [] {
      var n := |steps| - 1;
      PassedIsNeverSeen(q, steps[..n], t);
      assert Leaves([steps[n]], t, q.rows[t].fact);
      hide Passed, SqliteDo;
      PassedByStep(SqliteAll(q, steps[..n]), steps[n], t);
    }
  }

  lemma {:induction false} SqliteSplits(q: Sqlite, xs: seq<Step>, ys: seq<Step>)
    ensures SqliteAll(q, xs + ys) == SqliteAll(SqliteAll(q, xs), ys)
    decreases |ys|
  {
    hide SqliteDo;
    if ys == [] {
      assert xs + ys == xs;
    } else {
      assert (xs + ys)[..|xs + ys| - 1] == xs + ys[..|ys| - 1];
      SqliteSplits(q, xs, ys[..|ys| - 1]);
    }
  }

  /** What goes wrong otherwise: forgetting the newest row gives its number out again, and a reader past that number
      never sees the new row, however long it reads on. */
  lemma ForgottenNumberIsReused(fact: Fact, at: Moment, later: seq<Step>)
    requires Leaves(later, "b", fact)
    ensures var q := SqliteAll(SqliteStart, ReusingRun(fact, at) + later);
      "b" in q.rows && q.rows["b"].fact == fact && "b" !in q.reader.replica
    ensures SqliteRows(ReusingRun(fact, at)) == map["b" := Observed("b", fact, at, 1)]
    ensures DoAll(ReusingRun(fact, at)).cache.rows == map["b" := Observed("b", fact, at, 2)]
    ensures !KeepsNewest(ReusingRun(fact, at))
  {
    ReusedRows(fact, at);
    hide ReusingRun;
    SqliteSplits(SqliteStart, ReusingRun(fact, at), later);
    var q := SqliteAll(SqliteStart, ReusingRun(fact, at));
    assert Passed(q, "b") && Seen(q.reader, "b").None?;
    PassedIsNeverSeen(q, later, "b");
    SqliteMatchesMemory(ReusingRun(fact, at));
    assert !Matches(ReusingRun(fact, at));
  }

  /** A target observed, read and forgotten, and then another one observed. */
  function ReusingRun(fact: Fact, at: Moment): seq<Step> {
    [Put("a", fact, at), Read([Observed("a", fact, at, 1)]), Forget({"a"}), Put("b", fact, at)]
  }

  lemma ReusedRows(fact: Fact, at: Moment)
    ensures SqliteAll(SqliteStart, ReusingRun(fact, at))
      == Sqlite(map["b" := Observed("b", fact, at, 1)], Reader(1, map["a" := fact]))
    ensures DoAll(ReusingRun(fact, at)).cache == Cache(map["b" := Observed("b", fact, at, 2)], 2)
  {
    var seen := Observed("a", fact, at, 1);
    var a, r, f, b := Put("a", fact, at), Read([seen]), Forget({"a"}), Put("b", fact, at);
    assert [a, r, f, b][..3] == [a, r, f] && [a, r, f][..2] == [a, r] && [a, r][..1] == [a] && [a][..0] == [];
    MaxNumberIs(map[], 0);
    assert [seen][..0] == [] && Followed(Reader(0, map[]), [seen]) == Reader(1, map["a" := fact]);
    assert IsChanges(map["a" := seen], 0, [seen]) by { assert [seen][0] == seen; }
    assert SqliteAll(SqliteStart, []) == SqliteStart && DoAll([]) == Start;
    assert SqliteAll(SqliteStart, [a]) == Sqlite(map["a" := seen], Reader(0, map[]));
    assert SqliteAll(SqliteStart, [a, r]) == Sqlite(map["a" := seen], Reader(1, map["a" := fact]));
    assert SqliteAll(SqliteStart, [a, r, f]) == Sqlite(map[], Reader(1, map["a" := fact]));
    assert DoAll([a]) == Memory(Cache(map["a" := seen], 1), Reader(0, map[]));
    assert DoAll([a, r]).cache == Cache(map["a" := seen], 1);
    assert DoAll([a, r, f]).cache == Cache(map[], 1);
  }

  // Both caches, in place

  class MemoryObservationCache {
    var rows: map<Id, Rows>
    var tops: map<Id, nat>

    ghost function Of(owner: Id): Cache
      reads this
    {
      Cache(if owner in rows then rows[owner] else map[], if owner in tops then tops[owner] else 0)
    }

    constructor ()
      ensures forall owner :: Of(owner) == Start.cache
    {
      rows, tops := map[], map[];
    }

    method Put(owner: Id, target: Id, fact: Fact, at: Moment) returns (observed: Option<Observed>)
      modifies this
      ensures (Of(owner), observed) == PutMemory(old(Of(owner)), target, fact, at)
      ensures forall other :: other != owner ==> Of(other) == old(Of(other))
    {
      if owner !in rows {
        rows := rows[owner := map[]];
      }
      var mine := rows[owner];
      if target in mine && mine[target].fact == fact {
        rows := rows[owner := mine[target := mine[target].(at := at)]];
        return None;
      }
      var number := (if owner in tops then tops[owner] else 0) + 1;
      tops := tops[owner := number];
      rows := rows[owner := mine[target := Observed(target, fact, at, number)]];
      return Some(Observed(target, fact, at, number));
    }

    method Forget(owner: Id, targets: set<Id>)
      modifies this`rows
      ensures Of(owner) == old(Of(owner)).(rows := Forgotten(old(Of(owner)).rows, targets))
      ensures forall other :: other != owner ==> Of(other) == old(Of(other))
    {
      if owner in rows {
        var mine := rows[owner];
        var rest := targets;
        while rest != {}
          invariant rest <= targets && mine == rows[owner] - (targets - rest)
          decreases rest
        {
          var target :| target in rest;
          mine := mine - {target};
          rest := rest - {target};
        }
        rows := rows[owner := mine];
      }
    }

    method ChangesSince(owner: Id, cursor: nat) returns (changes: seq<Observed>)
      requires RowsNamed(Of(owner).rows)
      ensures IsChanges(Of(owner).rows, cursor, changes)
    {
      changes := ChangesAfter(if owner in rows then rows[owner] else map[], cursor);
    }
  }

  /** One Owner's part of the table. */
  ghost function OwnerRows(table: map<(Id, Id), Observed>, owner: Id): Rows {
    map k | k in table && k.0 == owner :: k.1 := table[k]
  }

  lemma RowAt(table: map<(Id, Id), Observed>, owner: Id, target: Id)
    ensures target in OwnerRows(table, owner) <==> (owner, target) in table
    ensures target in OwnerRows(table, owner) ==> OwnerRows(table, owner)[target] == table[(owner, target)]
  {
  }

  lemma RowWritten(table: map<(Id, Id), Observed>, owner: Id, target: Id, observed: Observed)
    ensures OwnerRows(table[(owner, target) := observed], owner) == OwnerRows(table, owner)[target := observed]
  {
    var left, right := OwnerRows(table[(owner, target) := observed], owner),
      OwnerRows(table, owner)[target := observed];
    forall t ensures (t in left <==> t in right) && (t in left ==> left[t] == right[t]) {
      RowAt(table, owner, t);
      RowAt(table[(owner, target) := observed], owner, t);
      hide OwnerRows;
    }
  }

  lemma ElsewhereKept(table: map<(Id, Id), Observed>, owner: Id, target: Id, observed: Observed, other: Id)
    requires other != owner
    ensures OwnerRows(table[(owner, target) := observed], other) == OwnerRows(table, other)
  {
  }

  class SqliteObservationCache {
    var table: map<(Id, Id), Observed>

    constructor ()
      ensures table == map[]
    {
      table := map[];
    }

    /** The highest number among the rows this Owner has now. */
    method LatestNumber(owner: Id) returns (top: nat)
      ensures top == MaxNumber(OwnerRows(table, owner))
    {
      top := 0;
      var rest := table.Keys;
      while rest != {}
        invariant rest <= table.Keys
        invariant forall k :: k in table && k !in rest && k.0 == owner ==> table[k].number <= top
        invariant top == 0 || exists t :: t in OwnerRows(table, owner) && OwnerRows(table, owner)[t].number == top
        decreases rest
      {
        var k :| k in rest;
        if k.0 == owner && table[k].number > top {
          top := table[k].number;
          RowAt(table, owner, k.1);
        }
        rest := rest - {k};
      }
      forall t | t in OwnerRows(table, owner) ensures OwnerRows(table, owner)[t].number <= top {
        RowAt(table, owner, t);
      }
      MaxNumberIs(OwnerRows(table, owner), top);
    }

    method Put(owner: Id, target: Id, fact: Fact, at: Moment) returns (observed: Option<Observed>)
      modifies this
      ensures (OwnerRows(table, owner), observed) == PutSqlite(OwnerRows(old(table), owner), target, fact, at)
      ensures forall other :: other != owner ==> OwnerRows(table, other) == OwnerRows(old(table), other)
    {
      hide OwnerRows, MaxNumber;
      var k := (owner, target);
      RowAt(table, owner, target);
      var row: Observed;
      if k in table && table[k].fact == fact {
        row, observed := table[k].(at := at), None;
      } else {
        var top := LatestNumber(owner);
        row := Observed(target, fact, at, top + 1);
        observed := Some(row);
      }
      RowWritten(table, owner, target, row);
      forall other | other != owner ensures OwnerRows(table[k := row], other) == OwnerRows(table, other) {
        ElsewhereKept(table, owner, target, row, other);
      }
      table := table[k := row];
    }

    method Forget(owner: Id, targets: set<Id>)
      modifies this
      ensures OwnerRows(table, owner) == Forgotten(OwnerRows(old(table), owner), targets)
      ensures forall other :: other != owner ==> OwnerRows(table, other) == OwnerRows(old(table), other)
    {
      var rest := targets;
      while rest != {}
        invariant rest <= targets
        invariant forall k :: k in table <==> k in old(table) && !(k.0 == owner && k.1 in targets - rest)
        invariant forall k :: k in table ==> table[k] == old(table)[k]
        decreases rest
      {
        var target :| target in rest;
        table := table - {(owner, target)};
        rest := rest - {target};
      }
      ForgottenRows(old(table), table, owner, targets);
    }
  }

  lemma ForgottenRows(table: map<(Id, Id), Observed>, table': map<(Id, Id), Observed>, owner: Id, targets: set<Id>)
    requires forall k :: k in table' <==> k in table && !(k.0 == owner && k.1 in targets)
    requires forall k :: k in table' ==> table'[k] == table[k]
    ensures OwnerRows(table', owner) == Forgotten(OwnerRows(table, owner), targets)
    ensures forall other :: other != owner ==> OwnerRows(table', other) == OwnerRows(table, other)
  {
    forall other, t
      ensures (t in OwnerRows(table', other) <==> t in OwnerRows(table, other) && !(other == owner && t in targets))
      ensures t in OwnerRows(table', other) ==> OwnerRows(table', other)[t] == OwnerRows(table, other)[t]
    {
      RowAt(table, other, t);
      RowAt(table', other, t);
      hide OwnerRows;
    }
    hide OwnerRows;
    forall other | other != owner ensures OwnerRows(table', other) == OwnerRows(table, other) {
      assert forall t :: t in OwnerRows(table', other) <==> t in OwnerRows(table, other);
    }
  }
}
