/** Reading Admission page by page: the Claim-event stream and the Proposals in given states, while
    transactions go on between the pages. */
module Pages {
  import opened Prelude
  import opened AdmissionDomain
  import opened AdmissionTables
  import opened AdmissionCommands
  import opened AdmissionInvariant
  import opened AdmissionHistory

  // Claim events

  /** The stream table: events by position. Positions are assigned from 1 up and never again. */
  type StreamTable = map<nat, ClaimEvent>

  datatype EventPage = EventPage(positions: seq<nat>, events: seq<ClaimEvent>, high: nat) | CursorGap

  ghost predicate IsHigh(table: StreamTable, n: nat) {
    (forall p :: p in table ==> p <= n) && (n == 0 || n in table)
  }

  /** The first rows after a position, at most `limit` of them. */
  ghost predicate FirstAfter(table: StreamTable, after: nat, limit: nat, rows: seq<nat>) {
    && |rows| <= limit
    && (forall i :: 0 <= i < |rows| ==> rows[i] in table && rows[i] > after)
    && (forall i, j :: 0 <= i < j < |rows| ==> rows[i] < rows[j])
    && (forall p :: p in table && p > after && p !in rows ==>
          |rows| == limit && forall i :: 0 <= i < |rows| ==> rows[i] < p)
  }

  predicate Consecutive(after: nat, rows: seq<nat>) {
    forall i :: 0 <= i < |rows| ==> rows[i] == after + 1 + i
  }

  predicate EventsAt(table: StreamTable, positions: seq<nat>, events: seq<ClaimEvent>) {
    |events| == |positions|
      && forall i :: 0 <= i < |positions| ==> positions[i] in table && events[i] == table[positions[i]]
  }

  /** The page, or the refusal to step over a gap: the cursor is ahead, or no longer there, or rows are missing. */
  ghost predicate IsEventPage(table: StreamTable, after: nat, limit: nat, page: EventPage) {
    match page
    case CursorGap => exists high, rows :: IsHigh(table, high) && FirstAfter(table, after, limit, rows)
                                           && Gap(table, after, high, rows)
    case EventPage(positions, events, high) =>
      && IsHigh(table, high) && FirstAfter(table, after, limit, positions) && !Gap(table, after, high, positions)
      && EventsAt(table, positions, events)
  }

  predicate Gap(table: StreamTable, after: nat, high: nat, rows: seq<nat>) {
    after > high || (after != 0 && after !in table) || !Consecutive(after, rows)
  }

  /** The highest position; 0 without rows. */
  method HighWatermark(table: StreamTable) returns (high: nat)
    ensures IsHigh(table, high)
  {
    high := 0;
    var rest := table.Keys;
    while rest != {}
      invariant rest <= table.Keys && (high == 0 || high in table)
      invariant forall p :: p in table && p !in rest ==> p <= high
      decreases rest
    {
      var p :| p in rest;
      high := if p > high then p else high;
      rest := rest - {p};
    }
  }

  method RowsAfter(table: StreamTable, after: nat, limit: nat) returns (rows: seq<nat>)
    ensures FirstAfter(table, after, limit, rows)
  {
    rows := [];
    var rest := set p | p in table && p > after;
    while rest != {} && |rows| < limit
      invariant rest <= table.Keys && |rows| <= limit && forall p :: p in rest ==> p > after
      invariant forall i :: 0 <= i < |rows| ==> rows[i] in table && rows[i] > after
      invariant forall i, j :: 0 <= i < j < |rows| ==> rows[i] < rows[j]
      invariant forall i, p :: 0 <= i < |rows| && p in rest ==> rows[i] < p
      invariant forall p :: p in table && p > after ==> p in rest || p in rows
      decreases rest
    {
      var least :| least in rest;
      var others := rest - {least};
      while others != {}
        invariant others <= rest && least in rest && forall p :: p in rest && p !in others ==> least <= p
        decreases others
      {
        var p :| p in others;
        least := if p < least then p else least;
        others := others - {p};
      }
      rows := rows + [least];
      rest := rest - {least};
    }
  }

  /** One page of the stream, or a refusal. */
  method ClaimEventPage(table: StreamTable, after: nat, limit: nat) returns (page: EventPage)
    ensures IsEventPage(table, after, limit, page)
  {
    var high := HighWatermark(table);
    var rows := RowsAfter(table, after, limit);
    if after > high || (after != 0 && after !in table) || !Consecutive(after, rows) {
      page := CursorGap;
    } else {
      page := EventPage(rows, seq(|rows|, i requires 0 <= i < |rows| => table[rows[i]]), high);
    }
  }

  lemma HighOnce(table: StreamTable, m: nat, n: nat)
    requires IsHigh(table, m) && IsHigh(table, n)
    ensures m == n
  {
  }

  /** The rows of a page are one sequence: the first ones in order. */
  lemma {:induction false} RowsOnce(table: StreamTable, after: nat, limit: nat, rows: seq<nat>, rows': seq<nat>, n: nat)
    requires FirstAfter(table, after, limit, rows) && FirstAfter(table, after, limit, rows') && n <= |rows|
    ensures n <= |rows'| && rows[..n] == rows'[..n]
  {
    if n > 0 {
      RowsOnce(table, after, limit, rows, rows', n - 1);
      NextRow(table, after, limit, rows, rows', n - 1);
      assert rows[..n] == rows[..n - 1] + [rows[n - 1]] && rows'[..n] == rows'[..n - 1] + [rows'[n - 1]];
    }
  }

  lemma NextRow(table: StreamTable, after: nat, limit: nat, rows: seq<nat>, rows': seq<nat>, n: nat)
    requires FirstAfter(table, after, limit, rows) && FirstAfter(table, after, limit, rows')
    requires n < |rows| && n <= |rows'| && rows[..n] == rows'[..n]
    ensures n < |rows'| && rows'[n] == rows[n]
  {
    forall i | 0 <= i < n ensures rows[i] == rows'[i] {
      assert rows[..n][i] == rows'[..n][i];
    }
    assert forall i :: 0 <= i < n ==> rows'[i] != rows[n];
    assert n < |rows'|;
    assert forall i :: 0 <= i < n ==> rows[i] != rows'[n];
  }

  /** A table, a cursor and a limit determine the page. */
  lemma PageOnce(table: StreamTable, after: nat, limit: nat, page: EventPage, page': EventPage)
    requires IsEventPage(table, after, limit, page) && IsEventPage(table, after, limit, page')
    ensures page == page'
  {
    forall high, high', rows, rows' | IsHigh(table, high) && FirstAfter(table, after, limit, rows)
        && IsHigh(table, high') && FirstAfter(table, after, limit, rows')
      ensures high == high' && rows == rows'
    {
      HighOnce(table, high, high');
      RowsOnce(table, after, limit, rows, rows', |rows|);
      RowsOnce(table, after, limit, rows', rows, |rows'|);
      assert rows[..|rows|] == rows && rows'[..|rows'|] == rows';
    }
  }

  /** The cursor a page hands back. */
  function NextCursor(after: nat, page: EventPage): nat
    requires page.EventPage?
  {
    if page.positions == [] then after else page.positions[|page.positions| - 1]
  }

  /** One request of a walk: the table as it was, the limit asked for, and the page that came. */
  datatype Turn = Turn(table: StreamTable, limit: nat, page: EventPage)

  function CursorOf(turns: seq<Turn>): nat
    decreases |turns|
  {
    if turns == [] then 0
    else
      var last := turns[|turns| - 1];
      if last.page.EventPage? then NextCursor(CursorOf(turns[..|turns| - 1]), last.page)
      else CursorOf(turns[..|turns| - 1])
  }

  function PositionsOf(turns: seq<Turn>): seq<nat>
    decreases |turns|
  {
    if turns == [] then []
    else PositionsOf(turns[..|turns| - 1])
           + if turns[|turns| - 1].page.EventPage? then turns[|turns| - 1].page.positions else []
  }

  function EventsOf(turns: seq<Turn>): seq<ClaimEvent>
    decreases |turns|
  {
    if turns == [] then []
    else EventsOf(turns[..|turns| - 1]) + if turns[|turns| - 1].page.EventPage? then turns[|turns| - 1].page.events
                                          else []
  }

  /** Each page was asked for at the cursor the one before handed back, and none was refused. */
  ghost predicate IsWalk(turns: seq<Turn>)
    decreases |turns|
  {
    turns == [] ||
    var n := |turns| - 1;
    && IsWalk(turns[..n]) && turns[n].limit > 0 && turns[n].page.EventPage?
    && IsEventPage(turns[n].table, CursorOf(turns[..n]), turns[n].limit, turns[n].page)
  }

  function Counting(n: nat): seq<nat> {
    seq(n, i => i + 1)
  }

  lemma PageExtends(after: nat, page: EventPage)
    requires page.EventPage? && Consecutive(after, page.positions)
    ensures NextCursor(after, page) == after + |page.positions|
    ensures Counting(after) + page.positions == Counting(after + |page.positions|)
  {
  }

  /** Whatever the tables were, a walk reads positions 1, 2, 3, ... up to its cursor: none twice, none left out. */
  lemma {:induction false} WalkHasNoGap(turns: seq<Turn>)
    requires IsWalk(turns)
    ensures PositionsOf(turns) == Counting(CursorOf(turns)) && |EventsOf(turns)| == CursorOf(turns)
    decreases |turns|
  {
    if turns != [] {
      var n := |turns| - 1;
      WalkHasNoGap(turns[..n]);
      PageExtends(CursorOf(turns[..n]), turns[n].page);
    }
  }

  lemma PageFills(table: StreamTable, after: nat, limit: nat, rows: seq<nat>)
    requires FirstAfter(table, after, limit, rows) && Consecutive(after, rows)
    ensures forall q :: after < q <= after + |rows| ==> q in table
  {
    forall q | after < q <= after + |rows| ensures q in table {
      assert rows[q - after - 1] == q;
    }
  }

  /** A durable gap is never stepped over: while a position is missing no walk gets past it. */
  lemma {:induction false} GapStopsTheWalk(turns: seq<Turn>, p: nat)
    requires IsWalk(turns) && p >= 1 && forall i :: 0 <= i < |turns| ==> p !in turns[i].table
    ensures CursorOf(turns) < p
    decreases |turns|
  {
    if turns != [] {
      var n := |turns| - 1;
      assert forall i :: 0 <= i < n ==> turns[..n][i] == turns[i];
      GapStopsTheWalk(turns[..n], p);
      PageExtends(CursorOf(turns[..n]), turns[n].page);
      PageFills(turns[n].table, CursorOf(turns[..n]), turns[n].limit, turns[n].page.positions);
    }
  }

  /** And the page right before it is refused when anything lies behind. */
  lemma GapIsRefused(table: StreamTable, after: nat, limit: nat, page: EventPage, behind: nat)
    requires after + 1 !in table && behind in table && behind > after && limit > 0
    requires IsEventPage(table, after, limit, page)
    ensures page == CursorGap
  {
    if page.EventPage? { PageFills(table, after, limit, page.positions); }
  }

  /** The table an Admission stream is. */
  ghost predicate IsTableOf(table: StreamTable, stream: seq<ClaimEvent>) {
    && (forall p :: p in table <==> 1 <= p <= |stream|)
    && (forall p :: p in table ==> table[p] == stream[p - 1])
  }

  lemma HighOf(table: StreamTable, stream: seq<ClaimEvent>, high: nat)
    requires IsTableOf(table, stream) && IsHigh(table, high)
    ensures high == |stream|
  {
    assert |stream| != 0 ==> |stream| in table;
  }

  /** Rows of a gapless table follow one another. */
  lemma {:induction false} RowIs(table: StreamTable, stream: seq<ClaimEvent>, after: nat, limit: nat, rows: seq<nat>,
                                 i: nat)
    requires IsTableOf(table, stream) && FirstAfter(table, after, limit, rows) && i < |rows|
    ensures forall j :: 0 <= j <= i ==> rows[j] == after + 1 + j
  {
    if i > 0 { RowIs(table, stream, after, limit, rows, i - 1); }
    var p := after + 1 + i;
    assert rows[i] >= p by { if i > 0 { assert rows[i - 1] == p - 1; } }
    assert p in table;
    assert rows[i] > p ==> p !in rows;
  }

  lemma EmptyAtTheEnd(table: StreamTable, stream: seq<ClaimEvent>, after: nat, limit: nat, rows: seq<nat>)
    requires IsTableOf(table, stream) && FirstAfter(table, after, limit, rows) && after <= |stream| && limit > 0
    ensures rows == [] <==> after == |stream|
  {
    assert after < |stream| ==> after + 1 in table;
    assert rows != [] ==> rows[0] in table;
  }

  /** On a gapless table a page is not refused, and is empty only at the end. */
  lemma NotRefused(table: StreamTable, stream: seq<ClaimEvent>, after: nat, limit: nat, page: EventPage)
    requires IsTableOf(table, stream) && after <= |stream| && limit > 0 && IsEventPage(table, after, limit, page)
    ensures page.EventPage? && page.high == |stream| && (page.positions == [] <==> after == |stream|)
  {
    forall high, rows | IsHigh(table, high) && FirstAfter(table, after, limit, rows)
      ensures high == |stream| && !Gap(table, after, high, rows) && (rows == [] <==> after == |stream|)
    {
      HighOf(table, stream, high);
      EmptyAtTheEnd(table, stream, after, limit, rows);
      if rows != [] { RowIs(table, stream, after, limit, rows, |rows| - 1); }
      hide FirstAfter, IsHigh;
    }
  }

  /** A page of an earlier state of the stream is a stretch of what the stream is now. */
  lemma PageIsStretch(table: StreamTable, stream: seq<ClaimEvent>, now: seq<ClaimEvent>, after: nat, limit: nat,
                      page: EventPage)
    requires IsTableOf(table, stream) && stream <= now && after <= |now| && page.EventPage?
    requires IsEventPage(table, after, limit, page)
    ensures after + |page.positions| <= |now| && page.events == now[after..after + |page.positions|]
  {
    var rows := page.positions;
    forall i | 0 <= i < |rows| ensures rows[i] == after + 1 + i <= |stream| && page.events[i] == stream[after + i] {
      assert rows[i] in table;
    }
    if rows != [] { assert rows[|rows| - 1] == after + |rows| <= |stream|; }
  }

  lemma {:induction false} ReadSoFar(turns: seq<Turn>, streams: seq<seq<ClaimEvent>>, now: seq<ClaimEvent>)
    requires IsWalk(turns) && |streams| == |turns|
    requires forall i :: 0 <= i < |turns| ==> IsTableOf(turns[i].table, streams[i]) && streams[i] <= now
    ensures CursorOf(turns) <= |now| && EventsOf(turns) == now[..CursorOf(turns)]
    decreases |turns|
  {
    hide IsTableOf, IsEventPage;
    if turns != [] {
      var n := |turns| - 1;
      assert forall i :: 0 <= i < n ==> turns[..n][i] == turns[i] && streams[..n][i] == streams[i];
      ReadSoFar(turns[..n], streams[..n], now);
      var after, page := CursorOf(turns[..n]), turns[n].page;
      assert NextCursor(after, page) == after + |page.positions| by {
        PageMovesOn(turns[n].table, after, turns[n].limit, page);
      }
      PageIsStretch(turns[n].table, streams[n], now, after, turns[n].limit, page);
      assert now[..after] + page.events == now[..after + |page.positions|];
    }
  }

  lemma PageMovesOn(table: StreamTable, after: nat, limit: nat, page: EventPage)
    requires page.EventPage? && IsEventPage(table, after, limit, page)
    ensures NextCursor(after, page) == after + |page.positions|
  {
  }

  lemma ReadsInStep(turns: seq<Turn>, streams: seq<seq<ClaimEvent>>, now: seq<ClaimEvent>, next: Turn)
    requires IsWalk(turns) && |streams| == |turns|
    requires forall i :: 0 <= i < |turns| ==> IsTableOf(turns[i].table, streams[i]) && streams[i] <= now
    requires IsTableOf(next.table, now) && next.limit > 0
    requires IsEventPage(next.table, CursorOf(turns), next.limit, next.page)
    ensures CursorOf(turns) <= |now| && EventsOf(turns) == now[..CursorOf(turns)]
    ensures next.page.EventPage? && next.page.high == |now| && IsWalk(turns + [next])
    ensures next.page.positions == [] <==> CursorOf(turns) == |now|
  {
    hide IsTableOf, IsEventPage;
    ReadSoFar(turns, streams, now);
    NotRefused(next.table, now, CursorOf(turns), next.limit, next.page);
    assert (turns + [next])[..|turns|] == turns;
  }

  // Requests while Admission goes on

  /** One moment of a run for each request, in order. */
  predicate Moments(at: seq<nat>, requests: nat, steps: nat) {
    && |at| == requests
    && (forall i :: 0 <= i < |at| ==> at[i] <= steps)
    && (forall i, j :: 0 <= i <= j < |at| ==> at[i] <= at[j])
  }

  /** The tables at a moment of the run. */
  ghost function TablesAt(a: Authority, s: State, steps: seq<Step>, moment: nat): State
    requires moment <= |steps|
  {
    Run(a, s, steps[..moment])
  }

  lemma RunFrom(a: Authority, s: State, steps: seq<Step>, m: nat, n: nat)
    requires m <= n <= |steps|
    ensures TablesAt(a, s, steps, n) == Run(a, TablesAt(a, s, steps, m), steps[m..n])
  {
    assert steps[..n] == steps[..m] + steps[m..n];
    RunSplits(a, s, steps[..m], steps[m..n]);
  }

  /** Admission only ever appends to the stream. */
  lemma AdmissionAppends(a: Authority, s: State, steps: seq<Step>, m: nat, n: nat)
    requires m <= n <= |steps|
    ensures TablesAt(a, s, steps, m).stream <= TablesAt(a, s, steps, n).stream
  {
    hide ProposalsFollow, Grown, GrantsKept, WithdrawalsAdvance, ClaimsAdvance, DevicesAdvance, Run, TablesAt;
    RunFrom(a, s, steps, m, n);
    RunExtends(a, TablesAt(a, s, steps, m), steps[m..n]);
  }

  /** Each request of the walk was answered from the stream as it was at its moment of the run. */
  ghost predicate ReadDuring(a: Authority, s: State, steps: seq<Step>, at: seq<nat>, turns: seq<Turn>) {
    && Moments(at, |turns|, |steps|)
    && forall i :: 0 <= i < |turns| ==> IsTableOf(turns[i].table, TablesAt(a, s, steps, at[i]).stream)
  }

  /** Reading goes on in step with Admission, whatever transactions run between the requests: the events read are the
      stream's first ones in order, the next page of positive size is not refused, and is empty only when the walk
      has caught up. */
  lemma WalkReadsTheStream(a: Authority, s: State, steps: seq<Step>, at: seq<nat>, turns: seq<Turn>, next: Turn)
    requires IsWalk(turns) && ReadDuring(a, s, steps, at, turns)
    requires IsTableOf(next.table, Run(a, s, steps).stream) && next.limit > 0
    requires IsEventPage(next.table, CursorOf(turns), next.limit, next.page)
    ensures var now := Run(a, s, steps).stream;
      && CursorOf(turns) <= |now| && EventsOf(turns) == now[..CursorOf(turns)]
      && next.page.EventPage? && next.page.high == |now| && IsWalk(turns + [next])
      && (next.page.positions == [] <==> CursorOf(turns) == |now|)
  {
    hide IsTableOf, IsEventPage, IsWalk, Run;
    assert steps[..|steps|] == steps;
    var streams := seq(|turns|, i requires 0 <= i < |turns| => TablesAt(a, s, steps, at[i]).stream);
    forall i | 0 <= i < |turns| ensures streams[i] <= Run(a, s, steps).stream {
      AdmissionAppends(a, s, steps, at[i], |steps|);
    }
    ReadsInStep(turns, streams, Run(a, s, steps).stream, next);
  }

  // Proposals

  /** Pages are ordered by creation, then enrollment id. */
  datatype SortKey = SortKey(createdAt: Moment, id: Id)

  predicate Before(a: SortKey, b: SortKey) {
    a.createdAt < b.createdAt || (a.createdAt == b.createdAt && TextLess(a.id, b.id))
  }

  lemma BeforeTotal(a: SortKey, b: SortKey)
    ensures a == b || Before(a, b) || Before(b, a)
  {
    TextLessTotal(a.id, b.id);
  }

  lemma BeforeTransitive(a: SortKey, b: SortKey, c: SortKey)
    requires Before(a, b) && Before(b, c)
    ensures Before(a, c)
  {
    if a.createdAt == b.createdAt == c.createdAt { TextLessTransitive(a.id, b.id, c.id); }
  }

  lemma BeforeStrict(a: SortKey, b: SortKey)
    requires Before(a, b)
    ensures !Before(b, a) && a != b
  {
    if a.createdAt == b.createdAt { TextLessAsymmetric(a.id, b.id); }
  }

  function KeyOf(proposals: map<Id, Proposal>, e: Id): SortKey
    requires e in proposals
  {
    SortKey(proposals[e].createdAt, e)
  }

  datatype Query = Query(domain: Id, states: set<ProposalState>, limit: nat)

  predicate Queried(proposals: map<Id, Proposal>, query: Query, e: Id) {
    e in proposals && proposals[e].domain == query.domain && proposals[e].state in query.states
  }

  predicate Past(cursor: Option<SortKey>, key: SortKey) {
    cursor.None? || Before(cursor.value, key)
  }

  /** The first rows after the cursor, in order, at most `limit` of them. */
  ghost predicate IsProposalPage(proposals: map<Id, Proposal>, query: Query, cursor: Option<SortKey>, rows: seq<Id>) {
    && |rows| <= query.limit
    && (forall i :: 0 <= i < |rows| ==> Queried(proposals, query, rows[i]) && Past(cursor, KeyOf(proposals, rows[i])))
    && (forall i, j :: 0 <= i < j < |rows| ==> Before(KeyOf(proposals, rows[i]), KeyOf(proposals, rows[j])))
    && (forall e :: Queried(proposals, query, e) && Past(cursor, KeyOf(proposals, e)) && e !in rows ==>
          |rows| == query.limit
            && forall i :: 0 <= i < |rows| ==> Before(KeyOf(proposals, rows[i]), KeyOf(proposals, e)))
  }

  method EarliestOf(proposals: map<Id, Proposal>, among: set<Id>) returns (first: Id)
    requires among != {} && among <= proposals.Keys
    ensures first in among
    ensures forall e :: e in among && e != first ==> Before(KeyOf(proposals, first), KeyOf(proposals, e))
  {
    first :| first in among;
    var others := among - {first};
    while others != {}
      invariant others <= among && first in among && first !in others
      invariant forall e :: e in among && e !in others && e != first ==>
        Before(KeyOf(proposals, first), KeyOf(proposals, e))
      decreases others
    {
      var e :| e in others;
      BeforeTotal(KeyOf(proposals, e), KeyOf(proposals, first));
      if Before(KeyOf(proposals, e), KeyOf(proposals, first)) {
        forall d | d in among && d !in others && d != first ensures Before(KeyOf(proposals, e), KeyOf(proposals, d)) {
          BeforeTransitive(KeyOf(proposals, e), KeyOf(proposals, first), KeyOf(proposals, d));
        }
        first := e;
      }
      others := others - {e};
    }
  }

  method ListProposals(proposals: map<Id, Proposal>, query: Query, cursor: Option<SortKey>) returns (rows: seq<Id>)
    ensures IsProposalPage(proposals, query, cursor, rows)
  {
    rows := [];
    var rest := set e | e in proposals && Queried(proposals, query, e) && Past(cursor, KeyOf(proposals, e));
    while rest != {} && |rows| < query.limit
      invariant |rows| <= query.limit
      invariant forall e :: e in rest ==> Queried(proposals, query, e) && Past(cursor, KeyOf(proposals, e))
      invariant forall i :: 0 <= i < |rows| ==>
        Queried(proposals, query, rows[i]) && Past(cursor, KeyOf(proposals, rows[i]))
      invariant forall i, j :: 0 <= i < j < |rows| ==> Before(KeyOf(proposals, rows[i]), KeyOf(proposals, rows[j]))
      invariant forall i, e :: 0 <= i < |rows| && e in rest ==> Before(KeyOf(proposals, rows[i]), KeyOf(proposals, e))
      invariant forall e :: Queried(proposals, query, e) && Past(cursor, KeyOf(proposals, e)) ==> e in rest || e in rows
      decreases rest
    {
      var first := EarliestOf(proposals, rest);
      rows := rows + [first];
      rest := rest - {first};
    }
  }

  /** A walk: a snapshot and its page for each request. The cursor is the last row of a full page; a page
      that is not full ends the walk. */
  datatype Visit = Visit(proposals: map<Id, Proposal>, rows: seq<Id>)

  function LastKey(visit: Visit): Option<SortKey> {
    if visit.rows == [] || visit.rows[|visit.rows| - 1] !in visit.proposals then None
    else Some(KeyOf(visit.proposals, visit.rows[|visit.rows| - 1]))
  }

  ghost predicate IsProposalWalk(visits: seq<Visit>, query: Query) {
    query.limit > 0 && forall i :: 0 <= i < |visits| ==> IsVisit(visits, query, i)
  }

  ghost predicate IsVisit(visits: seq<Visit>, query: Query, i: nat)
    requires i < |visits|
  {
    && (i > 0 ==> |visits[i - 1].rows| == query.limit)
    && IsProposalPage(visits[i].proposals, query, if i == 0 then None else LastKey(visits[i - 1]), visits[i].rows)
  }

  /** Proposals stay, with the domain and the moment they were created at; new ones may come in anywhere. */
  ghost predicate Evolves(proposals: map<Id, Proposal>, proposals': map<Id, Proposal>) {
    forall e :: e in proposals ==>
      e in proposals' && proposals'[e].createdAt == proposals[e].createdAt
        && proposals'[e].domain == proposals[e].domain
  }

  ghost predicate AllEvolve(visits: seq<Visit>) {
    forall i, j :: 0 <= i <= j < |visits| ==> Evolves(visits[i].proposals, visits[j].proposals)
  }

  /** Each request of the walk was answered from the Proposals as they were at its moment of the run. */
  ghost predicate ListedDuring(a: Authority, s: State, steps: seq<Step>, at: seq<nat>, visits: seq<Visit>) {
    && Moments(at, |visits|, |steps|)
    && forall i :: 0 <= i < |visits| ==> visits[i].proposals == TablesAt(a, s, steps, at[i]).proposals
  }

  lemma AdmissionEvolves(a: Authority, s: State, steps: seq<Step>, m: nat, n: nat)
    requires m <= n <= |steps|
    ensures Evolves(TablesAt(a, s, steps, m).proposals, TablesAt(a, s, steps, n).proposals)
  {
    hide Grown, GrantsKept, WithdrawalsAdvance, ClaimsAdvance, DevicesAdvance, StreamGrown, Run, Path, TablesAt;
    RunFrom(a, s, steps, m, n);
    RunExtends(a, TablesAt(a, s, steps, m), steps[m..n]);
  }

  /** Between the requests Admission lets Proposals evolve so. */
  lemma VisitsEvolve(a: Authority, s: State, steps: seq<Step>, at: seq<nat>, visits: seq<Visit>)
    requires ListedDuring(a, s, steps, at, visits)
    ensures AllEvolve(visits)
  {
    hide Evolves, TablesAt;
    forall i, j | 0 <= i <= j < |visits| ensures Evolves(visits[i].proposals, visits[j].proposals) {
      AdmissionEvolves(a, s, steps, at[i], at[j]);
    }
  }

  /** The page of visit i, asked for behind the last row of visit i - 1. */
  lemma PageAt(visits: seq<Visit>, query: Query, i: nat)
    requires IsProposalWalk(visits, query) && i < |visits|
    ensures forall x :: 0 <= x < |visits[i].rows| ==> visits[i].rows[x] in visits[i].proposals
    ensures i > 0 ==> |visits[i - 1].rows| == query.limit
                      && visits[i - 1].rows[query.limit - 1] in visits[i - 1].proposals
    ensures IsProposalPage(visits[i].proposals, query,
                           if i == 0 then None else Some(KeyOf(visits[i - 1].proposals,
                                                               visits[i - 1].rows[query.limit - 1])),
                           visits[i].rows)
  {
    assert IsVisit(visits, query, i);
    if i > 0 { assert IsVisit(visits, query, i - 1); }
  }

  /** Sort keys ascend along the whole walk. */
  lemma {:induction false} KeysAscend(visits: seq<Visit>, query: Query, i: nat, j: nat, x: nat, y: nat)
    requires IsProposalWalk(visits, query) && i < j < |visits| && x < |visits[i].rows| && y < |visits[j].rows|
    ensures visits[i].rows[x] in visits[i].proposals && visits[j].rows[y] in visits[j].proposals
    ensures Before(KeyOf(visits[i].proposals, visits[i].rows[x]), KeyOf(visits[j].proposals, visits[j].rows[y]))
    decreases j
  {
    PageAt(visits, query, i);
    PageAt(visits, query, j);
    PageAt(visits, query, j - 1);
    hide IsProposalWalk, Before;
    var last := query.limit - 1;
    var lastKey := KeyOf(visits[j - 1].proposals, visits[j - 1].rows[last]);
    var first, later := KeyOf(visits[i].proposals, visits[i].rows[x]), KeyOf(visits[j].proposals, visits[j].rows[y]);
    assert Before(lastKey, later);
    if i < j - 1 {
      KeysAscend(visits, query, i, j - 1, x, last);
      BeforeTransitive(first, lastKey, later);
    } else if x < last {
      BeforeTransitive(first, lastKey, later);
    }
  }

  lemma NoneTwice(visits: seq<Visit>, query: Query, i: nat, j: nat, x: nat, y: nat)
    requires IsProposalWalk(visits, query) && AllEvolve(visits)
    requires i < |visits| && j < |visits| && x < |visits[i].rows| && y < |visits[j].rows|
    requires visits[i].rows[x] == visits[j].rows[y]
    ensures i == j && x == y
  {
    hide IsProposalWalk, Before;
    PageAt(visits, query, i);
    PageAt(visits, query, j);
    assert Evolves(visits[if i < j then i else j].proposals, visits[if i < j then j else i].proposals);
    var a, b := KeyOf(visits[i].proposals, visits[i].rows[x]), KeyOf(visits[j].proposals, visits[j].rows[y]);
    assert a == b;
    assert !Before(a, a) by { if Before(a, a) { BeforeStrict(a, a); } }
    if i < j { KeysAscend(visits, query, i, j, x, y); }
    if j < i { KeysAscend(visits, query, j, i, y, x); }
  }

  /** No Proposal is returned twice, on one page or on two, whatever Admission does between the requests. */
  lemma NoProposalTwice(a: Authority, s: State, steps: seq<Step>, at: seq<nat>, visits: seq<Visit>, query: Query,
                        i: nat, j: nat, x: nat, y: nat)
    requires IsProposalWalk(visits, query) && ListedDuring(a, s, steps, at, visits)
    requires i < |visits| && j < |visits| && x < |visits[i].rows| && y < |visits[j].rows|
    requires visits[i].rows[x] == visits[j].rows[y]
    ensures i == j && x == y
  {
    VisitsEvolve(a, s, steps, at, visits);
    NoneTwice(visits, query, i, j, x, y);
  }

  /** A Proposal that matches at every request is on a page already, or still ahead of the cursor. */
  lemma {:induction false} SeenOrAhead(visits: seq<Visit>, query: Query, e: Id, i: nat)
    requires IsProposalWalk(visits, query) && AllEvolve(visits) && i < |visits|
    requires forall k :: 0 <= k < |visits| ==> Queried(visits[k].proposals, query, e)
    ensures || (exists k :: 0 <= k <= i && e in visits[k].rows)
            || AheadOf(visits[i], query, e)
  {
    PageAt(visits, query, i);
    if i > 0 {
      SeenOrAhead(visits, query, e, i - 1);
      assert Evolves(visits[i - 1].proposals, visits[i].proposals);
    }
    hide IsProposalWalk, Before;
    assert Queried(visits[i].proposals, query, e);
  }

  /** The page is full and the Proposal comes after its last row. */
  predicate AheadOf(visit: Visit, query: Query, e: Id) {
    && query.limit > 0 && |visit.rows| == query.limit && e in visit.proposals
    && visit.rows[query.limit - 1] in visit.proposals
    && Before(KeyOf(visit.proposals, visit.rows[query.limit - 1]), KeyOf(visit.proposals, e))
  }

  /** A finished walk over a running Admission returned every Proposal that was there from its start and stayed in
      the queried states. */
  lemma StayingProposalsReturned(a: Authority, s: State, steps: seq<Step>, at: seq<nat>, visits: seq<Visit>,
                                 query: Query, e: Id)
    requires IsProposalWalk(visits, query) && ListedDuring(a, s, steps, at, visits)
    requires visits != [] && |visits[|visits| - 1].rows| < query.limit
    requires forall k :: 0 <= k < |visits| ==> Queried(visits[k].proposals, query, e)
    ensures exists k :: 0 <= k < |visits| && e in visits[k].rows
  {
    VisitsEvolve(a, s, steps, at, visits);
    SeenOrAhead(visits, query, e, |visits| - 1);
  }
}
