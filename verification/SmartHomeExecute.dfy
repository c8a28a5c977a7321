/** Idempotent execution: the durable receipts, and calls that interleave between their locked sections. */
module SmartHomeExecute {
  import opened Prelude

  const IDEMPOTENCY_WINDOW := 24 * 60 * 60_000
  const RETENTION := 7 * 24 * 60 * 60_000

  datatype Key = Key(owner: Id, scope: Id, request: Id)

  datatype Status = Succeeded | Failed | Unknown | Delegated

  /** One device's part of a result. `detail` is whatever else it carries: state, code, platform answer. */
  datatype Item = Item(device: Id, status: Status, detail: string)

  datatype Outcome = Outcome(error: Option<string>, items: seq<Item>)

  /** `result` is nothing while the request is in flight. */
  datatype Receipt = Receipt(fingerprint: string, submittedAt: Moment, result: Option<Outcome>)

  type Receipts = map<Key, Receipt>

  // The receipt ledger

  function Pruned(receipts: Receipts, now: Moment): Receipts {
    map k | k in receipts && receipts[k].submittedAt >= now - RETENTION :: receipts[k]
  }

  predicate InWindow(receipt: Receipt, now: Moment) {
    receipt.submittedAt >= now - IDEMPOTENCY_WINDOW
  }

  datatype Begun = NewSubmission | Existing(receipt: Receipt) | ReceiptConflict

  /** A repeat within the window gets the row there is; anything else starts a row afresh. */
  function Begin(receipts: Receipts, key: Key, fingerprint: string, now: Moment): (Receipts, Begun) {
    var kept := Pruned(receipts, now);
    if key in kept && InWindow(kept[key], now) then
      if kept[key].fingerprint != fingerprint then (receipts, ReceiptConflict) else (kept, Existing(kept[key]))
    else (kept[key := Receipt(fingerprint, now, None)], NewSubmission)
  }

  function Completed(receipts: Receipts, key: Key, result: Outcome): Receipts {
    if key in receipts then receipts[key := receipts[key].(result := Some(result))] else receipts
  }

  /** The first unknown item of a device. */
  predicate IsFirstUnknown(items: seq<Item>, target: Id, i: nat) {
    && i < |items| && items[i].device == target && items[i].status.Unknown?
    && forall j :: 0 <= j < i ==> !(items[j].device == target && items[j].status.Unknown?)
  }

  ghost function ReplaceUnknown(result: Outcome, target: Id, item: Item): Option<Outcome> {
    if i: nat :| IsFirstUnknown(result.items, target, i) then Some(result.(items := result.items[i := item])) else None
  }

  lemma FirstUnknownOnce(items: seq<Item>, target: Id, i: nat, j: nat)
    requires IsFirstUnknown(items, target, i) && IsFirstUnknown(items, target, j)
    ensures i == j
  {
  }

  ghost function Reconciled(receipts: Receipts, key: Key, target: Id, item: Item): Receipts {
    if key !in receipts || receipts[key].result.None? then receipts
    else
      var replaced := ReplaceUnknown(receipts[key].result.value, target, item);
      if replaced.None? then receipts else receipts[key := receipts[key].(result := replaced)]
  }

  /** Settle the first unknown item of the target; nothing when there is none. */
  method SettleFirst(result: Outcome, target: Id, item: Item) returns (replaced: Option<Outcome>)
    ensures replaced == ReplaceUnknown(result, target, item)
  {
    for i := 0 to |result.items|
      invariant forall j :: 0 <= j < i ==> !(result.items[j].device == target && result.items[j].status.Unknown?)
    {
      if result.items[i].device == target && result.items[i].status.Unknown? {
        assert IsFirstUnknown(result.items, target, i);
        ghost var first: nat :| IsFirstUnknown(result.items, target, first) && ReplaceUnknown(result, target, item)
          == Some(result.(items := result.items[first := item]));
        FirstUnknownOnce(result.items, target, first, i);
        return Some(result.(items := result.items[i := item]));
      }
    }
    return None;
  }

  // What a recorded result may become

  /** Same request answer, each item the same or settled from unknown to succeeded. */
  predicate Refines(earlier: Outcome, later: Outcome) {
    && later.error == earlier.error && |later.items| == |earlier.items|
    && forall i :: 0 <= i < |earlier.items| ==> ItemRefines(earlier.items[i], later.items[i])
  }

  predicate ItemRefines(earlier: Item, later: Item) {
    later == earlier || (earlier.status.Unknown? && later.status.Succeeded? && later.device == earlier.device)
  }

  lemma RefinesTransitive(a: Outcome, b: Outcome, c: Outcome)
    requires Refines(a, b) && Refines(b, c)
    ensures Refines(a, c)
  {
    forall i | 0 <= i < |a.items| ensures ItemRefines(a.items[i], c.items[i]) {
      assert ItemRefines(a.items[i], b.items[i]) && ItemRefines(b.items[i], c.items[i]);
    }
  }

  lemma ReplaceRefines(result: Outcome, target: Id, item: Item)
    requires item.device == target && item.status.Succeeded?
    ensures var replaced := ReplaceUnknown(result, target, item); replaced.Some? ==> Refines(result, replaced.value)
  {
  }

  // The runtime: calls between their locked sections

  datatype Task =
    | Performing(key: Key) // carries the request out
    | Recorded(key: Key, result: Outcome) // its result is durable; nobody was told yet
    | Waiting(key: Key, runner: nat) // for the future of the call that carries it out
    | Answered(key: Key, result: Outcome)
    | Raised(key: Key)
    | Conflicted(key: Key)

  datatype Process = Process(receipts: Receipts, inflight: map<Key, nat>, tasks: map<nat, Task>)

  datatype Step =
    | Arrive(task: nat, key: Key, fingerprint: string, now: Moment)
    | Complete(task: nat, result: Outcome)
    | Tell(task: nat)
    | Fail(task: nat)
    | Wake(task: nat)
    | Reconcile(key: Key, target: Id, item: Item)
    | Crash

  /** The section under the Owner lock: what the arriving call turns into. */
  function Admit(receipts: Receipts, inflight: map<Key, nat>, task: nat, key: Key, fingerprint: string, now: Moment)
    : (Receipts, map<Key, nat>, Task)
  {
    var (kept, begun) := Begin(receipts, key, fingerprint, now);
    match begun
    case ReceiptConflict => (kept, inflight, Conflicted(key))
    case NewSubmission => (kept, inflight[key := task], Performing(key))
    case Existing(receipt) =>
      if receipt.result.Some? then (kept, inflight, Answered(key, receipt.result.value))
      else if key in inflight then (kept, inflight, Waiting(key, inflight[key]))
      else (kept, inflight[key := task], Performing(key))
  }

  ghost function Do(p: Process, step: Step): Process {
    match step
    case Arrive(t, key, fingerprint, now) =>
      if t in p.tasks then p
      else
        var (receipts, inflight, task) := Admit(p.receipts, p.inflight, t, key, fingerprint, now);
        Process(receipts, inflight, p.tasks[t := task])
    case Complete(t, result) =>
      if t !in p.tasks || !p.tasks[t].Performing? then p
      else
        var key := p.tasks[t].key;
        p.(receipts := Completed(p.receipts, key, result), tasks := p.tasks[t := Recorded(key, result)])
    case Tell(t) =>
      if t !in p.tasks || !p.tasks[t].Recorded? then p
      else p.(inflight := p.inflight - {p.tasks[t].key},
              tasks := p.tasks[t := Answered(p.tasks[t].key, p.tasks[t].result)])
    case Fail(t) =>
      if t !in p.tasks || !p.tasks[t].Performing? then p
      else p.(inflight := p.inflight - {p.tasks[t].key}, tasks := p.tasks[t := Raised(p.tasks[t].key)])
    case Wake(t) =>
      if t !in p.tasks || !p.tasks[t].Waiting? || p.tasks[t].runner !in p.tasks then p
      else
        var runner := p.tasks[p.tasks[t].runner];
        if runner.Answered? || runner.Raised? then p.(tasks := p.tasks[t := runner]) else p
    case Reconcile(key, target, item) =>
      if item.device != target || !item.status.Succeeded? then p
      else p.(receipts := Reconciled(p.receipts, key, target, item))
    case Crash => p.(inflight := map[], tasks := map[])
  }

  ghost function DoAll(p: Process, steps: seq<Step>): Process
    decreases |steps|
  {
    if steps == [] then p else Do(DoAll(p, steps[..|steps| - 1]), steps[|steps| - 1])
  }

  const Fresh := Process(map[], map[], map[])

  /** No call for this key comes after its window, and none for another key after its retention. */
  predicate Within(p: Process, step: Step, key: Key) {
    step.Arrive? && key in p.receipts ==>
      p.receipts[key].submittedAt >= step.now - (if step.key == key then IDEMPOTENCY_WINDOW else RETENTION)
  }

  ghost predicate AllWithin(p: Process, steps: seq<Step>, key: Key)
    decreases |steps|
  {
    steps == [] || (AllWithin(p, steps[..|steps| - 1], key)
                    && Within(DoAll(p, steps[..|steps| - 1]), steps[|steps| - 1], key))
  }

  // What the calls for one key keep to

  predicate Runs(task: Task, key: Key) {
    (task.Performing? || task.Recorded?) && task.key == key
  }

  /** A call that runs the key is the one in flight, and the one in flight runs it. */
  ghost predicate OneRunner(p: Process, key: Key) {
    && (forall t :: t in p.tasks && Runs(p.tasks[t], key) ==> key in p.inflight && p.inflight[key] == t)
    && (key in p.inflight ==> key in p.receipts && p.inflight[key] in p.tasks && Runs(p.tasks[p.inflight[key]], key))
  }

  /** Waiters wait for a call of their key that ran, or still runs, it. */
  ghost predicate WaitersOk(p: Process, key: Key) {
    forall t :: t in p.tasks && p.tasks[t].Waiting? && p.tasks[t].key == key ==>
      var r := p.tasks[t].runner;
      r in p.tasks && p.tasks[r].key == key && (Runs(p.tasks[r], key) || p.tasks[r].Answered? || p.tasks[r].Raised?)
  }

  /** The result a call holds, if it holds one. */
  function Held(task: Task): Option<Outcome> {
    if task.Recorded? || task.Answered? then Some(task.result) else None
  }

  /** Before a first result nobody holds one; after it nobody performs, and every held result lies
      between the first and the recorded one. */
  ghost predicate ResultsOk(p: Process, key: Key, first: Option<Outcome>) {
    match first
    case None =>
      && (key in p.receipts ==> p.receipts[key].result.None?)
      && (forall t :: t in p.tasks && p.tasks[t].key == key ==> Held(p.tasks[t]).None?)
    case Some(result) =>
      && key in p.receipts && p.receipts[key].result.Some? && Refines(result, p.receipts[key].result.value)
      && (forall t :: t in p.tasks && p.tasks[t].key == key ==>
            !p.tasks[t].Performing?
              && (Held(p.tasks[t]).Some? ==> Between(result, Held(p.tasks[t]).value, p.receipts[key].result.value)))
  }

  predicate Between(first: Outcome, held: Outcome, recorded: Outcome) {
    Refines(first, held) && Refines(held, recorded)
  }

  ghost predicate KeyOk(p: Process, key: Key, first: Option<Outcome>) {
    OneRunner(p, key) && WaitersOk(p, key) && ResultsOk(p, key, first)
  }

  /** The first result of a key: the one its first completed perform recorded. */
  ghost function FirstAfter(p: Process, step: Step, key: Key, first: Option<Outcome>): Option<Outcome> {
    if first.None? && step.Complete? && step.task in p.tasks
      && p.tasks[step.task] == Performing(key) then Some(step.result) else first
  }

  /** A call for another key leaves this key's row alone as long as the row is retained. */
  lemma OthersArrive(receipts: Receipts, key: Key, other: Key, fingerprint: string, now: Moment)
    requires other != key
    requires key in receipts ==> receipts[key].submittedAt >= now - RETENTION
    ensures var kept := Begin(receipts, other, fingerprint, now).0;
      (key in kept <==> key in receipts) && (key in kept ==> kept[key] == receipts[key])
  {
  }

  /** A call for a key that has a row is answered from it, joins its runner, or takes it over. */
  lemma RepeatArrives(receipts: Receipts, key: Key, fingerprint: string, now: Moment)
    requires key in receipts ==> receipts[key].submittedAt >= now - IDEMPOTENCY_WINDOW
    ensures var (kept, begun) := Begin(receipts, key, fingerprint, now);
      && key in kept
      && (key in receipts ==>
            kept[key] == receipts[key] && (begun == Existing(receipts[key]) || begun == ReceiptConflict))
      && (key !in receipts ==> begun == NewSubmission && kept[key].result.None?)
  {
  }

  lemma OtherTaskKeeps(p: Process, p': Process, key: Key, first: Option<Outcome>, t: nat)
    requires KeyOk(p, key, first) && t !in p.tasks && t in p'.tasks && p'.tasks == p.tasks[t := p'.tasks[t]]
    requires p'.tasks[t].key != key
    requires (key in p'.inflight <==> key in p.inflight) && (key in p.inflight ==> p'.inflight[key] == p.inflight[key])
    requires (key in p'.receipts <==> key in p.receipts) && (key in p.receipts ==> p'.receipts[key] == p.receipts[key])
    ensures KeyOk(p', key, first)
  {
    hide Refines;
  }

  /** A new call of this key that is answered from the row, waits for the runner, or is refused. */
  lemma JoiningKeeps(p: Process, receipts: Receipts, key: Key, first: Option<Outcome>, t: nat, task: Task)
    requires KeyOk(p, key, first) && t !in p.tasks && key in p.receipts && key in receipts
    requires receipts[key] == p.receipts[key]
    requires task.key == key
    requires || task.Conflicted?
             || (task.Answered? && Some(task.result) == receipts[key].result)
             || (task.Waiting? && key in p.inflight && p.inflight[key] == task.runner)
    ensures KeyOk(Process(receipts, p.inflight, p.tasks[t := task]), key, first)
  {
    if task.Answered? { RefinesItself(task.result); }
    hide Refines;
  }

  /** A new call that carries the request out: nothing was recorded and nobody is running it. */
  lemma RunningKeeps(p: Process, receipts: Receipts, key: Key, first: Option<Outcome>, t: nat)
    requires KeyOk(p, key, first) && t !in p.tasks && key in receipts && receipts[key].result.None?
    requires key !in p.inflight
    requires key in p.receipts ==> receipts[key] == p.receipts[key]
    ensures KeyOk(Process(receipts, p.inflight[key := t], p.tasks[t := Performing(key)]), key, first)
  {
    hide Refines;
  }

  lemma ArriveKeeps(p: Process, step: Step, key: Key, first: Option<Outcome>)
    requires step.Arrive? && KeyOk(p, key, first) && Within(p, step, key)
    ensures KeyOk(Do(p, step), key, first)
  {
    hide KeyOk;
    if step.task !in p.tasks {
      var (receipts, inflight, task) := Admit(p.receipts, p.inflight, step.task, step.key, step.fingerprint, step.now);
      if step.key != key {
        OthersArrive(p.receipts, key, step.key, step.fingerprint, step.now);
        hide Begin;
        OtherTaskKeeps(p, Do(p, step), key, first, step.task);
      } else {
        RepeatArrives(p.receipts, key, step.fingerprint, step.now);
        assert key in p.inflight ==> key in p.receipts by { RunnerHasRow(p, key, first); }
        hide Begin;
        if task.Performing? {
          RunningKeeps(p, receipts, key, first, step.task);
        } else {
          JoiningKeeps(p, receipts, key, first, step.task, task);
        }
      }
    }
  }

  lemma RunnerHasRow(p: Process, key: Key, first: Option<Outcome>)
    requires KeyOk(p, key, first)
    ensures key in p.inflight ==> key in p.receipts
  {
  }

  lemma ReconcileKeeps(p: Process, step: Step, key: Key, first: Option<Outcome>)
    requires step.Reconcile? && KeyOk(p, key, first)
    ensures KeyOk(Do(p, step), key, first)
  {
    hide ReplaceUnknown, Refines;
    if step.item.device == step.target && step.item.status.Succeeded? && step.key == key && first.Some? {
      var recorded := p.receipts[key].result.value;
      ReplaceRefines(recorded, step.target, step.item);
      var replaced := ReplaceUnknown(recorded, step.target, step.item);
      if replaced.Some? {
        RefinesTransitive(first.value, recorded, replaced.value);
        forall t | t in p.tasks && p.tasks[t].key == key && Held(p.tasks[t]).Some?
          ensures Refines(Held(p.tasks[t]).value, replaced.value)
        {
          RefinesTransitive(Held(p.tasks[t]).value, recorded, replaced.value);
        }
      }
    }
  }

  lemma RefinesItself(result: Outcome)
    ensures Refines(result, result)
  {
  }

  lemma CompleteKeeps(p: Process, step: Step, key: Key, first: Option<Outcome>)
    requires step.Complete? && KeyOk(p, key, first)
    ensures KeyOk(Do(p, step), key, FirstAfter(p, step, key, first))
  {
    RefinesItself(step.result);
    hide Refines;
  }

  lemma EndKeeps(p: Process, step: Step, key: Key, first: Option<Outcome>)
    requires step.Tell? || step.Fail?
    requires KeyOk(p, key, first)
    ensures KeyOk(Do(p, step), key, first)
  {
    hide Refines;
  }

  lemma WakeKeeps(p: Process, step: Step, key: Key, first: Option<Outcome>)
    requires step.Wake? && KeyOk(p, key, first)
    ensures KeyOk(Do(p, step), key, first)
  {
    hide Refines;
  }

  lemma CrashKeeps(p: Process, key: Key, first: Option<Outcome>)
    requires KeyOk(p, key, first)
    ensures KeyOk(Do(p, Crash), key, first)
  {
    hide Refines;
  }

  lemma DoKeeps(p: Process, step: Step, key: Key, first: Option<Outcome>)
    requires KeyOk(p, key, first) && Within(p, step, key)
    ensures KeyOk(Do(p, step), key, FirstAfter(p, step, key, first))
  {
    hide KeyOk, Do;
    match step
    case Arrive(_, _, _, _) => ArriveKeeps(p, step, key, first);
    case Reconcile(_, _, _) => ReconcileKeeps(p, step, key, first);
    case Complete(_, _) => CompleteKeeps(p, step, key, first);
    case Wake(_) => WakeKeeps(p, step, key, first);
    case Crash => CrashKeeps(p, key, first);
    case _ => EndKeeps(p, step, key, first);
  }

  ghost function FirstOf(steps: seq<Step>, key: Key): Option<Outcome>
    decreases |steps|
  {
    if steps == [] then None
    else FirstAfter(DoAll(Fresh, steps[..|steps| - 1]), steps[|steps| - 1], key, FirstOf(steps[..|steps| - 1], key))
  }

  lemma {:induction false} RunKeepsKey(steps: seq<Step>, key: Key)
    requires AllWithin(Fresh, steps, key)
    ensures KeyOk(DoAll(Fresh, steps), key, FirstOf(steps, key))
    decreases |steps|
  {
    hide KeyOk, Do, FirstAfter, Within;
    if steps == [] {
      FreshOk(key);
    } else {
      RunKeepsKey(steps[..|steps| - 1], key);
      DoKeeps(DoAll(Fresh, steps[..|steps| - 1]), steps[|steps| - 1], key, FirstOf(steps[..|steps| - 1], key));
    }
  }

  lemma FreshOk(key: Key)
    ensures KeyOk(Fresh, key, None)
  {
  }

  lemma {:induction false} PrefixWithin(steps: seq<Step>, key: Key, k: nat)
    requires AllWithin(Fresh, steps, key) && k <= |steps|
    ensures AllWithin(Fresh, steps[..k], key)
    decreases |steps|
  {
    hide Within;
    if k == |steps| {
      assert steps[..k] == steps;
    } else {
      PrefixWithin(steps[..|steps| - 1], key, k);
      assert steps[..|steps| - 1][..k] == steps[..k];
    }
  }

  /** What is recorded for a key with a first result only settles further. */
  lemma RecordedRefines(p: Process, step: Step, key: Key, first: Outcome)
    requires KeyOk(p, key, Some(first)) && Within(p, step, key)
    ensures KeyOk(Do(p, step), key, Some(first))
    ensures Refines(p.receipts[key].result.value, Do(p, step).receipts[key].result.value)
  {
    DoKeeps(p, step, key, Some(first));
    RefinesItself(p.receipts[key].result.value);
    match step
    case Arrive(t, other, fingerprint, now) =>
      hide Refines, KeyOk, Begin;
      if other == key {
        RepeatArrives(p.receipts, key, fingerprint, now);
      } else {
        OthersArrive(p.receipts, key, other, fingerprint, now);
      }
      assert key in p.receipts && p.receipts[key].result.Some? by { FirstIsRecorded(p, key, first); }
    case Reconcile(other, target, item) =>
      hide Refines, KeyOk, ReplaceUnknown;
      assert key in p.receipts && p.receipts[key].result.Some? by { FirstIsRecorded(p, key, first); }
      if item.device == target && item.status.Succeeded? { ReplaceRefines(p.receipts[key].result.value, target, item); }
    case _ =>
      hide Refines;
  }

  lemma FirstIsRecorded(p: Process, key: Key, first: Outcome)
    requires KeyOk(p, key, Some(first))
    ensures key in p.receipts && p.receipts[key].result.Some?
  {
  }

  lemma FirstStays(p: Process, step: Step, key: Key, first: Outcome)
    ensures FirstAfter(p, step, key, Some(first)) == Some(first)
  {
  }

  lemma {:induction false} LaterRecords(steps: seq<Step>, key: Key, k: nat)
    requires AllWithin(Fresh, steps, key) && k <= |steps| && FirstOf(steps[..k], key).Some?
    ensures FirstOf(steps, key) == FirstOf(steps[..k], key)
    ensures KeyOk(DoAll(Fresh, steps[..k]), key, FirstOf(steps, key))
    ensures KeyOk(DoAll(Fresh, steps), key, FirstOf(steps, key))
    ensures Refines(DoAll(Fresh, steps[..k]).receipts[key].result.value, DoAll(Fresh, steps).receipts[key].result.value)
    decreases |steps|
  {
    hide KeyOk, Do, Within, Refines, FirstAfter;
    PrefixWithin(steps, key, k);
    RunKeepsKey(steps[..k], key);
    if k == |steps| {
      assert steps[..k] == steps;
      FirstIsRecorded(DoAll(Fresh, steps), key, FirstOf(steps, key).value);
      RefinesItself(DoAll(Fresh, steps).receipts[key].result.value);
    } else {
      var n := |steps| - 1;
      assert steps[..n][..k] == steps[..k];
      LaterRecords(steps[..n], key, k);
      var first := FirstOf(steps[..n], key).value;
      FirstStays(DoAll(Fresh, steps[..n]), steps[n], key, first);
      RecordedRefines(DoAll(Fresh, steps[..n]), steps[n], key, first);
      FirstIsRecorded(DoAll(Fresh, steps[..k]), key, first);
      FirstIsRecorded(DoAll(Fresh, steps[..n]), key, first);
      FirstIsRecorded(DoAll(Fresh, steps), key, first);
      RefinesTransitive(DoAll(Fresh, steps[..k]).receipts[key].result.value,
                        DoAll(Fresh, steps[..n]).receipts[key].result.value,
                        DoAll(Fresh, steps).receipts[key].result.value);
    }
  }

  // What callers can rely on

  /** Within the window, across restarts, at most one call at a time carries a request out. */
  lemma AtMostOnePerform(steps: seq<Step>, key: Key, t: nat, u: nat)
    requires AllWithin(Fresh, steps, key)
    requires var tasks := DoAll(Fresh, steps).tasks;
      t in tasks && u in tasks && tasks[t] == Performing(key) && tasks[u] == Performing(key)
    ensures t == u
  {
    hide DoAll, AllWithin;
    RunKeepsKey(steps, key);
    assert Runs(DoAll(Fresh, steps).tasks[t], key) && Runs(DoAll(Fresh, steps).tasks[u], key);
  }

  /** Once one perform has its result on record, no perform of that request is ever in progress again. */
  lemma NoPerformAfterResult(steps: seq<Step>, key: Key, k: nat, t: nat)
    requires AllWithin(Fresh, steps, key) && k <= |steps|
    requires var receipts := DoAll(Fresh, steps[..k]).receipts; key in receipts && receipts[key].result.Some?
    ensures var after := DoAll(Fresh, steps);
      && key in after.receipts && after.receipts[key].result.Some?
      && (t in after.tasks ==> after.tasks[t] != Performing(key))
  {
    PrefixWithin(steps, key, k);
    RunKeepsKey(steps[..k], key);
    hide DoAll, AllWithin, FirstOf;
    LaterRecords(steps, key, k);
  }

  /** Two answers agree but for items one of them saw unknown and the other settled. */
  predicate SameButSettled(r: Outcome, r': Outcome) {
    && r'.error == r.error && |r'.items| == |r.items|
    && forall i :: 0 <= i < |r.items| ==> ItemRefines(r.items[i], r'.items[i]) || ItemRefines(r'.items[i], r.items[i])
  }

  lemma BetweenAgree(first: Outcome, r: Outcome, r': Outcome, recorded: Outcome)
    requires Between(first, r, recorded) && Between(first, r', recorded)
    ensures SameButSettled(r, r')
  {
    forall i | 0 <= i < |r.items| ensures ItemRefines(r.items[i], r'.items[i]) || ItemRefines(r'.items[i], r.items[i]) {
      assert ItemRefines(first.items[i], r.items[i]) && ItemRefines(r.items[i], recorded.items[i]);
      assert ItemRefines(first.items[i], r'.items[i]) && ItemRefines(r'.items[i], recorded.items[i]);
    }
  }

  /** Every caller of a request gets the one result, whenever it asks: any two answers differ at most in
      items that went from unknown to succeeded, so failed and delegated items never change. */
  lemma OneResultForAll(steps: seq<Step>, key: Key, j: nat, t: nat, u: nat)
    requires AllWithin(Fresh, steps, key) && j <= |steps|
    requires t in DoAll(Fresh, steps[..j]).tasks && u in DoAll(Fresh, steps).tasks
    requires var task := DoAll(Fresh, steps[..j]).tasks[t]; task.Answered? && task.key == key
    requires var task := DoAll(Fresh, steps).tasks[u]; task.Answered? && task.key == key
    ensures SameButSettled(DoAll(Fresh, steps[..j]).tasks[t].result, DoAll(Fresh, steps).tasks[u].result)
  {
    PrefixWithin(steps, key, j);
    RunKeepsKey(steps[..j], key);
    hide DoAll, AllWithin, FirstOf, Refines;
    var before, after := DoAll(Fresh, steps[..j]), DoAll(Fresh, steps);
    assert Held(before.tasks[t]).Some? && Held(after.tasks[u]).Some?;
    assert FirstOf(steps[..j], key).Some?;
    LaterRecords(steps, key, j);
    var first := FirstOf(steps, key).value;
    RefinesTransitive(before.tasks[t].result, before.receipts[key].result.value, after.receipts[key].result.value);
    BetweenAgree(first, before.tasks[t].result, after.tasks[u].result, after.receipts[key].result.value);
  }

  /** When exactly an arriving call carries the request out itself. */
  lemma PerformsWhen(receipts: Receipts, inflight: map<Key, nat>, task: nat, key: Key, fingerprint: string, now: Moment)
    ensures var stored := key in receipts && InWindow(receipts[key], now);
      Admit(receipts, inflight, task, key, fingerprint, now).2.Performing? <==>
      !stored || (receipts[key].fingerprint == fingerprint && receipts[key].result.None? && key !in inflight)
  {
  }

  /** While a call runs the key, an arriving one starts a second perform beside it exactly when the row is past its
      idempotency window, whatever payload it brings: within it, it waits or is refused. */
  lemma SecondPerformPastWindow(p: Process, key: Key, first: Option<Outcome>, runner: nat, task: nat,
                                fingerprint: string, now: Moment)
    requires KeyOk(p, key, first) && runner in p.tasks && Runs(p.tasks[runner], key) && task !in p.tasks
    ensures key in p.receipts
    ensures var after := Do(p, Arrive(task, key, fingerprint, now));
      && runner in after.tasks && after.tasks[runner] == p.tasks[runner] && task in after.tasks
      && (after.tasks[task].Performing? <==> !InWindow(p.receipts[key], now))
      && (after.tasks[task].Performing? ==> after.tasks[task] == Performing(key))
  {
    hide WaitersOk, ResultsOk;
    PerformsWhen(p.receipts, p.inflight, task, key, fingerprint, now);
  }

  /** And that happens: two performs of one request in progress, the second past the window of the first. */
  lemma SecondPerformIsReachable(key: Key, fingerprint: string, now: Moment, later: Moment)
    ensures var steps := [Arrive(0, key, fingerprint, now), Arrive(1, key, fingerprint, later)];
      && (later > now + IDEMPOTENCY_WINDOW <==>
            DoAll(Fresh, steps).tasks == map[0 := Performing(key), 1 := Performing(key)])
      && (AllWithin(Fresh, steps, key) <==> later <= now + IDEMPOTENCY_WINDOW)
  {
    var first, second := Arrive(0, key, fingerprint, now), Arrive(1, key, fingerprint, later);
    assert [first, second][..1] == [first] && [first][..0] == [];
    assert DoAll(Fresh, []) == Fresh;
    assert DoAll(Fresh, [first]) == Do(Fresh, first);
    assert DoAll(Fresh, [first, second]) == Do(Do(Fresh, first), second);
    var before := Do(Fresh, first);
    assert before == Process(map[key := Receipt(fingerprint, now, None)], map[key := 0], map[0 := Performing(key)]);
    assert AllWithin(Fresh, [], key) && AllWithin(Fresh, [first], key);
    assert AllWithin(Fresh, [first, second], key) <==> Within(before, second, key);
    var after := Do(before, second);
    assert after.tasks.Keys == {0, 1} && after.tasks[0] == Performing(key);
    PerformsWhen(before.receipts, before.inflight, 1, key, fingerprint, later);
    assert after.tasks[1].Performing? <==> later > now + IDEMPOTENCY_WINDOW;
  }

  // The two in place

  class SmartHomeRuntime {
    var receipts: Receipts
    var inflight: map<Key, nat>

    constructor ()
      ensures receipts == map[] && inflight == map[]
    {
      receipts, inflight := map[], map[];
    }

    /** Prune, then look the request up; a conflict rolls the pruning back. */
    method BeginReceipt(key: Key, fingerprint: string, now: Moment) returns (begun: Begun)
      modifies this`receipts
      ensures (receipts, begun) == Begin(old(receipts), key, fingerprint, now)
    {
      var before := receipts;
      receipts := map k | k in receipts && receipts[k].submittedAt >= now - RETENTION :: receipts[k];
      if key in receipts && receipts[key].submittedAt >= now - IDEMPOTENCY_WINDOW {
        if receipts[key].fingerprint != fingerprint {
          receipts := before;
          return ReceiptConflict;
        }
        return Existing(receipts[key]);
      }
      receipts := receipts[key := Receipt(fingerprint, now, None)];
      return NewSubmission;
    }

    /** The locked section: begin, then answer, join or take over. */
    method AdmitCall(task: nat, key: Key, fingerprint: string, now: Moment) returns (turned: Task)
      modifies this
      ensures (receipts, inflight, turned) == Admit(old(receipts), old(inflight), task, key, fingerprint, now)
    {
      var begun := BeginReceipt(key, fingerprint, now);
      if begun.ReceiptConflict? {
        return Conflicted(key);
      }
      if begun.Existing? {
        if begun.receipt.result.Some? {
          return Answered(key, begun.receipt.result.value);
        }
        if key in inflight {
          return Waiting(key, inflight[key]);
        }
      }
      inflight := inflight[key := task];
      return Performing(key);
    }

    method CompleteReceipt(key: Key, result: Outcome)
      modifies this`receipts
      ensures receipts == Completed(old(receipts), key, result)
    {
      if key in receipts {
        receipts := receipts[key := receipts[key].(result := Some(result))];
      }
    }

    /** An observation settled an unknown outcome: put it on record. */
    method ReconcileReceipt(key: Key, target: Id, item: Item) returns (settled: bool)
      modifies this`receipts
      ensures receipts == Reconciled(old(receipts), key, target, item)
      ensures settled <==>
        key in old(receipts) && old(receipts)[key].result.Some?
        && ReplaceUnknown(old(receipts)[key].result.value, target, item).Some?
    {
      if key !in receipts || receipts[key].result.None? {
        return false;
      }
      var replaced := SettleFirst(receipts[key].result.value, target, item);
      if replaced.None? {
        return false;
      }
      receipts := receipts[key := receipts[key].(result := replaced)];
      return true;
    }
  }
}
