/** The drain loop and the long-lived worker around it. */
module OutboxWorkers {
  import opened Wrappers
  import opened Text
  import opened Vocabulary
  import opened Events
  import opened Outbox
  import opened EventTables
  import opened OutboxSystem

  /** A call another part of the process makes while a handler is awaited. */
  datatype Foreign =
    | Appends(flags: Flags, input: EventInput, id: EventId, at: int)
    | Claims(worker: string, limit: int, lease: int, at: int)
    | Acks(row: nat, worker: string)
    | Fails(row: nat, error: string, retry: int, worker: string, at: int)

  /** What one await brings: the calls of others, how the handler ended, and the time then. */
  datatype Turn = Turn(others: seq<Foreign>, result: Handled, now: int)

  datatype DrainResult = DrainResult(claimed: nat, delivered: nat, retried: nat, failed: nat)

  datatype Options = Options(worker: string, batch: Option<int>, lease: Option<int>, cap: Option<int>, poll: Option<int>)

  /** The number an option stands for: itself when in range, the nearer bound when not, the fallback when missing. */
  predicate Chosen(value: Option<int>, fallback: int, max: int, r: int) {
    && (value.None? ==> r == fallback)
    && (value.Some? && 1 <= value.value <= max ==> r == value.value)
    && (value.Some? && value.value < 1 ==> r == 1)
    && (value.Some? && value.value > max ==> r == max)
  }

  function PositiveInt(value: Option<int>, fallback: int, max: int): (r: int)
    requires 1 <= fallback <= max
    ensures 1 <= r <= max
    ensures Chosen(value, fallback, max, r)
  {
    if value.None? then fallback
    else if value.value < 1 then 1
    else if value.value > max then max
    else value.value
  }

  function Budgeted(cap: Option<int>): (r: Option<nat>)
    ensures r.None? <==> cap.None?
    ensures r.Some? ==> Chosen(cap, 5, 100, r.value)
  {
    if cap.None? then None else Some(PositiveInt(cap, 5, 100))
  }

  function Called(st: Store, f: Foreign): Store {
    match f
    case Appends(flags, input, id, at) => Events.Append(st, flags, input, id, at).0
    case Claims(worker, limit, lease, at) => st.(outbox := Outbox.Claim(st.outbox, worker, limit, lease, at).0)
    case Acks(row, worker) => st.(outbox := Outbox.Ack(st.outbox, row, worker).0)
    case Fails(row, error, retry, worker, at) => st.(outbox := Outbox.Fail(st.outbox, row, error, retry, worker, at).0)
  }

  function Meanwhile(st: Store, others: seq<Foreign>): Store {
    if others == [] then st else Called(Meanwhile(st, others[..|others| - 1]), others[|others| - 1])
  }

  /** The store and the tally once the first k items of a claim have been settled. */
  function DrainedUpTo(st: Store, items: seq<Item>, turns: nat -> Turn, worker: string, cap: Option<nat>, k: nat): (Store, Tally)
    requires k <= |items|
  {
    if k == 0 then (st, Tally(|items|, 0, 0, 0, 0))
    else
      var (before, tally) := DrainedUpTo(st, items, turns, worker, cap, k - 1);
      var turn := turns(k - 1);
      var found := Meanwhile(before, turn.others);
      var (rows, verdict) := Settle(found.outbox, items[k - 1], worker, cap, turn.result, turn.now);
      (found.(outbox := rows), Count(tally, verdict))
  }

  /** The source reports every count but the settlements that lost their race. */
  function Report(t: Tally): DrainResult {
    DrainResult(t.claimed, t.delivered, t.retried, t.failed)
  }

  /** Of the items claimed, each settled one is counted exactly once. */
  lemma {:induction false} TallyAddsUp(st: Store, items: seq<Item>, turns: nat -> Turn, worker: string, cap: Option<nat>, k: nat)
    requires k <= |items|
    ensures var t := DrainedUpTo(st, items, turns, worker, cap, k).1;
            t.claimed == |items| && t.delivered + t.retried + t.failed + t.lost == k
  {
    if k > 0 {
      TallyAddsUp(st, items, turns, worker, cap, k - 1);
    }
  }

  /** A whole drain, claim included, as a function of the store it starts from. */
  function Drained(st: Store, turns: nat -> Turn, o: Options, name: string, start: int): (Store, Tally) {
    var cap := Budgeted(o.cap);
    var (rows, items) := Outbox.Claim(st.outbox, name, PositiveInt(o.batch, 20, 200), PositiveInt(o.lease, 60, 3600), start);
    DrainedUpTo(st.(outbox := rows), items, turns, name, cap, |items|)
  }

  // ---- what the counts of a drain mean ----

  /** What the first k handlers made of their items shows in the counts. */
  ghost predicate CountsSay(turns: nat -> Turn, uncapped: bool, k: nat, delivered: nat, retried: nat, failed: nat) {
    && ((forall i :: 0 <= i < k ==> turns(i).result.Fine?) ==> retried == 0 && failed == 0)
    && ((forall i :: 0 <= i < k ==> turns(i).result.Broke?) ==> delivered == 0)
    && ((forall i :: 0 <= i < k ==> turns(i).result.Broke? ==> turns(i).result.retry <= 0) ==> retried == 0)
    && (uncapped && (forall i :: 0 <= i < k ==> turns(i).result.Broke? ==> turns(i).result.retry > 0) ==> failed == 0)
  }

  /** What a verdict says of the handler behind it. */
  lemma VerdictSays(rows: seq<OutboxRow>, item: Item, worker: string, cap: Option<nat>, result: Handled, now: int)
    ensures match Settle(rows, item, worker, cap, result, now).1
            case WasDelivered => result.Fine?
            case WasRetried => result.Broke? && result.retry > 0
            case WasFailed => result.Broke? && (cap.Some? || result.retry <= 0)
            case WasLost => true
  {
  }

  lemma CountedSays(turns: nat -> Turn, cap: Option<nat>, k: nat, t: Tally, t': Tally, v: Verdict)
    requires k > 0 && CountsSay(turns, cap.None?, k - 1, t.delivered, t.retried, t.failed) && t' == Count(t, v)
    requires v == WasDelivered ==> turns(k - 1).result.Fine?
    requires v == WasRetried ==> turns(k - 1).result.Broke? && turns(k - 1).result.retry > 0
    requires v == WasFailed ==> turns(k - 1).result.Broke? && (cap.Some? || turns(k - 1).result.retry <= 0)
    ensures CountsSay(turns, cap.None?, k, t'.delivered, t'.retried, t'.failed)
  {
  }

  lemma TallyStep(st: Store, items: seq<Item>, turns: nat -> Turn, worker: string, cap: Option<nat>, k: nat)
    returns (v: Verdict)
    requires 0 < k <= |items|
    ensures v == WasDelivered ==> turns(k - 1).result.Fine?
    ensures v == WasRetried ==> turns(k - 1).result.Broke? && turns(k - 1).result.retry > 0
    ensures v == WasFailed ==> turns(k - 1).result.Broke? && (cap.Some? || turns(k - 1).result.retry <= 0)
    ensures DrainedUpTo(st, items, turns, worker, cap, k).1 == Count(DrainedUpTo(st, items, turns, worker, cap, k - 1).1, v)
  {
    var found := Meanwhile(DrainedUpTo(st, items, turns, worker, cap, k - 1).0, turns(k - 1).others).outbox;
    VerdictSays(found, items[k - 1], worker, cap, turns(k - 1).result, turns(k - 1).now);
    v := Settle(found, items[k - 1], worker, cap, turns(k - 1).result, turns(k - 1).now).1;
  }

  /** One verdict explains each tally by the one before it, and the handler's result explains the verdict. */
  predicate Explains(v: Verdict, result: Handled, uncapped: bool, t: Tally, t': Tally) {
    && t' == Count(t, v)
    && (v == WasDelivered ==> result.Fine?)
    && (v == WasRetried ==> result.Broke? && result.retry > 0)
    && (v == WasFailed ==> result.Broke? && (!uncapped || result.retry <= 0))
  }

  lemma {:induction false} TalliesSay(turns: nat -> Turn, cap: Option<nat>, tallies: seq<Tally>, vs: seq<Verdict>, k: nat)
    requires k < |tallies| == |vs| + 1
    requires tallies[0].delivered == tallies[0].retried == tallies[0].failed == 0
    requires forall i :: 0 <= i < |vs| ==> Explains(vs[i], turns(i).result, cap.None?, tallies[i], tallies[i + 1])
    ensures CountsSay(turns, cap.None?, k, tallies[k].delivered, tallies[k].retried, tallies[k].failed)
  {
    if k > 0 {
      TalliesSay(turns, cap, tallies, vs, k - 1);
      assert Explains(vs[k - 1], turns(k - 1).result, cap.None?, tallies[k - 1], tallies[k - 1 + 1]);
      CountedSays(turns, cap, k, tallies[k - 1], tallies[k], vs[k - 1]);
    }
  }

  /** The tallies of a drain, item by item, with the verdicts between them. */
  lemma {:induction false} TalliesOf(st: Store, items: seq<Item>, turns: nat -> Turn, worker: string, cap: Option<nat>, k: nat)
    returns (tallies: seq<Tally>, vs: seq<Verdict>)
    requires k <= |items|
    ensures |vs| == k && |tallies| == k + 1 && tallies[k] == DrainedUpTo(st, items, turns, worker, cap, k).1
    ensures tallies[0].delivered == tallies[0].retried == tallies[0].failed == 0
    ensures forall i :: 0 <= i < |vs| ==> Explains(vs[i], turns(i).result, cap.None?, tallies[i], tallies[i + 1])
  {
    if k == 0 {
      return [DrainedUpTo(st, items, turns, worker, cap, 0).1], [];
    }
    var before, earlier := TalliesOf(st, items, turns, worker, cap, k - 1);
    var v := TallyStep(st, items, turns, worker, cap, k);
    return before + [DrainedUpTo(st, items, turns, worker, cap, k).1], earlier + [v];
  }

  lemma TallySays(st: Store, items: seq<Item>, turns: nat -> Turn, worker: string, cap: Option<nat>, k: nat)
    requires k <= |items|
    ensures var t := DrainedUpTo(st, items, turns, worker, cap, k).1;
            CountsSay(turns, cap.None?, k, t.delivered, t.retried, t.failed)
  {
    var tallies, vs := TalliesOf(st, items, turns, worker, cap, k);
    TalliesSay(turns, cap, tallies, vs, k);
  }

  /** From the k-th on every item's row is still held by the worker. */
  ghost predicate HoldsRest(rows: seq<OutboxRow>, items: seq<Item>, worker: string, k: nat) {
    forall j :: k <= j < |items| ==> Held(rows, items[j].row, worker)
  }

  lemma SettleLeavesRest(rows: seq<OutboxRow>, items: seq<Item>, worker: string, cap: Option<nat>, result: Handled, now: int, k: nat)
    requires k < |items| && HoldsRest(rows, items, worker, k) && forall i, j :: 0 <= i < j < |items| ==> items[i].row < items[j].row
    ensures var (next, verdict) := Settle(rows, items[k], worker, cap, result, now);
            HoldsRest(next, items, worker, k + 1) && verdict != WasLost
  {
  }

  /** A drain nothing interferes with loses no settlement. */
  lemma {:induction false} AloneLosesNothing(st: Store, items: seq<Item>, turns: nat -> Turn, worker: string, cap: Option<nat>, k: nat)
    requires k <= |items| && (forall i, j :: 0 <= i < j < |items| ==> items[i].row < items[j].row)
    requires HoldsRest(st.outbox, items, worker, 0) && forall i :: turns(i).others == []
    ensures var (end, tally) := DrainedUpTo(st, items, turns, worker, cap, k);
            HoldsRest(end.outbox, items, worker, k) && tally.lost == 0
  {
    if k > 0 {
      AloneLosesNothing(st, items, turns, worker, cap, k - 1);
      var before, turn := DrainedUpTo(st, items, turns, worker, cap, k - 1).0, turns(k - 1);
      assert Meanwhile(before, turn.others) == before;
      SettleLeavesRest(before.outbox, items, worker, cap, turn.result, turn.now, k - 1);
    }
  }

  lemma ClaimCount(rows: seq<OutboxRow>, worker: string, batch: int, lease: int, start: int)
    requires Trim(worker) != "" && 1 <= batch <= 200
    ensures var due := AllDue(rows, start, lease);
            |Outbox.Claim(rows, worker, batch, lease, start).1| == if |due| <= batch then |due| else batch
  {
  }

  /** A drain claims as many of the due rows as its batch allows, under the lease of its options. */
  lemma DrainClaims(st: Store, turns: nat -> Turn, o: Options, name: string, start: int, batch: int, lease: int)
    requires Trim(name) != "" && Chosen(o.batch, 20, 200, batch) && Chosen(o.lease, 60, 3600, lease)
    ensures var due := AllDue(st.outbox, start, lease);
            Drained(st, turns, o, name, start).1.claimed == if |due| <= batch then |due| else batch
  {
    ClaimCount(st.outbox, name, batch, lease, start);
    var (rows, items) := Outbox.Claim(st.outbox, name, batch, lease, start);
    TallyAddsUp(st.(outbox := rows), items, turns, name, Budgeted(o.cap), |items|);
  }

  lemma DrainSays(st: Store, turns: nat -> Turn, o: Options, name: string, start: int)
    ensures var t := Drained(st, turns, o, name, start).1;
            CountsSay(turns, o.cap.None?, t.claimed, t.delivered, t.retried, t.failed)
  {
    var (rows, items) := Outbox.Claim(st.outbox, name, PositiveInt(o.batch, 20, 200), PositiveInt(o.lease, 60, 3600), start);
    TallyAddsUp(st.(outbox := rows), items, turns, name, Budgeted(o.cap), |items|);
    TallySays(st.(outbox := rows), items, turns, name, Budgeted(o.cap), |items|);
  }

  lemma ClaimedAreHeld(rows: seq<OutboxRow>, worker: string, batch: int, lease: int, start: int)
    requires Trim(worker) != "" && |Trim(worker)| <= 120
    ensures var (next, items) := Outbox.Claim(rows, worker, batch, lease, start);
            HoldsRest(next, items, worker, 0) && forall i, j :: 0 <= i < j < |items| ==> items[i].row < items[j].row
  {
    ClaimIsFirst(rows, worker, batch, lease, start);
  }

  /** Alone, and under a name of at most 120 characters, a drain settles everything it claims. */
  lemma DrainAlone(st: Store, turns: nat -> Turn, o: Options, name: string, start: int)
    requires Trim(name) != "" && |Trim(name)| <= 120 && forall k :: turns(k).others == []
    ensures Drained(st, turns, o, name, start).1.lost == 0
  {
    var batch, lease := PositiveInt(o.batch, 20, 200), PositiveInt(o.lease, 60, 3600);
    ClaimedAreHeld(st.outbox, name, batch, lease, start);
    var (rows, items) := Outbox.Claim(st.outbox, name, batch, lease, start);
    AloneLosesNothing(st.(outbox := rows), items, turns, name, Budgeted(o.cap), |items|);
  }

  /** The worker name: the configured one, else one drawn for this drain. */
  function WorkerName(o: Options, drawn: string): (r: string)
    ensures if Trim(o.worker) == "" then r == drawn else r == Clip(Trim(o.worker), 120)
  {
    if LockName(o.worker) != "" then LockName(o.worker) else drawn
  }

  /** An await: other calls reach the store in some order. */
  method Await(store: EventStore, others: seq<Foreign>)
    modifies store
    ensures store.Contents() == Meanwhile(old(store.Contents()), others)
  {
    for k := 0 to |others|
      invariant store.Contents() == Meanwhile(old(store.Contents()), others[..k])
    {
      assert others[..k + 1][..k] == others[..k];
      match others[k]
      case Appends(flags, input, id, at) => var _ := store.Append(flags, input, id, at);
      case Claims(worker, limit, lease, at) => var _ := store.Claim(worker, limit, lease, at);
      case Acks(row, worker) => var _ := store.Ack(row, worker);
      case Fails(row, error, retry, worker, at) => var _ := store.Fail(row, error, retry, worker, at);
    }
    assert others[..|others|] == others;
  }

  /** The end of one turn: acknowledge after a good handler, fail with the wait its attempts leave after a bad one. */
  method SettleItem(store: EventStore, item: Item, worker: string, cap: Option<nat>, result: Handled, now: int)
    returns (verdict: Verdict)
    modifies store`outbox
    ensures (store.outbox, verdict) == Settle(old(store.outbox), item, worker, cap, result, now)
    ensures verdict == WasLost <==> !Held(old(store.outbox), item.row, worker)
    ensures verdict == WasLost ==> store.outbox == old(store.outbox)
    ensures verdict != WasLost ==>
      && item.row < |store.outbox| == |old(store.outbox)|
      && (forall i :: 0 <= i < |store.outbox| && i != item.row ==> store.outbox[i] == old(store.outbox)[i])
      && (verdict == WasDelivered <==> result.Fine?)
      && (verdict == WasRetried <==> result.Broke? && result.retry > 0 && (cap.None? || item.attempts < cap.value))
      && (verdict == WasDelivered <==> store.outbox[item.row].status == Delivered)
      && (verdict == WasRetried ==> forall t, lease :: Due(store.outbox[item.row], t, lease) <==> t >= now + result.retry)
      && (verdict == WasFailed <==> store.outbox[item.row].status == Dead)
      && (verdict == WasRetried || verdict == WasFailed ==>
            store.outbox[item.row].lastError == Some(Clip(Trim(ErrorText(result.message)), 500)))
  {
    match result
    case Fine =>
      var done := store.Ack(item.row, worker);
      verdict := if done then WasDelivered else WasLost;
    case Broke(message, retry) =>
      var exhausted := cap.Some? && item.attempts >= cap.value;
      var wait := if exhausted || retry < 0 then 0 else retry;
      var done := store.Fail(item.row, ErrorText(message), wait, worker, now);
      verdict := if done && wait > 0 then WasRetried else if done then WasFailed else WasLost;
  }

  /** Handle and settle the claimed items one after another. */
  method HandleAll(store: EventStore, items: seq<Item>, turns: nat -> Turn, worker: string, cap: Option<nat>) returns (tally: Tally)
    modifies store
    ensures (store.Contents(), tally) == DrainedUpTo(old(store.Contents()), items, turns, worker, cap, |items|)
  {
    tally := Tally(|items|, 0, 0, 0, 0);
    for k := 0 to |items|
      invariant (store.Contents(), tally) == DrainedUpTo(old(store.Contents()), items, turns, worker, cap, k)
    {
      Await(store, turns(k).others);
      var verdict := SettleItem(store, items[k], worker, cap, turns(k).result, turns(k).now);
      tally := Count(tally, verdict);
    }
  }

  /** `drainCognitiveOutbox`: claim a batch and handle it; of the settlements only lost races go unreported. */
  method DrainBatch(store: EventStore, turns: nat -> Turn, o: Options, drawn: string, start: int)
    returns (result: DrainResult, ghost lost: nat)
    modifies store
    ensures store.Contents() == Drained(old(store.Contents()), turns, o, WorkerName(o, drawn), start).0
    ensures result == Report(Drained(old(store.Contents()), turns, o, WorkerName(o, drawn), start).1)
    ensures result.claimed == result.delivered + result.retried + result.failed + lost
    ensures CountsSay(turns, o.cap.None?, result.claimed, result.delivered, result.retried, result.failed)
  {
    DrainSays(store.Contents(), turns, o, WorkerName(o, drawn), start);
    var worker := if LockName(o.worker) != "" then LockName(o.worker) else drawn;
    var items := store.Claim(worker, PositiveInt(o.batch, 20, 200), PositiveInt(o.lease, 60, 3600), start);
    TallyAddsUp(store.Contents(), items, turns, worker, Budgeted(o.cap), |items|);
    var tally := HandleAll(store, items, turns, worker, Budgeted(o.cap));
    return Report(tally), tally.lost;
  }

  class OutboxWorker {
    const store: EventStore
    const options: Options
    var timer: Option<int>
    var running: bool
    var draining: bool

    /** The timer ticks exactly while the worker runs. */
    ghost predicate Valid()
      reads this
    {
      running <==> timer.Some?
    }

    constructor (store: EventStore, options: Options)
      ensures Valid() && !running && !draining && this.store == store && this.options == options
    {
      this.store, this.options := store, options;
      timer, running, draining := None, false, false;
    }

    method Stop() returns (stopped: bool)
      requires Valid()
      modifies `timer, `running
      ensures Valid() && !running
      ensures stopped <==> old(running)
    {
      if !running {
        return false;
      }
      running := false;
      timer := None;
      return true;
    }

    /** `drain`: a second call while one is under way claims and settles nothing; the flag is always given back. */
    method RunDrain(turns: nat -> Turn, drawn: string, start: int) returns (result: DrainResult, ghost lost: nat)
      modifies `draining, store
      ensures draining == old(draining)
      ensures old(draining) ==> store.Contents() == old(store.Contents()) && result == DrainResult(0, 0, 0, 0)
      ensures !old(draining) ==>
        var (end, tally) := Drained(old(store.Contents()), turns, options, WorkerName(options, drawn), start);
        store.Contents() == end && result == Report(tally)
      ensures !old(draining) ==> result.claimed == result.delivered + result.retried + result.failed + lost
    {
      lost := 0;
      if draining {
        return DrainResult(0, 0, 0, 0), 0;
      }
      draining := true;
      result, lost := DrainBatch(store, turns, options, drawn, start);
      draining := false;
    }

    /**
     * `start`: at once a first drain, then the timer. The drain's awaits outlast this call in the
     * code; in the meantime only the worker's switch and timer change, which no drain reads.
     */
    method Start(turns: nat -> Turn, drawn: string, now: int) returns (started: bool)
      requires Valid()
      modifies this, store
      ensures Valid() && running && draining == old(draining)
      ensures started <==> !old(running)
      ensures started ==> timer.Some? && Chosen(options.poll, 1000, 60_000, timer.value)
      ensures started && !old(draining) ==>
        store.Contents() == Drained(old(store.Contents()), turns, options, WorkerName(options, drawn), now).0
      ensures started && old(draining) ==> store.Contents() == old(store.Contents())
      ensures !started ==> timer == old(timer) && store.Contents() == old(store.Contents())
    {
      if running {
        return false;
      }
      running := true;
      var _, _ := RunDrain(turns, drawn, now);
      timer := Some(PositiveInt(options.poll, 1000, 60_000));
      return true;
    }
  }
}
