/**
 * Any number of drains over one outbox table: each claims a batch, runs its handler on one item
 * after another, and settles each item when its handler returns. Between any two of these
 * moments other drains, enqueues, the clock and crashes may intervene. Each row carries the
 * history of what was done to it.
 */
module OutboxSystem {
  import opened Wrappers
  import opened Text
  import opened Vocabulary
  import opened Events
  import opened Outbox

  datatype Mark =
    | Took(who: string, at: int, lease: int)
    | Settled(who: string, snapshot: nat, result: Handled, verdict: Verdict, at: int)

  datatype Tally = Tally(claimed: nat, delivered: nat, retried: nat, failed: nat, lost: nat)

  /** A drain in progress: its worker name, its attempt budget, the items still to handle. */
  datatype Drain = Drain(worker: string, cap: Option<nat>, todo: seq<Item>, tally: Tally)

  datatype Sys = Sys(rows: seq<OutboxRow>, marks: seq<seq<Mark>>, drains: map<nat, Drain>, clock: int)

  datatype Op =
    | Start(drain: nat, worker: string, batch: int, lease: int, cap: Option<nat>)
    | Return(drain: nat, result: Handled)
    | Kill(drain: nat)
    | Enqueue(event: EventId)
    | Pass(seconds: nat)

  function Lease(lease: int): int {
    if lease < 1 then 1 else if lease > 3600 then 3600 else lease
  }

  function Cap(cap: Option<nat>): Option<nat> {
    if cap.None? then None else Some(if cap.value < 1 then 1 else if cap.value > 100 then 100 else cap.value)
  }

  function Count(tally: Tally, v: Verdict): Tally {
    match v
    case WasDelivered => tally.(delivered := tally.delivered + 1)
    case WasRetried => tally.(retried := tally.retried + 1)
    case WasFailed => tally.(failed := tally.failed + 1)
    case WasLost => tally.(lost := tally.lost + 1)
  }

  function MarkTaken(marks: seq<seq<Mark>>, ids: seq<nat>, m: Mark): seq<seq<Mark>> {
    seq(|marks|, i requires 0 <= i < |marks| => if i in ids then marks[i] + [m] else marks[i])
  }

  function Begin(s: Sys, op: Op): Sys
    requires op.Start?
  {
    var name := LockName(op.worker);
    if name == "" || op.drain in s.drains then s
    else
      var ids := Picks(s.rows, op.batch, s.clock, Lease(op.lease));
      var (rows, items) := Claim(s.rows, name, op.batch, Lease(op.lease), s.clock);
      var drain := Drain(name, Cap(op.cap), items, Tally(|items|, 0, 0, 0, 0));
      Sys(rows, MarkTaken(s.marks, ids, Took(Trim(name), s.clock, Lease(op.lease))), s.drains[op.drain := drain], s.clock)
  }

  function Finish(s: Sys, op: Op): Sys
    requires op.Return?
  {
    if op.drain !in s.drains || s.drains[op.drain].todo == [] then s
    else
      var d := s.drains[op.drain];
      var item := d.todo[0];
      var (rows, verdict) := Settle(s.rows, item, d.worker, d.cap, op.result, s.clock);
      var mark := Settled(Trim(d.worker), item.attempts, op.result, verdict, s.clock);
      Sys(rows, if item.row < |s.marks| then s.marks[item.row := s.marks[item.row] + [mark]] else s.marks,
          s.drains[op.drain := Drain(d.worker, d.cap, d.todo[1..], Count(d.tally, verdict))], s.clock)
  }

  function Next(s: Sys, op: Op): Sys {
    match op
    case Start(_, _, _, _, _) => Begin(s, op)
    case Return(_, _) => Finish(s, op)
    case Kill(drain) => s.(drains := s.drains - {drain})
    case Enqueue(event) => s.(rows := s.rows + [OutboxRow(event, Queued, 0, s.clock, None, None, None)], marks := s.marks + [[]])
    case Pass(seconds) => s.(clock := s.clock + seconds)
  }

  function Run(start: int, ops: seq<Op>): Sys {
    if ops == [] then Sys([], [], map[], start) else Next(Run(start, ops[..|ops| - 1]), ops[|ops| - 1])
  }

  // ---- one row and its history ----

  /** A settlement that took effect. */
  predicate Ended(m: Mark) {
    m.Settled? && m.verdict != WasLost
  }

  /** The claim still open at the end of a history. */
  function OpenClaim(h: seq<Mark>): Option<Mark> {
    if h == [] then None
    else if h[|h| - 1].Took? then Some(h[|h| - 1])
    else if Ended(h[|h| - 1]) then None
    else OpenClaim(h[..|h| - 1])
  }

  /** Mark a is a claim with no effective settlement between it and b. */
  ghost predicate OpenBetween(h: seq<Mark>, a: nat, b: nat) {
    a < b <= |h| && h[a].Took? && forall k :: a < k < b ==> !Ended(h[k])
  }

  /** Two claims with no settlement in between are at least the later one's lease apart. */
  ghost predicate Separated(h: seq<Mark>) {
    forall a, b :: 0 <= a < b < |h| && h[b].Took? && OpenBetween(h, a, b) ==> h[b].at >= h[a].at + h[b].lease
  }

  /** Every effective settlement was made by the worker of the claim then open, deliveries after a good handler. */
  ghost predicate Fenced(h: seq<Mark>) {
    forall b :: 0 <= b < |h| && Ended(h[b]) ==>
      && OpenClaim(h[..b]).Some? && OpenClaim(h[..b]).value.Took? && OpenClaim(h[..b]).value.who == h[b].who
      && (h[b].verdict == WasDelivered <==> h[b].result.Fine?)
  }

  ghost predicate InTime(h: seq<Mark>, clock: int) {
    && (forall a :: 0 <= a < |h| && h[a].Took? ==> h[a].at <= clock)
    && (forall a, b :: 0 <= a < b < |h| && h[a].Took? && h[b].Took? ==> h[a].at <= h[b].at)
  }

  predicate LockOk(row: OutboxRow, h: seq<Mark>) {
    && (row.status == Processing <==> row.lockedAt.Some?)
    && (row.status == Processing <==> row.lockedBy.Some?)
    && match OpenClaim(h)
       case None => row.status != Processing
       case Some(m) => m.Took? && row.lockedAt == Some(m.at) && row.lockedBy == Some(m.who)
  }

  function Verdicts(h: seq<Mark>, v: Verdict): nat {
    if h == [] then 0
    else Verdicts(h[..|h| - 1], v) + (if h[|h| - 1].Settled? && h[|h| - 1].verdict == v then 1 else 0)
  }

  /** A row ends at most once, and its status says how. */
  predicate EndOk(row: OutboxRow, h: seq<Mark>) {
    && Verdicts(h, WasDelivered) == (if row.status == Delivered then 1 else 0)
    && Verdicts(h, WasFailed) == (if row.status == Dead then 1 else 0)
  }

  ghost predicate RowOk(row: OutboxRow, h: seq<Mark>, clock: int) {
    LockOk(row, h) && EndOk(row, h) && InTime(h, clock) && Separated(h) && Fenced(h)
  }

  lemma {:induction false} OpenClaimIsLatest(h: seq<Mark>, a: nat, clock: int)
    requires InTime(h, clock) && OpenBetween(h, a, |h|)
    ensures OpenClaim(h).Some? && OpenClaim(h).value.Took? && OpenClaim(h).value.at >= h[a].at
  {
    var n := |h| - 1;
    if !h[n].Took? {
      assert InTime(h[..n], clock);
      assert OpenBetween(h[..n], a, n);
      OpenClaimIsLatest(h[..n], a, clock);
    }
  }

  lemma PrefixesStay(h: seq<Mark>, m: Mark)
    ensures forall b :: 0 <= b <= |h| ==> (h + [m])[..b] == h[..b]
    ensures (h + [m])[..|h|] == h
  {
  }

  lemma OpenBetweenStays(h: seq<Mark>, m: Mark, a: nat, b: nat)
    requires b <= |h|
    ensures OpenBetween(h + [m], a, b) <==> OpenBetween(h, a, b)
  {
    assert forall k :: 0 <= k < |h| ==> (h + [m])[k] == h[k];
  }

  lemma TookSeparated(h: seq<Mark>, m: Mark, clock: int)
    requires Separated(h) && InTime(h, clock) && m.Took? && m.at == clock
    requires OpenClaim(h).Some? && OpenClaim(h).value.Took? ==> OpenClaim(h).value.at <= m.at - m.lease
    ensures Separated(h + [m]) && InTime(h + [m], clock)
  {
    var h' := h + [m];
    forall a, b | 0 <= a < b < |h'| && h'[b].Took? && OpenBetween(h', a, b) ensures h'[b].at >= h'[a].at + h'[b].lease {
      OpenBetweenStays(h, m, a, b);
      if b == |h| {
        OpenClaimIsLatest(h, a, clock);
      }
    }
  }

  lemma FencedStays(h: seq<Mark>, m: Mark)
    requires Fenced(h)
    requires Ended(m) ==> OpenClaim(h).Some? && OpenClaim(h).value.Took? && OpenClaim(h).value.who == m.who
                          && (m.verdict == WasDelivered <==> m.result.Fine?)
    ensures Fenced(h + [m])
  {
    PrefixesStay(h, m);
    var h' := h + [m];
    forall b | 0 <= b < |h'| && Ended(h'[b])
      ensures OpenClaim(h'[..b]).Some? && OpenClaim(h'[..b]).value.Took? && OpenClaim(h'[..b]).value.who == h'[b].who
      ensures h'[b].verdict == WasDelivered <==> h'[b].result.Fine?
    {
      assert h'[..b] == h[..b];
    }
  }

  lemma TakeKeepsRow(row: OutboxRow, h: seq<Mark>, clock: int, name: string, lease: int)
    requires RowOk(row, h, clock) && Due(row, clock, lease) && lease >= 1
    ensures RowOk(Lock(row, name, clock), h + [Took(name, clock, lease)], clock)
  {
    var m := Took(name, clock, lease);
    PrefixesStay(h, m);
    TookSeparated(h, m, clock);
    FencedStays(h, m);
  }

  lemma SettledSeparated(h: seq<Mark>, m: Mark, clock: int)
    requires Separated(h) && InTime(h, clock) && m.Settled?
    ensures Separated(h + [m]) && InTime(h + [m], clock)
  {
    var h' := h + [m];
    forall a, b | 0 <= a < b < |h'| && h'[b].Took? && OpenBetween(h', a, b) ensures h'[b].at >= h'[a].at + h'[b].lease {
      OpenBetweenStays(h, m, a, b);
    }
  }

  lemma SettleKeepsRow(rows: seq<OutboxRow>, h: seq<Mark>, clock: int, item: Item, worker: string, cap: Option<nat>, result: Handled)
    requires item.row < |rows| && RowOk(rows[item.row], h, clock) && Trim(worker) != ""
    ensures var (next, verdict) := Settle(rows, item, worker, cap, result, clock);
            && |next| == |rows| && (forall i :: 0 <= i < |rows| && i != item.row ==> next[i] == rows[i])
            && RowOk(next[item.row], h + [Settled(Trim(worker), item.attempts, result, verdict, clock)], clock)
  {
    var (next, verdict) := Settle(rows, item, worker, cap, result, clock);
    var m := Settled(Trim(worker), item.attempts, result, verdict, clock);
    PrefixesStay(h, m);
    SettledSeparated(h, m, clock);
    FencedStays(h, m);
  }

  // ---- the whole table ----

  ghost predicate TableOk(s: Sys) {
    && |s.marks| == |s.rows|
    && (forall i :: 0 <= i < |s.rows| ==> RowOk(s.rows[i], s.marks[i], s.clock))
    && (forall d :: d in s.drains ==> DrainOk(s.drains[d], |s.rows|))
  }

  /** A drain's counts add up, its items exist, and its name is the one its claims stored. */
  predicate DrainOk(d: Drain, n: nat) {
    && d.tally.claimed == d.tally.delivered + d.tally.retried + d.tally.failed + d.tally.lost + |d.todo|
    && (forall k :: 0 <= k < |d.todo| ==> d.todo[k].row < n)
    && Trim(d.worker) != ""
  }

  lemma NameIsNamed(worker: string)
    requires LockName(worker) != ""
    ensures Trim(LockName(worker)) != "" && LockName(LockName(worker)) == Trim(LockName(worker))
  {
    TrimIs(worker);
    ClippedText(Trim(worker), 120);
  }

  lemma BeginKeeps(s: Sys, op: Op)
    requires TableOk(s) && op.Start?
    ensures TableOk(Begin(s, op))
  {
    var name := LockName(op.worker);
    if name != "" && op.drain !in s.drains {
      NameIsNamed(op.worker);
      var ids := Picks(s.rows, op.batch, s.clock, Lease(op.lease));
      var s' := Begin(s, op);
      forall i | 0 <= i < |s'.rows| ensures RowOk(s'.rows[i], s'.marks[i], s'.clock) {
        if i in ids {
          TakeKeepsRow(s.rows[i], s.marks[i], s.clock, Trim(name), Lease(op.lease));
        }
      }
      assert DrainOk(s'.drains[op.drain], |s'.rows|) by {
        forall k | 0 <= k < |ids| ensures ids[k] < |s.rows| {
          assert ids[k] in ids;
        }
      }
    }
  }

  /** A settlement touches one row. */
  lemma SettleFrame(rows: seq<OutboxRow>, item: Item, worker: string, cap: Option<nat>, result: Handled, now: int)
    ensures var next := Settle(rows, item, worker, cap, result, now).0;
            |next| == |rows| && forall i :: 0 <= i < |rows| && i != item.row ==> next[i] == rows[i]
  {
  }

  lemma FinishRowsOk(s: Sys, op: Op)
    requires TableOk(s) && op.Return? && op.drain in s.drains && s.drains[op.drain].todo != []
    ensures var s' := Finish(s, op);
            |s'.rows| == |s'.marks| == |s.rows| && forall i :: 0 <= i < |s'.rows| ==> RowOk(s'.rows[i], s'.marks[i], s'.clock)
  {
    var d := s.drains[op.drain];
    var item := d.todo[0];
    assert DrainOk(d, |s.rows|);
    SettleFrame(s.rows, item, d.worker, d.cap, op.result, s.clock);
    var s' := Finish(s, op);
    forall i | 0 <= i < |s'.rows| ensures RowOk(s'.rows[i], s'.marks[i], s'.clock) {
      if i == item.row {
        SettleKeepsRow(s.rows, s.marks[i], s.clock, item, d.worker, d.cap, op.result);
      } else {
        assert s'.rows[i] == s.rows[i] && s'.marks[i] == s.marks[i];
      }
    }
  }

  lemma CountedOk(d: Drain, n: nat, verdict: Verdict)
    requires DrainOk(d, n) && d.todo != []
    ensures DrainOk(Drain(d.worker, d.cap, d.todo[1..], Count(d.tally, verdict)), n)
  {
  }

  lemma FinishKeeps(s: Sys, op: Op)
    requires TableOk(s) && op.Return?
    ensures TableOk(Finish(s, op))
  {
    if op.drain in s.drains && s.drains[op.drain].todo != [] {
      FinishRowsOk(s, op);
      var d := s.drains[op.drain];
      CountedOk(d, |s.rows|, Settle(s.rows, d.todo[0], d.worker, d.cap, op.result, s.clock).1);
    }
  }

  lemma LaterIsFine(row: OutboxRow, h: seq<Mark>, clock: int, later: int)
    requires RowOk(row, h, clock) && clock <= later
    ensures RowOk(row, h, later)
  {
  }

  lemma NextKeeps(s: Sys, op: Op)
    requires TableOk(s)
    ensures TableOk(Next(s, op))
  {
    match op
    case Start(_, _, _, _, _) => BeginKeeps(s, op);
    case Return(_, _) => FinishKeeps(s, op);
    case Kill(_) =>
    case Enqueue(_) =>
    case Pass(n) =>
      forall i | 0 <= i < |s.rows| ensures RowOk(s.rows[i], s.marks[i], s.clock + n) {
        LaterIsFine(s.rows[i], s.marks[i], s.clock, s.clock + n);
      }
  }

  /**
   * In every run, for every row: it is processing exactly when both lock columns are set, and
   * then they name the latest claim; two claims without a settlement between them are at least
   * the later lease apart; a settlement only takes effect under the worker holding the latest
   * claim, a delivery only after its handler succeeded; and a row is delivered or failed at most
   * once. For every drain, claimed = delivered + retried + failed + lost + still to do.
   */
  lemma {:induction false} EveryTableOk(start: int, ops: seq<Op>)
    ensures TableOk(Run(start, ops))
  {
    if ops != [] {
      EveryTableOk(start, ops[..|ops| - 1]);
      NextKeeps(Run(start, ops[..|ops| - 1]), ops[|ops| - 1]);
    }
  }
}
