/** The wait a failing handler asks for, over whole runs of concurrent drains. */
module OutboxPauses {
  import opened Wrappers
  import opened Text
  import opened Vocabulary
  import opened Events
  import opened Outbox
  import opened OutboxSystem

  /** The end of the wait on which a settlement sent its row back. */
  predicate SentBack(m: Mark) {
    m.Settled? && m.verdict == WasRetried && m.result.Broke?
  }

  function WaitEnd(m: Mark): int
    requires SentBack(m)
  {
    m.at + m.result.retry
  }

  /** No wait of the past ends after this time. */
  ghost predicate WaitedBy(h: seq<Mark>, time: int) {
    forall a :: 0 <= a < |h| && SentBack(h[a]) ==> WaitEnd(h[a]) <= time
  }

  /** Every retry is the effect of a failing handler that asked for a positive wait. */
  ghost predicate RetriesAsked(h: seq<Mark>) {
    forall a :: 0 <= a < |h| && h[a].Settled? && h[a].verdict == WasRetried ==> SentBack(h[a]) && h[a].result.retry > 0
  }

  /** Whatever was sent back is claimed again only when its wait is over. */
  ghost predicate WaitsKept(h: seq<Mark>) {
    forall a, b :: 0 <= a < b < |h| && SentBack(h[a]) && h[b].Took? ==> h[b].at >= WaitEnd(h[a])
  }

  ghost predicate Paused(row: OutboxRow, h: seq<Mark>, clock: int) {
    RetriesAsked(h) && WaitsKept(h) && WaitedBy(h, if row.status == Queued then row.availableAt else clock)
  }

  ghost predicate AllPaused(s: Sys) {
    |s.marks| == |s.rows| && forall i :: 0 <= i < |s.rows| ==> Paused(s.rows[i], s.marks[i], s.clock)
  }

  lemma TakenPaused(row: OutboxRow, h: seq<Mark>, clock: int, name: string, lease: int)
    requires Paused(row, h, clock) && Due(row, clock, lease)
    ensures Paused(Lock(row, name, clock), h + [Took(name, clock, lease)], clock)
  {
    var h' := h + [Took(name, clock, lease)];
    assert WaitedBy(h, clock);
    forall a, b | 0 <= a < b < |h'| && SentBack(h'[a]) && h'[b].Took? ensures h'[b].at >= WaitEnd(h'[a]) {
      assert h'[a] == h[a];
      if b < |h| {
        assert h'[b] == h[b];
      }
    }
  }

  /** A settlement appends its mark; a row sent back waits from now on. */
  lemma SettledPaused(row: OutboxRow, next: OutboxRow, h: seq<Mark>, m: Mark, clock: int)
    requires Paused(row, h, clock) && m.Settled? && m.at == clock
    requires m.verdict == WasRetried ==>
      && m.result.Broke? && m.result.retry > 0 && row.status != Queued
      && next.status == Queued && next.availableAt == clock + m.result.retry
    requires m.verdict != WasRetried ==> next == row || (row.status != Queued && next.status != Queued)
    ensures Paused(next, h + [m], clock)
  {
    var h' := h + [m];
    forall a | 0 <= a < |h| ensures h'[a] == h[a] {
    }
    forall a, b | 0 <= a < b < |h'| && SentBack(h'[a]) && h'[b].Took? ensures h'[b].at >= WaitEnd(h'[a]) {
      assert b < |h|;
    }
  }

  lemma SettleWaits(rows: seq<OutboxRow>, item: Item, worker: string, cap: Option<nat>, result: Handled, now: int)
    requires item.row < |rows|
    ensures var (next, verdict) := Settle(rows, item, worker, cap, result, now);
            && |next| == |rows| && (forall i :: 0 <= i < |rows| && i != item.row ==> next[i] == rows[i])
            && (verdict == WasRetried ==>
                  && result.Broke? && result.retry > 0 && rows[item.row].status != Queued
                  && next[item.row].status == Queued && next[item.row].availableAt == now + result.retry)
            && (verdict != WasRetried ==>
                  next[item.row] == rows[item.row] || (rows[item.row].status != Queued && next[item.row].status != Queued))
  {
  }

  lemma BeginPaused(s: Sys, op: Op)
    requires AllPaused(s) && op.Start?
    ensures AllPaused(Begin(s, op))
  {
    var name, s' := LockName(op.worker), Begin(s, op);
    if name != "" && op.drain !in s.drains {
      NameIsNamed(op.worker);
      var ids := Picks(s.rows, op.batch, s.clock, Lease(op.lease));
      forall i | 0 <= i < |s.rows| ensures Paused(s'.rows[i], s'.marks[i], s'.clock) {
        if i in ids {
          TakenPaused(s.rows[i], s.marks[i], s.clock, Trim(name), Lease(op.lease));
        }
      }
    }
  }

  lemma FinishPaused(s: Sys, op: Op)
    requires AllPaused(s) && TableOk(s) && op.Return?
    ensures AllPaused(Finish(s, op))
  {
    if op.drain in s.drains && s.drains[op.drain].todo != [] {
      var d, s' := s.drains[op.drain], Finish(s, op);
      var item := d.todo[0];
      assert DrainOk(d, |s.rows|);
      SettleWaits(s.rows, item, d.worker, d.cap, op.result, s.clock);
      var verdict := Settle(s.rows, item, d.worker, d.cap, op.result, s.clock).1;
      var m := Settled(Trim(d.worker), item.attempts, op.result, verdict, s.clock);
      SettledPaused(s.rows[item.row], s'.rows[item.row], s.marks[item.row], m, s.clock);
      forall i | 0 <= i < |s.rows| && i != item.row ensures Paused(s'.rows[i], s'.marks[i], s'.clock) {
        assert s'.rows[i] == s.rows[i] && s'.marks[i] == s.marks[i];
      }
    }
  }

  lemma StepPaused(s: Sys, op: Op)
    requires AllPaused(s) && TableOk(s)
    ensures AllPaused(Next(s, op))
  {
    match op
    case Start(_, _, _, _, _) => BeginPaused(s, op);
    case Return(_, _) => FinishPaused(s, op);
    case Kill(_) =>
    case Enqueue(_) =>
    case Pass(n) =>
      forall i | 0 <= i < |s.rows| ensures Paused(s.rows[i], s.marks[i], s.clock + n) {
        assert Paused(s.rows[i], s.marks[i], s.clock);
      }
  }

  lemma {:induction false} EveryRunPaused(start: int, ops: seq<Op>)
    ensures AllPaused(Run(start, ops))
  {
    if ops != [] {
      EveryRunPaused(start, ops[..|ops| - 1]);
      EveryTableOk(start, ops[..|ops| - 1]);
      StepPaused(Run(start, ops[..|ops| - 1]), ops[|ops| - 1]);
    }
  }

  /**
   * In every run of concurrent drains, whoever settles and whoever claims: a row is sent back only
   * by a failing handler that asked for a positive wait, and no later claim takes it before that
   * wait is over.
   */
  lemma RetryWaits(start: int, ops: seq<Op>, i: nat, a: nat, b: nat)
    requires i < |Run(start, ops).rows| && i < |Run(start, ops).marks| && a < b < |Run(start, ops).marks[i]|
    requires var h := Run(start, ops).marks[i]; h[a].Settled? && h[a].verdict == WasRetried && h[b].Took?
    ensures var h := Run(start, ops).marks[i];
            h[a].result.Broke? && h[a].result.retry > 0 && h[b].at >= h[a].at + h[a].result.retry
  {
    EveryRunPaused(start, ops);
    assert Paused(Run(start, ops).rows[i], Run(start, ops).marks[i], Run(start, ops).clock);
  }
}
