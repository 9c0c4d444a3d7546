/** How often a row is claimed when nothing goes wrong with it, and how runs without crashes end. */
module OutboxClaims {
  import opened Wrappers
  import opened Text
  import opened Vocabulary
  import opened Events
  import opened Outbox
  import opened OutboxSystem
  import opened OutboxRetries

  // ---- claims of an undisturbed row ----

  function Claims(h: seq<Mark>): nat {
    if h == [] then 0 else Claims(h[..|h| - 1]) + (if h[|h| - 1].Took? then 1 else 0)
  }

  /**
   * Nothing went wrong with the row so far: no settlement lost its race, and no claim was taken
   * while an earlier one was still open, so no drain holding the row died or outlived its lease
   * before the next claim.
   */
  ghost predicate Undisturbed(h: seq<Mark>) {
    && (forall b :: 0 <= b < |h| && h[b].Took? ==> OpenClaim(h[..b]).None?)
    && (forall b :: 0 <= b < |h| && h[b].Settled? ==> h[b].verdict != WasLost)
  }

  /** In every run the attempt column counts the claims of its row. */
  ghost predicate AttemptsCount(s: Sys) {
    |s.marks| == |s.rows| && forall i :: 0 <= i < |s.rows| ==> s.rows[i].attempts == Claims(s.marks[i])
  }

  lemma ClaimsAppended(h: seq<Mark>, m: Mark)
    ensures Claims(h + [m]) == Claims(h) + (if m.Took? then 1 else 0)
  {
    assert (h + [m])[..|h|] == h;
  }

  lemma BeginCounts(s: Sys, op: Op)
    requires op.Start? && AttemptsCount(s)
    ensures AttemptsCount(Begin(s, op))
  {
    var name, s' := LockName(op.worker), Begin(s, op);
    if name != "" && op.drain !in s.drains {
      NameIsNamed(op.worker);
      forall i | 0 <= i < |s.rows| ensures s'.rows[i].attempts == Claims(s'.marks[i]) {
        ClaimsAppended(s.marks[i], Took(Trim(name), s.clock, Lease(op.lease)));
      }
    }
  }

  lemma SettleKeepsAttempts(rows: seq<OutboxRow>, item: Item, worker: string, cap: Option<nat>, result: Handled, now: int)
    ensures var next := Settle(rows, item, worker, cap, result, now).0;
            |next| == |rows| && forall i :: 0 <= i < |rows| ==> next[i].attempts == rows[i].attempts
  {
  }

  lemma FinishCounts(s: Sys, op: Op)
    requires op.Return? && AttemptsCount(s)
    ensures AttemptsCount(Finish(s, op))
  {
    if op.drain in s.drains && s.drains[op.drain].todo != [] {
      var d, s' := s.drains[op.drain], Finish(s, op);
      var item := d.todo[0];
      SettleKeepsAttempts(s.rows, item, d.worker, d.cap, op.result, s.clock);
      if item.row < |s.rows| {
        ClaimsAppended(s.marks[item.row], s'.marks[item.row][|s.marks[item.row]|]);
      }
    }
  }

  lemma {:induction false} EveryAttemptCounts(start: int, ops: seq<Op>)
    ensures AttemptsCount(Run(start, ops))
  {
    if ops != [] {
      var s, op := Run(start, ops[..|ops| - 1]), ops[|ops| - 1];
      EveryAttemptCounts(start, ops[..|ops| - 1]);
      match op
      case Start(_, _, _, _, _) => BeginCounts(s, op);
      case Return(_, _) => FinishCounts(s, op);
      case _ =>
    }
  }

  /** Each claim of an undisturbed row has been settled once, except the one that may still be open. */
  lemma {:induction false} ClaimsAreSettled(h: seq<Mark>)
    requires Undisturbed(h) && Fenced(h)
    ensures Claims(h) == Verdicts(h, WasDelivered) + Verdicts(h, WasRetried) + Verdicts(h, WasFailed)
                         + (if OpenClaim(h).Some? then 1 else 0)
  {
    if h != [] {
      var init := h[..|h| - 1];
      forall b | 0 <= b < |init| ensures init[..b] == h[..b] {
      }
      ClaimsAreSettled(init);
    }
  }

  /**
   * With the same budget everywhere, a row no claim of which was lost is claimed at most that many
   * times, among any other drains, enqueues, crashes elsewhere and any passing of time; and once
   * it was claimed that often and no claim is open, it is delivered or failed for good.
   */
  lemma ClaimBound(start: int, ops: seq<Op>, budget: nat, i: nat)
    requires SameBudget(ops, budget) && budget >= 1 && i < |Run(start, ops).rows|
    ensures var s := Run(start, ops);
            && |s.marks| == |s.rows|
            && (Undisturbed(s.marks[i]) ==>
                  && s.rows[i].attempts == Claims(s.marks[i]) <= budget
                  && (s.rows[i].status == Queued ==> Claims(s.marks[i]) < budget)
                  && (Claims(s.marks[i]) == budget && OpenClaim(s.marks[i]).None? ==> s.rows[i].status in {Delivered, Dead}))
  {
    EveryAttemptCounts(start, ops);
    EveryTableOk(start, ops);
    RetryBound(start, ops, budget, i);
    var s := Run(start, ops);
    assert RowOk(s.rows[i], s.marks[i], s.clock);
    if Undisturbed(s.marks[i]) {
      ClaimsAreSettled(s.marks[i]);
    }
  }

  // ---- runs without crashes ----

  /** No drain dies, and none outlives its lease: a claim never finds an expired one. */
  ghost predicate CrashFree(start: int, ops: seq<Op>)
    decreases |ops|
  {
    ops != [] ==>
      && CrashFree(start, ops[..|ops| - 1])
      && !ops[|ops| - 1].Kill?
      && (ops[|ops| - 1].Start? ==> NoneExpired(Run(start, ops[..|ops| - 1]), Lease(ops[|ops| - 1].lease)))
  }

  predicate NoneExpired(s: Sys, lease: int) {
    forall i :: 0 <= i < |s.rows| && s.rows[i].lockedAt.Some? ==> s.rows[i].lockedAt.value > s.clock - lease
  }

  predicate HeldBy(s: Sys, d: nat, k: nat) {
    && d in s.drains && k < |s.drains[d].todo| && s.drains[d].todo[k].row < |s.rows|
    && s.rows[s.drains[d].todo[k].row].status == Processing
    && s.rows[s.drains[d].todo[k].row].lockedBy == Some(Trim(s.drains[d].worker))
  }

  ghost predicate InHand(s: Sys, i: nat) {
    exists d, k :: d in s.drains && 0 <= k < |s.drains[d].todo| && s.drains[d].todo[k].row == i
  }

  /** Every item in hand is locked for its drain. */
  ghost predicate AllHeld(s: Sys) {
    forall d, k :: d in s.drains && 0 <= k < |s.drains[d].todo| ==> HeldBy(s, d, k)
  }

  /** No row is in hand twice. */
  ghost predicate RowsApart(s: Sys) {
    forall d, k, e, l | d in s.drains && e in s.drains && 0 <= k < |s.drains[d].todo| && 0 <= l < |s.drains[e].todo|
      :: s.drains[d].todo[k].row == s.drains[e].todo[l].row ==> d == e && k == l
  }

  /** No locked row is in nobody's hand. */
  ghost predicate AllInHand(s: Sys) {
    forall i :: 0 <= i < |s.rows| && s.rows[i].status == Processing ==> InHand(s, i)
  }

  ghost predicate AllUndisturbed(s: Sys) {
    |s.marks| == |s.rows| && forall i :: 0 <= i < |s.rows| ==> Undisturbed(s.marks[i])
  }

  ghost predicate Tidy(s: Sys) {
    TableOk(s) && AllHeld(s) && RowsApart(s) && AllInHand(s) && AllUndisturbed(s)
  }

  lemma StaysUndisturbed(h: seq<Mark>, m: Mark)
    requires Undisturbed(h) && (m.Took? ==> OpenClaim(h).None?) && (m.Settled? ==> m.verdict != WasLost)
    ensures Undisturbed(h + [m])
  {
    PrefixesStay(h, m);
  }

  /** Without expired leases a claim takes queued rows only. */
  lemma TakesQueued(s: Sys, op: Op, k: nat)
    requires TableOk(s) && op.Start? && NoneExpired(s, Lease(op.lease))
    requires k < |Picks(s.rows, op.batch, s.clock, Lease(op.lease))|
    ensures var i := Picks(s.rows, op.batch, s.clock, Lease(op.lease))[k];
            i < |s.rows| && s.rows[i].status == Queued && OpenClaim(s.marks[i]).None?
  {
    var i := Picks(s.rows, op.batch, s.clock, Lease(op.lease))[k];
    assert Due(s.rows[i], s.clock, Lease(op.lease)) && RowOk(s.rows[i], s.marks[i], s.clock);
  }

  predicate Begins(s: Sys, op: Op)
    requires op.Start?
  {
    LockName(op.worker) != "" && op.drain !in s.drains
  }

  /** What a claim leaves: a new drain with the picked rows, everything else as it was. */
  lemma BeginLeaves(s: Sys, op: Op)
    requires op.Start? && Begins(s, op) && |s.marks| == |s.rows|
    ensures var ids, s' := Picks(s.rows, op.batch, s.clock, Lease(op.lease)), Begin(s, op);
            && s'.drains.Keys == s.drains.Keys + {op.drain} && |s'.drains[op.drain].todo| == |ids|
            && (forall e :: e in s.drains ==> s'.drains[e] == s.drains[e])
            && (forall k :: 0 <= k < |ids| ==> s'.drains[op.drain].todo[k].row == ids[k] < |s.rows|)
            && |s'.rows| == |s'.marks| == |s.rows|
            && (forall i :: 0 <= i < |s.rows| && i !in ids ==> s'.rows[i] == s.rows[i] && s'.marks[i] == s.marks[i])
  {
    NameIsNamed(op.worker);
  }

  lemma BeginHolds(s: Sys, op: Op, k: nat)
    requires op.Start? && Begins(s, op) && k < |Picks(s.rows, op.batch, s.clock, Lease(op.lease))| && |s.marks| == |s.rows|
    ensures HeldBy(Begin(s, op), op.drain, k)
  {
    NameIsNamed(op.worker);
    var ids := Picks(s.rows, op.batch, s.clock, Lease(op.lease));
    assert ids[k] in ids;
  }

  lemma NotInHand(s: Sys, op: Op, d: nat, k: nat)
    requires TableOk(s) && AllHeld(s) && op.Start? && NoneExpired(s, Lease(op.lease)) && d in s.drains && k < |s.drains[d].todo|
    ensures s.drains[d].todo[k].row !in Picks(s.rows, op.batch, s.clock, Lease(op.lease))
  {
    var ids := Picks(s.rows, op.batch, s.clock, Lease(op.lease));
    assert HeldBy(s, d, k);
    if s.drains[d].todo[k].row in ids {
      var j :| 0 <= j < |ids| && ids[j] == s.drains[d].todo[k].row;
      TakesQueued(s, op, j);
    }
  }

  lemma BeginAllHeld(s: Sys, op: Op)
    requires Tidy(s) && op.Start? && NoneExpired(s, Lease(op.lease)) && Begins(s, op)
    ensures AllHeld(Begin(s, op))
  {
    BeginLeaves(s, op);
    var s' := Begin(s, op);
    forall d, k | d in s'.drains && 0 <= k < |s'.drains[d].todo| ensures HeldBy(s', d, k) {
      if d == op.drain {
        BeginHolds(s, op, k);
      } else {
        assert HeldBy(s, d, k);
        NotInHand(s, op, d, k);
      }
    }
  }

  lemma BeginApart(s: Sys, op: Op)
    requires Tidy(s) && op.Start? && NoneExpired(s, Lease(op.lease)) && Begins(s, op)
    ensures RowsApart(Begin(s, op))
  {
    BeginLeaves(s, op);
    var s' := Begin(s, op);
    forall d, k, e, l | d in s'.drains && e in s'.drains && 0 <= k < |s'.drains[d].todo| && 0 <= l < |s'.drains[e].todo|
      && s'.drains[d].todo[k].row == s'.drains[e].todo[l].row ensures d == e && k == l
    {
      if d != op.drain {
        NotInHand(s, op, d, k);
      } else if e != op.drain {
        NotInHand(s, op, e, l);
      }
    }
  }

  lemma BeginInHand(s: Sys, op: Op)
    requires Tidy(s) && op.Start? && Begins(s, op)
    ensures AllInHand(Begin(s, op))
  {
    BeginLeaves(s, op);
    var s', ids := Begin(s, op), Picks(s.rows, op.batch, s.clock, Lease(op.lease));
    forall i | 0 <= i < |s'.rows| && s'.rows[i].status == Processing ensures InHand(s', i) {
      if i in ids {
        var k :| 0 <= k < |ids| && ids[k] == i;
        assert s'.drains[op.drain].todo[k].row == i;
      } else {
        var d, k :| d in s.drains && 0 <= k < |s.drains[d].todo| && s.drains[d].todo[k].row == i;
        assert s'.drains[d].todo[k].row == i;
      }
    }
  }

  lemma BeginUndisturbed(s: Sys, op: Op)
    requires Tidy(s) && op.Start? && NoneExpired(s, Lease(op.lease)) && Begins(s, op)
    ensures AllUndisturbed(Begin(s, op))
  {
    BeginLeaves(s, op);
    var s', ids := Begin(s, op), Picks(s.rows, op.batch, s.clock, Lease(op.lease));
    forall i | 0 <= i < |s.rows| ensures Undisturbed(s'.marks[i]) {
      if i in ids {
        var k :| 0 <= k < |ids| && ids[k] == i;
        TakesQueued(s, op, k);
        StaysUndisturbed(s.marks[i], Took(Trim(LockName(op.worker)), s.clock, Lease(op.lease)));
      }
    }
  }

  /** A held item is settled for good or sent back, never lost. */
  lemma FinishSettles(s: Sys, op: Op)
    requires Tidy(s) && op.Return? && op.drain in s.drains && s.drains[op.drain].todo != []
    ensures var s' := Finish(s, op);
            var i := s.drains[op.drain].todo[0].row;
            && i < |s.rows| == |s'.rows| == |s'.marks| && s'.rows[i].status != Processing
            && (forall j :: 0 <= j < |s.rows| && j != i ==> s'.rows[j] == s.rows[j] && s'.marks[j] == s.marks[j])
            && Undisturbed(s'.marks[i])
  {
    var d := s.drains[op.drain];
    assert HeldBy(s, op.drain, 0) && DrainOk(d, |s.rows|);
    SettleFrame(s.rows, d.todo[0], d.worker, d.cap, op.result, s.clock);
    var verdict := Settle(s.rows, d.todo[0], d.worker, d.cap, op.result, s.clock).1;
    StaysUndisturbed(s.marks[d.todo[0].row], Settled(Trim(d.worker), d.todo[0].attempts, op.result, verdict, s.clock));
  }

  lemma FinishAllHeld(s: Sys, op: Op)
    requires Tidy(s) && op.Return? && op.drain in s.drains && s.drains[op.drain].todo != []
    ensures AllHeld(Finish(s, op))
  {
    FinishTodo(s, op);
    FinishSettles(s, op);
    var s', i := Finish(s, op), s.drains[op.drain].todo[0].row;
    forall d, k | d in s'.drains && 0 <= k < |s'.drains[d].todo| ensures HeldBy(s', d, k) {
      var k' := if d == op.drain then k + 1 else k;
      assert s'.drains[d].todo[k] == s.drains[d].todo[k'];
      assert HeldBy(s, d, k') && s.drains[d].todo[k'].row != i;
      WorkerStays(s, op, d);
    }
  }

  lemma WorkerStays(s: Sys, op: Op, d: nat)
    requires op.Return? && d in s.drains
    ensures d in Finish(s, op).drains && Finish(s, op).drains[d].worker == s.drains[d].worker
  {
  }

  lemma FinishApart(s: Sys, op: Op)
    requires Tidy(s) && op.Return? && op.drain in s.drains && s.drains[op.drain].todo != []
    ensures RowsApart(Finish(s, op))
  {
    FinishTodo(s, op);
    var s' := Finish(s, op);
    forall d, k, e, l | d in s'.drains && e in s'.drains && 0 <= k < |s'.drains[d].todo| && 0 <= l < |s'.drains[e].todo|
      && s'.drains[d].todo[k].row == s'.drains[e].todo[l].row ensures d == e && k == l
    {
      var k', l' := if d == op.drain then k + 1 else k, if e == op.drain then l + 1 else l;
      assert s.drains[d].todo[k'].row == s.drains[e].todo[l'].row;
    }
  }

  lemma StaysInHand(s: Sys, op: Op, j: nat)
    requires op.Return? && op.drain in s.drains && s.drains[op.drain].todo != []
    requires InHand(s, j) && s.drains[op.drain].todo[0].row != j
    ensures InHand(Finish(s, op), j)
  {
    FinishTodo(s, op);
    var d, k :| d in s.drains && 0 <= k < |s.drains[d].todo| && s.drains[d].todo[k].row == j;
    var k' := if d == op.drain then k - 1 else k;
    assert Finish(s, op).drains[d].todo[k'].row == j;
  }

  lemma FinishInHand(s: Sys, op: Op)
    requires Tidy(s) && op.Return? && op.drain in s.drains && s.drains[op.drain].todo != []
    ensures AllInHand(Finish(s, op))
  {
    FinishSettles(s, op);
    var s' := Finish(s, op);
    forall j | 0 <= j < |s'.rows| && s'.rows[j].status == Processing ensures InHand(s', j) {
      assert j != s.drains[op.drain].todo[0].row && s'.rows[j] == s.rows[j];
      StaysInHand(s, op, j);
    }
  }

  lemma StartTidy(s: Sys, op: Op)
    requires Tidy(s) && op.Start? && NoneExpired(s, Lease(op.lease))
    ensures Tidy(Begin(s, op))
  {
    BeginKeeps(s, op);
    if Begins(s, op) {
      BeginAllHeld(s, op);
      BeginApart(s, op);
      BeginInHand(s, op);
      BeginUndisturbed(s, op);
    }
  }

  lemma ReturnTidy(s: Sys, op: Op)
    requires Tidy(s) && op.Return?
    ensures Tidy(Finish(s, op))
  {
    FinishKeeps(s, op);
    if op.drain in s.drains && s.drains[op.drain].todo != [] {
      FinishAllHeld(s, op);
      FinishApart(s, op);
      FinishInHand(s, op);
      FinishSettles(s, op);
    }
  }

  lemma OtherTidy(s: Sys, op: Op)
    requires Tidy(s) && (op.Enqueue? || op.Pass?)
    ensures Tidy(Next(s, op))
  {
    NextKeeps(s, op);
    var s' := Next(s, op);
    forall d, k | d in s'.drains && 0 <= k < |s'.drains[d].todo| ensures HeldBy(s', d, k) {
      assert HeldBy(s, d, k);
    }
    forall i | 0 <= i < |s'.rows| && s'.rows[i].status == Processing ensures InHand(s', i) {
      assert i < |s.rows| && s'.rows[i] == s.rows[i] && InHand(s, i);
    }
  }

  lemma {:induction false} EveryRunTidy(start: int, ops: seq<Op>)
    requires CrashFree(start, ops)
    ensures Tidy(Run(start, ops))
  {
    if ops != [] {
      var s, op := Run(start, ops[..|ops| - 1]), ops[|ops| - 1];
      EveryRunTidy(start, ops[..|ops| - 1]);
      match op
      case Start(_, _, _, _, _) => StartTidy(s, op);
      case Return(_, _) => ReturnTidy(s, op);
      case Enqueue(_) => OtherTidy(s, op);
      case Pass(_) => OtherTidy(s, op);
    }
  }

  /**
   * Without crashes and expired leases, however many drains interleave: no settlement is ever
   * lost, every row is claimed at most as often as the budget allows, and whenever no drain has
   * anything left to handle, a row that has used up its budget is delivered or failed, and every
   * other one waits for its next try.
   */
  lemma CrashFreeRowsEnd(start: int, ops: seq<Op>, budget: nat, i: nat)
    requires CrashFree(start, ops) && SameBudget(ops, budget) && budget >= 1 && i < |Run(start, ops).rows|
    ensures var s := Run(start, ops);
            && |s.marks| == |s.rows| && Verdicts(s.marks[i], WasLost) == 0
            && s.rows[i].attempts == Claims(s.marks[i]) <= budget
            && ((forall d :: d in s.drains ==> s.drains[d].todo == []) ==>
                  || s.rows[i].status in {Delivered, Dead}
                  || (s.rows[i].status == Queued && Claims(s.marks[i]) < budget))
  {
    EveryRunTidy(start, ops);
    ClaimBound(start, ops, budget, i);
    NothingLost(Run(start, ops).marks[i]);
  }

  lemma {:induction false} NothingLost(h: seq<Mark>)
    requires Undisturbed(h)
    ensures Verdicts(h, WasLost) == 0
  {
    if h != [] {
      var init := h[..|h| - 1];
      forall b | 0 <= b < |init| ensures init[..b] == h[..b] {
      }
      NothingLost(init);
    }
  }
}
