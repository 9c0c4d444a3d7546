/** The attempt budget: how often an item can fail when every drain uses the same one. */
module OutboxRetries {
  import opened Wrappers
  import opened Text
  import opened Vocabulary
  import opened Events
  import opened Outbox
  import opened OutboxSystem

  /** The claim snapshots under which a row was sent back for another try. */
  function RetrySnapshots(h: seq<Mark>): set<nat> {
    if h == [] then {}
    else
      var m := h[|h| - 1];
      RetrySnapshots(h[..|h| - 1]) + (if m.Settled? && m.verdict == WasRetried then {m.snapshot} else {})
  }

  /** The claim snapshots already used by a settlement, effective or not. */
  function Used(h: seq<Mark>): set<nat> {
    if h == [] then {}
    else
      var m := h[|h| - 1];
      Used(h[..|h| - 1]) + (if m.Settled? then {m.snapshot} else {})
  }

  predicate WithinBudget(row: OutboxRow, h: seq<Mark>, budget: nat) {
    && |RetrySnapshots(h)| == Verdicts(h, WasRetried)
    && RetrySnapshots(h) <= Used(h)
    && (forall x :: x in RetrySnapshots(h) ==> 1 <= x < budget)
    && (forall x :: x in Used(h) ==> x <= row.attempts)
  }

  /** An item in hand: a claim of its row that no settlement has used yet. */
  predicate Outstanding(s: Sys, item: Item) {
    && item.row < |s.rows| && item.row < |s.marks|
    && 1 <= item.attempts <= s.rows[item.row].attempts && item.attempts !in Used(s.marks[item.row])
  }

  ghost predicate BudgetOk(s: Sys, budget: nat) {
    && |s.marks| == |s.rows|
    && (forall i :: 0 <= i < |s.rows| ==> WithinBudget(s.rows[i], s.marks[i], budget))
    && (forall d, k :: d in s.drains && 0 <= k < |s.drains[d].todo| ==> Outstanding(s, s.drains[d].todo[k]))
    && (forall d :: d in s.drains ==> s.drains[d].cap == Some(budget))
  }

  /** No two places hold the same claim of the same row. */
  ghost predicate Exclusive(s: Sys) {
    forall d, k, e, l |
      d in s.drains && e in s.drains && 0 <= k < |s.drains[d].todo| && 0 <= l < |s.drains[e].todo|
      :: s.drains[d].todo[k] == s.drains[e].todo[l] ==> d == e && k == l
  }

  lemma MarkAppended(h: seq<Mark>, m: Mark)
    ensures RetrySnapshots(h + [m]) == RetrySnapshots(h) + (if m.Settled? && m.verdict == WasRetried then {m.snapshot} else {})
    ensures Used(h + [m]) == Used(h) + (if m.Settled? then {m.snapshot} else {})
    ensures forall v :: Verdicts(h + [m], v) == Verdicts(h, v) + (if m.Settled? && m.verdict == v then 1 else 0)
  {
    assert (h + [m])[..|h|] == h;
  }

  lemma TakenInBudget(row: OutboxRow, h: seq<Mark>, m: Mark, name: string, now: int, budget: nat)
    requires WithinBudget(row, h, budget) && m.Took?
    ensures WithinBudget(Lock(row, name, now), h + [m], budget) && Used(h + [m]) == Used(h)
  {
    MarkAppended(h, m);
  }

  lemma BegunRows(s: Sys, op: Op, budget: nat)
    requires op.Start? && BudgetOk(s, budget) && LockName(op.worker) != "" && op.drain !in s.drains
    ensures var s' := Begin(s, op);
            && |s'.rows| == |s.rows| == |s'.marks|
            && forall i :: 0 <= i < |s.rows| ==>
                 && WithinBudget(s'.rows[i], s'.marks[i], budget)
                 && Used(s'.marks[i]) == Used(s.marks[i]) && s'.rows[i].attempts >= s.rows[i].attempts
                 && (i in Picks(s.rows, op.batch, s.clock, Lease(op.lease)) ==> s'.rows[i].attempts == s.rows[i].attempts + 1)
  {
    var name := LockName(op.worker);
    NameIsNamed(op.worker);
    var s' := Begin(s, op);
    var m := Took(Trim(name), s.clock, Lease(op.lease));
    forall i | 0 <= i < |s.rows|
      ensures WithinBudget(s'.rows[i], s'.marks[i], budget)
      ensures Used(s'.marks[i]) == Used(s.marks[i]) && s'.rows[i].attempts >= s.rows[i].attempts
    {
      TakenInBudget(s.rows[i], s.marks[i], m, Trim(name), s.clock, budget);
    }
  }

  lemma BeginInBudget(s: Sys, op: Op, budget: nat)
    requires op.Start? && BudgetOk(s, budget) && Cap(op.cap) == Some(budget)
    ensures BudgetOk(Begin(s, op), budget)
  {
    var name := LockName(op.worker);
    if name != "" && op.drain !in s.drains {
      NameIsNamed(op.worker);
      BegunRows(s, op, budget);
      var ids := Picks(s.rows, op.batch, s.clock, Lease(op.lease));
      var s' := Begin(s, op);
      assert s'.drains[op.drain].todo == Items(s.rows, ids);
      forall d, k | d in s'.drains && 0 <= k < |s'.drains[d].todo| ensures Outstanding(s', s'.drains[d].todo[k]) {
        if d == op.drain {
          assert ids[k] in ids;
          assert WithinBudget(s.rows[ids[k]], s.marks[ids[k]], budget);
        } else {
          assert Outstanding(s, s.drains[d].todo[k]);
        }
      }
    }
  }

  lemma BeginExclusive(s: Sys, op: Op, budget: nat)
    requires op.Start? && BudgetOk(s, budget) && Exclusive(s)
    ensures Exclusive(Begin(s, op))
  {
    var name := LockName(op.worker);
    if name != "" && op.drain !in s.drains {
      NameIsNamed(op.worker);
      var ids := Picks(s.rows, op.batch, s.clock, Lease(op.lease));
      var s' := Begin(s, op);
      var items := s'.drains[op.drain].todo;
      assert items == Items(s.rows, ids);
      forall d, k, l | d in s.drains && 0 <= k < |s.drains[d].todo| && 0 <= l < |items| ensures s.drains[d].todo[k] != items[l] {
        assert Outstanding(s, s.drains[d].todo[k]);
      }
      forall k, l | 0 <= k < |items| && 0 <= l < |items| && items[k] == items[l] ensures k == l {
        assert ids[k] == ids[l];
      }
    }
  }

  lemma SettleSpares(rows: seq<OutboxRow>, item: Item, worker: string, budget: nat, result: Handled, now: int)
    requires item.row < |rows|
    ensures var (next, verdict) := Settle(rows, item, worker, Some(budget), result, now);
            && |next| == |rows| && (forall i :: 0 <= i < |rows| && i != item.row ==> next[i] == rows[i])
            && next[item.row].attempts == rows[item.row].attempts && (verdict == WasRetried ==> item.attempts < budget)
  {
  }

  lemma MarkInBudget(row: OutboxRow, next: OutboxRow, h: seq<Mark>, m: Mark, budget: nat)
    requires WithinBudget(row, h, budget) && next.attempts == row.attempts && m.Settled?
    requires 1 <= m.snapshot <= row.attempts && m.snapshot !in Used(h) && (m.verdict == WasRetried ==> m.snapshot < budget)
    ensures WithinBudget(next, h + [m], budget)
  {
    MarkAppended(h, m);
    assert m.snapshot !in RetrySnapshots(h);
  }

  lemma SettleInBudget(rows: seq<OutboxRow>, h: seq<Mark>, item: Item, worker: string, budget: nat, result: Handled, now: int)
    requires item.row < |rows| && WithinBudget(rows[item.row], h, budget)
    requires 1 <= item.attempts <= rows[item.row].attempts && item.attempts !in Used(h)
    ensures var (next, verdict) := Settle(rows, item, worker, Some(budget), result, now);
            && |next| == |rows| && (forall i :: 0 <= i < |rows| && i != item.row ==> next[i] == rows[i])
            && next[item.row].attempts == rows[item.row].attempts
            && WithinBudget(next[item.row], h + [Settled(Trim(worker), item.attempts, result, verdict, now)], budget)
  {
    var (next, verdict) := Settle(rows, item, worker, Some(budget), result, now);
    SettleSpares(rows, item, worker, budget, result, now);
    MarkInBudget(rows[item.row], next[item.row], h, Settled(Trim(worker), item.attempts, result, verdict, now), budget);
  }

  /** What a finished handler leaves in the drains: its own item gone, everything else as it was. */
  lemma FinishTodo(s: Sys, op: Op)
    requires op.Return? && op.drain in s.drains && s.drains[op.drain].todo != []
    ensures var s' := Finish(s, op);
            && s'.drains.Keys == s.drains.Keys
            && forall e :: e in s.drains ==>
                 && s'.drains[e].todo == (if e == op.drain then s.drains[e].todo[1..] else s.drains[e].todo)
                 && s'.drains[e].cap == s.drains[e].cap
  {
  }

  lemma FinishExclusive(s: Sys, op: Op)
    requires op.Return? && Exclusive(s)
    ensures Exclusive(Finish(s, op))
  {
    if op.drain in s.drains && s.drains[op.drain].todo != [] {
      FinishTodo(s, op);
      var s' := Finish(s, op);
      forall e, k, f, l | e in s'.drains && f in s'.drains && 0 <= k < |s'.drains[e].todo| && 0 <= l < |s'.drains[f].todo|
        && s'.drains[e].todo[k] == s'.drains[f].todo[l] ensures e == f && k == l
      {
        var k', l' := if e == op.drain then k + 1 else k, if f == op.drain then l + 1 else l;
        assert s.drains[e].todo[k'] == s.drains[f].todo[l'];
      }
    }
  }

  lemma FinishRows(s: Sys, op: Op, budget: nat)
    requires op.Return? && BudgetOk(s, budget) && op.drain in s.drains && s.drains[op.drain].todo != []
    ensures var s' := Finish(s, op);
            var item := s.drains[op.drain].todo[0];
            && |s'.rows| == |s'.marks| == |s.rows| && item.row < |s.rows|
            && (forall i :: 0 <= i < |s.rows| ==> WithinBudget(s'.rows[i], s'.marks[i], budget) && s'.rows[i].attempts == s.rows[i].attempts)
            && (forall i :: 0 <= i < |s.rows| && i != item.row ==> s'.marks[i] == s.marks[i])
            && Used(s'.marks[item.row]) == Used(s.marks[item.row]) + {item.attempts}
  {
    var d := s.drains[op.drain];
    var item := d.todo[0];
    assert Outstanding(s, item);
    SettleInBudget(s.rows, s.marks[item.row], item, d.worker, budget, op.result, s.clock);
    var verdict := Settle(s.rows, item, d.worker, d.cap, op.result, s.clock).1;
    MarkAppended(s.marks[item.row], Settled(Trim(d.worker), item.attempts, op.result, verdict, s.clock));
  }

  lemma StillOutstanding(s: Sys, s': Sys, item: Item, x: Item)
    requires Outstanding(s, x) && x != item && item.row < |s.rows|
    requires |s'.rows| == |s'.marks| == |s.rows| == |s.marks|
    requires s'.rows[x.row].attempts == s.rows[x.row].attempts
    requires x.row != item.row ==> s'.marks[x.row] == s.marks[x.row]
    requires Used(s'.marks[item.row]) == Used(s.marks[item.row]) + {item.attempts}
    ensures Outstanding(s', x)
  {
  }

  lemma FinishOutstanding(s: Sys, op: Op, budget: nat, e: nat, k: nat)
    requires op.Return? && BudgetOk(s, budget) && Exclusive(s) && op.drain in s.drains && s.drains[op.drain].todo != []
    requires e in Finish(s, op).drains && k < |Finish(s, op).drains[e].todo|
    ensures Outstanding(Finish(s, op), Finish(s, op).drains[e].todo[k])
  {
    FinishTodo(s, op);
    FinishRows(s, op, budget);
    var item, k' := s.drains[op.drain].todo[0], if e == op.drain then k + 1 else k;
    var x := s.drains[e].todo[k'];
    assert Outstanding(s, x) && x != item;
    StillOutstanding(s, Finish(s, op), item, x);
  }

  lemma FinishInBudget(s: Sys, op: Op, budget: nat)
    requires op.Return? && BudgetOk(s, budget) && Exclusive(s)
    ensures BudgetOk(Finish(s, op), budget)
  {
    if op.drain in s.drains && s.drains[op.drain].todo != [] {
      FinishTodo(s, op);
      FinishRows(s, op, budget);
      var s' := Finish(s, op);
      forall e, k | e in s'.drains && 0 <= k < |s'.drains[e].todo| ensures Outstanding(s', s'.drains[e].todo[k]) {
        FinishOutstanding(s, op, budget, e, k);
      }
    }
  }

  /** Every drain is started with the same attempt budget. */
  ghost predicate SameBudget(ops: seq<Op>, budget: nat) {
    forall op :: op in ops && op.Start? ==> Cap(op.cap) == Some(budget)
  }

  lemma {:induction false} EveryRunInBudget(start: int, ops: seq<Op>, budget: nat)
    requires SameBudget(ops, budget)
    ensures BudgetOk(Run(start, ops), budget) && Exclusive(Run(start, ops))
  {
    if ops != [] {
      var init, op := ops[..|ops| - 1], ops[|ops| - 1];
      assert forall o :: o in init ==> o in ops;
      assert op in ops;
      EveryRunInBudget(start, init, budget);
      var s := Run(start, init);
      match op
      case Start(_, _, _, _, _) =>
        BeginInBudget(s, op, budget);
        BeginExclusive(s, op, budget);
      case Return(_, _) =>
        FinishInBudget(s, op, budget);
        FinishExclusive(s, op);
      case Kill(drain) => KillInBudget(s, drain, budget);
      case Enqueue(event) => EnqueueInBudget(s, event, budget);
      case Pass(_) => PassInBudget(s, op.seconds, budget);
    }
  }

  lemma KillInBudget(s: Sys, drain: nat, budget: nat)
    requires BudgetOk(s, budget) && Exclusive(s)
    ensures BudgetOk(Next(s, Kill(drain)), budget) && Exclusive(Next(s, Kill(drain)))
  {
    var s' := Next(s, Kill(drain));
    forall d, k | d in s'.drains && 0 <= k < |s'.drains[d].todo| ensures Outstanding(s', s'.drains[d].todo[k]) {
      assert Outstanding(s, s.drains[d].todo[k]);
    }
  }

  lemma PassInBudget(s: Sys, n: nat, budget: nat)
    requires BudgetOk(s, budget) && Exclusive(s)
    ensures BudgetOk(Next(s, Pass(n)), budget) && Exclusive(Next(s, Pass(n)))
  {
    var s' := Next(s, Pass(n));
    forall d, k | d in s'.drains && 0 <= k < |s'.drains[d].todo| ensures Outstanding(s', s'.drains[d].todo[k]) {
      assert Outstanding(s, s.drains[d].todo[k]);
    }
  }

  lemma EnqueueInBudget(s: Sys, event: EventId, budget: nat)
    requires BudgetOk(s, budget) && Exclusive(s)
    ensures BudgetOk(Next(s, Enqueue(event)), budget) && Exclusive(Next(s, Enqueue(event)))
  {
    var s' := Next(s, Enqueue(event));
    forall i | 0 <= i < |s'.rows| ensures WithinBudget(s'.rows[i], s'.marks[i], budget) {
      if i < |s.rows| {
        assert s'.rows[i] == s.rows[i] && s'.marks[i] == s.marks[i];
      }
    }
    forall d, k | d in s'.drains && 0 <= k < |s'.drains[d].todo| ensures Outstanding(s', s'.drains[d].todo[k]) {
      assert Outstanding(s, s.drains[d].todo[k]);
    }
  }

  lemma {:induction false} BelowBudget(xs: set<nat>, budget: nat)
    requires budget >= 1 && forall x :: x in xs ==> 1 <= x < budget
    ensures |xs| <= budget - 1
  {
    if budget == 1 {
      assert xs == {};
    } else {
      BelowBudget(xs - {budget - 1}, budget - 1);
      assert xs <= (xs - {budget - 1}) + {budget - 1};
      assert |xs| <= |(xs - {budget - 1})| + 1;
    }
  }

  /**
   * With the same budget everywhere an item is failed by its handler at most that many times,
   * through any interleaving, lease loss or crash, even when drains share a worker name; as long
   * as it was only sent back it failed fewer times, and the row is dead once the last one counts.
   */
  lemma RetryBound(start: int, ops: seq<Op>, budget: nat, i: nat)
    requires SameBudget(ops, budget) && budget >= 1 && i < |Run(start, ops).rows|
    ensures var s := Run(start, ops);
            && |s.marks| == |s.rows|
            && var failures := Verdicts(s.marks[i], WasRetried) + Verdicts(s.marks[i], WasFailed);
               && failures <= budget
               && (failures == budget ==> s.rows[i].status == Dead)
               && (s.rows[i].status in {Queued, Processing} ==> failures < budget)
  {
    EveryRunInBudget(start, ops, budget);
    EveryTableOk(start, ops);
    var s := Run(start, ops);
    assert WithinBudget(s.rows[i], s.marks[i], budget) && RowOk(s.rows[i], s.marks[i], s.clock);
    BelowBudget(RetrySnapshots(s.marks[i]), budget);
  }

  /** Delivered and dead rows are never due, never held, and so never change again. */
  lemma EndedRowsStay(s: Sys, op: Op, i: nat)
    requires TableOk(s) && i < |s.rows| && s.rows[i].status in {Delivered, Dead}
    ensures i < |Next(s, op).rows| && Next(s, op).rows[i] == s.rows[i]
  {
    if op.Return? && op.drain in s.drains && s.drains[op.drain].todo != [] {
      var d := s.drains[op.drain];
      assert DrainOk(d, |s.rows|);
      SettleKeepsRow(s.rows, s.marks[d.todo[0].row], s.clock, d.todo[0], d.worker, d.cap, op.result);
    }
  }
}
