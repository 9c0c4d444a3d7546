/**
 * Any number of workers on one cursor: they claim, list a page, process it event by event, commit
 * its last position, release or die, while the log grows and leases run out. Lease expiry does
 * not stop a commit, and a commit may come from a page listed long ago.
 */
module CursorSystem {
  import opened Wrappers
  import opened Vocabulary
  import opened Events
  import opened Listing
  import opened Cursors

  /** A page in a worker's hands and how far it has been processed. */
  datatype Hand = Hand(page: seq<Event>, done: nat)

  datatype Sys = Sys(log: seq<Event>, row: Option<CursorRow>, hands: map<string, Hand>, seen: set<EventId>, clock: int)

  datatype Op =
    | Claim(worker: string, lease: int)
    | ListPage(worker: string, limit: int)
    | Process(worker: string)
    | Commit(worker: string, release: bool)
    | Release(worker: string)
    | Crash(worker: string)
    | AppendEvent(event: Event)
    | Pass(seconds: nat)

  function Next(scope: Scope, s: Sys, op: Op): Sys {
    match op
    case Claim(worker, lease) => s.(row := Some(ClaimRow(s.row, worker, lease, s.clock).0))
    case ListPage(worker, limit) =>
      var page := Page(s.log, scope, Committed(s.row), limit);
      if page == [] then s else s.(hands := s.hands[worker := Hand(page, 0)])
    case Process(worker) =>
      if worker in s.hands && s.hands[worker].done < |s.hands[worker].page| then
        var h := s.hands[worker];
        s.(hands := s.hands[worker := Hand(h.page, h.done + 1)], seen := s.seen + {h.page[h.done].id})
      else s
    case Commit(worker, release) =>
      if worker in s.hands && s.hands[worker].done == |s.hands[worker].page| > 0 then
        var page := s.hands[worker].page;
        s.(row := AdvanceRow(s.row, worker, PositionOf(page[|page| - 1]), release, s.clock).0, hands := s.hands - {worker})
      else s
    case Release(worker) => s.(row := ReleaseRow(s.row, worker, s.clock).0)
    case Crash(worker) => s.(hands := s.hands - {worker})
    case AppendEvent(e) => if HasEvent(s.log, e.id) || e.occurredAt <= 0 then s else s.(log := s.log + [e])
    case Pass(seconds) => s.(clock := s.clock + seconds)
  }

  function Run(scope: Scope, s: Sys, ops: seq<Op>): Sys {
    if ops == [] then s else Next(scope, Run(scope, s, ops[..|ops| - 1]), ops[|ops| - 1])
  }

  function Start(clock: int): Sys {
    Sys([], None, map[], {}, clock)
  }

  /** Every event of the scope at or below the committed position has been processed. */
  ghost predicate NoSkip(scope: Scope, s: Sys) {
    forall e :: e in s.log && InScope(e, scope) && Committed(s.row).Some? && AtOrBelow(e, Committed(s.row).value) ==> e.id in s.seen
  }

  function LastOf(h: Hand): Position
    requires h.page != []
  {
    PositionOf(h.page[|h.page| - 1])
  }

  ghost predicate InRest(e: Event, h: Hand) {
    exists k :: h.done <= k < |h.page| && h.page[k] == e
  }

  /** Whatever a page would commit is processed already or still ahead in the page itself. */
  ghost predicate HandOk(scope: Scope, s: Sys, h: Hand) {
    && h.page != [] && h.done <= |h.page|
    && (forall k :: 0 <= k < |h.page| ==> h.page[k] in s.log)
    && (forall e :: e in s.log && InScope(e, scope) && AtOrBelow(e, LastOf(h)) ==> e.id in s.seen || InRest(e, h))
  }

  ghost predicate SysOk(scope: Scope, s: Sys) {
    && Distinct(s.log) && (forall e :: e in s.log ==> e.occurredAt > 0)
    && (forall x :: x in s.seen ==> HasEvent(s.log, x))
    && (s.row.Some? && s.row.value.event.None? ==> s.row.value.at == 0)
    && NoSkip(scope, s)
    && (forall w :: w in s.hands ==> HandOk(scope, s, s.hands[w]))
  }

  /** An event that arrives above the committed position and above every page in hand. */
  ghost predicate Timely(scope: Scope, s: Sys, e: Event) {
    InScope(e, scope) ==>
      && (Committed(s.row).Some? ==> !AtOrBelow(e, Committed(s.row).value))
      && (forall w :: w in s.hands && s.hands[w].page != [] ==> !AtOrBelow(e, LastOf(s.hands[w])))
  }

  ghost predicate TimelyStep(scope: Scope, s: Sys, op: Op) {
    op.AppendEvent? && !HasEvent(s.log, op.event.id) && op.event.occurredAt > 0 ==> Timely(scope, s, op.event)
  }

  ghost predicate TimelyRun(scope: Scope, s: Sys, ops: seq<Op>)
    decreases |ops|
  {
    ops != [] ==> TimelyRun(scope, s, ops[..|ops| - 1]) && TimelyStep(scope, Run(scope, s, ops[..|ops| - 1]), ops[|ops| - 1])
  }

  // ---- steps ----

  /** A page just listed holds everything of the scope up to its end that has not been processed. */
  lemma FreshHand(scope: Scope, s: Sys, page: seq<Event>, limit: int)
    requires NoSkip(scope, s) && page != [] && NextPage(s.log, scope, Committed(s.row), limit, page)
    ensures HandOk(scope, s, Hand(page, 0))
  {
    var h := Hand(page, 0);
    forall e | e in s.log && InScope(e, scope) && AtOrBelow(e, LastOf(h)) ensures e.id in s.seen || InRest(e, h) {
      if Outstanding(s.log, scope, Committed(s.row), e) {
        var k :| 0 <= k < |page| && page[k] == e;
      }
    }
    assert forall k :: 0 <= k < |page| ==> Outstanding(s.log, scope, Committed(s.row), page[k]);
  }

  lemma ListKeeps(scope: Scope, s: Sys, worker: string, limit: int)
    requires SysOk(scope, s) && ScopeKey(scope).Ok?
    ensures SysOk(scope, Next(scope, s, ListPage(worker, limit)))
  {
    PageComplete(s.log, scope, Committed(s.row), limit);
    var page := Page(s.log, scope, Committed(s.row), limit);
    if page != [] {
      FreshHand(scope, s, page, limit);
      var next := Next(scope, s, ListPage(worker, limit));
      forall w | w in next.hands ensures HandOk(scope, next, next.hands[w]) {
        assert HandOk(scope, s, next.hands[w]);
      }
    }
  }

  lemma ProcessedHand(scope: Scope, s: Sys, h: Hand, seen: set<EventId>)
    requires HandOk(scope, s, h) && s.seen <= seen
    ensures HandOk(scope, s.(seen := seen), h)
    ensures h.done < |h.page| && h.page[h.done].id in seen ==> HandOk(scope, s.(seen := seen), Hand(h.page, h.done + 1))
  {
    if h.done < |h.page| && h.page[h.done].id in seen {
      var h' := Hand(h.page, h.done + 1);
      forall e | e in s.log && InScope(e, scope) && AtOrBelow(e, LastOf(h')) ensures e.id in seen || InRest(e, h') {
        if e.id !in s.seen {
          var k :| h.done <= k < |h.page| && h.page[k] == e;
          assert k == h.done || InRest(e, h');
        }
      }
    }
  }

  lemma ProcessKeeps(scope: Scope, s: Sys, worker: string)
    requires SysOk(scope, s)
    ensures SysOk(scope, Next(scope, s, Process(worker)))
  {
    if worker in s.hands && s.hands[worker].done < |s.hands[worker].page| {
      var h := s.hands[worker];
      var s' := Next(scope, s, Process(worker));
      assert h.page[h.done] in s.log;
      forall w | w in s'.hands ensures HandOk(scope, s', s'.hands[w]) {
        ProcessedHand(scope, s, s.hands[w], s'.seen);
        assert HandOk(scope, s.(seen := s'.seen), s'.hands[w]);
      }
    }
  }

  lemma CommitKeeps(scope: Scope, s: Sys, worker: string, release: bool)
    requires SysOk(scope, s)
    ensures SysOk(scope, Next(scope, s, Commit(worker, release)))
  {
    if worker in s.hands && s.hands[worker].done == |s.hands[worker].page| > 0 {
      var h := s.hands[worker];
      var s' := Next(scope, s, Commit(worker, release));
      forall e | e in s.log && InScope(e, scope) && AtOrBelow(e, LastOf(h)) ensures e.id in s.seen {
        assert !InRest(e, h);
      }
      forall w | w in s'.hands ensures HandOk(scope, s', s'.hands[w]) {
        assert HandOk(scope, s, s.hands[w]);
      }
    }
  }

  lemma AppendKeeps(scope: Scope, s: Sys, e: Event)
    requires SysOk(scope, s) && !HasEvent(s.log, e.id) && e.occurredAt > 0 && Timely(scope, s, e)
    ensures SysOk(scope, s.(log := s.log + [e]))
  {
    var s' := s.(log := s.log + [e]);
    assert forall x :: HasEvent(s.log, x) ==> HasEvent(s'.log, x) by {
      forall x | HasEvent(s.log, x) ensures HasEvent(s'.log, x) {
        var ev :| ev in s.log && ev.id == x;
        assert ev in s'.log;
      }
    }
    forall w | w in s'.hands ensures HandOk(scope, s', s'.hands[w]) {
      assert HandOk(scope, s, s.hands[w]);
    }
  }

  /** What a step that touches neither the log nor what was seen nor any page has to respect. */
  lemma RowOnly(scope: Scope, s: Sys, row: Option<CursorRow>, clock: int)
    requires SysOk(scope, s) && Committed(row) == Committed(s.row)
    requires row.Some? && row.value.event.None? ==> row.value.at == 0
    ensures SysOk(scope, s.(row := row, clock := clock))
  {
    var s' := s.(row := row, clock := clock);
    forall w | w in s'.hands ensures HandOk(scope, s', s'.hands[w]) {
      assert HandOk(scope, s, s.hands[w]);
    }
  }

  lemma StepKeeps(scope: Scope, s: Sys, op: Op)
    requires SysOk(scope, s) && ScopeKey(scope).Ok? && TimelyStep(scope, s, op)
    ensures SysOk(scope, Next(scope, s, op))
  {
    match op
    case Claim(worker, lease) => RowOnly(scope, s, Some(ClaimRow(s.row, worker, lease, s.clock).0), s.clock);
    case ListPage(worker, limit) => ListKeeps(scope, s, worker, limit);
    case Process(worker) => ProcessKeeps(scope, s, worker);
    case Commit(worker, release) => CommitKeeps(scope, s, worker, release);
    case Release(worker) => RowOnly(scope, s, ReleaseRow(s.row, worker, s.clock).0, s.clock);
    case Crash(worker) =>
      forall w | w in s.hands && w != worker ensures HandOk(scope, Next(scope, s, op), s.hands[w]) {
        assert HandOk(scope, s, s.hands[w]);
      }
    case AppendEvent(e) => if !HasEvent(s.log, e.id) && e.occurredAt > 0 { AppendKeeps(scope, s, e); }
    case Pass(seconds) => RowOnly(scope, s, s.row, s.clock + seconds);
  }

  lemma {:induction false} RunKeeps(scope: Scope, s: Sys, ops: seq<Op>)
    requires SysOk(scope, s) && ScopeKey(scope).Ok? && TimelyRun(scope, s, ops)
    ensures SysOk(scope, Run(scope, s, ops))
  {
    if ops != [] {
      RunKeeps(scope, s, ops[..|ops| - 1]);
      StepKeeps(scope, Run(scope, s, ops[..|ops| - 1]), ops[|ops| - 1]);
    }
  }

  /**
   * For any number of workers, through lease expiry, crashes and stale commits: as long as every
   * event arrives above the committed position and above the pages in hand, no event of the
   * scope at or below the committed position is ever left unprocessed.
   */
  lemma NothingSkipped(scope: Scope, clock: int, ops: seq<Op>)
    requires ScopeKey(scope).Ok? && TimelyRun(scope, Start(clock), ops)
    ensures NoSkip(scope, Run(scope, Start(clock), ops))
  {
    RunKeeps(scope, Start(clock), ops);
  }

  /** The committed position never moves backwards, whoever commits. */
  lemma CommittedGrows(scope: Scope, s: Sys, op: Op)
    requires Committed(s.row).Some?
    ensures Committed(Next(scope, s, op).row).Some?
    ensures var (p, q) := (Committed(s.row).value, Committed(Next(scope, s, op).row).value);
            p.at < q.at || (p.at == q.at && p.id <= q.id)
  {
  }

  // ---- the condition is exact ----

  /** A worker's page processed to its end. */
  function ProcessAll(worker: string, n: nat): seq<Op> {
    seq(n, i => Process(worker))
  }

  /** Only events of the page have been added to what was seen. */
  ghost predicate FromPage(before: set<EventId>, after: set<EventId>, page: seq<Event>) {
    forall x :: x in after ==> x in before || exists k :: 0 <= k < |page| && page[k].id == x
  }

  lemma {:induction false} ProcessAllDoes(scope: Scope, s: Sys, worker: string, n: nat)
    requires worker in s.hands && s.hands[worker].done + n <= |s.hands[worker].page|
    ensures var s' := Run(scope, s, ProcessAll(worker, n));
            && s'.log == s.log && s'.row == s.row && s'.clock == s.clock
            && worker in s'.hands && s'.hands[worker] == Hand(s.hands[worker].page, s.hands[worker].done + n)
            && FromPage(s.seen, s'.seen, s.hands[worker].page)
  {
    if n > 0 {
      var ops := ProcessAll(worker, n);
      assert ops[..|ops| - 1] == ProcessAll(worker, n - 1);
      ProcessAllDoes(scope, s, worker, n - 1);
    }
  }

  /** Finish the page, wait out every lease, claim, commit. */
  function FinishPage(s: Sys, worker: string): seq<Op>
    requires worker in s.hands && s.hands[worker].done <= |s.hands[worker].page|
  {
    ProcessAll(worker, |s.hands[worker].page| - s.hands[worker].done)
      + [Pass(Wait(s))] + [Claim(worker, 60)] + [Commit(worker, false)]
  }

  function Wait(s: Sys): nat {
    if s.row.Some? && s.row.value.until.Some? && s.row.value.until.value > s.clock then s.row.value.until.value - s.clock else 0
  }

  lemma RunSnoc(scope: Scope, s: Sys, ops: seq<Op>, op: Op)
    ensures Run(scope, s, ops + [op]) == Next(scope, Run(scope, s, ops), op)
  {
    assert (ops + [op])[..|ops|] == ops;
  }

  /** Above the committed position, or nothing committed yet. */
  predicate Ahead(row: Option<CursorRow>, p: Position) {
    && p.at > 0
    && (row.Some? && row.value.event.None? ==> row.value.at == 0)
    && (Committed(row).Some? ==>
          var c := Committed(row).value;
          c.at < p.at || (c.at == p.at && c.id < p.id))
  }

  lemma ClaimThenCommit(scope: Scope, s: Sys, worker: string, wait: nat)
    requires worker in s.hands && s.hands[worker].done == |s.hands[worker].page| > 0
    requires Ahead(s.row, LastOf(s.hands[worker]))
    requires s.row.Some? && s.row.value.until.Some? ==> s.row.value.until.value <= s.clock + wait
    ensures var end := Next(scope, Next(scope, Next(scope, s, Pass(wait)), Claim(worker, 60)), Commit(worker, false));
            Committed(end.row) == Some(LastOf(s.hands[worker])) && end.log == s.log && end.seen == s.seen
  {
    var s1 := Next(scope, s, Pass(wait));
    var s2 := Next(scope, s1, Claim(worker, 60));
    assert s2.row.value.owner == Some(worker) && Committed(s2.row) == Committed(s.row);
    assert s2.hands == s.hands;
  }

  lemma QuietRun(scope: Scope, s: Sys, ops: seq<Op>)
    requires forall op :: op in ops ==> !op.AppendEvent?
    ensures TimelyRun(scope, s, ops)
    decreases |ops|
  {
    if ops != [] {
      assert ops[|ops| - 1] in ops;
      QuietRun(scope, s, ops[..|ops| - 1]);
    }
  }

  lemma LateIsSkipped(scope: Scope, s: Sys, e: Event)
    requires SysOk(scope, s) && ScopeKey(scope).Ok? && !HasEvent(s.log, e.id) && e.occurredAt > 0 && !Timely(scope, s, e)
    ensures exists ops :: TimelyRun(scope, s.(log := s.log + [e]), ops) && !NoSkip(scope, Run(scope, s.(log := s.log + [e]), ops))
  {
    var late := s.(log := s.log + [e]);
    assert e.id !in s.seen && e in late.log;
    if Committed(s.row).Some? && AtOrBelow(e, Committed(s.row).value) {
      assert TimelyRun(scope, late, []) && !NoSkip(scope, Run(scope, late, []));
    } else {
      var w :| w in s.hands && s.hands[w].page != [] && AtOrBelow(e, LastOf(s.hands[w]));
      var h := s.hands[w];
      assert HandOk(scope, s, h);
      var ops := FinishPage(s, w);
      FinishPageLate(scope, s, e, w);
      QuietRun(scope, late, ops);
      var end := Run(scope, late, ops);
      forall k | 0 <= k < |h.page| ensures h.page[k].id != e.id {
        assert h.page[k] in s.log;
      }
      assert e in end.log && e.id !in end.seen;
    }
  }

  lemma RunThree(scope: Scope, s: Sys, ops: seq<Op>, a: Op, b: Op, c: Op)
    ensures Run(scope, s, ops + [a] + [b] + [c]) == Next(scope, Next(scope, Next(scope, Run(scope, s, ops), a), b), c)
  {
    RunSnoc(scope, s, ops, a);
    RunSnoc(scope, s, ops + [a], b);
    RunSnoc(scope, s, ops + [a] + [b], c);
  }

  /** A page that reaches past an event above the committed position can still be committed. */
  lemma PageIsAhead(scope: Scope, s: Sys, e: Event, worker: string)
    requires SysOk(scope, s) && worker in s.hands && AtOrBelow(e, LastOf(s.hands[worker]))
    requires Committed(s.row).Some? ==> !AtOrBelow(e, Committed(s.row).value)
    ensures Ahead(s.row, LastOf(s.hands[worker]))
  {
    var h := s.hands[worker];
    assert HandOk(scope, s, h);
    assert h.page[|h.page| - 1] in s.log;
  }

  /** The same continuation with the late event already in the log. */
  lemma FinishPageLate(scope: Scope, s: Sys, e: Event, worker: string)
    requires SysOk(scope, s) && worker in s.hands && AtOrBelow(e, LastOf(s.hands[worker]))
    requires Committed(s.row).Some? ==> !AtOrBelow(e, Committed(s.row).value)
    ensures var late := s.(log := s.log + [e]);
            var end := Run(scope, late, FinishPage(s, worker));
            && Committed(end.row) == Some(LastOf(s.hands[worker])) && end.log == late.log
            && FromPage(s.seen, end.seen, s.hands[worker].page)
  {
    PageIsAhead(scope, s, e, worker);
    assert HandOk(scope, s, s.hands[worker]);
    FinishPageDoes(scope, s, s.(log := s.log + [e]), worker);
  }

  lemma FinishPageDoes(scope: Scope, s: Sys, late: Sys, worker: string)
    requires worker in s.hands && s.hands[worker].page != [] && s.hands[worker].done <= |s.hands[worker].page|
    requires late.hands == s.hands && late.row == s.row && late.clock == s.clock && late.seen == s.seen
    requires Ahead(s.row, LastOf(s.hands[worker]))
    ensures var end := Run(scope, late, FinishPage(s, worker));
            && Committed(end.row) == Some(LastOf(s.hands[worker])) && end.log == late.log
            && FromPage(s.seen, end.seen, s.hands[worker].page)
  {
    var h := s.hands[worker];
    var all := ProcessAll(worker, |h.page| - h.done);
    ProcessAllDoes(scope, late, worker, |h.page| - h.done);
    ClaimCommitRun(scope, late, all, worker, Wait(s));
  }

  lemma ClaimCommitRun(scope: Scope, s: Sys, ops: seq<Op>, worker: string, wait: nat)
    requires var mid := Run(scope, s, ops);
             && worker in mid.hands && mid.hands[worker].done == |mid.hands[worker].page| > 0
             && Ahead(mid.row, LastOf(mid.hands[worker]))
             && (mid.row.Some? && mid.row.value.until.Some? ==> mid.row.value.until.value <= mid.clock + wait)
    ensures var mid := Run(scope, s, ops);
            var end := Run(scope, s, ops + [Pass(wait)] + [Claim(worker, 60)] + [Commit(worker, false)]);
            Committed(end.row) == Some(LastOf(mid.hands[worker])) && end.log == mid.log && end.seen == mid.seen
  {
    ClaimThenCommit(scope, Run(scope, s, ops), worker, wait);
    RunThree(scope, s, ops, Pass(wait), Claim(worker, 60), Commit(worker, false));
  }

  /**
   * Appending a new event of the scope is safe in every continuation exactly when it arrives
   * above the committed position and above every page in hand; a late one can be passed over
   * for good. Two events of one second with random ids are enough for that.
   */
  lemma AppendSafeIff(scope: Scope, s: Sys, e: Event)
    requires SysOk(scope, s) && ScopeKey(scope).Ok? && !HasEvent(s.log, e.id) && e.occurredAt > 0
    ensures (forall ops :: TimelyRun(scope, s.(log := s.log + [e]), ops) ==> NoSkip(scope, Run(scope, s.(log := s.log + [e]), ops)))
            <==> Timely(scope, s, e)
  {
    if Timely(scope, s, e) {
      AppendKeeps(scope, s, e);
      forall ops | TimelyRun(scope, s.(log := s.log + [e]), ops) ensures NoSkip(scope, Run(scope, s.(log := s.log + [e]), ops)) {
        RunKeeps(scope, s.(log := s.log + [e]), ops);
      }
    } else {
      LateIsSkipped(scope, s, e);
    }
  }
}
