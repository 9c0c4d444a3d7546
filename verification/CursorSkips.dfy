/** Events a cursor passes over for good, and how two events of one second make one. */
module CursorSkips {
  import opened Wrappers
  import opened Vocabulary
  import opened Events
  import opened Listing
  import opened Projections
  import opened Cursors
  import opened CursorSystem

  /** At or below the committed position, unprocessed, and in nobody's hands. */
  ghost predicate PassedOver(s: Sys, e: Event) {
    && Distinct(s.log) && e in s.log && e.id !in s.seen
    && Committed(s.row).Some? && AtOrBelow(e, Committed(s.row).value)
    && forall w :: w in s.hands ==> NotOn(s.hands[w].page, e)
  }

  predicate NotOn(page: seq<Event>, e: Event) {
    forall k :: 0 <= k < |page| ==> page[k].id != e.id
  }

  /** No page listed from now on shows it. */
  lemma NotListed(scope: Scope, s: Sys, e: Event, limit: int)
    requires PassedOver(s, e)
    ensures NotOn(Page(s.log, scope, Committed(s.row), limit), e)
  {
    var page := Page(s.log, scope, Committed(s.row), limit);
    if ScopeKey(scope).Ok? {
      PageComplete(s.log, scope, Committed(s.row), limit);
      forall k | 0 <= k < |page| ensures page[k].id != e.id {
        assert Outstanding(s.log, scope, Committed(s.row), page[k]);
        if page[k].id == e.id {
          SameId(s.log, page[k], e);
        }
      }
    }
  }

  lemma StaysPassed(scope: Scope, s: Sys, op: Op, e: Event)
    requires PassedOver(s, e)
    ensures PassedOver(Next(scope, s, op), e)
  {
    CommittedGrows(scope, s, op);
    match op
    case Process(worker) =>
      if worker in s.hands && s.hands[worker].done < |s.hands[worker].page| {
        assert NotOn(s.hands[worker].page, e);
      }
    case ListPage(worker, limit) => NotListed(scope, s, e, limit);
    case _ =>
  }

  /** What was passed over once is never processed, whatever the workers do from then on. */
  lemma {:induction false} PassedOverForever(scope: Scope, s: Sys, before: seq<Op>, after: seq<Op>, e: Event)
    requires PassedOver(Run(scope, s, before), e)
    ensures PassedOver(Run(scope, s, before + after), e)
    decreases |after|
  {
    var ops := before + after;
    if after == [] {
      assert ops == before;
    } else {
      var n := |after| - 1;
      assert ops[..|ops| - 1] == before + after[..n];
      PassedOverForever(scope, s, before, after[..n], e);
      StaysPassed(scope, Run(scope, s, before + after[..n]), after[n], e);
    }
  }

  // ---- two events of one second ----

  const WORKER := "worker"

  /** The first event is listed, processed and committed before the second one arrives. */
  function FirstListed(first: Event): seq<Op> {
    [AppendEvent(first), Claim(WORKER, 60), ListPage(WORKER, 20)]
  }

  function TooLate(first: Event, second: Event): seq<Op> {
    FirstListed(first) + [Process(WORKER)] + [Commit(WORKER, false)] + [AppendEvent(second)]
  }

  lemma ListedAlone(scope: Scope, clock: int, first: Event)
    requires ScopeKey(scope).Ok? && InScope(first, scope) && first.occurredAt > 0
    ensures Run(scope, Start(clock), FirstListed(first))
         == Sys([first], Some(CursorRow(0, None, Some(WORKER), Some(clock + 60), clock)), map[WORKER := Hand([first], 0)], {}, clock)
  {
    var s1 := Next(scope, Start(clock), AppendEvent(first));
    assert s1.log == [first];
    var q := AfterQuery(scope, None, 20);
    FilterSingle(q, [first], 0);
    assert [first][1..] == [];
    assert Sort(Oldest, [first]) == Insert(Oldest, first, Sort(Oldest, []));
    assert Page([first], scope, None, 20) == [first];
    assert [] + [AppendEvent(first)] + [Claim(WORKER, 60)] + [ListPage(WORKER, 20)] == FirstListed(first);
    RunThree(scope, Start(clock), [], AppendEvent(first), Claim(WORKER, 60), ListPage(WORKER, 20));
  }

  lemma CommittedAlone(scope: Scope, clock: int, first: Event, second: Event)
    requires ScopeKey(scope).Ok? && InScope(first, scope) && first.occurredAt > 0 && second.occurredAt > 0 && second.id != first.id
    ensures var s := Run(scope, Start(clock), TooLate(first, second));
            s.log == [first, second] && Committed(s.row) == Some(PositionOf(first)) && s.hands == map[] && s.seen == {first.id}
  {
    ListedAlone(scope, clock, first);
    RunThree(scope, Start(clock), FirstListed(first), Process(WORKER), Commit(WORKER, false), AppendEvent(second));
  }

  /**
   * Two events of one second, the one with the smaller id arriving after the other has been
   * committed: in every continuation the late one stays in the log and is never processed.
   */
  lemma SameSecondSkips(scope: Scope, clock: int, first: Event, second: Event, after: seq<Op>)
    requires ScopeKey(scope).Ok? && InScope(first, scope) && InScope(second, scope)
    requires first.occurredAt == second.occurredAt > 0 && second.id < first.id
    ensures var s := Run(scope, Start(clock), TooLate(first, second) + after);
            second in s.log && second.id !in s.seen && !NoSkip(scope, s)
  {
    CommittedAlone(scope, clock, first, second);
    assert PassedOver(Run(scope, Start(clock), TooLate(first, second)), second);
    PassedOverForever(scope, Start(clock), TooLate(first, second), after, second);
  }
}
