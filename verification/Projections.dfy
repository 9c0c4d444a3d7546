/** What the evidence-gated projections share: bounded listings of one kind of event, and cleaned evidence. */
module Projections {
  import opened Wrappers
  import opened Text
  import opened Vocabulary
  import opened Events
  import opened Listing

  /** The furthest second a schedule may name. */
  const FAR: int := 4_102_444_800

  function Least(a: int, b: int): int {
    if a < b then a else b
  }

  function BoundedPositive(value: Option<int>, fallback: int): int {
    if value.Some? && SafeInt(value.value) && value.value > 0 then Least(FAR, value.value) else fallback
  }

  /** Trimmed, bounded, non-empty and distinct, in order of first occurrence. */
  function Unique(values: seq<string>): (r: seq<string>)
    ensures r == [] <==> forall v :: v in values ==> Clip(Trim(v), 240) == ""
  {
    if values == [] then []
    else
      var rest := Unique(values[..|values| - 1]);
      var last := values[|values| - 1];
      assert values == values[..|values| - 1] + [last];
      var v := Clip(Trim(last), 240);
      assert Clip(Trim(last), 240) != "" ==> exists w :: w in values && Clip(Trim(w), 240) != "";
      if v == "" || v in rest then rest else rest + [v]
  }

  /** The cleaned values are the distinct non-empty ones, trimmed and cut off at 240 characters. */
  lemma {:induction false} UniqueIs(values: seq<string>)
    ensures forall i, j :: 0 <= i < j < |Unique(values)| ==> Unique(values)[i] != Unique(values)[j]
    ensures forall v :: v in values && Trim(v) != "" ==> Clip(Trim(v), 240) in Unique(values)
    ensures forall u :: u in Unique(values) ==> u != "" && exists v :: v in values && u == Clip(Trim(v), 240)
  {
    if values != [] {
      var init, last := values[..|values| - 1], values[|values| - 1];
      UniqueIs(init);
      assert values == init + [last];
      forall u | u in Unique(values) ensures exists v :: v in values && u == Clip(Trim(v), 240) {
        if u in Unique(init) {
          var v :| v in init && u == Clip(Trim(v), 240);
          assert v in values;
        } else {
          assert last in values && u == Clip(Trim(last), 240);
        }
      }
    }
  }

  // ---- what a report's figures and dates become ----

  /** A date given as a positive safe number stands, up to the far end of the calendar; otherwise the clock counts. */
  predicate Dated(given: Option<int>, clock: int, at: int) {
    if given.Some? && 0 < given.value <= MAX_SAFE then at == (if given.value > 4_102_444_800 then 4_102_444_800 else given.value)
    else at == clock
  }

  /** A figure brought into its bounds. */
  predicate Fitted(given: int, lo: int, hi: int, kept: int) {
    && (lo <= given <= hi ==> kept == given) && (given < lo ==> kept == lo) && (given > hi ==> kept == hi)
  }

  function EvidenceIds(values: seq<string>): seq<string> {
    if |Unique(values)| <= 32 then Unique(values) else Unique(values)[..32]
  }

  /** Evidence is kept whole up to 32 ids; of more, the first 32 are kept. */
  lemma EvidenceIs(values: seq<string>)
    ensures EvidenceIds(values) <= Unique(values)
    ensures |EvidenceIds(values)| == if |Unique(values)| <= 32 then |Unique(values)| else 32
  {
  }

  predicate ChatScoped(scope: Scope) {
    scope.visibility == Chat && ValidId(scope.chatId)
  }

  predicate Proven(passed: int, total: int, evidence: seq<string>) {
    total >= 1 && passed == total && evidence != []
  }

  // ---- listings of one kind ----

  function Kinds(kind: EventType, scope: Option<Scope>, limit: int): Query {
    EVERYTHING.(kind := Some(kind), scope := scope, limit := limit, order := Newest)
  }

  function WithId(events: seq<Event>, id: EventId): (r: Option<Event>)
    ensures r.Some? ==> r.value in events && r.value.id == id
    ensures r.None? ==> forall e :: e in events ==> e.id != id
  {
    if events == [] then None else if events[0].id == id then Some(events[0]) else WithId(events[1..], id)
  }

  lemma SortedDistinct(order: Order, log: seq<Event>, s: seq<Event>)
    requires order != Replay && Sorted(order, s) && Distinct(log) && forall e :: e in s ==> e in log
    ensures Distinct(s)
  {
    forall i, j | 0 <= i < j < |s| ensures s[i].id != s[j].id {
      assert s[i] in log && s[j] in log && Precedes(order, s[i], s[j]);
    }
  }

  /** A listing that is not cut off shows exactly the matching events, newest first. */
  lemma UntruncatedList(log: seq<Event>, kind: EventType, scope: Option<Scope>, limit: int)
    requires Distinct(log) && 1 <= limit <= 1000 && |Filter(Kinds(kind, scope, limit), log)| <= limit
    requires scope.Some? ==> ScopeKey(scope.value).Ok?
    ensures var s := List(log, Kinds(kind, scope, limit));
            && Distinct(s) && Sorted(Newest, s)
            && forall e :: e in s <==> e in log && Matches(Kinds(kind, scope, limit), e)
  {
    var q := Kinds(kind, scope, limit);
    FilterDistinct(q, log);
    SortIs(Newest, Filter(q, log));
    SortedDistinct(Newest, log, List(log, q));
  }

  /** Cut off or not, a listing shows only matching events of the log. */
  lemma ListedInLog(log: seq<Event>, kind: EventType, scope: Option<Scope>, limit: int)
    requires Distinct(log)
    ensures forall e :: e in List(log, Kinds(kind, scope, limit)) ==> e in log && Matches(Kinds(kind, scope, limit), e)
  {
    var q := Kinds(kind, scope, limit);
    FilterDistinct(q, log);
    SortIs(Newest, Filter(q, log));
  }

  /** The first event that passes a test. */
  function First(events: seq<Event>, test: Event -> bool): (r: Option<Event>)
    ensures r.Some? ==> r.value in events && test(r.value)
    ensures r.None? ==> forall e :: e in events ==> !test(e)
  {
    if events == [] then None else if test(events[0]) then Some(events[0]) else First(events[1..], test)
  }

  lemma {:induction false} FirstSnoc(events: seq<Event>, e: Event, test: Event -> bool)
    ensures First(events + [e], test) == if First(events, test).Some? then First(events, test) else if test(e) then Some(e) else None
  {
    if events != [] {
      assert (events + [e])[1..] == events[1..] + [e];
      FirstSnoc(events[1..], e, test);
    } else {
      assert (events + [e])[1..] == [];
    }
  }

  /** In an ordered sequence the first event that passes comes before every other one that does. */
  lemma {:induction false} FirstIsEarliest(order: Order, events: seq<Event>, test: Event -> bool, x: Event)
    requires Sorted(order, events) && x in events && test(x)
    ensures First(events, test).Some?
    ensures First(events, test).value == x || Precedes(order, First(events, test).value, x)
  {
    if test(events[0]) {
      var i :| 0 <= i < |events| && events[i] == x;
      assert i > 0 ==> Precedes(order, events[0], events[i]);
    } else {
      assert events == [events[0]] + events[1..];
      FirstIsEarliest(order, events[1..], test, x);
    }
  }

  /**
   * The first match of a listing is the newest match of the whole log, even when the listing was
   * cut off: the cap keeps the newest events.
   */
  lemma FirstIsNewest(log: seq<Event>, q: Query, test: Event -> bool, x: Event)
    requires Distinct(log) && q.order == Newest && (q.scope.Some? ==> ScopeKey(q.scope.value).Ok?)
    requires First(List(log, q), test).Some? && x in log && Matches(q, x) && test(x)
    ensures x == First(List(log, q), test).value || Before(x, First(List(log, q), test).value)
  {
    FilterDistinct(q, log);
    SortIs(Newest, Filter(q, log));
    var all, page := Sort(Newest, Filter(q, log)), List(log, q);
    var l := First(page, test).value;
    var j :| 0 <= j < |all| && all[j] == x;
    if j < |page| {
      assert page[j] == x;
      FirstIsEarliest(Newest, page, test, x);
    } else {
      var i :| 0 <= i < |page| && page[i] == l;
      assert Precedes(Newest, all[i], all[j]);
    }
  }

  lemma {:induction false} FilterShort(q: Query, log: seq<Event>)
    ensures |Filter(q, log)| <= |log|
  {
    if log != [] {
      FilterShort(q, log[..|log| - 1]);
    }
  }

  lemma {:induction false} FilterNone(q: Query, log: seq<Event>)
    requires forall j :: 0 <= j < |log| ==> !Matches(q, log[j])
    ensures Filter(q, log) == []
  {
    if log != [] {
      FilterNone(q, log[..|log| - 1]);
    }
  }

  /** A listing with a single match. */
  lemma {:induction false} FilterSingle(q: Query, log: seq<Event>, i: nat)
    requires i < |log| && forall j :: 0 <= j < |log| ==> (Matches(q, log[j]) <==> j == i)
    ensures Filter(q, log) == [log[i]]
  {
    var init := log[..|log| - 1];
    if i < |log| - 1 {
      FilterSingle(q, init, i);
    } else {
      FilterNone(q, init);
    }
  }

  lemma ListSingle(log: seq<Event>, kind: EventType, scope: Option<Scope>, limit: int, i: nat)
    requires scope.Some? ==> ScopeKey(scope.value).Ok?
    requires i < |log| && forall j :: 0 <= j < |log| ==> (Matches(Kinds(kind, scope, limit), log[j]) <==> j == i)
    ensures List(log, Kinds(kind, scope, limit)) == [log[i]]
  {
    var q := Kinds(kind, scope, limit);
    FilterSingle(q, log, i);
    assert [log[i]][1..] == [];
    assert Sort(Newest, [log[i]]) == Insert(Newest, log[i], Sort(Newest, []));
  }

  lemma SortedAppend(log: seq<Event>, e: Event, q: Query)
    requires Distinct(log + [e]) && q.order == Newest && Matches(q, e)
    ensures Sort(Newest, Filter(q, log + [e])) == Insert(Newest, e, Sort(Newest, Filter(q, log)))
    ensures Sorted(Newest, Sort(Newest, Filter(q, log)))
  {
    var next := log + [e];
    assert next[..|log|] == log;
    assert forall x :: x in log ==> x.id != e.id by {
      forall x | x in log ensures x.id != e.id {
        var i :| 0 <= i < |log| && log[i] == x;
        assert next[i].id != next[|log|].id;
      }
    }
    assert Distinct(log) by {
      forall i, j | 0 <= i < j < |log| ensures log[i].id != log[j].id {
        assert next[i].id != next[j].id;
      }
    }
    FilterDistinct(q, log);
    FilterDistinct(q, next);
    SortIs(Newest, Filter(q, log));
    SortIs(Newest, Filter(q, next));
    var all := Sort(Newest, Filter(q, log));
    InsertKeepsMembers(Newest, e, all);
    InsertSorted(Newest, e, all);
    SortedUnique(Newest, Sort(Newest, Filter(q, next)), Insert(Newest, e, all));
  }

  lemma InsertThenTake(s: seq<Event>, e: Event, n: nat, x: Event)
    requires Sorted(Newest, s) && x in Take(s, n)
    ensures if Before(x, e) then e in Take(Insert(Newest, e, s), n) else x in Take(Insert(Newest, e, s), n)
  {
    var j :| 0 <= j < |Take(s, n)| && Take(s, n)[j] == x;
    InsertShifts(Newest, e, s, j);
    var r := Insert(Newest, e, s);
    if Before(x, e) {
      var i :| 0 <= i < |r[..j + 1]| && r[..j + 1][i] == e;
      assert Take(r, n)[i] == e;
    } else {
      assert Take(r, n)[j] == x;
    }
  }

  /** A new event pushes a listed one out of a capped listing only by being older than it. */
  lemma ListGrows(log: seq<Event>, e: Event, q: Query, x: Event)
    requires Distinct(log + [e]) && q.order == Newest && Matches(q, e) && x in List(log, q)
    ensures if Before(x, e) then e in List(log + [e], q) else x in List(log + [e], q)
  {
    SortedAppend(log, e, q);
    InsertThenTake(Sort(Newest, Filter(q, log)), e, Clamp(q.limit, 1, 1000), x);
  }

  /** An event a listing does not match does not change it. */
  lemma ListSkips(log: seq<Event>, e: Event, q: Query)
    requires !Matches(q, e)
    ensures List(log + [e], q) == List(log, q)
  {
    assert (log + [e])[..|log|] == log;
  }

  lemma {:induction false} FilterGrows(q: Query, a: seq<Event>, b: seq<Event>)
    requires a <= b
    ensures |Filter(q, a)| <= |Filter(q, b)|
    decreases |b|
  {
    if |a| < |b| {
      FilterGrows(q, a, b[..|b| - 1]);
    } else {
      assert a == b;
    }
  }

  lemma SameId(log: seq<Event>, a: Event, b: Event)
    requires Distinct(log) && a in log && b in log && a.id == b.id
    ensures a == b
  {
    var i :| 0 <= i < |log| && log[i] == a;
    var j :| 0 <= j < |log| && log[j] == b;
  }

  // ---- writing ----

  /** What an append stores of its input. */
  lemma StoredAsGiven(st: Store, flags: Flags, input: EventInput, id: EventId, now: int)
    ensures var answer := Append(st, flags, input, id, now).1;
            answer.Inserted? ==>
              var e := answer.event;
              && e.kind == input.kind && e.fact == input.fact && e.dedupe == StoredKey(input.dedupe) && e.scope == input.scope && e.createdAt == now
              && e.occurredAt == (if input.occurredAt.Some? then input.occurredAt.value else now)
              && (input.correlation.Some? && input.correlation.value != "" && Tight(input.correlation.value) ==>
                    e.correlation == input.correlation.value)
  {
    if input.correlation.Some? {
      TrimIs(input.correlation.value);
    }
  }

  lemma UniqueAgain(values: seq<string>)
    requires EvidenceIds(values) != []
    ensures EvidenceIds(EvidenceIds(values)) != []
  {
    UniqueClean(values);
    var kept := EvidenceIds(values);
    assert kept[0] in Unique(values);
    assert kept[0] in kept && Clip(Trim(kept[0]), 240) != "";
  }

  /** Cleaned values are still non-empty when cleaned again. */
  lemma {:induction false} UniqueClean(values: seq<string>)
    ensures forall v :: v in Unique(values) ==> Clip(Trim(v), 240) != "" && |Trim(v)| <= 240
  {
    if values != [] {
      UniqueClean(values[..|values| - 1]);
      var last := values[|values| - 1];
      if Clip(Trim(last), 240) != "" {
        TrimIs(last);
        ClippedText(Trim(last), 240);
      }
    }
  }

  /** An input the log accepts is stored exactly when its key, if it has one, is still free. */
  lemma StoredUnlessKeyed(st: Store, flags: Flags, input: EventInput, id: EventId, now: int)
    requires flags.events && Draft(input, id, now).Ok? && !HasEvent(st.log, id)
    ensures var (next, answer) := Append(st, flags, input, id, now);
            && (answer.Inserted? <==> StoredKey(input.dedupe).None? || WithKey(st.log, StoredKey(input.dedupe).value).None?)
            && (answer.Inserted? ==> next.log == st.log + [answer.event] && Ok(answer.event.scopeKey) == ScopeKey(input.scope))
            && (!answer.Inserted? ==> next == st)
  {
    AppendShape(st, flags, input, id, now);
  }
}
