/** Reading the log: filters, orders, limits, and what bounded pages add up to. */
module Listing {
  import opened Wrappers
  import opened Text
  import opened Vocabulary
  import opened Events

  datatype Order = Replay | Oldest | Newest | Recent

  datatype Query = Query(
    correlation: Option<string>, scope: Option<Scope>, afterSequence: Option<int>,
    afterAt: Option<int>, afterId: Option<EventId>, kind: Option<EventType>, limit: int, order: Order)

  const EVERYTHING := Query(None, None, None, None, None, None, 200, Replay)

  predicate Lex(a: string, b: string) {
    if b == "" then false
    else if a == "" then true
    else a[0] < b[0] || (a[0] == b[0] && Lex(a[1..], b[1..]))
  }

  /** `(occurred_at, id)` order; ids are unique, so it is strict and total on a log. */
  predicate Before(a: Event, b: Event) {
    a.occurredAt < b.occurredAt || (a.occurredAt == b.occurredAt && a.id < b.id)
  }

  /** Replay, Oldest and Newest are the query orders; Recent is the order the mission projection re-sorts by. */
  predicate Precedes(order: Order, a: Event, b: Event) {
    match order
    case Replay => Lex(a.correlation, b.correlation) || (a.correlation == b.correlation && a.sequence < b.sequence)
    case Oldest => Before(a, b)
    case Newest => Before(b, a)
    case Recent =>
      b.occurredAt < a.occurredAt
      || (a.occurredAt == b.occurredAt && (b.sequence < a.sequence || (a.sequence == b.sequence && b.id < a.id)))
  }

  function Insert(order: Order, e: Event, s: seq<Event>): seq<Event> {
    if s == [] || Precedes(order, e, s[0]) then [e] + s else [s[0]] + Insert(order, e, s[1..])
  }

  function Sort(order: Order, s: seq<Event>): seq<Event> {
    if s == [] then [] else Insert(order, s[0], Sort(order, s[1..]))
  }

  /** Past a position; without an event id the whole second is passed. */
  predicate After(at: int, id: Option<EventId>, e: Event) {
    e.occurredAt > at || (id.Some? && e.occurredAt == at && e.id > id.value)
  }

  predicate Matches(q: Query, e: Event) {
    && (q.correlation.Some? && q.correlation.value != "" ==> e.correlation == q.correlation.value)
    && (q.scope.Some? ==> Ok(e.scopeKey) == ScopeKey(q.scope.value))
    && (q.afterSequence.Some? ==> e.sequence > q.afterSequence.value)
    && (q.afterAt.Some? ==> After(q.afterAt.value, q.afterId, e))
    && (q.kind.Some? ==> e.kind == q.kind.value)
  }

  function Filter(q: Query, log: seq<Event>): (r: seq<Event>)
    ensures forall e :: e in r <==> e in log && Matches(q, e)
  {
    if log == [] then []
    else
      var rest := Filter(q, log[..|log| - 1]);
      if Matches(q, log[|log| - 1]) then rest + [log[|log| - 1]] else rest
  }

  function Clamp(n: int, lo: int, hi: int): (r: int)
    requires lo <= hi
    ensures lo <= r <= hi && (lo <= n <= hi ==> r == n)
  {
    if n < lo then lo else if n > hi then hi else n
  }

  function Take(s: seq<Event>, n: nat): seq<Event> {
    if |s| <= n then s else s[..n]
  }

  /** One listing; an invalid scope makes the query throw, which reads as no events. */
  function List(log: seq<Event>, q: Query): seq<Event> {
    if q.scope.Some? && ScopeKey(q.scope.value).Err? then []
    else Take(Sort(q.order, Filter(q, log)), Clamp(q.limit, 1, 1000))
  }

  // ---- sorting ----

  ghost predicate Sorted(order: Order, s: seq<Event>) {
    forall i, j :: 0 <= i < j < |s| ==> Precedes(order, s[i], s[j])
  }

  ghost predicate Distinct(s: seq<Event>) {
    forall i, j :: 0 <= i < j < |s| ==> s[i].id != s[j].id
  }

  lemma {:induction false} InsertKeepsMembers(order: Order, e: Event, s: seq<Event>)
    ensures forall x :: x in Insert(order, e, s) <==> x == e || x in s
    ensures |Insert(order, e, s)| == |s| + 1
  {
    if s != [] && !Precedes(order, e, s[0]) {
      InsertKeepsMembers(order, e, s[1..]);
      assert s == [s[0]] + s[1..];
    }
  }

  lemma {:induction false} InsertSorted(order: Order, e: Event, s: seq<Event>)
    requires order != Replay && Sorted(order, s)
    requires forall x :: x in s ==> x.id != e.id
    ensures Sorted(order, Insert(order, e, s))
  {
    if s != [] && !Precedes(order, e, s[0]) {
      assert s[0] in s && s[0].id != e.id;
      InsertSorted(order, e, s[1..]);
      InsertKeepsMembers(order, e, s[1..]);
      var r := Insert(order, e, s[1..]);
      forall j | 0 <= j < |r| ensures Precedes(order, s[0], r[j]) {
        assert r[j] in r;
      }
    }
  }

  /** Sorting by time keeps exactly the same events and orders them strictly. */
  lemma {:induction false} SortIs(order: Order, s: seq<Event>)
    requires order != Replay && Distinct(s)
    ensures Sorted(order, Sort(order, s)) && |Sort(order, s)| == |s|
    ensures forall x :: x in Sort(order, s) <==> x in s
  {
    if s != [] {
      assert forall x :: x in s[1..] ==> x.id != s[0].id;
      SortIs(order, s[1..]);
      InsertSorted(order, s[0], Sort(order, s[1..]));
      InsertKeepsMembers(order, s[0], Sort(order, s[1..]));
      assert s == [s[0]] + s[1..];
    }
  }

  lemma {:induction false} FilterDistinct(q: Query, log: seq<Event>)
    requires Distinct(log)
    ensures Distinct(Filter(q, log))
  {
    if log != [] {
      FilterDistinct(q, log[..|log| - 1]);
      assert forall x :: x in log[..|log| - 1] ==> x.id != log[|log| - 1].id;
    }
  }

  /** A sequence already in order is not rearranged. */
  lemma {:induction false} SortOfSorted(order: Order, s: seq<Event>)
    requires Sorted(order, s)
    ensures Sort(order, s) == s
  {
    if s != [] {
      SortOfSorted(order, s[1..]);
      assert s == [s[0]] + s[1..];
      assert s[1..] != [] ==> s[1..][0] == s[1];
    }
  }

  lemma TailMembers(order: Order, a: seq<Event>)
    requires order != Replay && Sorted(order, a) && a != []
    ensures forall e :: e in a[1..] <==> e in a && e != a[0]
  {
    assert a == [a[0]] + a[1..];
    forall e | e in a[1..] ensures e != a[0] {
      var k :| 0 <= k < |a[1..]| && a[1..][k] == e;
      assert Precedes(order, a[0], a[k + 1]);
    }
  }

  /** An order by time leaves one way to arrange a set of events. */
  lemma {:induction false} SortedUnique(order: Order, a: seq<Event>, b: seq<Event>)
    requires order != Replay && Sorted(order, a) && Sorted(order, b)
    requires forall e :: e in a <==> e in b
    ensures a == b
  {
    if a != [] || b != [] {
      assert a != [] ==> a[0] in a;
      assert b != [] ==> b[0] in b;
      assert a != [] && b != [];
      var i :| 0 <= i < |b| && b[i] == a[0];
      assert i == 0 || Precedes(order, b[0], b[i]);
      assert a[0] == b[0] by {
        var j :| 0 <= j < |a| && a[j] == b[0];
        assert j == 0 || Precedes(order, a[0], a[j]);
      }
      TailMembers(order, a);
      TailMembers(order, b);
      SortedUnique(order, a[1..], b[1..]);
    }
  }

  /** Insertion pushes back what does not come before the newcomer, and nothing else. */
  lemma {:induction false} InsertShifts(order: Order, e: Event, s: seq<Event>, j: nat)
    requires order != Replay && Sorted(order, s) && j < |s|
    ensures var r := Insert(order, e, s);
            |r| == |s| + 1 && if Precedes(order, e, s[j]) then e in r[..j + 1] else r[j] == s[j]
  {
    if Precedes(order, e, s[0]) {
      assert j > 0 ==> Precedes(order, s[0], s[j]);
      assert Insert(order, e, s)[0] == e;
    } else {
      InsertKeepsMembers(order, e, s[1..]);
      if j > 0 {
        InsertShifts(order, e, s[1..], j - 1);
        var r := Insert(order, e, s[1..]);
        assert Precedes(order, e, s[j]) ==> Insert(order, e, s)[..j + 1] == [s[0]] + r[..j];
      }
    }
  }

  // ---- paging one correlation ----

  function StreamPage(log: seq<Event>, correlation: string, after: nat, size: int): seq<Event> {
    List(log, EVERYTHING.(correlation := Some(correlation), afterSequence := Some(after), limit := size))
  }

  lemma {:induction false} FilterIsSuffix(log: seq<Event>, correlation: string, after: nat)
    requires Numbered(log) && correlation != "" && after <= |Stream(log, correlation)|
    ensures Filter(EVERYTHING.(correlation := Some(correlation), afterSequence := Some(after)), log)
         == Stream(log, correlation)[after..]
  {
    var q := EVERYTHING.(correlation := Some(correlation), afterSequence := Some(after));
    if log != [] {
      var init, last := log[..|log| - 1], log[|log| - 1];
      forall i | 0 <= i < |init| ensures init[i].sequence == |Stream(init[..i], init[i].correlation)| + 1 {
        assert init[..i] == log[..i];
      }
      var whole := Stream(init, correlation);
      if after <= |whole| {
        FilterIsSuffix(init, correlation, after);
        assert last.correlation == correlation ==> (whole + [last])[after..] == whole[after..] + [last];
      } else {
        assert last.correlation == correlation && last.sequence == after;
        NothingAfter(init, correlation, after);
      }
    }
  }

  lemma {:induction false} NothingAfter(log: seq<Event>, correlation: string, after: nat)
    requires Numbered(log) && correlation != "" && after >= |Stream(log, correlation)|
    ensures Filter(EVERYTHING.(correlation := Some(correlation), afterSequence := Some(after)), log) == []
  {
    if log != [] {
      var init := log[..|log| - 1];
      forall i | 0 <= i < |init| ensures init[i].sequence == |Stream(init[..i], init[i].correlation)| + 1 {
        assert init[..i] == log[..i];
      }
      NothingAfter(init, correlation, after);
    }
  }

  /** The limit does not reach the filter. */
  lemma {:induction false} FilterIgnoresLimit(q: Query, size: int, log: seq<Event>)
    ensures Filter(q.(limit := size), log) == Filter(q, log)
  {
    if log != [] {
      FilterIgnoresLimit(q, size, log[..|log| - 1]);
    }
  }

  lemma StreamInOrder(log: seq<Event>, correlation: string, i: nat, j: nat)
    requires Numbered(log) && i < j < |Stream(log, correlation)|
    ensures var s := Stream(log, correlation);
            s[i].correlation == s[j].correlation && s[i].sequence < s[j].sequence
  {
    StreamNumbered(log, correlation, i);
    StreamNumbered(log, correlation, j);
  }

  ghost predicate Rising(s: seq<Event>) {
    forall i, j :: 0 <= i < j < |s| ==> s[i].correlation == s[j].correlation && s[i].sequence < s[j].sequence
  }

  lemma StretchSorted(log: seq<Event>, correlation: string, after: nat)
    requires Numbered(log) && after <= |Stream(log, correlation)|
    ensures Sorted(Replay, Stream(log, correlation)[after..])
  {
    var stream := Stream(log, correlation);
    forall i, j | 0 <= i < j < |stream|
      ensures stream[i].correlation == stream[j].correlation && stream[i].sequence < stream[j].sequence
    {
      StreamInOrder(log, correlation, i, j);
    }
    RisingSorted(stream[after..]);
  }

  lemma RisingSorted(s: seq<Event>)
    requires Rising(s)
    ensures Sorted(Replay, s)
  {
  }

  /** A page after sequence `after` is the next stretch of the stream. */
  lemma PageIsStretch(log: seq<Event>, correlation: string, after: nat, size: int)
    requires WellFormed(log) && correlation != "" && after <= |Stream(log, correlation)|
    ensures StreamPage(log, correlation, after, size) == Take(Stream(log, correlation)[after..], Clamp(size, 1, 1000))
  {
    var q := EVERYTHING.(correlation := Some(correlation), afterSequence := Some(after));
    var rest := Stream(log, correlation)[after..];
    FilterIgnoresLimit(q, size, log);
    FilterIsSuffix(log, correlation, after);
    StretchSorted(log, correlation, after);
    SortOfSorted(Replay, rest);
    assert Filter(q.(limit := size), log) == rest;
  }

  /** A reader that asks for the page after the last sequence it holds, until a page comes back empty. */
  function Rebuild(log: seq<Event>, correlation: string, after: nat, size: int): seq<Event>
    requires WellFormed(log) && correlation != "" && after <= |Stream(log, correlation)|
    decreases |Stream(log, correlation)| - after
  {
    var page := StreamPage(log, correlation, after, size);
    if page == [] then []
    else
      PageEnds(log, correlation, after, size);
      page + Rebuild(log, correlation, page[|page| - 1].sequence, size)
  }

  lemma TakeSplits(s: seq<Event>, after: nat, n: nat)
    requires after <= |s|
    ensures var page := Take(s[after..], n);
            after + |page| <= |s| && s[after..] == page + s[after + |page|..] && (page != [] ==> page[|page| - 1] == s[after + |page| - 1])
  {
  }

  /** A non-empty page ends at the sequence number of the last event read so far. */
  lemma PageEnds(log: seq<Event>, correlation: string, after: nat, size: int)
    requires WellFormed(log) && correlation != "" && after <= |Stream(log, correlation)|
    requires StreamPage(log, correlation, after, size) != []
    ensures var page, stream := StreamPage(log, correlation, after, size), Stream(log, correlation);
            && after + |page| <= |stream| && page[|page| - 1].sequence == after + |page|
            && stream[after..] == page + stream[after + |page|..]
  {
    PageIsStretch(log, correlation, after, size);
    TakeSplits(Stream(log, correlation), after, Clamp(size, 1, 1000));
    StreamNumbered(log, correlation, after + |StreamPage(log, correlation, after, size)| - 1);
  }

  lemma NothingLeft(log: seq<Event>, correlation: string, after: nat, size: int)
    requires WellFormed(log) && correlation != "" && after <= |Stream(log, correlation)|
    requires StreamPage(log, correlation, after, size) == []
    ensures Stream(log, correlation)[after..] == []
  {
    PageIsStretch(log, correlation, after, size);
  }

  lemma Rejoined(s: seq<Event>, i: nat, j: nat)
    requires i <= j <= |s|
    ensures s[i..j] + s[j..] == s[i..]
  {
  }

  /** Reading one page more. */
  lemma RebuildStep(log: seq<Event>, correlation: string, after: nat, size: int) returns (n: nat)
    requires WellFormed(log) && correlation != "" && after <= |Stream(log, correlation)|
    requires StreamPage(log, correlation, after, size) != []
    ensures after < n <= |Stream(log, correlation)|
    ensures Rebuild(log, correlation, after, size) == Stream(log, correlation)[after..n] + Rebuild(log, correlation, n, size)
  {
    PageEnds(log, correlation, after, size);
    var page, stream := StreamPage(log, correlation, after, size), Stream(log, correlation);
    n := after + |page|;
    assert page == stream[after..][..|page|] == stream[after..n];
  }

  /** Whatever the page size, the pages concatenate to the whole stream. */
  lemma {:induction false} PagesRebuildStream(log: seq<Event>, correlation: string, after: nat, size: int)
    requires WellFormed(log) && correlation != "" && after <= |Stream(log, correlation)|
    ensures Rebuild(log, correlation, after, size) == Stream(log, correlation)[after..]
    decreases |Stream(log, correlation)| - after
  {
    if StreamPage(log, correlation, after, size) == [] {
      NothingLeft(log, correlation, after, size);
    } else {
      var n := RebuildStep(log, correlation, after, size);
      PagesRebuildStream(log, correlation, n, size);
      Rejoined(Stream(log, correlation), after, n);
    }
  }

  /** What `replayCognitiveEvents` hands to its handler, in order: one listing of at most 1000. */
  function Replayed(log: seq<Event>, correlation: string): seq<Event> {
    List(log, EVERYTHING.(correlation := Some(correlation), limit := 1000))
  }

  /** Replay visits the stream in order, and all of it exactly when it holds at most 1000 events. */
  lemma ReplayIsWholeStreamIff(log: seq<Event>, correlation: string)
    requires WellFormed(log) && correlation != ""
    ensures Replayed(log, correlation) <= Stream(log, correlation)
    ensures Replayed(log, correlation) == Stream(log, correlation) <==> |Stream(log, correlation)| <= 1000
  {
    PageIsStretch(log, correlation, 0, 1000);
    assert Stream(log, correlation)[0..] == Stream(log, correlation);
    SamePositive(log, correlation);
  }

  lemma {:induction false} SamePositive(log: seq<Event>, correlation: string)
    requires Numbered(log) && correlation != ""
    ensures Filter(EVERYTHING.(correlation := Some(correlation), limit := 1000), log)
         == Filter(EVERYTHING.(correlation := Some(correlation), afterSequence := Some(0), limit := 1000), log)
  {
    if log != [] {
      var init := log[..|log| - 1];
      forall i | 0 <= i < |init| ensures init[i].sequence == |Stream(init[..i], init[i].correlation)| + 1 {
        assert init[..i] == log[..i];
      }
      SamePositive(init, correlation);
    }
  }
}
