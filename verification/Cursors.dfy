/** One leased cursor over the `(occurred_at, id)` order of a scope. */
module Cursors {
  import opened Wrappers
  import opened Vocabulary
  import opened Events
  import opened Listing

  datatype Position = Position(at: int, id: EventId)

  datatype CursorRow = CursorRow(at: int, event: Option<EventId>, owner: Option<string>, until: Option<int>, updatedAt: int)

  function PositionOf(e: Event): Position {
    Position(e.occurredAt, e.id)
  }

  predicate AtOrBelow(e: Event, p: Position) {
    e.occurredAt < p.at || (e.occurredAt == p.at && e.id <= p.id)
  }

  /** The position a row has committed, None before the first advance. */
  function Committed(row: Option<CursorRow>): Option<Position> {
    if row.Some? && row.value.event.Some? then Some(Position(row.value.at, row.value.event.value)) else None
  }

  /** A live lease of another owner. */
  predicate Contended(row: CursorRow, owner: string, now: int) {
    row.owner.Some? && row.owner.value != "" && row.owner.value != owner && row.until.Some? && row.until.value > now
  }

  /** Claim or renew; the Boolean tells whether the caller now holds the lease. */
  function ClaimRow(row: Option<CursorRow>, owner: string, lease: int, now: int): (CursorRow, bool) {
    var until := now + Clamp(lease, 5, 86_400);
    match row
    case None => (CursorRow(0, None, Some(owner), Some(until), now), true)
    case Some(r) => if Contended(r, owner, now) then (r, false) else (r.(owner := Some(owner), until := Some(until), updatedAt := now), true)
  }

  predicate Advances(row: CursorRow, owner: string, p: Position) {
    && row.owner == Some(owner)
    && (row.at < p.at || (row.at == p.at && (row.event.None? || row.event.value < p.id)))
  }

  /** The lease expiry is not consulted: only the owner column and the position are. */
  function AdvanceRow(row: Option<CursorRow>, owner: string, p: Position, release: bool, now: int): (Option<CursorRow>, bool) {
    if row.Some? && Advances(row.value, owner, p) then
      (Some(CursorRow(p.at, Some(p.id), if release then None else row.value.owner,
                      if release then None else row.value.until, now)), true)
    else (row, false)
  }

  function ReleaseRow(row: Option<CursorRow>, owner: string, now: int): (Option<CursorRow>, bool) {
    if row.Some? && row.value.owner == Some(owner) then (Some(row.value.(owner := None, until := None, updatedAt := now)), true)
    else (row, false)
  }

  function AfterQuery(scope: Scope, after: Option<Position>, limit: int): Query {
    EVERYTHING.(scope := Some(scope), order := Oldest, limit := Clamp(limit, 1, 1000),
                afterAt := if after.Some? then Some(after.value.at) else None,
                afterId := if after.Some? then Some(after.value.id) else None)
  }

  /** The next page of the scope after a position. */
  function Page(log: seq<Event>, scope: Scope, after: Option<Position>, limit: int): seq<Event> {
    List(log, AfterQuery(scope, after, limit))
  }

  predicate InScope(e: Event, scope: Scope) {
    Ok(e.scopeKey) == ScopeKey(scope)
  }

  /** Everything of the scope that lies after a position, in order. */
  function Remaining(log: seq<Event>, scope: Scope, after: Option<Position>): seq<Event> {
    Sort(Oldest, Filter(AfterQuery(scope, after, 1000), log))
  }

  lemma RemainingIs(log: seq<Event>, scope: Scope, after: Option<Position>)
    requires Distinct(log)
    ensures var r := Remaining(log, scope, after);
            && Sorted(Oldest, r)
            && forall e :: e in r <==> e in log && InScope(e, scope) && (after.Some? ==> !AtOrBelow(e, after.value))
  {
    var q := AfterQuery(scope, after, 1000);
    FilterDistinct(q, log);
    SortIs(Oldest, Filter(q, log));
  }

  lemma PageIs(log: seq<Event>, scope: Scope, after: Option<Position>, limit: int)
    requires ScopeKey(scope).Ok?
    ensures Page(log, scope, after, limit) == Take(Remaining(log, scope, after), Clamp(limit, 1, 1000))
  {
    FilterIgnoresLimit(AfterQuery(scope, after, 1000), Clamp(limit, 1, 1000), log);
  }

  /** Still to be visited from a position on. */
  predicate Outstanding(log: seq<Event>, scope: Scope, after: Option<Position>, e: Event) {
    e in log && InScope(e, scope) && (after.Some? ==> !AtOrBelow(e, after.value))
  }

  /**
   * What a worker relies on: a page shows outstanding events alone, in order and within the
   * limit; it misses none up to its last event, and none at all unless it is full.
   */
  ghost predicate NextPage(log: seq<Event>, scope: Scope, after: Option<Position>, limit: int, page: seq<Event>) {
    && Sorted(Oldest, page) && |page| <= Clamp(limit, 1, 1000)
    && (forall e :: e in page ==> Outstanding(log, scope, after, e))
    && (forall e | Outstanding(log, scope, after, e) ::
          |page| < Clamp(limit, 1, 1000) || AtOrBelow(e, PositionOf(page[|page| - 1])) ==> e in page)
  }

  lemma NotAfter(s: seq<Event>, i: nat, j: nat)
    requires Sorted(Oldest, s) && i < |s| && j < |s| && AtOrBelow(s[j], PositionOf(s[i]))
    ensures j <= i
  {
    assert i < j ==> Precedes(Oldest, s[i], s[j]);
  }

  lemma PageComplete(log: seq<Event>, scope: Scope, after: Option<Position>, limit: int)
    requires ScopeKey(scope).Ok? && Distinct(log)
    ensures NextPage(log, scope, after, limit, Page(log, scope, after, limit))
  {
    PageIs(log, scope, after, limit);
    RemainingIs(log, scope, after);
    var rest, page := Remaining(log, scope, after), Page(log, scope, after, limit);
    assert page <= rest;
    forall e | Outstanding(log, scope, after, e) && (|page| < Clamp(limit, 1, 1000) || AtOrBelow(e, PositionOf(page[|page| - 1])))
      ensures e in page
    {
      var j :| 0 <= j < |rest| && rest[j] == e;
      if |page| == Clamp(limit, 1, 1000) {
        NotAfter(rest, |page| - 1, j);
      }
      assert page[j] == e;
    }
  }

  // ---- a lone worker ----

  /** Passing a prefix of what remains leaves the rest. */
  lemma RemainingAfter(log: seq<Event>, scope: Scope, after: Option<Position>, n: nat)
    requires Distinct(log) && 0 < n <= |Remaining(log, scope, after)|
    ensures Remaining(log, scope, Some(PositionOf(Remaining(log, scope, after)[n - 1]))) == Remaining(log, scope, after)[n..]
  {
    var rest := Remaining(log, scope, after);
    var p := PositionOf(rest[n - 1]);
    RemainingIs(log, scope, after);
    RemainingIs(log, scope, Some(p));
    var next := Remaining(log, scope, Some(p));
    forall e ensures e in next <==> e in rest[n..] {
      if e in rest {
        var j :| 0 <= j < |rest| && rest[j] == e;
        assert j < n - 1 ==> Precedes(Oldest, rest[j], rest[n - 1]);
        assert j > n - 1 ==> Precedes(Oldest, rest[n - 1], rest[j]);
        if j >= n {
          assert rest[n..][j - n] == e;
        }
        if e in rest[n..] {
          var k :| 0 <= k < |rest[n..]| && rest[n..][k] == e;
          assert Precedes(Oldest, rest[n - 1], rest[n + k]);
        }
      }
      if e in next && after.Some? {
        assert rest[n - 1] in rest;
      }
    }
    SortedUnique(Oldest, next, rest[n..]);
  }

  /** List a page, process it, move to its last event, until a page comes back empty. */
  function LoneRun(log: seq<Event>, scope: Scope, after: Option<Position>, limit: int): seq<Event>
    requires Distinct(log) && ScopeKey(scope).Ok?
    decreases |Remaining(log, scope, after)|
  {
    PageIs(log, scope, after, limit);
    var page := Page(log, scope, after, limit);
    if page == [] then []
    else
      RemainingAfter(log, scope, after, |page|);
      page + LoneRun(log, scope, Some(PositionOf(page[|page| - 1])), limit)
  }

  /** A lone worker visits every event of its scope after its position exactly once, in order, for any page size. */
  lemma {:induction false} LoneRunVisitsAll(log: seq<Event>, scope: Scope, after: Option<Position>, limit: int)
    requires Distinct(log) && ScopeKey(scope).Ok?
    ensures LoneRun(log, scope, after, limit) == Remaining(log, scope, after)
    ensures Sorted(Oldest, LoneRun(log, scope, after, limit))
    decreases |Remaining(log, scope, after)|
  {
    PageIs(log, scope, after, limit);
    RemainingIs(log, scope, after);
    var page := Page(log, scope, after, limit);
    if page != [] {
      RemainingAfter(log, scope, after, |page|);
      LoneRunVisitsAll(log, scope, Some(PositionOf(page[|page| - 1])), limit);
    }
  }
}
