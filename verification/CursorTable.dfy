/** The stored cursors: one leased row per scope and stream. */
module CursorTables {
  import opened Wrappers
  import opened Text
  import opened Vocabulary
  import opened Events
  import opened Listing
  import opened Cursors

  datatype Key = Key(scope: string, stream: string)

  predicate ValidName(name: string, max: nat) {
    0 < |Trim(name)| <= max
  }

  /** The row a request addresses; a bad stream name or an incomplete scope addresses none. */
  function Address(scope: Scope, stream: string): Option<Key> {
    if ValidName(stream, 160) && ScopeKey(scope).Ok? then Some(Key(ScopeKey(scope).value, Trim(stream))) else None
  }

  function RowAt(rows: map<Key, CursorRow>, key: Key): Option<CursorRow> {
    if key in rows then Some(rows[key]) else None
  }

  /** Other cursors keep their rows. */
  ghost predicate OnlyAt(before: map<Key, CursorRow>, now: map<Key, CursorRow>, key: Key) {
    before - {key} == now - {key}
  }

  /** A lease of somebody else that has not run out. */
  predicate HeldByOther(row: Option<CursorRow>, owner: string, now: int) {
    && row.Some? && row.value.owner.Some? && row.value.owner.value != "" && row.value.owner.value != owner
    && row.value.until.Some? && now < row.value.until.value
  }

  /** The lease asked for, within five seconds and a day. */
  predicate LeaseFrom(until: Option<int>, lease: int, now: int) {
    && until.Some?
    && (5 <= lease <= 86_400 ==> until.value == now + lease)
    && (lease < 5 ==> until.value == now + 5)
    && (lease > 86_400 ==> until.value == now + 86_400)
  }

  /** Strictly behind a row's position. */
  predicate Behind(row: CursorRow, p: Position) {
    row.at < p.at || (row.at == p.at && (row.event.None? || row.event.value < p.id))
  }

  datatype Answer = Invalid | Answer(row: CursorRow, claimed: bool)

  class CursorTable {
    var rows: map<Key, CursorRow>

    constructor ()
      ensures rows == map[]
    {
      rows := map[];
    }

    /** `getCognitiveCursor`. */
    method Get(scope: Scope, stream: string) returns (row: Option<CursorRow>)
      ensures row == if Address(scope, stream).Some? then RowAt(rows, Address(scope, stream).value) else None
    {
      var key := Address(scope, stream);
      if key.None? || key.value !in rows {
        return None;
      }
      return Some(rows[key.value]);
    }

    /** `claimCognitiveCursor`: the lease changes hands only when no other owner's lease is live; the position never changes. */
    method Claim(scope: Scope, stream: string, owner: string, lease: int, now: int) returns (answer: Answer)
      modifies this
      ensures answer.Invalid? <==> Address(scope, stream).None? || !ValidName(owner, 120)
      ensures answer.Invalid? ==> rows == old(rows)
      ensures answer.Answer? ==>
        var key := Address(scope, stream).value;
        && (answer.row, answer.claimed) == ClaimRow(RowAt(old(rows), key), Trim(owner), lease, now)
        && OnlyAt(old(rows), rows, key)
        && (answer.claimed <==> !HeldByOther(RowAt(old(rows), key), Trim(owner), now))
        && (answer.claimed ==>
              && RowAt(rows, key) == Some(answer.row) && answer.row.owner == Some(Trim(owner))
              && LeaseFrom(answer.row.until, lease, now) && answer.row.updatedAt == now
              && (key in old(rows) ==> answer.row.at == old(rows)[key].at && answer.row.event == old(rows)[key].event)
              && (key !in old(rows) ==> answer.row.at == 0 && answer.row.event.None?))
        && (!answer.claimed ==> rows == old(rows) && Some(answer.row) == RowAt(rows, key))
        && Committed(RowAt(rows, key)) == Committed(RowAt(old(rows), key))
    {
      var key := Address(scope, stream);
      if key.None? || !ValidName(owner, 120) {
        return Invalid;
      }
      var k, name, until := key.value, Trim(owner), now + Clamp(lease, 5, 86_400);
      if k in rows {
        var existing := rows[k];
        if Contended(existing, name, now) {
          return Answer(existing, false);
        }
        rows := rows[k := existing.(owner := Some(name), until := Some(until), updatedAt := now)];
      } else {
        rows := rows[k := CursorRow(0, None, Some(name), Some(until), now)];
      }
      return Answer(rows[k], true);
    }

    /** `advanceCognitiveCursor`: takes effect only for the row's owner, and only forwards. */
    method Advance(scope: Scope, stream: string, owner: string, p: Position, release: bool, now: int) returns (done: bool)
      modifies this
      ensures Address(scope, stream).None? || !ValidName(owner, 120) || !SafeInt(p.at) || p.at < 0 ==> !done
      ensures !done ==> rows == old(rows)
      ensures Address(scope, stream).Some? && ValidName(owner, 120) && SafeInt(p.at) && p.at >= 0 ==>
        var key := Address(scope, stream).value;
        && (RowAt(rows, key), done) == AdvanceRow(RowAt(old(rows), key), Trim(owner), p, release, now)
        && OnlyAt(old(rows), rows, key)
        && (done <==> key in old(rows) && old(rows)[key].owner == Some(Trim(owner)) && Behind(old(rows)[key], p))
        && (done && release ==> RowAt(rows, key) == Some(CursorRow(p.at, Some(p.id), None, None, now)))
        && (done && !release ==> RowAt(rows, key) == Some(CursorRow(p.at, Some(p.id), Some(Trim(owner)), old(rows)[key].until, now)))
      ensures done ==>
        var (was, end) := (RowAt(old(rows), Address(scope, stream).value), Committed(RowAt(rows, Address(scope, stream).value)));
        was.Some? && was.value.owner == Some(Trim(owner)) && end == Some(p)
        && (Committed(was).Some? ==> Committed(was).value.at < p.at || (Committed(was).value.at == p.at && Committed(was).value.id < p.id))
    {
      var key := Address(scope, stream);
      if key.None? || !ValidName(owner, 120) || !SafeInt(p.at) || p.at < 0 || key.value !in rows {
        return false;
      }
      var row := rows[key.value];
      if row.owner != Some(Trim(owner))
         || !(row.at < p.at || (row.at == p.at && (row.event.None? || row.event.value < p.id))) {
        return false;
      }
      rows := rows[key.value := CursorRow(p.at, Some(p.id), if release then None else row.owner,
                                          if release then None else row.until, now)];
      return true;
    }

    /** `releaseCognitiveCursor`: gives up the owner's lease and keeps the position. */
    method Release(scope: Scope, stream: string, owner: string, now: int) returns (done: bool)
      modifies this
      ensures !done ==> rows == old(rows)
      ensures Address(scope, stream).None? || !ValidName(owner, 120) ==> !done
      ensures Address(scope, stream).Some? && ValidName(owner, 120) ==>
        var key := Address(scope, stream).value;
        && (RowAt(rows, key), done) == ReleaseRow(RowAt(old(rows), key), Trim(owner), now)
        && OnlyAt(old(rows), rows, key)
        && (done <==> key in old(rows) && old(rows)[key].owner == Some(Trim(owner)))
        && (done ==> key in rows && rows[key] == CursorRow(old(rows)[key].at, old(rows)[key].event, None, None, now))
        && Committed(RowAt(rows, key)) == Committed(RowAt(old(rows), key))
    {
      var key := Address(scope, stream);
      if key.None? || !ValidName(owner, 120) || key.value !in rows || rows[key.value].owner != Some(Trim(owner)) {
        return false;
      }
      rows := rows[key.value := rows[key.value].(owner := None, until := None, updatedAt := now)];
      return true;
    }

    /**
     * `listCognitiveEventsAfterCursor`: the next page after the stored position; without a valid
     * cursor the listing starts at the beginning.
     */
    method Page(log: seq<Event>, scope: Scope, stream: string, limit: int) returns (page: seq<Event>)
      ensures var row := if Address(scope, stream).Some? then RowAt(rows, Address(scope, stream).value) else None;
              && page == Cursors.Page(log, scope, Committed(row), limit)
              && (ScopeKey(scope).Ok? && Distinct(log) ==> NextPage(log, scope, Committed(row), limit, page))
              && (ScopeKey(scope).Err? ==> page == [])
    {
      var row := Get(scope, stream);
      page := Cursors.Page(log, scope, Committed(row), limit);
      if ScopeKey(scope).Ok? && Distinct(log) {
        PageComplete(log, scope, Committed(row), limit);
      }
    }
  }
}
