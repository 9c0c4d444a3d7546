/** The event log and its outbox as the process holds them: two tables changed one statement at a time. */
module EventTables {
  import opened Wrappers
  import opened Text
  import opened Vocabulary
  import opened Events
  import opened Outbox

  /** Locking the rows of a claim in turn. */
  lemma OneMoreLocked(rows: seq<OutboxRow>, ids: seq<nat>, k: nat, name: string, now: int)
    requires k < |ids| && (forall i :: 0 <= i < |ids| ==> ids[i] < |rows|)
    requires forall i, j :: 0 <= i < j < |ids| ==> ids[i] < ids[j]
    ensures var so := LockAll(rows, ids[..k], name, now);
            && so[ids[k]] == rows[ids[k]]
            && LockAll(rows, ids[..k + 1], name, now) == so[ids[k] := Lock(rows[ids[k]], name, now)]
            && Items(rows, ids)[..k + 1] == Items(rows, ids)[..k] + [Item(ids[k], rows[ids[k]].attempts + 1)]
  {
    assert ids[..k + 1] == ids[..k] + [ids[k]];
    assert ids[k] !in ids[..k];
  }

  /** Every item handed out was due, is now locked under the claimant's name, and carries its row's new attempt count. */
  lemma ClaimedRows(rows: seq<OutboxRow>, worker: string, limit: int, lease: int, now: int, k: nat)
    requires k < |Outbox.Claim(rows, worker, limit, lease, now).1|
    ensures var (next, items) := Outbox.Claim(rows, worker, limit, lease, now);
            && items[k].row < |rows| == |next|
            && Due(rows[items[k].row], now, lease)
            && items[k].attempts == rows[items[k].row].attempts + 1
            && next[items[k].row] == rows[items[k].row].(
                 status := Processing, attempts := items[k].attempts, lockedAt := Some(now), lockedBy := Some(Clip(Trim(worker), 120)))
  {
    var ids := Picks(rows, limit, now, lease);
    assert ids[k] in ids;
  }

  /** The items are due rows in table order, as many as the limit allows, and no due row before one of them is left out. */
  ghost predicate FirstDue(rows: seq<OutboxRow>, items: seq<Item>, limit: int, lease: int, now: int) {
    && |items| <= 200 && (1 <= limit <= 200 ==> |items| <= limit)
    && (forall k :: 0 <= k < |items| ==> items[k].row < |rows| && Due(rows[items[k].row], now, lease))
    && (forall j, k :: 0 <= j < k < |items| ==> items[j].row < items[k].row)
    && (forall i | 0 <= i < |rows| && Due(rows[i], now, lease) && Left(items, i) ::
          && |items| == (if limit < 1 then 1 else if limit > 200 then 200 else limit)
          && forall k :: 0 <= k < |items| ==> items[k].row < i)
  }

  predicate Left(items: seq<Item>, row: nat) {
    forall k :: 0 <= k < |items| ==> items[k].row != row
  }

  /** The rows of the items are locked under the clipped name, each with one attempt more; no other row changes. */
  ghost predicate OnlyLocked(rows: seq<OutboxRow>, next: seq<OutboxRow>, items: seq<Item>, worker: string, now: int) {
    && |next| == |rows|
    && (forall k :: 0 <= k < |items| ==>
          && items[k].row < |rows| && items[k].attempts == rows[items[k].row].attempts + 1
          && next[items[k].row] == rows[items[k].row].(
               status := Processing, attempts := items[k].attempts, lockedAt := Some(now), lockedBy := Some(Clip(Trim(worker), 120))))
    && (forall i :: 0 <= i < |rows| && Left(items, i) ==> next[i] == rows[i])
  }

  lemma LeftIsNotPicked(rows: seq<OutboxRow>, ids: seq<nat>, i: nat)
    requires (forall k :: 0 <= k < |ids| ==> ids[k] < |rows|) && Left(Items(rows, ids), i)
    ensures i !in ids
  {
    assert forall k :: 0 <= k < |ids| ==> Items(rows, ids)[k].row == ids[k];
  }

  lemma PicksFirst(rows: seq<OutboxRow>, limit: int, lease: int, now: int)
    ensures FirstDue(rows, Items(rows, Picks(rows, limit, now, lease)), limit, lease, now)
  {
    var ids := Picks(rows, limit, now, lease);
    PicksAreFirst(rows, limit, now, lease, 0);
    forall i | 0 <= i < |rows| && Due(rows[i], now, lease) && Left(Items(rows, ids), i)
      ensures |ids| == (if limit < 1 then 1 else if limit > 200 then 200 else limit)
      ensures forall k :: 0 <= k < |ids| ==> ids[k] < i
    {
      LeftIsNotPicked(rows, ids, i);
      PicksAreFirst(rows, limit, now, lease, i);
    }
  }

  lemma LocksOnly(rows: seq<OutboxRow>, ids: seq<nat>, worker: string, now: int)
    requires forall k :: 0 <= k < |ids| ==> ids[k] < |rows|
    ensures OnlyLocked(rows, LockAll(rows, ids, Clip(Trim(worker), 120), now), Items(rows, ids), worker, now)
  {
    var next, items := LockAll(rows, ids, Clip(Trim(worker), 120), now), Items(rows, ids);
    forall i: nat | i < |rows| && Left(items, i) ensures next[i] == rows[i] {
      LeftIsNotPicked(rows, ids, i);
    }
    forall k | 0 <= k < |items| ensures items[k].row in ids {
      assert items[k].row == ids[k];
    }
  }

  lemma ClaimIsFirst(rows: seq<OutboxRow>, worker: string, limit: int, lease: int, now: int)
    requires Trim(worker) != ""
    ensures var (next, items) := Outbox.Claim(rows, worker, limit, lease, now);
            FirstDue(rows, items, limit, lease, now) && OnlyLocked(rows, next, items, worker, now)
  {
    PicksFirst(rows, limit, lease, now);
    LocksOnly(rows, Picks(rows, limit, now, lease), worker, now);
  }

  class EventStore {
    var log: seq<Event>
    var outbox: seq<OutboxRow>

    ghost function Contents(): Store
      reads this
    {
      Store(log, outbox)
    }

    ghost predicate Valid()
      reads this
    {
      WellFormed(log) && OutboxInOrder(Contents())
    }

    constructor ()
      ensures Valid() && Contents() == EMPTY
    {
      log, outbox := [], [];
      new;
      assert OutboxAt(Contents(), []);
    }

    /** `appendCognitiveEvent`: the stored log only ever grows, and by at most the one new event. */
    method Append(flags: Flags, input: EventInput, id: EventId, now: int) returns (answer: Appended)
      modifies this
      ensures (Contents(), answer) == Events.Append(old(Contents()), flags, input, id, now)
      ensures old(Valid()) ==> Valid()
      ensures answer.Inserted? ==> log == old(log) + [answer.event]
      ensures !answer.Inserted? ==> log == old(log) && outbox == old(outbox)
      ensures answer.Duplicate? ==> answer.event in old(log) && answer.event.dedupe == StoredKey(input.dedupe)
      ensures answer.Disabled? <==> !flags.events
      ensures answer.Refused? <==> flags.events && !Acceptable(input, now)
      ensures answer.Inserted? <==>
        flags.events && Acceptable(input, now) && !HasEvent(old(log), id)
        && forall e :: e in old(log) && e.dedupe.Some? ==> e.dedupe != StoredKey(input.dedupe)
      ensures answer.Inserted? ==>
        && Records(answer.event, input, id, now)
        && (old(Valid()) ==> answer.event.sequence == |Stream(old(log), answer.event.correlation)| + 1)
        && outbox == if flags.outbox then old(outbox) + [OutboxRow(id, Queued, 0, now, None, None, None)] else old(outbox)
    {
      ghost var was := Contents();
      AppendShape(was, flags, input, id, now);
      DraftIs(input, id, now);
      if old(Valid()) {
        if Events.Append(was, flags, input, id, now).1.Inserted? {
          MaxIsCount(log, Events.Append(was, flags, input, id, now).1.event.correlation);
        }
        AppendKeepsLog(was, flags, input, id, now);
        AppendKeepsOutbox(was, flags, input, id, now);
      }
      if !flags.events {
        return Disabled;
      }
      var draft := Draft(input, id, now);
      if draft.Err? {
        return Refused(draft.reason);
      }
      if draft.value.dedupe.Some? {
        var duplicate := WithKey(log, draft.value.dedupe.value);
        if duplicate.Some? {
          return Duplicate(duplicate.value);
        }
      }
      if HasEvent(log, id) {
        return Conflict;
      }
      var next := MaxSequence(log, draft.value.correlation) + 1;
      var event := draft.value.(sequence := next);
      log := log + [event];
      if flags.outbox {
        outbox := outbox + [OutboxRow(id, Queued, 0, now, None, None, None)];
      }
      return Inserted(event);
    }

    /** `claimCognitiveOutbox`: locks the due rows one by one and hands them out with their new attempt count. */
    method Claim(worker: string, limit: int, lease: int, now: int) returns (items: seq<Item>)
      modifies `outbox
      ensures (outbox, items) == Outbox.Claim(old(outbox), worker, limit, lease, now)
      ensures Trim(worker) == "" ==> items == [] && outbox == old(outbox)
      ensures Trim(worker) != "" ==> FirstDue(old(outbox), items, limit, lease, now) && OnlyLocked(old(outbox), outbox, items, worker, now)
    {
      var name := LockName(worker);
      if name == "" {
        return [];
      }
      ghost var was := outbox;
      var rows := Picks(outbox, limit, now, lease);
      items := [];
      for k := 0 to |rows|
        invariant outbox == LockAll(was, rows[..k], name, now)
        invariant items == Items(was, rows)[..k]
      {
        OneMoreLocked(was, rows, k, name, now);
        var row := outbox[rows[k]];
        outbox := outbox[rows[k] := row.(status := Processing, attempts := row.attempts + 1,
                                         lockedAt := Some(now), lockedBy := Some(name))];
        items := items + [Item(rows[k], row.attempts + 1)];
      }
      assert rows[..|rows|] == rows && items == Items(was, rows);
      ClaimIsFirst(was, worker, limit, lease, now);
    }

    /** `ackCognitiveOutbox`. */
    method Ack(id: nat, worker: string) returns (done: bool)
      modifies `outbox
      ensures (outbox, done) == Outbox.Ack(old(outbox), id, worker)
      ensures done <==> Held(old(outbox), id, worker)
      ensures outbox == if done then old(outbox)[id := old(outbox)[id].(status := Delivered, lockedAt := None, lockedBy := None)]
                        else old(outbox)
    {
      done := id < |outbox| && outbox[id].status == Processing
              && (Trim(worker) == "" || outbox[id].lockedBy == Some(Trim(worker)));
      if done {
        outbox := outbox[id := outbox[id].(status := Delivered, lockedAt := None, lockedBy := None)];
      }
    }

    /** `failCognitiveOutbox`: a zero wait is final. */
    method Fail(id: nat, error: string, retry: int, worker: string, now: int) returns (done: bool)
      modifies `outbox
      ensures (outbox, done) == Outbox.Fail(old(outbox), id, error, retry, worker, now)
      ensures done <==> Held(old(outbox), id, worker)
      ensures done && retry > 0 ==>
        && outbox == old(outbox)[id := old(outbox)[id].(status := Queued, availableAt := now + retry, lockedAt := None,
                                                        lockedBy := None, lastError := Some(Clip(Trim(error), 500)))]
        && forall t, lease :: Due(outbox[id], t, lease) <==> t >= now + retry
      ensures done && retry <= 0 ==>
        outbox == old(outbox)[id := old(outbox)[id].(status := Dead, availableAt := now, lockedAt := None,
                                                     lockedBy := None, lastError := Some(Clip(Trim(error), 500)))]
      ensures !done ==> outbox == old(outbox)
    {
      done := id < |outbox| && outbox[id].status == Processing
              && (Trim(worker) == "" || outbox[id].lockedBy == Some(Trim(worker)));
      if done {
        FailedWaits(outbox, id, error, retry, worker, now);
        var wait := if retry < 0 then 0 else retry;
        var status := if wait > 0 then Queued else Dead;
        outbox := outbox[id := outbox[id].(status := status, availableAt := now + wait, lockedAt := None,
                                           lockedBy := None, lastError := Some(Clip(Trim(error), 500)))];
      }
    }
  }
}
