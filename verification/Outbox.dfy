/** Claiming and settling outbox rows, each as one transaction on the table. */
module Outbox {
  import opened Wrappers
  import opened Text
  import opened Vocabulary
  import opened Events

  /** A claimed row as the worker holds it: the attempt count is a snapshot of the claim. */
  datatype Item = Item(row: nat, attempts: nat)

  function AtLeast(n: int, lo: int): int {
    if n < lo then lo else n
  }

  predicate Due(row: OutboxRow, now: int, lease: int) {
    || (row.status == Queued && row.availableAt <= now)
    || (row.status == Processing && row.lockedAt.Some? && row.lockedAt.value <= now - AtLeast(lease, 1))
  }

  /** Positions of the due rows, in id order. */
  function AllDue(rows: seq<OutboxRow>, now: int, lease: int): (ids: seq<nat>)
    ensures forall i :: i in ids <==> 0 <= i < |rows| && Due(rows[i], now, lease)
    ensures forall i, j :: 0 <= i < j < |ids| ==> ids[i] < ids[j]
  {
    if rows == [] then []
    else
      var n := |rows| - 1;
      var rest := AllDue(rows[..n], now, lease);
      assert forall k :: 0 <= k < |rest| ==> rest[k] in rest;
      if Due(rows[n], now, lease) then rest + [n] else rest
  }

  function Limit(limit: int): nat {
    if limit < 1 then 1 else if limit > 200 then 200 else limit
  }

  /** The rows one claim takes: the first due ones, up to the limit. */
  function Picks(rows: seq<OutboxRow>, limit: int, now: int, lease: int): (ids: seq<nat>)
    ensures forall i :: i in ids ==> i < |rows| && Due(rows[i], now, lease)
    ensures forall k :: 0 <= k < |ids| ==> ids[k] < |rows| && Due(rows[ids[k]], now, lease)
    ensures forall i, j :: 0 <= i < j < |ids| ==> ids[i] < ids[j]
  {
    var ids := AllDue(rows, now, lease);
    assert forall k :: 0 <= k < |ids| ==> ids[k] in ids;
    if |ids| <= Limit(limit) then ids else ids[..Limit(limit)]
  }

  function Lock(row: OutboxRow, worker: string, now: int): OutboxRow {
    row.(status := Processing, attempts := row.attempts + 1, lockedAt := Some(now), lockedBy := Some(worker))
  }

  function LockAll(rows: seq<OutboxRow>, ids: seq<nat>, worker: string, now: int): seq<OutboxRow> {
    seq(|rows|, i requires 0 <= i < |rows| => if i in ids then Lock(rows[i], worker, now) else rows[i])
  }

  function Items(rows: seq<OutboxRow>, ids: seq<nat>): seq<Item>
    requires forall k :: 0 <= k < |ids| ==> ids[k] < |rows|
  {
    seq(|ids|, k requires 0 <= k < |ids| => Item(ids[k], rows[ids[k]].attempts + 1))
  }

  function LockName(worker: string): string {
    Clip(Trim(worker), 120)
  }

  /** `claimCognitiveOutbox`. */
  function Claim(rows: seq<OutboxRow>, worker: string, limit: int, lease: int, now: int): (seq<OutboxRow>, seq<Item>) {
    if LockName(worker) == "" then (rows, [])
    else
      var ids := Picks(rows, limit, now, lease);
      (LockAll(rows, ids, LockName(worker), now), Items(rows, ids))
  }

  /** The condition of every settlement: processing, and locked by this worker if a worker is named. */
  predicate Held(rows: seq<OutboxRow>, id: nat, worker: string) {
    id < |rows| && rows[id].status == Processing && (Trim(worker) == "" || rows[id].lockedBy == Some(Trim(worker)))
  }

  function Ack(rows: seq<OutboxRow>, id: nat, worker: string): (seq<OutboxRow>, bool) {
    if Held(rows, id, worker) then (rows[id := rows[id].(status := Delivered, lockedAt := None, lockedBy := None)], true)
    else (rows, false)
  }

  function Fail(rows: seq<OutboxRow>, id: nat, error: string, retry: int, worker: string, now: int): (seq<OutboxRow>, bool) {
    if Held(rows, id, worker) then
      var wait := AtLeast(retry, 0);
      (rows[id := rows[id].(status := if wait > 0 then Queued else Dead, availableAt := now + wait,
                            lockedAt := None, lockedBy := None, lastError := Some(Clip(Trim(error), 500)))], true)
    else (rows, false)
  }

  // ---- settling a handled item ----

  datatype Handled = Fine | Broke(message: string, retry: int)

  datatype Verdict = WasDelivered | WasRetried | WasFailed | WasLost

  /** The wait before the next try: none once the attempt budget is used up. */
  function RetryIn(item: Item, cap: Option<nat>, retry: int): int {
    if cap.Some? && item.attempts >= cap.value then 0 else AtLeast(retry, 0)
  }

  /** The text stored for a handler error; never empty. */
  function ErrorText(message: string): (r: string)
    ensures 1 <= |r| <= 500
    ensures Trim(message) != "" ==> r <= Trim(message) && (|r| == 500 || r == Trim(message))
  {
    if Clip(Trim(message), 500) == "" then "outbox handler failed" else Clip(Trim(message), 500)
  }

  /** What the drain does when the handler of an item has returned or thrown. */
  function Settle(rows: seq<OutboxRow>, item: Item, worker: string, cap: Option<nat>, result: Handled, now: int): (seq<OutboxRow>, Verdict) {
    match result
    case Fine =>
      var (next, done) := Ack(rows, item.row, worker);
      (next, if done then WasDelivered else WasLost)
    case Broke(message, retry) =>
      var wait := RetryIn(item, cap, retry);
      var (next, done) := Fail(rows, item.row, ErrorText(message), wait, worker, now);
      (next, if !done then WasLost else if wait > 0 then WasRetried else WasFailed)
  }

  // ---- single calls ----

  /** A claim takes as many due rows as it may, and passes over only rows behind all of these. */
  lemma PicksAreFirst(rows: seq<OutboxRow>, limit: int, now: int, lease: int, i: nat)
    ensures var ids := Picks(rows, limit, now, lease);
            && 0 <= |ids| <= 200 && (1 <= limit <= 200 ==> |ids| <= limit)
            && (i < |rows| && Due(rows[i], now, lease) && i !in ids ==>
                  && |ids| == (if limit < 1 then 1 else if limit > 200 then 200 else limit)
                  && forall k :: 0 <= k < |ids| ==> ids[k] < i)
  {
    var all, ids := AllDue(rows, now, lease), Picks(rows, limit, now, lease);
    if i < |rows| && Due(rows[i], now, lease) && i !in ids {
      assert i in all && forall j :: 0 <= j < |ids| ==> all[j] in ids;
      var k :| 0 <= k < |all| && all[k] == i;
    }
  }

  /** A row sent back is due exactly from the end of the wait it was given on; with no wait it is never due again. */
  lemma FailedWaits(rows: seq<OutboxRow>, id: nat, error: string, retry: int, worker: string, now: int)
    requires Held(rows, id, worker)
    ensures var next := Fail(rows, id, error, retry, worker, now).0;
            && |next| == |rows|
            && (retry > 0 ==> forall t, lease :: Due(next[id], t, lease) <==> t >= now + retry)
            && (retry <= 0 ==> forall t, lease :: !Due(next[id], t, lease))
  {
  }

  /** A row just claimed is due again exactly when the claim is as old as the lease of the next claimant. */
  lemma ClaimedWaits(rows: seq<OutboxRow>, worker: string, limit: int, lease: int, now: int, i: nat)
    requires LockName(worker) != "" && i < |rows| && i in Picks(rows, limit, now, lease)
    ensures var next := Claim(rows, worker, limit, lease, now).0;
            forall t, l :: l >= 1 ==> (Due(next[i], t, l) <==> t >= now + l)
  {
  }

  /** A settlement named by a worker that does not hold the row's lock changes nothing. */
  lemma FencedOff(rows: seq<OutboxRow>, id: nat, worker: string, error: string, retry: int, now: int)
    requires Trim(worker) != "" && id < |rows| && rows[id].lockedBy != Some(Trim(worker))
    ensures Ack(rows, id, worker) == (rows, false)
    ensures Fail(rows, id, error, retry, worker, now) == (rows, false)
  {
  }

  /**
   * The claim stores a clipped worker name, the settlement compares the unclipped one: a worker
   * can settle what it has just claimed exactly when its name has at most 120 characters.
   */
  lemma ClaimantCanAckIff(rows: seq<OutboxRow>, worker: string, limit: int, lease: int, now: int, k: nat)
    requires LockName(worker) != "" && k < |Claim(rows, worker, limit, lease, now).1|
    ensures var (next, items) := Claim(rows, worker, limit, lease, now);
            Ack(next, items[k].row, worker).1 <==> |Trim(worker)| <= 120
  {
    var ids := Picks(rows, limit, now, lease);
    assert ids[k] in ids;
  }
}
