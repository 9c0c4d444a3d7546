/**
 * What every cell satisfies after every statement of every block, and the stronger agreement of
 * the tables when each block runs to its end.
 */
module AgencyInvariant {
  import opened Wrappers
  import opened Vocabulary
  import opened Envelopes
  import opened Events
  import opened AgencyTables
  import opened AgencyCells

  // ---- always ----

  predicate RunOk(r: Run, id: string) {
    && r.envelope.id == id
    && r.attempt <= 1
    && (r.attempt == 0 ==> r.status in {Pending, Waiting, Cancelled, Expired})
    && (r.attempt == 1 ==> r.status in {Running, Succeeded, Failed, Cancelled})
    && (r.status.Terminal() <==> r.finishedAt.Some?)
  }

  /** A stored result that is the result of a run that succeeded. */
  predicate Echoes(result: Option<Json>, r: Run) {
    r.status == Succeeded ==> r.result == if result.Some? then result.value else JNull
  }

  predicate Agrees(a: Attempt, r: Run) {
    a.status == r.status && a.error == r.error && Echoes(a.result, r)
  }

  /** An attempt row belongs to the claim, and once closed carries the run's own status, error and result. */
  predicate AttemptsOk(c: Cell, r: Run) {
    && c.attempts.Keys <= {1}
    && (1 in c.attempts ==>
          && r.attempt == 1
          && (c.attempts[1].status == Running || (r.status.Terminal() && Agrees(c.attempts[1], r))))
  }

  /** At most one receipt, only of a finished run, with the run's status and its attempt. */
  predicate ReceiptsOk(c: Cell, r: Run) {
    && |c.receipts| <= 1
    && (|c.receipts| == 1 ==>
          && r.status.Terminal()
          && c.receipts[0].status == r.status
          && c.receipts[0].error == r.error && Echoes(c.receipts[0].result, r)
          && c.receipts[0].attempt == Ref(c, r.attempt)
          && (1 in c.attempts ==> c.attempts[1].status == r.status))
  }

  function Rank(s: RunStatus): nat {
    match s
    case Pending => 0
    case Waiting => 1
    case Running => 3
    case _ => 2
  }

  predicate EntryOk(e: Event, r: Run) {
    && e.fact.RunFact? && e.fact.run == r.envelope.id && e.fact.action == r.Kind()
    && (e.fact.state in {Pending, Waiting} ==> e.fact.attempt == 0)
    && (e.fact.state !in {Pending, Waiting} ==>
          && r.status.Terminal() && e.fact.state == r.status && e.fact.attempt == r.attempt
          && e.fact.error == r.error
          && e.fact.messageId == (if r.status == Succeeded then ResultMessageId(r.result) else None))
  }

  /** Events of a run: pending, then waiting, then its terminal status, each at most once. */
  ghost predicate TrailOk(trail: seq<Event>, r: Run) {
    && (forall i :: 0 <= i < |trail| ==> EntryOk(trail[i], r))
    && (forall i, j :: 0 <= i < j < |trail| ==> Rank(trail[i].fact.state) < Rank(trail[j].fact.state))
  }

  ghost predicate CellOk(c: Cell, id: string) {
    match c.run
    case None => c.attempts == map[] && c.receipts == [] && c.trail == []
    case Some(r) => RunOk(r, id) && AttemptsOk(c, r) && ReceiptsOk(c, r) && TrailOk(c.trail, r)
  }

  // ---- between crashes ----

  predicate Says(e: Event, state: RunStatus) {
    e.fact.RunFact? && e.fact.state == state
  }

  ghost predicate TrailFull(c: Cell, r: Run) {
    && |c.trail| >= 1 && Says(c.trail[0], Pending)
    && var last := c.trail[|c.trail| - 1];
       && (r.status == Waiting ==> Says(last, Waiting))
       && (r.status.Terminal() ==>
             Says(last, r.status) && |c.receipts| == 1 && last.fact.receipt == Some(c.receipts[0].id))
  }

  /** The ledger agrees: the attempt follows the claim, and a finished run has its receipt. */
  ghost predicate LedgerFull(c: Cell, id: string) {
    && CellOk(c, id)
    && (c.run.Some? ==>
          var r := c.run.value;
          && (r.attempt == 1 ==> 1 in c.attempts && c.attempts[1].status == r.status)
          && (r.status.Terminal() ==> |c.receipts| == 1))
  }

  /** The log agrees as well: it tells everything it accepts of the run. */
  ghost predicate CellFull(c: Cell, id: string) {
    && LedgerFull(c, id)
    && (c.run.Some? ==>
          && (Loggable(c.run.value.envelope) ==> TrailFull(c, c.run.value))
          && (!IdsFit(c.run.value.envelope) ==> c.trail == []))
  }

  // ---- scripts that keep it ----

  ghost predicate Safe(db: Db, script: Script, id: string)
    decreases script
  {
    && CellOk(Project(db, id), id) && AllLinked(db.store.log)
    && (script.Then? ==> Safe(Exec(db, script.stmt), script.rest, id))
  }

  lemma {:induction false} SafeAnywhere(db: Db, script: Script, id: string, k: nat)
    requires Safe(db, script, id)
    ensures CellOk(Project(PerformSome(db, script, k), id), id)
    ensures AllLinked(PerformSome(db, script, k).store.log)
    decreases script
  {
    if script.Then? && k > 0 {
      SafeAnywhere(Exec(db, script.stmt), script.rest, id, k - 1);
    }
  }

  ghost predicate NotReported(trail: seq<Event>) {
    forall i :: 0 <= i < |trail| ==> trail[i].fact.RunFact? && trail[i].fact.state in {Pending, Waiting}
  }

  /** The run has just been closed; its attempt, receipt and event are still to come. */
  ghost predicate JustClosed(c: Cell, id: string) {
    && CellOk(c, id) && c.run.Some? && c.run.value.status.Terminal()
    && c.receipts == [] && NotReported(c.trail)
    && (1 in c.attempts ==> c.attempts[1].status == Running)
  }

  ghost predicate AttemptClosed(c: Cell, id: string) {
    && CellOk(c, id) && c.run.Some? && c.run.value.status.Terminal()
    && c.receipts == [] && NotReported(c.trail)
    && (1 in c.attempts ==> c.attempts[1].status == c.run.value.status)
  }

  ghost predicate ReceiptFiled(c: Cell, id: string, receipt: nat) {
    && CellOk(c, id) && c.run.Some? && c.run.value.status.Terminal()
    && |c.receipts| == 1 && c.receipts[0].id == receipt && NotReported(c.trail)
    && (1 in c.attempts ==> c.attempts[1].status == c.run.value.status)
  }

  lemma CloseTheAttempt(c: Cell, id: string, result: Option<Json>, ts: int)
    requires JustClosed(c, id) && Echoes(result, c.run.value)
    ensures var r := c.run.value;
            var c' := CellClose(c, r.attempt, r.status, result, r.error, ts);
            AttemptClosed(c', id) && c'.run == c.run && c'.trail == c.trail && c'.attempts.Keys == c.attempts.Keys
  {
  }

  lemma FileTheReceipt(c: Cell, id: string, receipt: Receipt)
    requires AttemptClosed(c, id) && Echoes(receipt.result, c.run.value)
    requires receipt.status == c.run.value.status && receipt.error == c.run.value.error
    requires receipt.attempt == Ref(c, c.run.value.attempt)
    ensures var c' := CellFile(c, receipt);
            ReceiptFiled(c', id, receipt.id) && c'.run == c.run && c'.trail == c.trail && c'.attempts == c.attempts
  {
  }

  lemma TrailGrows(trail: seq<Event>, r: Run, e: Event)
    requires TrailOk(trail, r) && NotReported(trail) && EntryOk(e, r)
    requires e.fact.state !in {Pending, Waiting}
    ensures TrailOk(trail + [e], r)
  {
  }

  /** A claimed run has its attempt row. */
  ghost predicate Opened(c: Cell) {
    c.run.Some? && (c.run.value.attempt == 1 ==> 1 in c.attempts)
  }

  ghost predicate Startable(c: Cell) {
    && Opened(c)
    && (Loggable(c.run.value.envelope) ==> |c.trail| >= 1 && Says(c.trail[0], Pending))
    && (!IdsFit(c.run.value.envelope) ==> c.trail == [])
  }

  /**
   * A block completes its cell: the ledger whatever the log does, and with sound draws the log too.
   */
  ghost predicate Completes(db: Db, next: Db, id: string, d: Draw) {
    && (Opened(Project(db, id)) ==> LedgerFull(Project(next, id), id))
    && (SoundDraw(db, d) && Startable(Project(db, id)) ==> CellFull(Project(next, id), id))
  }

  /** What the last event makes of the cell of a closed run. */
  lemma EndReported(c: Cell, c': Cell, id: string, receipt: nat, e: Event)
    requires ReceiptFiled(c, id, receipt) && c' == c.(trail := c.trail + [e])
    requires EntryOk(e, c.run.value) && Says(e, c.run.value.status) && e.fact.receipt == Some(receipt)
    requires IdsFit(c.run.value.envelope)
    ensures CellOk(c', id) && (Opened(c) ==> LedgerFull(c', id)) && (Startable(c) ==> CellFull(c', id))
  {
    TrailGrows(c.trail, c.run.value, e);
  }

  /** The last event of a closed run completes its cell. */
  lemma ReportTheEnd(db: Db, id: string, receipt: nat, observed: bool, d: Draw)
    requires ReceiptFiled(Project(db, id), id, receipt) && AllLinked(db.store.log)
    ensures var r := Project(db, id).run.value;
            var next := Exec(db, Emit(d.flags, RunInput(r, r.status, Some(receipt), observed), d.event, d.now));
            && CellOk(Project(next, id), id) && AllLinked(next.store.log)
            && Completes(db, next, id, d)
  {
    var c := Project(db, id);
    var r := c.run.value;
    ProjectEmit(db, r, r.status, Some(receipt), observed, d);
    var c' := Project(Exec(db, Emit(d.flags, RunInput(r, r.status, Some(receipt), observed), d.event, d.now)), id);
    if c'.trail != c.trail {
      var e :| c'.trail == c.trail + [e] && e.fact == RunInput(r, r.status, Some(receipt), observed).fact;
      EndReported(c, c', id, receipt, e);
    }
  }

  lemma SafeThen(db: Db, script: Script, id: string)
    requires script.Then? && CellOk(Project(db, id), id) && AllLinked(db.store.log)
    requires Safe(Exec(db, script.stmt), script.rest, id)
    ensures Safe(db, script, id)
  {
  }

  /** The first statement of the tail. */
  lemma TailCloses(db: Db, closed: Run, result: Option<Json>, ts: int)
    requires JustClosed(Project(db, closed.envelope.id), closed.envelope.id) && Project(db, closed.envelope.id).run == Some(closed)
    requires Echoes(result, closed)
    ensures var id := closed.envelope.id;
            var db1 := Exec(db, CloseAttempt(id, closed.attempt, closed.status, result, closed.error, ts));
            && AttemptClosed(Project(db1, id), id) && Project(db1, id).run == Some(closed) && db1.store == db.store
            && (Opened(Project(db, id)) ==> Opened(Project(db1, id))) && (Startable(Project(db, id)) ==> Startable(Project(db1, id)))
  {
    ProjectClose(db, closed.envelope.id, closed.attempt, closed.status, result, closed.error, ts);
    CloseTheAttempt(Project(db, closed.envelope.id), closed.envelope.id, result, ts);
  }

  /** The second one. */
  lemma TailFiles(db: Db, closed: Run, receipt: nat, result: Option<Json>, ts: int)
    requires AttemptClosed(Project(db, closed.envelope.id), closed.envelope.id) && Project(db, closed.envelope.id).run == Some(closed)
    requires Echoes(result, closed)
    ensures var id := closed.envelope.id;
            var db1 := Exec(db, FileReceipt(id, closed.attempt, receipt, closed.status, result, closed.error, ts));
            && ReceiptFiled(Project(db1, id), id, receipt) && Project(db1, id).run == Some(closed) && db1.store == db.store
            && (Opened(Project(db, id)) ==> Opened(Project(db1, id))) && (Startable(Project(db, id)) ==> Startable(Project(db1, id)))
  {
    var id, no := closed.envelope.id, closed.attempt;
    ProjectFile(db, id, no, receipt, closed.status, result, closed.error, ts);
    FileTheReceipt(Project(db, id), id, Receipt(receipt, id, Ref(Project(db, id), no), closed.status, result, closed.error, ts));
  }

  lemma TailSafe(db: Db, closed: Run, result: Option<Json>, observed: bool, d: Draw)
    requires JustClosed(Project(db, closed.envelope.id), closed.envelope.id)
    requires Project(db, closed.envelope.id).run == Some(closed) && AllLinked(db.store.log) && Echoes(result, closed)
    ensures var tail, id := Tail(closed, d.receipt, result, observed, d), closed.envelope.id;
            && Safe(db, tail, id)
            && Completes(db, Perform(db, tail), id, d)
  {
    var id := closed.envelope.id;
    var tail := Tail(closed, d.receipt, result, observed, d);
    TailCloses(db, closed, result, d.now);
    var db1 := Exec(db, tail.stmt);
    TailFiles(db1, closed, d.receipt, result, d.now);
    var db2 := Exec(db1, tail.rest.stmt);
    ReportTheEnd(db2, id, d.receipt, observed, d);
    var db3 := Exec(db2, tail.rest.rest.stmt);
    assert Safe(db3, Done, id);
    SafeThen(db2, tail.rest.rest, id);
    SafeThen(db1, tail.rest, id);
    SafeThen(db, tail, id);
    TailDoes(db, closed, d.receipt, result, observed, d);
  }
}
