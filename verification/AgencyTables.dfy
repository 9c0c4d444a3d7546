/**
 * The three run tables and the log, the SQL statements the runtime issues against them, and the
 * statement scripts of its synchronous blocks. A script is fixed when its block starts, because
 * nothing else runs until the block ends; a process that dies inside one leaves a prefix of it.
 */
module AgencyTables {
  import opened Wrappers
  import opened Text
  import opened Vocabulary
  import opened Actions
  import opened Envelopes
  import opened Events

  datatype Json = JNull | JMessage(messageId: int) | JOther(tag: nat)

  datatype Run = Run(
    envelope: Envelope, status: RunStatus, attempt: nat, result: Json, error: Option<string>,
    createdAt: int, updatedAt: int, startedAt: Option<int>, finishedAt: Option<int>)
  {
    function Kind(): ActionKind {
      StoredAction(envelope).Kind()
    }
  }

  datatype Attempt = Attempt(
    status: RunStatus, startedAt: int, finishedAt: Option<int>, result: Option<Json>, error: Option<string>)

  /** A receipt names its attempt by number; None is the NULL of a run closed before any claim. */
  datatype Receipt = Receipt(
    id: nat, run: string, attempt: Option<nat>, status: RunStatus, result: Option<Json>,
    error: Option<string>, createdAt: int)

  datatype Db = Db(
    runs: map<string, Run>, attempts: map<string, map<nat, Attempt>>, receipts: seq<Receipt>, store: Store)

  const EMPTY_DB := Db(map[], map[], [], Events.EMPTY)

  // ---- statements ----

  datatype Patch =
    | ClaimIt(ts: int)
    | DeferIt(reason: string, ts: int)
    | Close(status: RunStatus, result: Option<Json>, error: Option<string>, ts: int)

  function Patched(run: Run, p: Patch): Run {
    match p
    case ClaimIt(ts) => run.(status := Running, attempt := run.attempt + 1, startedAt := Some(ts), updatedAt := ts)
    case DeferIt(reason, ts) => run.(status := Waiting, error := Some(reason), updatedAt := ts)
    case Close(status, result, error, ts) =>
      run.(status := status, result := if result.Some? then result.value else run.result,
           error := error, updatedAt := ts, finishedAt := Some(ts))
  }

  datatype Stmt =
    | InsertRun(envelope: Envelope, ts: int)
    | UpdateRun(run: string, from: set<RunStatus>, patch: Patch)
    | OpenAttempt(run: string, no: nat, ts: int)
    | CloseAttempt(run: string, no: nat, status: RunStatus, result: Option<Json>, error: Option<string>, ts: int)
    | FileReceipt(run: string, no: nat, id: nat, status: RunStatus, result: Option<Json>, error: Option<string>, ts: int)
    | Emit(flags: Flags, input: EventInput, event: EventId, ts: int)

  function AttemptsOf(db: Db, run: string): map<nat, Attempt> {
    if run in db.attempts then db.attempts[run] else map[]
  }

  predicate HasKey(db: Db, key: string) {
    exists id :: id in db.runs && db.runs[id].envelope.key == key
  }

  /** The attempt a receipt of attempt `no` refers to: NULL when no such row exists. */
  function AttemptRef(db: Db, run: string, no: nat): Option<nat> {
    if no in AttemptsOf(db, run) then Some(no) else None
  }

  /** The receipts of one run, oldest first. */
  function ReceiptsOf(receipts: seq<Receipt>, run: string): seq<Receipt> {
    if receipts == [] then []
    else
      var rest := ReceiptsOf(receipts[..|receipts| - 1], run);
      if receipts[|receipts| - 1].run == run then rest + [receipts[|receipts| - 1]] else rest
  }

  /** The id of the first of a run's receipts that refers to `attempt`. */
  function ReceiptFor(own: seq<Receipt>, attempt: Option<nat>): Option<nat> {
    if own == [] then None
    else if own[0].attempt == attempt then Some(own[0].id)
    else ReceiptFor(own[1..], attempt)
  }

  /** The receipt row to add, if the settlement adds one; NULL attempts never count as existing. */
  predicate AddsReceipt(own: seq<Receipt>, attempt: Option<nat>) {
    attempt.None? || ReceiptFor(own, attempt).None?
  }

  function Exec(db: Db, s: Stmt): Db {
    match s
    case InsertRun(e, ts) =>
      if e.id in db.runs || HasKey(db, e.key) then db
      else db.(runs := db.runs[e.id := Run(e, Pending, 0, JNull, None, ts, ts, None, None)])
    case UpdateRun(run, from, patch) =>
      if run in db.runs && db.runs[run].status in from then db.(runs := db.runs[run := Patched(db.runs[run], patch)])
      else db
    case OpenAttempt(run, no, ts) =>
      if no in AttemptsOf(db, run) then db
      else db.(attempts := db.attempts[run := AttemptsOf(db, run)[no := Attempt(Running, ts, None, None, None)]])
    case CloseAttempt(run, no, status, result, error, ts) =>
      if no in AttemptsOf(db, run) && AttemptsOf(db, run)[no].status == Running then
        var closed := Attempt(status, AttemptsOf(db, run)[no].startedAt, Some(ts), result, error);
        db.(attempts := db.attempts[run := AttemptsOf(db, run)[no := closed]])
      else db
    case FileReceipt(run, no, id, status, result, error, ts) =>
      var attempt := AttemptRef(db, run, no);
      if AddsReceipt(ReceiptsOf(db.receipts, run), attempt) then
        db.(receipts := db.receipts + [Receipt(id, run, attempt, status, result, error, ts)])
      else db
    case Emit(flags, input, event, ts) => db.(store := Append(db.store, flags, input, event, ts).0)
  }

  // ---- scripts ----

  datatype Script = Done | Then(stmt: Stmt, rest: Script)

  function Perform(db: Db, script: Script): Db
    decreases script
  {
    match script
    case Done => db
    case Then(stmt, rest) => Perform(Exec(db, stmt), rest)
  }

  /** The first k statements only: what a process that dies inside the block leaves behind. */
  function PerformSome(db: Db, script: Script, k: nat): Db
    decreases script
  {
    match script
    case Done => db
    case Then(stmt, rest) => if k == 0 then db else PerformSome(Exec(db, stmt), rest, k - 1)
  }

  function Len(script: Script): nat {
    match script
    case Done => 0
    case Then(_, rest) => 1 + Len(rest)
  }

  lemma {:induction false} WholeScript(db: Db, script: Script)
    ensures PerformSome(db, script, Len(script)) == Perform(db, script)
    decreases script
  {
    if script.Then? {
      WholeScript(Exec(db, script.stmt), script.rest);
    }
  }

  /** What a block draws from outside: the clock, two fresh ids, the deployment switches. */
  datatype Draw = Draw(now: int, receipt: nat, event: EventId, flags: Flags)

  function ResultMessageId(j: Json): Option<int> {
    if j.JMessage? && 0 < j.messageId <= MAX_SAFE then Some(j.messageId) else None
  }

  const OPEN: set<RunStatus> := {Pending, Waiting}
  const LIVE: set<RunStatus> := {Pending, Running, Waiting}
  const ANY: set<RunStatus> := {Pending, Running, Waiting, Succeeded, Failed, Cancelled, Expired}

  /** The log event of a run that has just reached `state`. */
  function RunInput(run: Run, state: RunStatus, receipt: Option<nat>, observed: bool): EventInput {
    var kind := run.Kind();
    EventInput(
      if state == Succeeded && kind in {Speak, Ask} then BotDelivery else TaskObservation,
      run.envelope.scope, Host, None, run.envelope.causation, Some(run.envelope.correlation),
      Some(RunEvent(run.envelope.id, state, run.attempt)),
      RunFact(run.envelope.id, kind, state, run.attempt, run.error,
              if state == Succeeded then ResultMessageId(run.result) else None, receipt, observed))
  }

  /** The receipt id the settlement reports: an earlier one for the same attempt, or the one it files. */
  function ReportedReceipt(db: Db, run: string, no: nat, drawn: nat): nat {
    var found := ReceiptFor(ReceiptsOf(db.receipts, run), AttemptRef(db, run, no));
    if found.Some? then found.value else drawn
  }

  /** Attempt, receipt and event of a run just closed; `reported` is the receipt id the event names. */
  function Tail(closed: Run, reported: nat, result: Option<Json>, observed: bool, d: Draw): Script {
    var id, no := closed.envelope.id, closed.attempt;
    Then(CloseAttempt(id, no, closed.status, result, closed.error, d.now),
    Then(FileReceipt(id, no, d.receipt, closed.status, result, closed.error, d.now),
    Then(Emit(d.flags, RunInput(closed, closed.status, Some(reported), observed), d.event, d.now),
    Done)))
  }

  lemma TailDoes(db: Db, closed: Run, reported: nat, result: Option<Json>, observed: bool, d: Draw)
    ensures
      var id, no := closed.envelope.id, closed.attempt;
      var db1 := Exec(db, CloseAttempt(id, no, closed.status, result, closed.error, d.now));
      var db2 := Exec(db1, FileReceipt(id, no, d.receipt, closed.status, result, closed.error, d.now));
      Perform(db, Tail(closed, reported, result, observed, d))
        == Exec(db2, Emit(d.flags, RunInput(closed, closed.status, Some(reported), observed), d.event, d.now))
  {
    var script := Tail(closed, reported, result, observed, d);
    var db1 := Exec(db, script.stmt);
    var db2 := Exec(db1, script.rest.stmt);
    assert Perform(db, script) == Perform(db1, script.rest) == Perform(db2, script.rest.rest);
    assert Perform(db2, script.rest.rest) == Exec(db2, script.rest.rest.stmt);
  }

  function Settlement(db: Db, closed: Run, result: Option<Json>, observed: bool, d: Draw): Script {
    Tail(closed, ReportedReceipt(db, closed.envelope.id, closed.attempt, d.receipt), result, observed, d)
  }

  function Closing(db: Db, run: Run, from: set<RunStatus>, patch: Patch, result: Option<Json>, observed: bool, d: Draw): Script
  {
    Then(UpdateRun(run.envelope.id, from, patch), Settlement(db, Patched(run, patch), result, observed, d))
  }

  function CreateScript(db: Db, e: Envelope, d: Draw): Script {
    if PersistError(e).Some? || HasKey(db, e.key) || e.id in db.runs then Done
    else
      var run := Run(e, Pending, 0, JNull, None, d.now, d.now, None, None);
      Then(InsertRun(e, d.now), Then(Emit(d.flags, RunInput(run, Pending, None, false), d.event, d.now), Done))
  }

  function CancelScript(db: Db, id: string, reason: string, d: Draw): Script {
    if id !in db.runs || db.runs[id].status !in LIVE then Done
    else Closing(db, db.runs[id], LIVE, Close(Cancelled, None, Some(Clip(Trim(reason), 500)), d.now), Some(JNull), false, d)
  }

  function DeferScript(db: Db, id: string, reason: string, d: Draw): Script {
    if id !in db.runs || db.runs[id].status !in OPEN then Done
    else
      var patch := DeferIt(Clip("policy:" + reason, 500), d.now);
      Then(UpdateRun(id, OPEN, patch),
      Then(Emit(d.flags, RunInput(Patched(db.runs[id], patch), Waiting, None, false), d.event, d.now), Done))
  }

  predicate PastExpiry(run: Run, now: int) {
    run.envelope.expiresAt.Some? && run.envelope.expiresAt.value <= now
  }

  function ExpireScript(db: Db, id: string, d: Draw): Script {
    if id !in db.runs || db.runs[id].status !in OPEN then Done
    else Closing(db, db.runs[id], OPEN, Close(Expired, None, Some("envelope expired"), d.now), Some(JNull), false, d)
  }

  function Claimed(run: Run, d: Draw): Run {
    Patched(run, ClaimIt(d.now))
  }

  /** The claim every execution starts with, followed by `rest`. */
  function Claiming(run: Run, d: Draw, rest: Script): Script {
    Then(UpdateRun(run.envelope.id, OPEN, ClaimIt(d.now)), Then(OpenAttempt(run.envelope.id, run.attempt + 1, d.now), rest))
  }

  function KindName(kind: ActionKind): string {
    match kind
    case Speak => "speak"
    case Act => "act"
    case Ask => "ask"
    case Wait => "wait"
    case Observe => "observe"
    case Remember => "remember"
    case Correct => "correct"
    case Stop => "stop"
  }

  /** The tables as the settlement sees them: only the claimed attempt has been added. */
  function WithAttempt(db: Db, run: Run, d: Draw): Db {
    Exec(db, OpenAttempt(run.envelope.id, run.attempt + 1, d.now))
  }

  function NoAdapterPatch(run: Run, d: Draw): Patch {
    Close(Failed, None, Some("no adapter for " + KindName(run.Kind())), d.now)
  }

  /** Claim without a usable adapter: the closing update carries no status guard. */
  function NoAdapterScript(db: Db, id: string, d: Draw): Script
    requires id in db.runs
  {
    var run := db.runs[id];
    Claiming(run, d, Closing(WithAttempt(db, run, d), Claimed(run, d), ANY, NoAdapterPatch(run, d), Some(JNull), false, d))
  }

  function ClaimScript(db: Db, id: string, d: Draw): Script
    requires id in db.runs
  {
    Claiming(db.runs[id], d, Done)
  }

  /** How the race between adapter and timeout ends. */
  datatype Outcome = Resolved(result: Option<Json>) | Threw(message: string)

  function OrNull(result: Option<Json>): Json {
    if result.Some? then result.value else JNull
  }

  function OutcomePatch(outcome: Outcome, d: Draw): Patch {
    match outcome
    case Resolved(result) => Close(Succeeded, Some(OrNull(result)), None, d.now)
    case Threw(message) => Close(Failed, None, Some(Clip(message, 500)), d.now)
  }

  function OutcomeResult(outcome: Outcome): Option<Json> {
    match outcome
    case Resolved(result) => result
    case Threw(_) => Some(JNull)
  }

  function SettleScript(db: Db, id: string, outcome: Outcome, d: Draw): Script {
    if id !in db.runs || db.runs[id].status != Running then Done
    else Closing(db, db.runs[id], {Running}, OutcomePatch(outcome, d), OutcomeResult(outcome), false, d)
  }

  datatype Observation = Observation(run: string, succeeded: bool, result: Option<Json>, error: Option<string>)

  function ObservedError(o: Observation): Option<string> {
    if o.error.Some? && Trim(o.error.value) != "" then Some(Clip(Trim(o.error.value), 500)) else None
  }

  /** The reason an observation of a run is turned away before any claim. */
  function ObservationError(run: Run, o: Observation): Option<string> {
    if run.Kind() !in {Speak, Ask} then Some("observed outcome only supports speak/ask")
    else if o.succeeded && ResultMessageId(OrNull(o.result)).None? then Some("observed delivery requires a valid messageId")
    else if !o.succeeded && ObservedError(o).None? then Some("observed failure requires an error")
    else None
  }

  function ObservedPatch(o: Observation, d: Draw): Patch {
    Close(if o.succeeded then Succeeded else Failed, Some(OrNull(o.result)), ObservedError(o), d.now)
  }

  function ObserveScript(db: Db, o: Observation, d: Draw): Script {
    if o.run !in db.runs || db.runs[o.run].status !in OPEN || ObservationError(db.runs[o.run], o).Some? then Done
    else
      var run := db.runs[o.run];
      Claiming(run, d, Closing(WithAttempt(db, run, d), Claimed(run, d), {Running}, ObservedPatch(o, d), o.result, true, d))
  }
}
