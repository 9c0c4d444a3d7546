/**
 * One run's share of the tables. Every statement touches the cell of one run; its effect there
 * is a function of the cell, and every other cell is untouched.
 */
module AgencyCells {
  import opened Wrappers
  import opened Text
  import opened Vocabulary
  import opened Envelopes
  import opened Events
  import opened AgencyTables

  datatype Cell = Cell(run: Option<Run>, attempts: map<nat, Attempt>, receipts: seq<Receipt>, trail: seq<Event>)

  /** The events that report on one run, in append order. */
  function TrailOf(log: seq<Event>, run: string): seq<Event> {
    if log == [] then []
    else
      var rest := TrailOf(log[..|log| - 1], run);
      var last := log[|log| - 1];
      if last.fact.RunFact? && last.fact.run == run then rest + [last] else rest
  }

  function Project(db: Db, id: string): Cell {
    Cell(if id in db.runs then Some(db.runs[id]) else None, AttemptsOf(db, id),
         ReceiptsOf(db.receipts, id), TrailOf(db.store.log, id))
  }

  function Target(s: Stmt): Option<string> {
    match s
    case InsertRun(e, _) => Some(e.id)
    case UpdateRun(run, _, _) => Some(run)
    case OpenAttempt(run, _, _) => Some(run)
    case CloseAttempt(run, _, _, _, _, _) => Some(run)
    case FileReceipt(run, _, _, _, _, _, _) => Some(run)
    case Emit(_, input, _, _) => if input.fact.RunFact? then Some(input.fact.run) else None
  }

  // ---- effects on the cell ----

  function CellUpdate(c: Cell, from: set<RunStatus>, p: Patch): Cell {
    if c.run.Some? && c.run.value.status in from then c.(run := Some(Patched(c.run.value, p))) else c
  }

  function CellOpen(c: Cell, no: nat, ts: int): Cell {
    if no in c.attempts then c else c.(attempts := c.attempts[no := Attempt(Running, ts, None, None, None)])
  }

  function CellClose(c: Cell, no: nat, status: RunStatus, result: Option<Json>, error: Option<string>, ts: int): Cell {
    if no in c.attempts && c.attempts[no].status == Running then
      c.(attempts := c.attempts[no := Attempt(status, c.attempts[no].startedAt, Some(ts), result, error)])
    else c
  }

  function Ref(c: Cell, no: nat): Option<nat> {
    if no in c.attempts then Some(no) else None
  }

  function CellFile(c: Cell, receipt: Receipt): Cell {
    if AddsReceipt(c.receipts, receipt.attempt) then c.(receipts := c.receipts + [receipt]) else c
  }

  lemma ReceiptsOfAppend(receipts: seq<Receipt>, r: Receipt, id: string)
    ensures ReceiptsOf(receipts + [r], id) == ReceiptsOf(receipts, id) + (if r.run == id then [r] else [])
  {
    assert (receipts + [r])[..|receipts|] == receipts;
  }

  lemma TrailOfAppend(log: seq<Event>, e: Event, id: string)
    ensures TrailOf(log + [e], id) == TrailOf(log, id) + (if e.fact.RunFact? && e.fact.run == id then [e] else [])
  {
    assert (log + [e])[..|log|] == log;
  }

  /** A statement leaves the cells of other runs alone. */
  lemma StatementFrame(db: Db, s: Stmt, id: string)
    requires Target(s) != Some(id)
    ensures Project(Exec(db, s), id) == Project(db, id)
  {
    if s.FileReceipt? {
      ReceiptsOfAppend(db.receipts, Receipt(s.id, s.run, AttemptRef(db, s.run, s.no), s.status, s.result, s.error, s.ts), id);
    } else if s.Emit? {
      AppendShape(db.store, s.flags, s.input, s.event, s.ts);
      var (next, answer) := Append(db.store, s.flags, s.input, s.event, s.ts);
      if answer.Inserted? {
        TrailOfAppend(db.store.log, answer.event, id);
      }
    }
  }

  lemma ProjectUpdate(db: Db, id: string, from: set<RunStatus>, p: Patch)
    ensures Project(Exec(db, UpdateRun(id, from, p)), id) == CellUpdate(Project(db, id), from, p)
  {
  }

  lemma ProjectOpen(db: Db, id: string, no: nat, ts: int)
    ensures Project(Exec(db, OpenAttempt(id, no, ts)), id) == CellOpen(Project(db, id), no, ts)
  {
  }

  lemma ProjectClose(db: Db, id: string, no: nat, status: RunStatus, result: Option<Json>, error: Option<string>, ts: int)
    ensures Project(Exec(db, CloseAttempt(id, no, status, result, error, ts)), id)
         == CellClose(Project(db, id), no, status, result, error, ts)
  {
  }

  lemma ProjectFile(db: Db, id: string, no: nat, rid: nat, status: RunStatus, result: Option<Json>, error: Option<string>, ts: int)
    ensures Project(Exec(db, FileReceipt(id, no, rid, status, result, error, ts)), id)
         == CellFile(Project(db, id), Receipt(rid, id, Ref(Project(db, id), no), status, result, error, ts))
  {
    ReceiptsOfAppend(db.receipts, Receipt(rid, id, AttemptRef(db, id, no), status, result, error, ts), id);
  }

  // ---- run events and their keys ----

  function ProperType(f: Fact): EventType
    requires f.RunFact?
  {
    if f.state == Succeeded && f.action in {Speak, Ask} then BotDelivery else TaskObservation
  }

  /** Run facts and run keys come together, and the type says whether a message was delivered. */
  predicate Linked(e: Event) {
    && (e.fact.RunFact? <==> e.dedupe.Some? && e.dedupe.value.RunEvent?)
    && (e.fact.RunFact? ==>
          && e.dedupe == Some(RunEvent(e.fact.run, e.fact.state, e.fact.attempt))
          && e.kind == ProperType(e.fact))
  }

  ghost predicate AllLinked(log: seq<Event>) {
    forall e :: e in log ==> Linked(e)
  }

  /** Another subsystem's event: neither a run fact nor a run key. */
  predicate ForeignInput(input: EventInput) {
    !input.fact.RunFact? && !(input.dedupe.Some? && input.dedupe.value.RunEvent?)
  }

  lemma {:induction false} TrailIs(log: seq<Event>, id: string)
    ensures forall e :: e in TrailOf(log, id) <==> e in log && e.fact.RunFact? && e.fact.run == id
  {
    if log != [] {
      TrailIs(log[..|log| - 1], id);
      assert log == log[..|log| - 1] + [log[|log| - 1]];
    }
  }

  predicate Reported(trail: seq<Event>, state: RunStatus, attempt: nat) {
    exists e :: e in trail && e.fact.RunFact? && e.fact.state == state && e.fact.attempt == attempt
  }

  /** Whether the log accepts the ids of a run: it is stricter about them than the run table. */
  predicate IdsFit(e: Envelope) {
    && ScopeKey(e.scope).Ok? && !BadId(e.scope.chatId) && !BadId(e.scope.userId)
    && Bounded(Some(e.correlation), 240).Ok? && Bounded(e.causation, 240).Ok?
  }

  /** Whether the log takes every event of the run: its id must leave room for the rest of the dedupe key. */
  predicate Loggable(e: Envelope) {
    IdsFit(e) && |e.id| <= 217
  }

  lemma RunKeyFits(id: string, state: RunStatus, attempt: nat)
    requires |id| <= 217 && attempt <= 9
    ensures KeyFits(Some(RunEvent(id, state, attempt)))
  {
    assert |state.Name()| <= 9;
    assert |Int(attempt)| == 1;
    TrimIs(Render(RunEvent(id, state, attempt)));
  }

  /** Clock and ids as the host draws them: a positive time, and an event id not in the log. */
  predicate SoundDraw(db: Db, d: Draw) {
    d.flags.events && SafeInt(d.now) && d.now > 0 && !HasEvent(db.store.log, d.event)
  }

  /** The key of a run event is taken exactly when the trail already reports it. */
  lemma KeyIsReport(log: seq<Event>, id: string, state: RunStatus, attempt: nat)
    requires AllLinked(log)
    ensures WithKey(log, RunEvent(id, state, attempt)).Some? <==> Reported(TrailOf(log, id), state, attempt)
  {
    TrailIs(log, id);
    var found := WithKey(log, RunEvent(id, state, attempt));
    if found.Some? {
      assert Linked(found.value);
    }
  }

  /** The event says of which run, in whose scope and under whose causes, what has become of it, and when. */
  predicate Tells(e: Event, run: Run, state: RunStatus, receipt: Option<nat>, observed: bool, d: Draw) {
    && e.id == d.event && e.occurredAt == e.createdAt == d.now && e.source == Host && e.scope == run.envelope.scope
    && (run.envelope.causation.Some? && Trim(run.envelope.causation.value) != "" ==> e.causation == Some(Trim(run.envelope.causation.value)))
    && (Trim(run.envelope.correlation) != "" ==> e.correlation == Trim(run.envelope.correlation))
    && e.fact.RunFact? && e.fact.run == run.envelope.id && e.fact.action == run.Kind() && e.fact.state == state
    && e.fact.attempt == run.attempt && e.fact.error == run.error && e.fact.receipt == receipt && e.fact.observed == observed
    && (e.fact.messageId.Some? ==>
          state == Succeeded && run.result.JMessage? && e.fact.messageId.value == run.result.messageId && run.result.messageId > 0)
    && (state == Succeeded && run.result.JMessage? && 0 < run.result.messageId <= MAX_SAFE ==> e.fact.messageId.Some?)
  }

  /** What the log makes of a run event, as far as keys and trails go. */
  lemma RunEventLinked(st: Store, run: Run, state: RunStatus, receipt: Option<nat>, observed: bool, d: Draw)
    requires AllLinked(st.log)
    ensures
      var input := RunInput(run, state, receipt, observed);
      var (next, answer) := Append(st, d.flags, input, d.event, d.now);
      && (answer.Inserted? ==>
            && next.log == st.log + [answer.event] && Linked(answer.event) && IdsFit(run.envelope)
            && answer.event.fact == input.fact && answer.event.kind == input.kind
            && WithKey(st.log, input.dedupe.value).None?)
      && (!answer.Inserted? ==> next == st)
      && (d.flags.events && SafeInt(d.now) && d.now > 0 && !HasEvent(st.log, d.event) && Loggable(run.envelope) && run.attempt <= 9 ==>
            (answer.Inserted? <==> WithKey(st.log, input.dedupe.value).None?))
  {
    AppendShape(st, d.flags, RunInput(run, state, receipt, observed), d.event, d.now);
    if Loggable(run.envelope) && run.attempt <= 9 {
      RunKeyFits(run.envelope.id, state, run.attempt);
    }
  }

  /** What the log makes of a run event. */
  lemma RunEventStored(st: Store, run: Run, state: RunStatus, receipt: Option<nat>, observed: bool, d: Draw)
    requires AllLinked(st.log)
    ensures
      var input := RunInput(run, state, receipt, observed);
      var (next, answer) := Append(st, d.flags, input, d.event, d.now);
      && (answer.Inserted? ==>
            && next.log == st.log + [answer.event] && Linked(answer.event) && IdsFit(run.envelope)
            && answer.event.fact == input.fact && answer.event.kind == input.kind && Tells(answer.event, run, state, receipt, observed, d)
            && WithKey(st.log, input.dedupe.value).None?)
      && (!answer.Inserted? ==> next == st)
      && (d.flags.events && SafeInt(d.now) && d.now > 0 && !HasEvent(st.log, d.event) && Loggable(run.envelope) && run.attempt <= 9 ==>
            (answer.Inserted? <==> WithKey(st.log, input.dedupe.value).None?))
  {
    RunEventLinked(st, run, state, receipt, observed, d);
    DraftIs(RunInput(run, state, receipt, observed), d.event, d.now);
  }

  /** An event of the run added to the log is added to the run's trail. */
  lemma ProjectLogged(db: Db, next: Store, e: Event, id: string)
    requires next.log == db.store.log + [e] && e.fact.RunFact? && e.fact.run == id
    ensures Project(db.(store := next), id) == Project(db, id).(trail := Project(db, id).trail + [e])
  {
    TrailOfAppend(db.store.log, e, id);
  }

  lemma LoggedJoins(db: Db, id: string, state: RunStatus, attempt: nat, next: Store, e: Event)
    requires AllLinked(db.store.log) && next.log == db.store.log + [e] && Linked(e) && e.fact.RunFact? && e.fact.run == id
    requires WithKey(db.store.log, RunEvent(id, state, attempt)).None?
    ensures AllLinked(next.log) && Project(db.(store := next), id) == Project(db, id).(trail := Project(db, id).trail + [e])
    ensures !Reported(Project(db, id).trail, state, attempt)
  {
    KeyIsReport(db.store.log, id, state, attempt);
    ProjectLogged(db, next, e, id);
  }

  lemma EmitJoins(db: Db, run: Run, state: RunStatus, receipt: Option<nat>, observed: bool, d: Draw)
    requires AllLinked(db.store.log) && Append(db.store, d.flags, RunInput(run, state, receipt, observed), d.event, d.now).1.Inserted?
    ensures
      var input, id := RunInput(run, state, receipt, observed), run.envelope.id;
      var e := Append(db.store, d.flags, input, d.event, d.now).1.event;
      var next := Exec(db, Emit(d.flags, input, d.event, d.now));
      && AllLinked(next.store.log) && e.fact == input.fact && e.kind == input.kind
      && Project(next, id) == Project(db, id).(trail := Project(db, id).trail + [e])
      && !Reported(Project(db, id).trail, state, run.attempt) && IdsFit(run.envelope)
  {
    RunEventLinked(db.store, run, state, receipt, observed, d);
    var (next, answer) := Append(db.store, d.flags, RunInput(run, state, receipt, observed), d.event, d.now);
    LoggedJoins(db, run.envelope.id, state, run.attempt, next, answer.event);
  }

  lemma EmitDrops(db: Db, run: Run, state: RunStatus, receipt: Option<nat>, observed: bool, d: Draw)
    requires AllLinked(db.store.log) && !Append(db.store, d.flags, RunInput(run, state, receipt, observed), d.event, d.now).1.Inserted?
    ensures Exec(db, Emit(d.flags, RunInput(run, state, receipt, observed), d.event, d.now)) == db
    ensures SoundDraw(db, d) && Loggable(run.envelope) && run.attempt <= 9 ==> Reported(Project(db, run.envelope.id).trail, state, run.attempt)
  {
    RunEventLinked(db.store, run, state, receipt, observed, d);
    KeyIsReport(db.store.log, run.envelope.id, state, run.attempt);
  }

  /** The event of `run` reaching `state` either joins the trail or leaves it as it was. */
  lemma ProjectEmit(db: Db, run: Run, state: RunStatus, receipt: Option<nat>, observed: bool, d: Draw)
    requires AllLinked(db.store.log)
    ensures
      var input := RunInput(run, state, receipt, observed);
      var id := run.envelope.id;
      var c, next := Project(db, id), Exec(db, Emit(d.flags, input, d.event, d.now));
      var c' := Project(next, id);
      && AllLinked(next.store.log)
      && c' == c.(trail := c'.trail)
      && (c'.trail == c.trail
          || (!Reported(c.trail, state, run.attempt) && IdsFit(run.envelope)
              && exists e :: c'.trail == c.trail + [e] && e.fact == input.fact && e.kind == input.kind))
      && (SoundDraw(db, d) && Loggable(run.envelope) && run.attempt <= 9 && !Reported(c.trail, state, run.attempt) ==> c'.trail != c.trail)
  {
    if Append(db.store, d.flags, RunInput(run, state, receipt, observed), d.event, d.now).1.Inserted? {
      EmitJoins(db, run, state, receipt, observed, d);
    } else {
      EmitDrops(db, run, state, receipt, observed, d);
    }
  }

  lemma ForeignKeepsLinks(st: Store, flags: Flags, input: EventInput, id: EventId, now: int)
    requires AllLinked(st.log) && ForeignInput(input)
    ensures AllLinked(Append(st, flags, input, id, now).0.log)
  {
    AppendShape(st, flags, input, id, now);
  }
}
