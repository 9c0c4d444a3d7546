/**
 * The runtime as the process holds it: three tables, the event store, and the executions in
 * memory. Each method is one synchronous block and refines one operation of the run protocol.
 */
module AgencyRuntimes {
  import opened Wrappers
  import opened Text
  import opened Vocabulary
  import Actions
  import opened Envelopes
  import opened Policy
  import opened Events
  import opened EventTables
  import opened AgencyTables
  import opened AgencySystem
  import opened AgencyDelivery

  datatype RunResult = RunResult(ok: bool, run: Option<Run>, reason: string)

  /** An execution is answered at once, or suspended with the counters its adapter will spend from. */
  datatype Begun = Answered(result: RunResult) | Launched(usage: AgencyUsage)

  predicate Granted(b: Budget) {
    b.maxLlm >= 0 && b.maxTool >= 0
  }

  /** How the race between the adapter and the timer ended. */
  datatype Race = Won(result: Option<Json>) | Lost(message: string) | TimedOut

  /** The outcome a finished race stands for; an aborted controller renames an adapter's error. */
  function RaceOutcome(race: Race, aborted: bool): Outcome {
    match race
    case Won(result) => Resolved(result)
    case Lost(message) => Threw(if aborted then "agency run cancelled" else message)
    case TimedOut => Threw("agency budget timeout")
  }

  lemma {:induction false} ReceiptForAppended(own: seq<Receipt>, r: Receipt, attempt: Option<nat>)
    ensures ReceiptFor(own + [r], attempt) ==
      if ReceiptFor(own, attempt).Some? then ReceiptFor(own, attempt)
      else if r.attempt == attempt then Some(r.id) else None
  {
    if own != [] {
      ReceiptForAppended(own[1..], r, attempt);
      assert (own + [r])[1..] == own[1..] + [r];
    }
  }

  lemma OneAndEmit(db: Db, stmt: Stmt, emit: Stmt)
    ensures Perform(db, Then(stmt, Then(emit, Done))) == Exec(Exec(db, stmt), emit)
  {
    assert Perform(Exec(db, stmt), Then(emit, Done)) == Exec(Exec(db, stmt), emit);
  }

  /** Every row but one is as it was. */
  ghost predicate Others(before: map<string, Run>, now: map<string, Run>, id: string) {
    before - {id} == now - {id}
  }

  /** An open run whose envelope has not expired, and an adapter that can carry its action out. */
  predicate Ready(run: Run, adapter: Adapter, now: int) {
    && (run.status == Pending || run.status == Waiting)
    && (run.envelope.expiresAt.Some? ==> now < run.envelope.expiresAt.value)
    && (adapter.Custom? || (adapter.Delivery? && (run.Kind() == Speak || run.Kind() == Ask)))
  }

  predicate PastDate(run: Run, now: int) {
    run.envelope.expiresAt.Some? && now >= run.envelope.expiresAt.value
  }

  lemma ReadyIsLaunched(db: Db, id: string, adapter: Adapter, d: Draw)
    ensures Launches(db, id, adapter, d) <==> id in db.runs && Ready(db.runs[id], adapter, d.now)
  {
  }

  /** The row of a run whose adapter resolved: its result is the adapter's. */
  function SucceededRow(run: Run, result: Option<Json>, now: int): Run {
    run.(status := Succeeded, result := if result.Some? then result.value else JNull, error := None,
         updatedAt := now, finishedAt := Some(now))
  }

  function FailureReason(race: Race, aborted: bool): string
    requires !race.Won?
  {
    if race.TimedOut? then "agency budget timeout" else if aborted then "agency run cancelled" else race.message
  }

  /** The row of a claimed run. */
  function RunningRow(run: Run, now: int): Run {
    run.(status := Running, attempt := run.attempt + 1, startedAt := Some(now), updatedAt := now)
  }

  // ---- what single operations do to the protocol's state ----

  lemma AdmittedIsGranted(e: Envelope)
    requires PersistError(e).None?
    ensures Granted(e.budget)
  {
  }

  lemma SubmitDoes(s: Sys, e: Envelope, d: Draw)
    ensures AgencySystem.Next(s, Submit(e, d)) == s.(db := Perform(s.db, CreateScript(s.db, e, d)))
  {
  }

  lemma CancelDoes(s: Sys, id: string, reason: string, d: Draw)
    ensures AgencySystem.Next(s, Cancel(id, reason, d)) ==
      s.(db := Perform(s.db, CancelScript(s.db, id, reason, d)),
         flights := if id in s.flights then s.flights[id := s.flights[id].(aborted := true)] else s.flights)
  {
  }

  /** A closing block is its update followed by the settlement of what it finds. */
  lemma ClosingDoes(db: Db, at: Db, run: Run, from: set<RunStatus>, patch: Patch, result: Option<Json>, observed: bool, d: Draw)
    requires run.envelope.id in db.runs && db.runs[run.envelope.id] == run && run.status in from
    requires at.attempts == db.attempts && at.receipts == db.receipts
    ensures var closed := Patched(run, patch);
            var db1 := db.(runs := db.runs[run.envelope.id := closed]);
            Perform(db, Closing(at, run, from, patch, result, observed, d)) == Perform(db1, Settlement(db1, closed, result, observed, d))
  {
    var script := Closing(at, run, from, patch, result, observed, d);
    assert Exec(db, script.stmt) == db.(runs := db.runs[run.envelope.id := Patched(run, patch)]);
  }

  lemma ExecuteDoes(s: Sys, id: string, adapter: Adapter, d: Draw)
    ensures AgencySystem.Next(s, Execute(id, adapter, d)) == s.(
      db := Perform(s.db, ExecuteScript(s.db, id, adapter, d)),
      flights := if Launches(s.db, id, adapter, d) then s.flights[id := Flight(adapter, false, false, None)] else s.flights)
  {
  }

  lemma DispatchDoes(s: Sys, id: string, cfg: Config, adapter: Adapter, d: Draw)
    requires id in s.db.runs
    ensures AgencySystem.Next(s, Dispatch(id, cfg, adapter, d)) ==
      if Admits(s.db, Dispatch(id, cfg, adapter, d)) then
        s.(db := Perform(s.db, ExecuteScript(s.db, id, adapter, d)),
           flights := if Launches(s.db, id, adapter, d) then s.flights[id := Flight(adapter, false, false, Some(cfg))] else s.flights)
      else s.(db := Perform(s.db, DeferScript(s.db, id, PolicyOf(s.db.runs[id], cfg).reason, d)))
  {
  }

  /** The tables after the claim: the row running under its next attempt, and that attempt opened. */
  function ClaimedTables(db: Db, id: string, d: Draw): Db
    requires id in db.runs
  {
    Exec(Exec(db, UpdateRun(id, OPEN, ClaimIt(d.now))), OpenAttempt(id, db.runs[id].attempt + 1, d.now))
  }

  lemma ClaimingDoes(db: Db, id: string, d: Draw, rest: Script)
    requires id in db.runs && db.runs[id].envelope.id == id
    ensures Perform(db, Claiming(db.runs[id], d, rest)) == Perform(ClaimedTables(db, id, d), rest)
  {
    var script := Claiming(db.runs[id], d, rest);
    assert Perform(db, script) == Perform(Exec(db, script.stmt), script.rest);
  }

  /** What the claim leaves behind for the closing part. */
  lemma ClaimedTablesAre(db: Db, id: string, d: Draw)
    requires id in db.runs && db.runs[id].envelope.id == id && db.runs[id].status in OPEN
    ensures var db2, at := ClaimedTables(db, id, d), WithAttempt(db, db.runs[id], d);
            && id in db2.runs && db2.runs[id] == Claimed(db.runs[id], d)
            && at.attempts == db2.attempts && at.receipts == db2.receipts
  {
  }

  /** Claim and close in one block: the closing part sees the claimed row and the attempt just opened. */
  lemma ClaimAndCloseDoes(db: Db, id: string, from: set<RunStatus>, patch: Patch, result: Option<Json>, observed: bool, d: Draw)
    requires id in db.runs && db.runs[id].envelope.id == id && db.runs[id].status in OPEN && Running in from
    ensures
      var run := db.runs[id];
      var db2 := ClaimedTables(db, id, d);
      var closed := Patched(Claimed(run, d), patch);
      var db3 := db2.(runs := db2.runs[id := closed]);
      Perform(db, Claiming(run, d, Closing(WithAttempt(db, run, d), Claimed(run, d), from, patch, result, observed, d)))
        == Perform(db3, Settlement(db3, closed, result, observed, d))
  {
    var run, at := db.runs[id], WithAttempt(db, db.runs[id], d);
    ClaimedTablesAre(db, id, d);
    ClaimingDoes(db, id, d, Closing(at, Claimed(run, d), from, patch, result, observed, d));
    ClosingDoes(ClaimedTables(db, id, d), at, Claimed(run, d), from, patch, result, observed, d);
  }

  lemma SendingIs(s: Sys, id: string)
    requires id in s.flights && !s.flights[id].invoked && id in s.db.runs
    ensures var (flight, e) := (s.flights[id], s.db.runs[id].envelope);
            Sending(s, Invoke(id)) <==>
              flight.adapter.Delivery? && !flight.aborted && Scoped(e.scope) && SafeInt(e.scope.chatId.value) && e.budget.maxTool >= 1
  {
  }

  lemma InvokeDoes(s: Sys, id: string)
    requires id in s.flights && !s.flights[id].invoked && id in s.db.runs
    ensures AgencySystem.Next(s, Invoke(id)) ==
      Sys(s.db, s.flights[id := s.flights[id].(invoked := true)],
          s.calls + [Call(id, s.db.runs[id].Kind(), s.flights[id].gate)],
          if Sending(s, Invoke(id)) then s.sends + [id] else s.sends)
  {
  }

  lemma FinishDoes(s: Sys, id: string, outcome: Outcome, d: Draw)
    requires id in s.flights && s.flights[id].invoked
    ensures AgencySystem.Next(s, Finish(id, outcome, d)) ==
      s.(db := Perform(s.db, SettleScript(s.db, id, outcome, d)), flights := s.flights - {id})
  {
  }

  lemma WitnessDoes(s: Sys, o: Observation, d: Draw)
    ensures AgencySystem.Next(s, Witness(o, d)) == s.(db := Perform(s.db, ObserveScript(s.db, o, d)))
  {
  }

  /** What an accepted observation does to the tables. */
  function ObservedTables(db: Db, o: Observation, d: Draw): Db
    requires o.run in db.runs
  {
    var db2 := ClaimedTables(db, o.run, d);
    var closed := Patched(Claimed(db.runs[o.run], d), ObservedPatch(o, d));
    var db3 := db2.(runs := db2.runs[o.run := closed]);
    Perform(db3, Settlement(db3, closed, o.result, true, d))
  }

  predicate Observable(db: Db, o: Observation) {
    o.run in db.runs && db.runs[o.run].status in OPEN && ObservationError(db.runs[o.run], o).None?
  }

  lemma ObserveDoes(db: Db, o: Observation, d: Draw)
    requires Observable(db, o) && db.runs[o.run].envelope.id == o.run
    ensures Perform(db, ObserveScript(db, o, d)) == ObservedTables(db, o, d)
  {
    ClaimAndCloseDoes(db, o.run, {Running}, ObservedPatch(o, d), o.result, true, d);
  }

  /** An open speak or ask run, and an observation that names a usable message or an error. */
  predicate Settles(run: Run, o: Observation) {
    && (run.status == Pending || run.status == Waiting) && (run.Kind() == Speak || run.Kind() == Ask)
    && (o.succeeded ==> o.result.Some? && o.result.value.JMessage? && 0 < o.result.value.messageId <= MAX_SAFE)
    && (!o.succeeded ==> o.error.Some? && Trim(o.error.value) != "")
  }

  function ObservedRow(run: Run, o: Observation, now: int): Run {
    RunningRow(run, now).(
      status := if o.succeeded then Succeeded else Failed, result := if o.result.Some? then o.result.value else JNull,
      error := if o.error.Some? && Trim(o.error.value) != "" then Some(Clip(Trim(o.error.value), 500)) else None,
      finishedAt := Some(now))
  }

  lemma SettlesIsObservable(db: Db, o: Observation)
    ensures Observable(db, o) <==> o.run in db.runs && Settles(db.runs[o.run], o)
  {
  }

  lemma NothingObserved(db: Db, o: Observation, d: Draw)
    requires !Observable(db, o)
    ensures Perform(db, ObserveScript(db, o, d)) == db
  {
  }

  /** A stored message passes the adapter's own check unchanged. */
  lemma StoredMessageReadsBack(e: Envelope)
    requires StoredAction(e).Kind() in {Speak, Ask}
    ensures var a := StoredAction(e);
            Actions.Validate(Actions.AsRaw(a)) == Ok(a) && (a.Say? || a.Question?)
  {
    Actions.ValidatedIsAccepted(e.action);
    Actions.MessageReadsBack(StoredAction(e));
  }

  class AgencyRuntime {
    var runs: map<string, Run>
    var attempts: map<string, map<nat, Attempt>>
    var receipts: seq<Receipt>
    const events: EventStore
    /** Executions in memory by run, with their abort signals. */
    var flights: map<string, Flight>
    /** The row each execution read back after its claim. */
    var claimed: map<string, Run>
    /** Every adapter call and every transport call ever made. */
    ghost var calls: seq<Call>
    ghost var sends: seq<string>

    ghost function Tables(): Db
      reads this, events
    {
      Db(runs, attempts, receipts, events.Contents())
    }

    ghost function State(): Sys
      reads this, events
    {
      Sys(Tables(), flights, calls, sends)
    }

    /** Rows sit under their own id, with a budget that was checked. */
    ghost predicate RowsOk()
      reads `runs
    {
      forall id :: id in runs ==> runs[id].envelope.id == id && Granted(runs[id].envelope.budget)
    }

    /** Executions remember the envelope of their row. */
    ghost predicate ClaimsOk()
      reads `runs, `flights, `claimed
    {
      claimed.Keys == flights.Keys && forall id :: id in claimed ==>
        id in runs && claimed[id].envelope == runs[id].envelope
    }

    ghost predicate Valid()
      reads `runs, `flights, `claimed
    {
      RowsOk() && ClaimsOk()
    }

    constructor (events: EventStore)
      ensures Valid() && this.events == events
      ensures State() == INIT.(db := EMPTY_DB.(store := events.Contents()))
    {
      this.events := events;
      runs, attempts, receipts, flights, claimed, calls, sends := map[], map[], [], map[], map[], [], [];
    }

    // ---- the parts of a block ----

    /** `persistAttemptSettled`: closes the attempt, files a receipt unless its attempt has one, and names the receipt. */
    method PersistAttemptSettled(run: Run, result: Option<Json>, d: Draw) returns (receipt: nat)
      modifies `attempts, `receipts
      ensures var (id, no) := (run.envelope.id, run.attempt);
              Tables() == Exec(Exec(old(Tables()), CloseAttempt(id, no, run.status, result, run.error, d.now)),
                               FileReceipt(id, no, d.receipt, run.status, result, run.error, d.now))
      ensures receipt == ReportedReceipt(old(Tables()), run.envelope.id, run.attempt, d.receipt)
    {
      var id, no := run.envelope.id, run.attempt;
      if id in attempts && no in attempts[id] && attempts[id][no].status == Running {
        attempts := attempts[id := attempts[id][no := Attempt(run.status, attempts[id][no].startedAt, Some(d.now), result, run.error)]];
      }
      var attempt := if id in attempts && no in attempts[id] then Some(no) else None;
      if attempt.Some? {
        var existing := ReceiptFor(ReceiptsOf(receipts, id), attempt);
        if existing.Some? {
          return existing.value;
        }
      }
      var filed := Receipt(d.receipt, id, attempt, run.status, result, run.error, d.now);
      ReceiptForAppended(ReceiptsOf(receipts, id), filed, attempt);
      assert (receipts + [filed])[..|receipts|] == receipts;
      receipts := receipts + [filed];
      receipt := ReceiptFor(ReceiptsOf(receipts, id), attempt).value;
    }

    /** `emitRunEvent`. */
    method EmitRunEvent(run: Run, state: RunStatus, receipt: Option<nat>, observed: bool, d: Draw)
      modifies events
      ensures Tables() == Exec(old(Tables()), Emit(d.flags, RunInput(run, state, receipt, observed), d.event, d.now))
    {
      var _ := events.Append(d.flags, RunInput(run, state, receipt, observed), d.event, d.now);
    }

    /** What every closing block does once the run row is closed. */
    method RecordEnd(run: Run, result: Option<Json>, observed: bool, d: Draw)
      modifies `attempts, `receipts, events
      ensures Tables() == Perform(old(Tables()), Settlement(old(Tables()), run, result, observed, d))
    {
      TailDoes(Tables(), run, ReportedReceipt(Tables(), run.envelope.id, run.attempt, d.receipt), result, observed, d);
      var receipt := PersistAttemptSettled(run, result, d);
      EmitRunEvent(run, run.status, Some(receipt), observed, d);
    }

    /** The row closed, and everything that follows from it. */
    method CloseRun(closed: Run, result: Option<Json>, observed: bool, d: Draw)
      requires Valid() && closed.envelope.id in runs && closed.envelope == runs[closed.envelope.id].envelope
      modifies `runs, `attempts, `receipts, events
      ensures Valid() && runs == old(runs)[closed.envelope.id := closed]
      ensures var db1 := old(Tables()).(runs := runs);
              Tables() == Perform(db1, Settlement(db1, closed, result, observed, d))
    {
      runs := runs[closed.envelope.id := closed];
      RecordEnd(closed, result, observed, d);
    }

    /** The claiming update and the attempt row. */
    method ClaimRun(id: string, d: Draw)
      requires Valid() && id in runs && runs[id].status in OPEN
      modifies `runs, `attempts
      ensures Valid() && Tables() == ClaimedTables(old(Tables()), id, d)
      ensures runs == old(runs)[id := Claimed(old(runs)[id], d)]
    {
      var run := runs[id];
      runs := runs[id := run.(status := Running, attempt := run.attempt + 1, startedAt := Some(d.now), updatedAt := d.now)];
      var mine := if id in attempts then attempts[id] else map[];
      if run.attempt + 1 !in mine {
        attempts := attempts[id := mine[run.attempt + 1 := Attempt(Running, d.now, None, None, None)]];
      }
    }

    // ---- the blocks ----

    /** `createAgencyRun`: a known idempotency key answers with its run and writes nothing. */
    method Create(e: Envelope, d: Draw) returns (r: RunResult)
      requires Valid()
      modifies `runs, events
      ensures Valid()
      ensures State() == AgencySystem.Next(old(State()), Submit(e, d))
      ensures r.ok <==> Admissible(e) && (HasKey(old(Tables()), e.key) || e.id !in old(runs))
      ensures r.ok ==> r.run.Some? && r.run.value.envelope.key == e.key
                       && r.run.value.envelope.id in runs && runs[r.run.value.envelope.id] == r.run.value
      ensures HasKey(old(Tables()), e.key) ==> State() == old(State())
      ensures r.ok && !HasKey(old(Tables()), e.key) ==>
        runs == old(runs)[e.id := Run(e, Pending, 0, JNull, None, d.now, d.now, None, None)] && r.run == Some(runs[e.id])
      ensures !r.ok ==> runs == old(runs)
    {
      AdmittedIff(e);
      var invalid := PersistError(e);
      if invalid.Some? {
        return RunResult(false, None, invalid.value);
      }
      if id :| id in runs && runs[id].envelope.key == e.key {
        assert HasKey(Tables(), e.key);
        return RunResult(true, Some(runs[id]), "");
      }
      SubmitDoes(State(), e, d);
      if e.id in runs {
        return RunResult(false, None, "agency_runs_error");
      }
      AdmittedIsGranted(e);
      var run := Run(e, Pending, 0, JNull, None, d.now, d.now, None, None);
      OneAndEmit(Tables(), InsertRun(e, d.now), Emit(d.flags, RunInput(run, Pending, None, false), d.event, d.now));
      runs := runs[e.id := run];
      EmitRunEvent(run, Pending, None, false, d);
      return RunResult(true, Some(run), "");
    }

    /** The row's part of a cancellation: it takes effect only while the run is live. */
    method CancelRow(id: string, reason: string, d: Draw) returns (r: RunResult)
      requires Valid()
      modifies `runs, `attempts, `receipts, events
      ensures Valid()
      ensures Tables() == Perform(old(Tables()), CancelScript(old(Tables()), id, reason, d))
      ensures r.ok <==> id in old(runs) && old(runs)[id].status in LIVE
      ensures r.ok ==> r.run.Some? && r.run.value.status == Cancelled && id in runs && runs[id] == r.run.value
      ensures r.ok ==> runs == old(runs)[id := old(runs)[id].(
        status := Cancelled, error := Some(Clip(Trim(reason), 500)), updatedAt := d.now, finishedAt := Some(d.now))]
      ensures !r.ok ==> Tables() == old(Tables())
    {
      if id !in runs {
        return RunResult(false, None, "run not found");
      }
      if runs[id].status !in LIVE {
        return RunResult(false, Some(runs[id]), "run not cancellable");
      }
      ClosingDoes(Tables(), Tables(), runs[id], LIVE, Close(Cancelled, None, Some(Clip(Trim(reason), 500)), d.now), Some(JNull), false, d);
      var closed := runs[id].(status := Cancelled, error := Some(Clip(Trim(reason), 500)),
                              updatedAt := d.now, finishedAt := Some(d.now));
      CloseRun(closed, Some(JNull), false, d);
      return RunResult(true, Some(runs[id]), "");
    }

    /** `cancelAgencyRun`: the controller is aborted in any case. */
    method Cancel(id: string, reason: string, d: Draw) returns (r: RunResult)
      requires Valid()
      modifies `flights, `runs, `attempts, `receipts, events
      ensures Valid() && State() == AgencySystem.Next(old(State()), AgencySystem.Cancel(id, reason, d))
      ensures r.ok <==> id in old(runs) && old(runs)[id].status in LIVE
      ensures r.ok ==> r.run.Some? && r.run.value.status == Cancelled && id in runs && runs[id] == r.run.value
      ensures r.ok ==> runs == old(runs)[id := old(runs)[id].(
        status := Cancelled, error := Some(Clip(Trim(reason), 500)), updatedAt := d.now, finishedAt := Some(d.now))]
      ensures !r.ok ==> Tables() == old(Tables())
      ensures flights.Keys == old(flights).Keys && (id in flights ==> flights[id] == old(flights)[id].(aborted := true))
    {
      CancelDoes(State(), id, reason, d);
      if id in flights {
        flights := flights[id := flights[id].(aborted := true)];
      }
      r := CancelRow(id, reason, d);
    }

    /** `deferAgencyRun`. */
    method Defer(id: string, reason: string, d: Draw) returns (r: RunResult)
      requires Valid()
      modifies `runs, events
      ensures Valid()
      ensures Tables() == Perform(old(Tables()), DeferScript(old(Tables()), id, reason, d))
      ensures !r.ok
      ensures id in old(runs) && old(runs)[id].status in OPEN ==>
        runs == old(runs)[id := old(runs)[id].(
          status := Waiting, error := Some(Clip("policy:" + reason, 500)), updatedAt := d.now)]
      ensures id in old(runs) && old(runs)[id].status !in OPEN ==> Tables() == old(Tables())
    {
      if id !in runs {
        return RunResult(false, None, "run not found");
      }
      if runs[id].status in OPEN {
        var patch := DeferIt(Clip("policy:" + reason, 500), d.now);
        var run := runs[id].(status := Waiting, error := Some(Clip("policy:" + reason, 500)), updatedAt := d.now);
        OneAndEmit(Tables(), UpdateRun(id, OPEN, patch), Emit(d.flags, RunInput(run, Waiting, None, false), d.event, d.now));
        runs := runs[id := run];
        EmitRunEvent(run, Waiting, None, false, d);
      }
      return RunResult(false, Some(runs[id]), "policy:" + reason);
    }

    /** An envelope past its expiry closes its run unclaimed. */
    method Expire(id: string, d: Draw) returns (r: RunResult)
      requires Valid() && id in runs
      modifies `runs, `attempts, `receipts, events
      ensures Valid() && Tables() == Perform(old(Tables()), ExpireScript(old(Tables()), id, d))
      ensures !r.ok
      ensures old(runs)[id].status in OPEN ==>
        runs == old(runs)[id := old(runs)[id].(
          status := Expired, error := Some("envelope expired"), updatedAt := d.now, finishedAt := Some(d.now))]
      ensures old(runs)[id].status !in OPEN ==> Tables() == old(Tables())
    {
      if runs[id].status !in OPEN {
        return RunResult(false, Some(runs[id]), runs[id].status.Name());
      }
      ClosingDoes(Tables(), Tables(), runs[id], OPEN, Close(Expired, None, Some("envelope expired"), d.now), Some(JNull), false, d);
      var closed := runs[id].(status := Expired, error := Some("envelope expired"), updatedAt := d.now, finishedAt := Some(d.now));
      CloseRun(closed, Some(JNull), false, d);
      return RunResult(false, Some(runs[id]), "expired");
    }

    /** Claimed, but nothing can carry the action out: the row is failed at once, without a status guard. */
    method FailWithoutAdapter(id: string, d: Draw) returns (r: RunResult)
      requires Valid() && id in runs && runs[id].status in OPEN
      modifies `runs, `attempts, `receipts, events
      ensures Valid() && Tables() == Perform(old(Tables()), NoAdapterScript(old(Tables()), id, d))
      ensures !r.ok && Others(old(runs), runs, id) && id in runs
      ensures runs[id] == RunningRow(old(runs)[id], d.now).(
        status := Failed, error := Some("no adapter for " + KindName(old(runs)[id].Kind())), finishedAt := Some(d.now))
    {
      ClaimAndCloseDoes(Tables(), id, ANY, NoAdapterPatch(runs[id], d), Some(JNull), false, d);
      ClaimRun(id, d);
      var error := "no adapter for " + KindName(runs[id].Kind());
      var closed := runs[id].(status := Failed, error := Some(error), updatedAt := d.now, finishedAt := Some(d.now));
      CloseRun(closed, Some(JNull), false, d);
      return RunResult(false, Some(runs[id]), error);
    }

    /** Claimed with an adapter: the execution is registered and suspended until its adapter is called. */
    method Launch(id: string, adapter: Adapter, gate: Option<Config>, d: Draw) returns (usage: AgencyUsage)
      requires Valid() && id in runs && runs[id].status in OPEN && Usable(adapter, runs[id].Kind())
      modifies `runs, `attempts, `flights, `claimed
      ensures Valid() && Tables() == ClaimedTables(old(Tables()), id, d)
      ensures flights == old(flights)[id := Flight(adapter, false, false, gate)]
      ensures runs == old(runs)[id := RunningRow(old(runs)[id], d.now)] && claimed == old(claimed)[id := runs[id]]
      ensures fresh(usage) && usage.Valid() && usage.llmCalls == usage.toolCalls == 0 && usage.budget == claimed[id].envelope.budget
    {
      ClaimRun(id, d);
      var running := runs[id];
      flights := flights[id := Flight(adapter, false, false, gate)];
      claimed := claimed[id := running];
      usage := new AgencyUsage(running.envelope.budget);
    }

    /** `executeAgencyRun` called directly: no policy decision stands before the claim. */
    method Execute(id: string, adapter: Adapter, d: Draw) returns (b: Begun)
      requires Valid()
      modifies `runs, `attempts, `receipts, `flights, `claimed, events
      ensures Valid() && State() == AgencySystem.Next(old(State()), AgencySystem.Execute(id, adapter, d))
      ensures b.Launched? <==> id in old(runs) && Ready(old(runs)[id], adapter, d.now)
      ensures b.Launched? ==>
        && fresh(b.usage) && b.usage.Valid() && b.usage.llmCalls == b.usage.toolCalls == 0
        && runs == old(runs)[id := RunningRow(old(runs)[id], d.now)] && id in claimed && claimed[id] == runs[id]
        && id in flights && flights[id] == Flight(adapter, false, false, None) && b.usage.budget == runs[id].envelope.budget
      ensures b.Answered? ==> (b.result.ok <==> id in old(runs) && old(runs)[id].status == Succeeded)
      ensures b.Answered? && b.result.ok ==> b.result.run == Some(old(runs)[id]) && Tables() == old(Tables())
      ensures id in old(runs) && old(runs)[id].status in OPEN && PastDate(old(runs)[id], d.now) ==>
        id in runs && runs[id].status == Expired && runs[id].attempt == old(runs)[id].attempt
    {
      ExecuteDoes(State(), id, adapter, d);
      b := ExecuteRun(id, adapter, None, d);
    }

    /** `executeAgencyRun` up to its await, remembering the policy that let it through, if one did. */
    method ExecuteRun(id: string, adapter: Adapter, gate: Option<Config>, d: Draw) returns (b: Begun)
      requires Valid()
      modifies `runs, `attempts, `receipts, `flights, `claimed, events
      ensures Valid() && Tables() == Perform(old(Tables()), ExecuteScript(old(Tables()), id, adapter, d))
      ensures flights == if Launches(old(Tables()), id, adapter, d) then old(flights)[id := Flight(adapter, false, false, gate)]
                         else old(flights)
      ensures b.Launched? <==> id in old(runs) && Ready(old(runs)[id], adapter, d.now)
      ensures b.Launched? ==>
        && fresh(b.usage) && b.usage.Valid() && b.usage.llmCalls == b.usage.toolCalls == 0
        && runs == old(runs)[id := RunningRow(old(runs)[id], d.now)] && id in claimed && claimed[id] == runs[id]
        && id in flights && flights[id] == Flight(adapter, false, false, gate) && b.usage.budget == runs[id].envelope.budget
      ensures b.Answered? ==> (b.result.ok <==> id in old(runs) && old(runs)[id].status == Succeeded)
      ensures b.Answered? && b.result.ok ==> b.result.run == Some(old(runs)[id]) && Tables() == old(Tables())
      ensures id in old(runs) && old(runs)[id].status in OPEN && PastDate(old(runs)[id], d.now) ==>
        id in runs && runs[id].status == Expired && runs[id].attempt == old(runs)[id].attempt
    {
      ReadyIsLaunched(Tables(), id, adapter, d);
      if id !in runs {
        return Answered(RunResult(false, None, "run not found"));
      }
      var initial := runs[id];
      if initial.status.Terminal() {
        return Answered(RunResult(initial.status == Succeeded, Some(initial), initial.status.Name()));
      }
      if PastExpiry(initial, d.now) {
        var r := Expire(id, d);
        return Answered(r);
      }
      if initial.status !in OPEN {
        return Answered(RunResult(false, Some(initial), "run already claimed"));
      }
      if !Usable(adapter, initial.Kind()) {
        var r := FailWithoutAdapter(id, d);
        return Answered(r);
      }
      ClaimingDoes(Tables(), id, d, Done);
      var usage := Launch(id, adapter, gate, d);
      return Launched(usage);
    }

    /**
     * `dispatchAgencyRun` up to its await: a run is launched exactly when it is ready and the rollout
     * permits it; an open run the rollout does not permit waits, with the reason in its row.
     */
    method Dispatch(id: string, cfg: Config, adapter: Adapter, d: Draw) returns (b: Begun)
      requires Valid()
      modifies `runs, `attempts, `receipts, `flights, `claimed, events
      ensures Valid() && State() == AgencySystem.Next(old(State()), AgencySystem.Dispatch(id, cfg, adapter, d))
      ensures b.Launched? <==>
        id in old(runs) && Ready(old(runs)[id], adapter, d.now) && Permits(cfg, old(runs)[id].envelope, old(runs)[id].Kind())
      ensures b.Launched? ==>
        && fresh(b.usage) && b.usage.Valid() && b.usage.llmCalls == b.usage.toolCalls == 0
        && runs == old(runs)[id := RunningRow(old(runs)[id], d.now)] && id in claimed && claimed[id] == runs[id]
        && id in flights && flights[id] == Flight(adapter, false, false, Some(cfg)) && b.usage.budget == runs[id].envelope.budget
      ensures b.Answered? ==> (b.result.ok <==> id in old(runs) && old(runs)[id].status == Succeeded)
      ensures b.Answered? && b.result.ok ==> b.result.run == Some(old(runs)[id]) && Tables() == old(Tables())
      ensures id in old(runs) && old(runs)[id].status in OPEN && !Permits(cfg, old(runs)[id].envelope, old(runs)[id].Kind()) ==>
        id in runs && runs[id].status == Waiting && runs[id].attempt == old(runs)[id].attempt && flights == old(flights)
    {
      if id !in runs {
        return Answered(RunResult(false, None, "run not found"));
      }
      DispatchDoes(State(), id, cfg, adapter, d);
      var run := runs[id];
      AllowedIff(cfg, run.envelope, run.Kind());
      if !run.status.Terminal() {
        var policy := PolicyOf(run, cfg);
        if !policy.allowed {
          var r := Defer(id, policy.reason, d);
          return Answered(r);
        }
      }
      b := ExecuteRun(id, adapter, Some(cfg), d);
    }

    /** The adapter's turn: a delivery adapter reaches its transport with the stored text, or throws before it. */
    method Invoke(id: string, usage: AgencyUsage) returns (step: Result<Option<Message>>)
      requires Valid() && id in flights && !flights[id].invoked
      requires Usable(flights[id].adapter, claimed[id].Kind())
      requires usage.Valid() && usage.llmCalls == usage.toolCalls == 0 && usage.budget == claimed[id].envelope.budget
      modifies `flights, `calls, `sends, usage`toolCalls
      ensures Valid() && State() == AgencySystem.Next(old(State()), AgencySystem.Invoke(id))
      ensures usage.Valid()
      ensures step == Ok(None) <==> old(flights)[id].adapter.Custom?
      ensures step.Ok? && step.value.Some? <==> Sending(old(State()), AgencySystem.Invoke(id))
      ensures step.Ok? && step.value.Some? ==>
        var e := runs[id].envelope;
        && e.scope.chatId.Some? && (StoredAction(e).Say? || StoredAction(e).Question?)
        && step.value.value == Message(e.scope.chatId.value, StoredAction(e).Words(), StoredAction(e).replyTo)
    {
      InvokeDoes(State(), id);
      SendingIs(State(), id);
      var running, flight := claimed[id], flights[id];
      flights := flights[id := flight.(invoked := true)];
      calls := calls + [Call(id, running.Kind(), flight.gate)];
      if flight.adapter.Custom? {
        return Ok(None);
      }
      var r := Deliver(running, flight.aborted, usage);
      if r.Err? {
        return Err(r.reason);
      }
      sends := sends + [id];
      return Ok(Some(r.value));
    }

    /** The delivery adapter's part: the message it sends, unless it throws before its transport. */
    static method Deliver(running: Run, aborted: bool, usage: AgencyUsage) returns (r: Result<Message>)
      requires running.Kind() in {Speak, Ask}
      requires usage.Valid() && usage.toolCalls == 0
      modifies usage`toolCalls
      ensures usage.Valid()
      ensures var scope := running.envelope.scope;
              && (r.Ok? <==> !aborted && Scoped(scope) && SafeInt(scope.chatId.value) && usage.budget.maxTool >= 1)
              && (StoredAction(running.envelope).Say? || StoredAction(running.envelope).Question?)
              && (r.Ok? ==> r.value == Message(scope.chatId.value, StoredAction(running.envelope).Words(),
                                               StoredAction(running.envelope).replyTo))
    {
      StoredMessageReadsBack(running.envelope);
      r := BeginDelivery(running.Kind(), StoredAction(running.envelope), running.envelope.scope, aborted, usage);
    }

    /** A resolved adapter: the run succeeds only if it is still running. */
    method Succeed(id: string, result: Option<Json>, d: Draw) returns (r: RunResult)
      requires Valid() && id in runs
      modifies `runs, `attempts, `receipts, events
      ensures Valid() && Tables() == Perform(old(Tables()), SettleScript(old(Tables()), id, Resolved(result), d))
      ensures r.ok <==> old(runs)[id].status == Running
      ensures !r.ok ==> Tables() == old(Tables())
      ensures id in runs && r.run == Some(runs[id])
      ensures r.ok ==> runs == old(runs)[id := SucceededRow(old(runs)[id], result, d.now)]
    {
      if runs[id].status != Running {
        return RunResult(false, Some(runs[id]), runs[id].status.Name());
      }
      ClosingDoes(Tables(), Tables(), runs[id], {Running}, OutcomePatch(Resolved(result), d), result, false, d);
      var closed := runs[id].(status := Succeeded, result := OrNull(result), error := None,
                              updatedAt := d.now, finishedAt := Some(d.now));
      CloseRun(closed, result, false, d);
      return RunResult(true, Some(runs[id]), "");
    }

    /** A rejected adapter, a timeout or a cancellation: the run fails only if it is still running. */
    method FailRunning(id: string, reason: string, d: Draw) returns (r: RunResult)
      requires Valid() && id in runs
      modifies `runs, `attempts, `receipts, events
      ensures Valid() && Tables() == Perform(old(Tables()), SettleScript(old(Tables()), id, Threw(reason), d))
      ensures !r.ok && r.reason == reason && id in runs && r.run == Some(runs[id])
      ensures old(runs)[id].status == Running ==>
        runs == old(runs)[id := old(runs)[id].(
          status := Failed, error := Some(Clip(reason, 500)), updatedAt := d.now, finishedAt := Some(d.now))]
      ensures old(runs)[id].status != Running ==> Tables() == old(Tables())
    {
      if runs[id].status == Running {
        ClosingDoes(Tables(), Tables(), runs[id], {Running}, OutcomePatch(Threw(reason), d), Some(JNull), false, d);
        var closed := runs[id].(status := Failed, error := Some(Clip(reason, 500)), updatedAt := d.now, finishedAt := Some(d.now));
        CloseRun(closed, Some(JNull), false, d);
      }
      return RunResult(false, Some(runs[id]), reason);
    }

    /** The rest of `executeAgencyRun` after its await; the late budget check can no longer fail. */
    method Settle(id: string, race: Race, usage: AgencyUsage, d: Draw) returns (r: RunResult)
      requires Valid() && id in flights && flights[id].invoked
      requires usage.Valid() && usage.budget == claimed[id].envelope.budget
      modifies `runs, `attempts, `receipts, `flights, `claimed, events
      ensures Valid()
      ensures State() == AgencySystem.Next(old(State()), Finish(id, RaceOutcome(race, old(flights)[id].aborted), d))
      ensures id !in flights
      ensures r.ok <==> race.Won? && id in old(runs) && old(runs)[id].status == Running
      ensures id in runs && r.run == Some(runs[id]) && id in old(runs)
      ensures r.ok ==> runs == old(runs)[id := SucceededRow(old(runs)[id], race.result, d.now)]
      ensures old(runs)[id].status == Running && !race.Won? ==>
        runs == old(runs)[id := old(runs)[id].(
          status := Failed, error := Some(Clip(FailureReason(race, old(flights)[id].aborted), 500)),
          updatedAt := d.now, finishedAt := Some(d.now))]
      ensures old(runs)[id].status != Running ==> Tables() == old(Tables())
    {
      FinishDoes(State(), id, RaceOutcome(race, flights[id].aborted), d);
      var timedOut, aborted := race.TimedOut?, flights[id].aborted || race.TimedOut?;
      var running := claimed[id];
      flights := flights - {id};
      claimed := claimed - {id};
      assert Granted(running.envelope.budget);
      if race.Won? {
        if usage.llmCalls > running.envelope.budget.maxLlm || usage.toolCalls > running.envelope.budget.maxTool {
          assert false;
        }
        r := Succeed(id, race.result, d);
      } else {
        var reason := if timedOut then "agency budget timeout" else if aborted then "agency run cancelled" else race.message;
        r := FailRunning(id, reason, d);
      }
    }

    /** `recordObservedAgencyOutcome`: settles an open speak or ask run from a delivery that already happened. */
    method Observe(o: Observation, d: Draw) returns (r: RunResult)
      requires Valid()
      modifies `runs, `attempts, `receipts, events
      ensures Valid() && State() == AgencySystem.Next(old(State()), Witness(o, d))
      ensures r.ok ==> o.run in runs && r.run == Some(runs[o.run]) && runs[o.run].status == Succeeded
      ensures o.run in old(runs) && old(runs)[o.run].status == Running ==> Tables() == old(Tables()) && !r.ok
      ensures o.run in old(runs) && Settles(old(runs)[o.run], o) ==>
        runs == old(runs)[o.run := ObservedRow(old(runs)[o.run], o, d.now)] && (r.ok <==> o.succeeded)
      ensures o.run in old(runs) && !Settles(old(runs)[o.run], o) ==> Tables() == old(Tables())
    {
      WitnessDoes(State(), o, d);
      r := ObserveRun(o, d);
    }

    method ObserveRun(o: Observation, d: Draw) returns (r: RunResult)
      requires Valid()
      modifies `runs, `attempts, `receipts, events
      ensures Valid() && Tables() == Perform(old(Tables()), ObserveScript(old(Tables()), o, d))
      ensures r.ok ==> o.run in runs && r.run == Some(runs[o.run]) && runs[o.run].status == Succeeded
      ensures o.run in old(runs) && old(runs)[o.run].status == Running ==> Tables() == old(Tables()) && !r.ok
      ensures o.run in old(runs) && Settles(old(runs)[o.run], o) ==>
        runs == old(runs)[o.run := ObservedRow(old(runs)[o.run], o, d.now)] && (r.ok <==> o.succeeded)
      ensures o.run in old(runs) && !Settles(old(runs)[o.run], o) ==> Tables() == old(Tables())
    {
      SettlesIsObservable(Tables(), o);
      if !Observable(Tables(), o) {
        NothingObserved(Tables(), o, d);
      }
      if o.run !in runs {
        return RunResult(false, None, "run not found");
      }
      var initial := runs[o.run];
      if initial.status.Terminal() {
        return RunResult(initial.status == Succeeded, Some(initial), initial.status.Name());
      }
      var refused := ObservationError(initial, o);
      if refused.Some? {
        return RunResult(false, Some(initial), refused.value);
      }
      if initial.status !in OPEN {
        return RunResult(false, Some(initial), "run already claimed");
      }
      ObserveDoes(Tables(), o, d);
      r := RecordObserved(o, d);
    }

    /** Claim and settle in one block. */
    method RecordObserved(o: Observation, d: Draw) returns (r: RunResult)
      requires Valid() && o.run in runs && runs[o.run].status in OPEN
      modifies `runs, `attempts, `receipts, events
      ensures Valid() && Tables() == ObservedTables(old(Tables()), o, d)
      ensures r.ok <==> o.succeeded
      ensures o.run in runs && r.run == Some(runs[o.run]) && runs[o.run].status == if o.succeeded then Succeeded else Failed
      ensures runs == old(runs)[o.run := ObservedRow(old(runs)[o.run], o, d.now)]
    {
      ClaimRun(o.run, d);
      var closed := runs[o.run].(status := if o.succeeded then Succeeded else Failed, result := OrNull(o.result),
                                 error := ObservedError(o), updatedAt := d.now, finishedAt := Some(d.now));
      assert closed == ObservedRow(old(runs)[o.run], o, d.now);
      CloseRun(closed, o.result, true, d);
      return RunResult(o.succeeded, Some(runs[o.run]), if o.succeeded || ObservedError(o).None? then "" else ObservedError(o).value);
    }
  }
}
