/** Each synchronous block keeps its cell's invariant at every statement and completes it at the end. */
module AgencyBlocks {
  import opened Wrappers
  import opened Text
  import opened Vocabulary
  import opened Envelopes
  import opened Events
  import opened AgencyTables
  import opened AgencyCells
  import opened AgencyInvariant

  /** A script keeps the cell at every prefix; at its end it keeps the ledger full, and with sound draws the log too. */
  ghost predicate Good(db: Db, script: Script, id: string, d: Draw) {
    && Safe(db, script, id)
    && (LedgerFull(Project(db, id), id) ==> LedgerFull(Project(Perform(db, script), id), id))
    && (SoundDraw(db, d) && CellFull(Project(db, id), id) ==> CellFull(Project(Perform(db, script), id), id))
  }

  ghost predicate Ready(db: Db, id: string) {
    CellOk(Project(db, id), id) && AllLinked(db.store.log)
  }

  lemma NothingDone(db: Db, id: string, d: Draw)
    requires Ready(db, id)
    ensures Good(db, Done, id, d)
  {
  }

  // ---- closing ----

  predicate ClosesTo(run: Run, status: RunStatus) {
    if run.attempt == 0 then status in {Cancelled, Expired} else status in {Succeeded, Failed, Cancelled}
  }

  lemma NotReportedYet(c: Cell, id: string)
    requires CellOk(c, id) && c.run.Some? && !c.run.value.status.Terminal()
    ensures c.receipts == [] && NotReported(c.trail)
    ensures 1 in c.attempts ==> c.attempts[1].status == Running
    ensures LedgerFull(c, id) ==> Opened(c)
    ensures CellFull(c, id) ==> Startable(c)
  {
  }

  lemma CloseTheRun(c: Cell, id: string, from: set<RunStatus>, p: Patch)
    requires CellOk(c, id) && c.run.Some? && !c.run.value.status.Terminal() && c.run.value.status in from
    requires p.Close? && ClosesTo(c.run.value, p.status)
    ensures JustClosed(CellUpdate(c, from, p), id)
    ensures Opened(c) ==> Opened(CellUpdate(c, from, p))
    ensures Startable(c) ==> Startable(CellUpdate(c, from, p))
  {
    NotReportedYet(c, id);
  }

  /** The closing block of cancel, expire, settle, observe and the missing adapter. */
  lemma ClosingSafe(db: Db, at: Db, run: Run, from: set<RunStatus>, p: Patch, result: Option<Json>, observed: bool, d: Draw)
    requires Ready(db, run.envelope.id) && Project(db, run.envelope.id).run == Some(run)
    requires !run.status.Terminal() && run.status in from && p.Close? && ClosesTo(run, p.status)
    requires at.receipts == db.receipts && Echoes(result, Patched(run, p))
    ensures var script, id := Closing(at, run, from, p, result, observed, d), run.envelope.id;
            && Safe(db, script, id)
            && Completes(db, Perform(db, script), id, d)
  {
    var id := run.envelope.id;
    var script := Closing(at, run, from, p, result, observed, d);
    NotReportedYet(Project(db, id), id);
    assert ReportedReceipt(at, id, Patched(run, p).attempt, d.receipt) == d.receipt;
    ProjectUpdate(db, id, from, p);
    CloseTheRun(Project(db, id), id, from, p);
    var db1 := Exec(db, script.stmt);
    TailSafe(db1, Patched(run, p), result, observed, d);
    assert script.rest == Tail(Patched(run, p), d.receipt, result, observed, d);
  }

  lemma CancelGood(db: Db, id: string, reason: string, d: Draw)
    requires Ready(db, id)
    ensures Good(db, CancelScript(db, id, reason, d), id, d)
  {
    if id in db.runs && db.runs[id].status in LIVE {
      ClosingSafe(db, db, db.runs[id], LIVE, Close(Cancelled, None, Some(Clip(Trim(reason), 500)), d.now), Some(JNull), false, d);
      NotReportedYet(Project(db, id), id);
    }
  }

  lemma ExpireGood(db: Db, id: string, d: Draw)
    requires Ready(db, id)
    ensures Good(db, ExpireScript(db, id, d), id, d)
  {
    if id in db.runs && db.runs[id].status in OPEN {
      ClosingSafe(db, db, db.runs[id], OPEN, Close(Expired, None, Some("envelope expired"), d.now), Some(JNull), false, d);
      NotReportedYet(Project(db, id), id);
    }
  }

  lemma SettleGood(db: Db, id: string, outcome: Outcome, d: Draw)
    requires Ready(db, id)
    ensures Good(db, SettleScript(db, id, outcome, d), id, d)
  {
    if id in db.runs && db.runs[id].status == Running {
      ClosingSafe(db, db, db.runs[id], {Running}, OutcomePatch(outcome, d), OutcomeResult(outcome), false, d);
      NotReportedYet(Project(db, id), id);
    }
  }

  // ---- creating and deferring ----

  /** The first event of a run that has just been stored. */
  lemma CreationReported(db: Db, run: Run, d: Draw)
    requires AllLinked(db.store.log) && run.status == Pending && run.attempt == 0 && run.finishedAt.None?
    requires Project(db, run.envelope.id) == Cell(Some(run), map[], [], [])
    ensures var next := Exec(db, Emit(d.flags, RunInput(run, Pending, None, false), d.event, d.now));
            && Ready(next, run.envelope.id) && LedgerFull(Project(next, run.envelope.id), run.envelope.id)
            && (SoundDraw(db, d) ==> CellFull(Project(next, run.envelope.id), run.envelope.id))
  {
    var id := run.envelope.id;
    ProjectEmit(db, run, Pending, None, false, d);
    var c2 := Project(Exec(db, Emit(d.flags, RunInput(run, Pending, None, false), d.event, d.now)), id);
    if c2.trail != [] {
      var ev :| c2.trail == [] + [ev] && ev.fact == RunInput(run, Pending, None, false).fact;
      assert c2.trail == [ev];
    }
  }

  lemma CreateGood(db: Db, e: Envelope, d: Draw)
    requires Ready(db, e.id)
    ensures Good(db, CreateScript(db, e, d), e.id, d)
  {
    var script := CreateScript(db, e, d);
    if script.Then? {
      var run := Run(e, Pending, 0, JNull, None, d.now, d.now, None, None);
      var db1 := Exec(db, script.stmt);
      assert Project(db1, e.id) == Project(db, e.id).(run := Some(run));
      CreationReported(db1, run, d);
      var db2 := Exec(db1, script.rest.stmt);
      assert Safe(db2, Done, e.id);
      SafeThen(db1, script.rest, e.id);
      SafeThen(db, script, e.id);
      assert Perform(db, script) == Perform(db1, script.rest) == db2;
    }
  }

  lemma DeferTheRun(c: Cell, id: string, p: Patch)
    requires CellOk(c, id) && c.run.Some? && c.run.value.status in OPEN && p.DeferIt?
    ensures CellOk(CellUpdate(c, OPEN, p), id)
    ensures CellUpdate(c, OPEN, p).run == Some(Patched(c.run.value, p))
  {
  }

  lemma WaitingJoins(trail: seq<Event>, r: Run, e: Event)
    requires TrailOk(trail, r) && NotReported(trail) && !Reported(trail, Waiting, 0)
    requires r.attempt == 0 && EntryOk(e, r) && Says(e, Waiting)
    ensures TrailOk(trail + [e], r)
  {
    forall i | 0 <= i < |trail| ensures Rank(trail[i].fact.state) == 0 {
      assert trail[i] in trail;
    }
  }

  /** A waiting run whose trail already says so has said so last. */
  lemma WaitingIsLast(trail: seq<Event>, r: Run)
    requires TrailOk(trail, r) && NotReported(trail) && Reported(trail, Waiting, 0)
    ensures |trail| >= 1 && Says(trail[|trail| - 1], Waiting)
  {
    var e :| e in trail && e.fact.RunFact? && e.fact.state == Waiting && e.fact.attempt == 0;
    var i :| 0 <= i < |trail| && trail[i] == e;
    assert i == |trail| - 1 || Rank(trail[i].fact.state) < Rank(trail[|trail| - 1].fact.state);
  }

  lemma DeferGood(db: Db, id: string, reason: string, d: Draw)
    requires Ready(db, id)
    ensures Good(db, DeferScript(db, id, reason, d), id, d)
  {
    var script := DeferScript(db, id, reason, d);
    if script.Then? {
      var c := Project(db, id);
      var p := script.stmt.patch;
      NotReportedYet(c, id);
      ProjectUpdate(db, id, OPEN, p);
      DeferTheRun(c, id, p);
      var db1 := Exec(db, script.stmt);
      var c1 := Project(db1, id);
      var run := c1.run.value;
      DeferEnds(db1, id, d);
      assert Safe(db1, script.rest, id) && Perform(db, script) == Perform(db1, script.rest);
    }
  }

  lemma WaitingReported(db: Db, run: Run, d: Draw)
    requires Ready(db, run.envelope.id) && Project(db, run.envelope.id).run == Some(run) && run.status == Waiting
    ensures var next := Exec(db, Emit(d.flags, RunInput(run, Waiting, None, false), d.event, d.now));
            && Ready(next, run.envelope.id)
            && Completes(db, next, run.envelope.id, d)
  {
    var id := run.envelope.id;
    var c := Project(db, id);
    NotReportedYet(c, id);
    ProjectEmit(db, run, Waiting, None, false, d);
    var c' := Project(Exec(db, Emit(d.flags, RunInput(run, Waiting, None, false), d.event, d.now)), id);
    if c'.trail != c.trail {
      var e :| c'.trail == c.trail + [e] && e.fact == RunInput(run, Waiting, None, false).fact;
      WaitingJoins(c.trail, run, e);
    } else if Reported(c.trail, Waiting, 0) {
      WaitingIsLast(c.trail, run);
    }
  }

  lemma DeferEnds(db: Db, id: string, d: Draw)
    requires Ready(db, id) && id in db.runs && db.runs[id].status == Waiting
    ensures var emit := Then(Emit(d.flags, RunInput(db.runs[id], Waiting, None, false), d.event, d.now), Done);
            && Safe(db, emit, id)
            && Completes(db, Perform(db, emit), id, d)
  {
    var emit := Then(Emit(d.flags, RunInput(db.runs[id], Waiting, None, false), d.event, d.now), Done);
    WaitingReported(db, db.runs[id], d);
    assert Safe(Exec(db, emit.stmt), Done, id);
    SafeThen(db, emit, id);
    assert Perform(db, emit) == Exec(db, emit.stmt);
  }

  // ---- claiming ----

  lemma ClaimTheRun(c: Cell, id: string, ts: int)
    requires CellOk(c, id) && c.run.Some? && c.run.value.status in OPEN
    ensures var c1 := CellUpdate(c, OPEN, ClaimIt(ts));
            var c2 := CellOpen(c1, c.run.value.attempt + 1, ts);
            && CellOk(c1, id) && CellOk(c2, id)
            && c2.run == Some(Patched(c.run.value, ClaimIt(ts)))
            && (LedgerFull(c, id) ==> Opened(c2) && LedgerFull(c2, id))
            && (CellFull(c, id) ==> Startable(c2) && CellFull(c2, id))
  {
    NotReportedYet(c, id);
  }

  /** The claim and whatever safe script follows it. */
  lemma ClaimingSafe(db: Db, id: string, d: Draw, rest: Script)
    requires Ready(db, id) && id in db.runs && db.runs[id].status in OPEN
    ensures var run := db.runs[id];
            var db2 := Exec(Exec(db, UpdateRun(id, OPEN, ClaimIt(d.now))), OpenAttempt(id, run.attempt + 1, d.now));
            && db2.receipts == db.receipts && db2.store == db.store && Ready(db2, id)
            && id in db2.runs && db2.runs[id] == Claimed(run, d)
            && (LedgerFull(Project(db, id), id) ==> Opened(Project(db2, id)) && LedgerFull(Project(db2, id), id))
            && (CellFull(Project(db, id), id) ==> Startable(Project(db2, id)) && CellFull(Project(db2, id), id))
            && (Safe(db2, rest, id) ==> Safe(db, Claiming(run, d, rest), id))
            && Perform(db, Claiming(run, d, rest)) == Perform(db2, rest)
  {
    var run := db.runs[id];
    ProjectUpdate(db, id, OPEN, ClaimIt(d.now));
    var db1 := Exec(db, UpdateRun(id, OPEN, ClaimIt(d.now)));
    ProjectOpen(db1, id, run.attempt + 1, d.now);
    ClaimTheRun(Project(db, id), id, d.now);
    var db2 := Exec(db1, OpenAttempt(id, run.attempt + 1, d.now));
    var script := Claiming(run, d, rest);
    assert script.stmt == UpdateRun(id, OPEN, ClaimIt(d.now));
    assert Safe(db2, rest, id) ==> Safe(db1, script.rest, id);
    assert Perform(db, script) == Perform(db1, script.rest) == Perform(db2, rest);
  }

  lemma ClaimGood(db: Db, id: string, d: Draw)
    requires Ready(db, id) && id in db.runs && db.runs[id].status in OPEN
    ensures Good(db, ClaimScript(db, id, d), id, d)
  {
    ClaimingSafe(db, id, d, Done);
  }

  /** Claim and close in one block: an observed delivery, or an execution without adapter. */
  lemma ClaimAndClose(db: Db, id: string, from: set<RunStatus>, p: Patch, result: Option<Json>, observed: bool, d: Draw)
    requires Ready(db, id) && id in db.runs && db.runs[id].status in OPEN
    requires Running in from && p.Close? && p.status in {Succeeded, Failed} && Echoes(result, Patched(Claimed(db.runs[id], d), p))
    ensures var run := db.runs[id];
            Good(db, Claiming(run, d, Closing(WithAttempt(db, run, d), Claimed(run, d), from, p, result, observed, d)), id, d)
  {
    var run := db.runs[id];
    var db2 := Exec(Exec(db, UpdateRun(id, OPEN, ClaimIt(d.now))), OpenAttempt(id, run.attempt + 1, d.now));
    var at := WithAttempt(db, run, d);
    var rest := Closing(at, Claimed(run, d), from, p, result, observed, d);
    ClaimingSafe(db, id, d, rest);
    ClosingSafe(db2, at, Claimed(run, d), from, p, result, observed, d);
  }

  lemma NoAdapterGood(db: Db, id: string, d: Draw)
    requires Ready(db, id) && id in db.runs && db.runs[id].status in OPEN
    ensures Good(db, NoAdapterScript(db, id, d), id, d)
  {
    ClaimAndClose(db, id, ANY, NoAdapterPatch(db.runs[id], d), Some(JNull), false, d);
  }

  lemma ObserveGood(db: Db, o: Observation, d: Draw)
    requires Ready(db, o.run)
    ensures Good(db, ObserveScript(db, o, d), o.run, d)
  {
    if o.run in db.runs && db.runs[o.run].status in OPEN && ObservationError(db.runs[o.run], o).None? {
      ClaimAndClose(db, o.run, {Running}, ObservedPatch(o, d), o.result, true, d);
    } else {
      NothingDone(db, o.run, d);
    }
  }
}
