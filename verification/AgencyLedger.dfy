/** Receipts and log events of runs over whole histories, with and without crashes. */
module AgencyLedger {
  import opened Wrappers
  import opened Text
  import opened Vocabulary
  import opened Envelopes
  import opened Events
  import opened AgencyTables
  import opened AgencyCells
  import opened AgencyInvariant
  import opened AgencyBlocks
  import opened AgencySystem
  import opened AgencyTheorems

  // ---- crash-free histories ----

  /** A completed block whose draws are sound: events on, a positive clock, an event id not yet used. */
  ghost predicate SoundStep(s: Sys, l: Label) {
    && l.Do? && Permitted(l)
    && (!l.op.Invoke? && !l.op.Other? ==> SoundDraw(s.db, DrawOf(l.op)))
  }

  ghost predicate SoundRun(labels: seq<Label>)
    decreases |labels|
  {
    labels != [] ==> SoundRun(labels[..|labels| - 1]) && SoundStep(From(INIT, labels[..|labels| - 1]), labels[|labels| - 1])
  }

  lemma {:induction false} SoundIsPermitted(labels: seq<Label>)
    requires SoundRun(labels)
    ensures AllPermitted(labels)
  {
    if labels != [] {
      SoundIsPermitted(labels[..|labels| - 1]);
      assert labels == labels[..|labels| - 1] + [labels[|labels| - 1]];
    }
  }

  ghost predicate CellsFull(db: Db) {
    forall id :: CellFull(Project(db, id), id)
  }

  lemma SoundStepKeepsFull(s: Sys, l: Label)
    requires SysOk(s) && CellsFull(s.db) && SoundStep(s, l)
    ensures CellsFull(After(s, l).db)
  {
    var script := ScriptOf(s, l.op);
    WholeScript(s.db, script);
    ScriptOn(s, l.op);
    forall id ensures CellFull(Project(After(s, l).db, id), id) {
      assert CellFull(Project(s.db, id), id);
      if Subject(l.op) != Some(id) {
        ScriptFrame(s.db, script, Subject(l.op), id, Len(script));
      } else if l.op.Invoke? {
        assert script == Done;
      } else {
        BlockGood(s, l.op);
      }
    }
  }

  lemma {:induction false} SoundRunIsFull(labels: seq<Label>)
    requires SoundRun(labels)
    ensures SysOk(From(INIT, labels)) && CellsFull(From(INIT, labels).db)
  {
    SoundIsPermitted(labels);
    ReachableOk(labels);
    if labels == [] {
      forall id ensures CellFull(Project(INIT.db, id), id) {
        assert Project(INIT.db, id) == Cell(None, map[], [], []);
      }
    } else {
      var init := labels[..|labels| - 1];
      SoundRunIsFull(init);
      SoundStepKeepsFull(From(INIT, init), labels[|labels| - 1]);
    }
  }

  // ---- ledger ----

  /** Every block ran to its end; nothing is asked of the log, the clock or the ids drawn. */
  ghost predicate CrashFree(labels: seq<Label>) {
    forall l :: l in labels ==> l.Do?
  }

  ghost predicate LedgersFull(db: Db) {
    forall id :: LedgerFull(Project(db, id), id)
  }

  lemma StepKeepsLedger(s: Sys, l: Label)
    requires SysOk(s) && LedgersFull(s.db) && l.Do? && Permitted(l)
    ensures LedgersFull(After(s, l).db)
  {
    var script := ScriptOf(s, l.op);
    WholeScript(s.db, script);
    ScriptOn(s, l.op);
    forall id ensures LedgerFull(Project(After(s, l).db, id), id) {
      assert LedgerFull(Project(s.db, id), id);
      if Subject(l.op) != Some(id) {
        ScriptFrame(s.db, script, Subject(l.op), id, Len(script));
      } else if l.op.Invoke? {
        assert script == Done;
      } else {
        BlockGood(s, l.op);
      }
    }
  }

  lemma {:induction false} CrashFreeIsFull(labels: seq<Label>)
    requires AllPermitted(labels) && CrashFree(labels)
    ensures SysOk(From(INIT, labels)) && LedgersFull(From(INIT, labels).db)
  {
    ReachableOk(labels);
    if labels == [] {
      forall id ensures LedgerFull(Project(INIT.db, id), id) {
        assert Project(INIT.db, id) == Cell(None, map[], [], []);
      }
    } else {
      var init := labels[..|labels| - 1];
      assert forall l :: l in init ==> l in labels;
      assert labels[|labels| - 1] in labels;
      CrashFreeIsFull(init);
      StepKeepsLedger(From(INIT, init), labels[|labels| - 1]);
    }
  }

  /**
   * Without crashes, whatever the log is configured to do, every finished run has exactly one
   * receipt, with the run's status and error and, if it succeeded, its result; a claimed run has
   * exactly one attempt row, agreeing with it in the same way; a run closed before any claim has none, and its receipt refers to NULL.
   */
  lemma LedgerAgrees(labels: seq<Label>, id: string)
    requires AllPermitted(labels) && CrashFree(labels) && id in From(INIT, labels).db.runs
    ensures var db := From(INIT, labels).db;
            var r := db.runs[id];
            && (r.status.Terminal() ==>
                  && |ReceiptsOf(db.receipts, id)| == 1
                  && var receipt := ReceiptsOf(db.receipts, id)[0];
                     && receipt.status == r.status && receipt.error == r.error && Echoes(receipt.result, r)
                     && receipt.attempt == (if r.attempt == 1 then Some(1) else None))
            && (!r.status.Terminal() ==> ReceiptsOf(db.receipts, id) == [])
            && (r.attempt == 1 ==> AttemptsOf(db, id).Keys == {1} && AttemptsOf(db, id)[1].status == r.status)
            && (r.attempt == 1 && r.status.Terminal() ==> Agrees(AttemptsOf(db, id)[1], r))
            && (r.attempt == 0 ==> AttemptsOf(db, id) == map[])
  {
    CrashFreeIsFull(labels);
    assert LedgerFull(Project(From(INIT, labels).db, id), id);
  }

  /** With crashes anywhere there is still never more than one receipt, and never a wrong one. */
  lemma NeverTwoReceipts(labels: seq<Label>, id: string)
    requires AllPermitted(labels)
    ensures var db := From(INIT, labels).db;
            var receipts := ReceiptsOf(db.receipts, id);
            && |receipts| <= 1
            && (|receipts| == 1 ==>
                  && id in db.runs && db.runs[id].status.Terminal() && receipts[0].status == db.runs[id].status
                  && receipts[0].error == db.runs[id].error && Echoes(receipts[0].result, db.runs[id]))
            && (1 in AttemptsOf(db, id) && AttemptsOf(db, id)[1].status != Running ==>
                  id in db.runs && Agrees(AttemptsOf(db, id)[1], db.runs[id]))
  {
    ReachableOk(labels);
    assert CellOk(Project(From(INIT, labels).db, id), id);
  }

  // ---- trace ----

  function States(trail: seq<Event>): seq<RunStatus>
    requires forall e :: e in trail ==> e.fact.RunFact?
  {
    seq(|trail|, i requires 0 <= i < |trail| => trail[i].fact.state)
  }

  function If(b: bool, s: RunStatus): seq<RunStatus> {
    if b then [s] else []
  }

  /** Strictly rising ranks leave room for three states only. */
  lemma StatesShape(states: seq<RunStatus>, s: RunStatus) returns (p: bool, w: bool, t: bool)
    requires forall i :: 0 <= i < |states| ==> states[i] in {Pending, Waiting} || (states[i] == s && s.Terminal())
    requires forall i, j :: 0 <= i < j < |states| ==> Rank(states[i]) < Rank(states[j])
    ensures states == If(p, Pending) + If(w, Waiting) + If(t, s) && (t ==> s.Terminal())
  {
    assert |states| >= 2 ==> Rank(states[0]) < Rank(states[1]);
    assert |states| >= 3 ==> Rank(states[1]) < Rank(states[2]);
    assert |states| >= 4 ==> Rank(states[2]) < Rank(states[3]);
    p := |states| >= 1 && states[0] == Pending;
    w := (|states| >= 1 && states[0] == Waiting) || (|states| >= 2 && states[1] == Waiting);
    t := |states| >= 1 && states[|states| - 1].Terminal();
  }

  lemma TrailShape(trail: seq<Event>, r: Run) returns (p: bool, w: bool, t: bool)
    requires TrailOk(trail, r)
    ensures forall e :: e in trail ==> e.fact.RunFact?
    ensures States(trail) == If(p, Pending) + If(w, Waiting) + If(t, r.status) && (t ==> r.status.Terminal())
  {
    forall i | 0 <= i < |trail| ensures trail[i].fact.RunFact? && (trail[i].fact.state in {Pending, Waiting} || (trail[i].fact.state == r.status && r.status.Terminal())) {
      assert EntryOk(trail[i], r);
    }
    p, w, t := StatesShape(States(trail), r.status);
  }

  /** However often a run is dispatched, and wherever the process dies, the log tells its states in order and none twice. */
  lemma TraceInOrder(labels: seq<Label>, id: string)
    requires AllPermitted(labels) && id in From(INIT, labels).db.runs
    ensures var db := From(INIT, labels).db;
            var trail := TrailOf(db.store.log, id);
            && (forall e :: e in trail ==> e.fact.RunFact?)
            && exists p, w, t :: States(trail) == If(p, Pending) + If(w, Waiting) + If(t, db.runs[id].status)
                                 && (t ==> db.runs[id].status.Terminal())
  {
    ReachableOk(labels);
    var db := From(INIT, labels).db;
    assert CellOk(Project(db, id), id);
    var p, w, t := TrailShape(TrailOf(db.store.log, id), db.runs[id]);
  }

  lemma FullStates(states: seq<RunStatus>, p: bool, w: bool, t: bool, s: RunStatus)
    requires states == If(p, Pending) + If(w, Waiting) + If(t, s) && (t ==> s.Terminal())
    requires states != [] && states[0] == Pending
    requires s == Waiting || s.Terminal() ==> states[|states| - 1] == s
    ensures states == [Pending] + If(w, Waiting) + If(s.Terminal(), s) && (s == Waiting ==> w)
  {
  }

  lemma FullEnds(c: Cell, r: Run)
    requires TrailFull(c, r)
    ensures c.trail != [] && Says(c.trail[0], Pending)
    ensures r.status == Waiting || r.status.Terminal() ==> Says(c.trail[|c.trail| - 1], r.status)
  {
  }

  lemma CellTrace(c: Cell, id: string)
    requires CellFull(c, id) && c.run.Some?
    ensures var r := c.run.value;
            && (forall e :: e in c.trail ==> e.fact.RunFact?)
            && (!IdsFit(r.envelope) ==> c.trail == [])
            && (Loggable(r.envelope) ==>
                  exists w :: States(c.trail) == [Pending] + If(w, Waiting) + If(r.status.Terminal(), r.status)
                              && (r.status == Waiting ==> w))
  {
    var r := c.run.value;
    if Loggable(r.envelope) {
      FullEnds(c, r);
      var p, w, t := TrailShape(c.trail, r);
      FullStates(States(c.trail), p, w, t, r.status);
    }
  }

  /**
   * Without crashes and with events on, the trace of a run the log accepts is exactly pending,
   * perhaps waiting, and the terminal status once it has one; a run the log does not accept
   * leaves no trace at all.
   */
  lemma TraceExact(labels: seq<Label>, id: string)
    requires SoundRun(labels) && id in From(INIT, labels).db.runs
    ensures var db := From(INIT, labels).db;
            var r, trail := db.runs[id], TrailOf(db.store.log, id);
            && (forall e :: e in trail ==> e.fact.RunFact?)
            && (!IdsFit(r.envelope) ==> trail == [])
            && (Loggable(r.envelope) ==>
                  exists w :: States(trail) == [Pending] + If(w, Waiting) + If(r.status.Terminal(), r.status)
                              && (r.status == Waiting ==> w))
  {
    SoundRunIsFull(labels);
    CellTrace(Project(From(INIT, labels).db, id), id);
  }

  predicate Delivers(e: Event, id: string) {
    e.kind == BotDelivery && e.fact.RunFact? && e.fact.run == id
  }

  lemma DeliveredIs(s: Sys, ev: Event, id: string)
    requires SysOk(s) && id in s.db.runs && ev in s.db.store.log && Delivers(ev, id)
    ensures s.db.runs[id].status == Succeeded && s.db.runs[id].Kind() in {Speak, Ask}
  {
    assert CellOk(Project(s.db, id), id);
    TrailIs(s.db.store.log, id);
    assert Linked(ev);
    var i :| 0 <= i < |TrailOf(s.db.store.log, id)| && TrailOf(s.db.store.log, id)[i] == ev;
    assert EntryOk(ev, s.db.runs[id]);
  }

  lemma SuccessIsDelivered(db: Db, id: string)
    requires id in db.runs && AllLinked(db.store.log) && CellFull(Project(db, id), id) && Loggable(db.runs[id].envelope)
    requires db.runs[id].status == Succeeded && db.runs[id].Kind() in {Speak, Ask}
    ensures exists e :: e in db.store.log && Delivers(e, id)
  {
    TrailIs(db.store.log, id);
    var trail := TrailOf(db.store.log, id);
    var last := trail[|trail| - 1];
    assert last in trail && Linked(last) && EntryOk(last, db.runs[id]);
    assert Delivers(last, id);
  }

  /** A delivery event exists only for a succeeded message run, and without crashes for every one the log accepts. */
  lemma DeliveryEventIff(labels: seq<Label>, id: string)
    requires AllPermitted(labels) && id in From(INIT, labels).db.runs
    ensures var db := From(INIT, labels).db;
            var r := db.runs[id];
            var delivered := exists e :: e in db.store.log && Delivers(e, id);
            && (delivered ==> r.status == Succeeded && r.Kind() in {Speak, Ask})
            && (SoundRun(labels) && Loggable(r.envelope) ==>
                  (delivered <==> r.status == Succeeded && r.Kind() in {Speak, Ask}))
  {
    ReachableOk(labels);
    var db := From(INIT, labels).db;
    var r := db.runs[id];
    if e :| e in db.store.log && Delivers(e, id) {
      DeliveredIs(From(INIT, labels), e, id);
    }
    if SoundRun(labels) && Loggable(r.envelope) && r.status == Succeeded && r.Kind() in {Speak, Ask} {
      SoundRunIsFull(labels);
      assert CellFull(Project(db, id), id);
      SuccessIsDelivered(db, id);
    }
  }

  // ---- cancellation ----

  ghost predicate Silenced(s: Sys, id: string) {
    SendsOf(s.sends, id) == 0 && (id in s.flights && !s.flights[id].invoked ==> s.flights[id].aborted)
  }

  lemma SilencedStep(s: Sys, l: Label, id: string)
    requires Finished(s, id) && Silenced(s, id)
    ensures Silenced(After(s, l), id)
  {
    if l.Do? && Sending(s, l.op) {
      SendsAppend(s.sends, l.op.run, id);
    }
  }

  lemma {:induction false} SilencedForever(s: Sys, labels: seq<Label>, id: string)
    requires SysOk(s) && AllPermitted(labels) && Finished(s, id) && Silenced(s, id)
    ensures Silenced(From(s, labels), id)
  {
    if labels != [] {
      var init := labels[..|labels| - 1];
      assert forall l :: l in init ==> l in labels;
      SilencedForever(s, init, id);
      FinishedForever(s, init, id);
      assert Project(From(s, init).db, id).run == Project(s.db, id).run;
      SilencedStep(From(s, init), labels[|labels| - 1], id);
    }
  }

  lemma CancelledRow(db: Db, id: string, reason: string, d: Draw)
    requires id in db.runs && db.runs[id].status in LIVE && db.runs[id].envelope.id == id
    ensures var p := Close(Cancelled, None, Some(Clip(Trim(reason), 500)), d.now);
            Perform(db, CancelScript(db, id, reason, d)).runs == db.runs[id := Patched(db.runs[id], p)]
  {
    var script := CancelScript(db, id, reason, d);
    var db1 := Exec(db, script.stmt);
    WholeScript(db1, script.rest);
    TailLeavesRun(db1, script.rest, Len(script.rest), id);
  }

  lemma CancelPerforms(s: Sys, id: string, reason: string, d: Draw)
    ensures Next(s, Cancel(id, reason, d)).db == Perform(s.db, CancelScript(s.db, id, reason, d))
  {
  }

  lemma CancelCloses(s: Sys, id: string, reason: string, d: Draw)
    requires SysOk(s) && id in s.db.runs && s.db.runs[id].status in LIVE
    ensures var r := Next(s, Cancel(id, reason, d)).db.runs;
            id in r && r[id] == s.db.runs[id].(status := Cancelled, error := Some(Clip(Trim(reason), 500)),
                                               updatedAt := d.now, finishedAt := Some(d.now))
  {
    assert CellOk(Project(s.db, id), id);
    CancelledRow(s.db, id, reason, d);
    CancelPerforms(s, id, reason, d);
  }

  /** A cancelled run has no other receipt and was never reported as delivered. */
  lemma CancelledSays(s: Sys, id: string)
    requires SysOk(s) && id in s.db.runs && s.db.runs[id].status == Cancelled
    ensures forall r :: r in ReceiptsOf(s.db.receipts, id) ==> r.status == Cancelled
    ensures forall ev :: ev in s.db.store.log ==> !Delivers(ev, id)
  {
    assert CellOk(Project(s.db, id), id);
    forall ev | ev in s.db.store.log && Delivers(ev, id) ensures s.db.runs[id].status == Succeeded {
      DeliveredIs(s, ev, id);
    }
  }

  /**
   * After a cancellation of a live run, no later completion, timeout or replay makes it succeed:
   * the row stays cancelled, no success receipt and no delivery event of it ever appears, and
   * if its adapter had not been called yet, a delivery adapter never reaches its transport.
   */
  lemma CancelWins(before: seq<Label>, later: seq<Label>, id: string, reason: string, d: Draw)
    requires AllPermitted(before) && AllPermitted(later)
    requires id in From(INIT, before).db.runs && From(INIT, before).db.runs[id].status in LIVE
    ensures var s := From(INIT, before);
            var e := From(Next(s, Cancel(id, reason, d)), later);
            && id in e.db.runs && e.db.runs[id].status == Cancelled
            && (forall r :: r in ReceiptsOf(e.db.receipts, id) ==> r.status == Cancelled)
            && (forall ev :: ev in e.db.store.log ==> !Delivers(ev, id))
            && (id in s.flights && !s.flights[id].invoked ==> SendsOf(e.sends, id) == 0)
  {
    ReachableOk(before);
    var s := From(INIT, before);
    var l := Do(Cancel(id, reason, d));
    var s1 := After(s, l);
    CancelCloses(s, id, reason, d);
    StepOk(s, l);
    FinishedForever(s1, later, id);
    StaysOk(s1, later);
    var e := From(s1, later);
    assert Project(e.db, id).run == Project(s1.db, id).run;
    CancelledSays(e, id);
    if id in s.flights && !s.flights[id].invoked {
      CancelSilences(s, id, reason, d);
      SilencedForever(s1, later, id);
    }
  }

  lemma CancelSilences(s: Sys, id: string, reason: string, d: Draw)
    requires SysOk(s) && id in s.flights && !s.flights[id].invoked
    ensures Silenced(Next(s, Cancel(id, reason, d)), id)
  {
    MemoryIsLocal(s);
    assert MemoryAt(s, id);
  }

  /**
   * The missing-adapter update carries no status guard. Were other work able to run between the
   * claim and that update, a cancellation falling there would be overwritten: the block's
   * indivisibility is what protects a finished run.
   */
  lemma UnguardedUpdateNeedsItsBlock(db: Db, id: string, reason: string, d: Draw)
    requires id in db.runs && db.runs[id].status == Pending && db.runs[id].envelope.id == id
    ensures var script := NoAdapterScript(db, id, d);
            var claimed := PerformSome(db, script, 2);
            var cancelled := Perform(claimed, CancelScript(claimed, id, reason, d));
            && id in cancelled.runs && cancelled.runs[id].status == Cancelled
            && script.Then? && script.rest.Then? && script.rest.rest.Then?
            && id in Exec(cancelled, script.rest.rest.stmt).runs
            && Exec(cancelled, script.rest.rest.stmt).runs[id].status == Failed
  {
    var script := NoAdapterScript(db, id, d);
    var db1 := Exec(db, script.stmt);
    var db2 := Exec(db1, script.rest.stmt);
    assert PerformSome(db, script, 2) == PerformSome(db1, script.rest, 1) == PerformSome(db2, script.rest.rest, 0) == db2;
    var cancel := CancelScript(db2, id, reason, d);
    var db3 := Exec(db2, cancel.stmt);
    WholeScript(db3, cancel.rest);
    TailLeavesRun(db3, cancel.rest, Len(cancel.rest), id);
  }
}
