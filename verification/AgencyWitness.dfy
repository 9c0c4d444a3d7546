/** Runs the tables hold and the log never reports. */
module AgencyWitness {
  import opened Wrappers
  import opened Text
  import opened Vocabulary
  import Actions
  import opened Envelopes
  import opened Events
  import opened AgencyTables
  import opened AgencyCells
  import opened AgencySystem
  import opened AgencyLedger

  lemma AloneIs(l: Label)
    ensures From(INIT, [l]) == After(INIT, l)
  {
    FromSnoc(INIT, [], l);
    assert [] + [l] == [l];
  }

  /** A new, acceptable envelope becomes a run. */
  lemma Submitted(e: Envelope, d: Draw)
    requires PersistError(e).None?
    ensures var db := From(INIT, [Do(Submit(e, d))]).db;
            e.id in db.runs && db.runs[e.id].envelope == e
  {
    AloneIs(Do(Submit(e, d)));
    var run := Run(e, Pending, 0, JNull, None, d.now, d.now, None, None);
    var emit := Emit(d.flags, RunInput(run, Pending, None, false), d.event, d.now);
    assert ScriptOf(INIT, Submit(e, d)) == Then(InsertRun(e, d.now), Then(emit, Done));
    var db1 := Exec(INIT.db, InsertRun(e, d.now));
    assert Perform(INIT.db, ScriptOf(INIT, Submit(e, d))) == Perform(db1, Then(emit, Done)) == Exec(db1, emit);
  }

  /** If the log does not accept the ids of an envelope, the envelope's run exists all the same, unreported. */
  lemma AdmittedUnreported(e: Envelope, d: Draw)
    requires PersistError(e).None? && !IdsFit(e) && SoundDraw(INIT.db, d)
    ensures var db := From(INIT, [Do(Submit(e, d))]).db;
            SoundRun([Do(Submit(e, d))]) && e.id in db.runs && TrailOf(db.store.log, e.id) == []
  {
    Submitted(e, d);
    assert [Do(Submit(e, d))][..0] == [];
    TraceExact([Do(Submit(e, d))], e.id);
  }

  /** An envelope as a caller other than the builder may hand it in: its cause has 241 characters. */
  const LONG_CAUSE := Envelope(
    "run", "run", Some(seq(241, _ => 'c')), ChatScope(7), Actions.AsRaw(Actions.Say("hello", None)), Reversible, DEFAULT_BUDGET, None, "key", 100, None)

  lemma CauseTooLong(cause: string)
    requires |cause| == 241 && Tight(cause)
    ensures Bounded(Some(cause), 240).Err?
  {
    TrimIs(cause);
  }

  lemma HelloAdmitted()
    ensures PersistError(LONG_CAUSE).None?
  {
    TrimIs("run");
    TrimIs("key");
    Actions.MessageReadsBack(Actions.Say("hello", None));
  }

  lemma LongCauseRefused()
    ensures !IdsFit(LONG_CAUSE)
  {
    CauseTooLong(seq(241, _ => 'c'));
  }

  /** A run submitted with it is in the table, and the log holds nothing of it. */
  lemma LongCauseUnreported(d: Draw)
    requires SoundDraw(INIT.db, d)
    ensures var db := From(INIT, [Do(Submit(LONG_CAUSE, d))]).db;
            "run" in db.runs && TrailOf(db.store.log, "run") == []
  {
    HelloAdmitted();
    LongCauseRefused();
    AdmittedUnreported(LONG_CAUSE, d);
  }

  // ---- ids too long for a dedupe key ----

  lemma RunKeyLength(id: string)
    ensures Tight(Render(RunEvent(id, Succeeded, 1))) && |Render(RunEvent(id, Succeeded, 1))| == |id| + 23
  {
    var key := Render(RunEvent(id, Succeeded, 1));
    assert key == "agency-run" + ":" + (id + ":" + "succeeded" + ":" + "1");
    assert key[0] == 'a' && key[|key| - 1] == '1';
  }

  /** The key of a success leaves 217 characters for the id of its run. */
  lemma SuccessKeyFitsIff(id: string)
    ensures KeyFits(Some(RunEvent(id, Succeeded, 1))) <==> |id| <= 217
  {
    RunKeyLength(id);
    TrimIs(Render(RunEvent(id, Succeeded, 1)));
  }

  /** A claimed run with a longer id succeeds without an event, in every state and under every draw. */
  lemma LongIdNeverReported(st: Store, run: Run, receipt: Option<nat>, observed: bool, d: Draw)
    requires |run.envelope.id| > 217 && run.attempt == 1
    ensures Append(st, d.flags, RunInput(run, Succeeded, receipt, observed), d.event, d.now).0 == st
  {
    SuccessKeyFitsIff(run.envelope.id);
  }
}
