/** What the run protocol guarantees over whole histories. */
module AgencyTheorems {
  import opened Wrappers
  import opened Text
  import opened Vocabulary
  import opened Envelopes
  import opened Policy
  import opened Events
  import opened AgencyTables
  import opened AgencyCells
  import opened AgencyInvariant
  import opened AgencyBlocks
  import opened AgencySystem

  lemma {:induction false} StaysOk(s: Sys, labels: seq<Label>)
    requires SysOk(s) && AllPermitted(labels)
    ensures SysOk(From(s, labels))
  {
    if labels != [] {
      assert forall l :: l in labels[..|labels| - 1] ==> l in labels;
      StaysOk(s, labels[..|labels| - 1]);
      assert labels[|labels| - 1] in labels;
      StepOk(From(s, labels[..|labels| - 1]), labels[|labels| - 1]);
    }
  }

  // ---- at most one invocation per idempotency key ----

  predicate Keyed(db: Db, run: string, key: string) {
    run in db.runs && db.runs[run].envelope.key == key
  }

  function CallsForKey(db: Db, calls: seq<Call>, key: string): nat {
    if calls == [] then 0
    else CallsForKey(db, calls[..|calls| - 1], key) + (if Keyed(db, calls[|calls| - 1].run, key) then 1 else 0)
  }

  function SendsForKey(db: Db, sends: seq<string>, key: string): nat {
    if sends == [] then 0
    else SendsForKey(db, sends[..|sends| - 1], key) + (if Keyed(db, sends[|sends| - 1], key) then 1 else 0)
  }

  lemma {:induction false} KeyCountsAreRunCounts(db: Db, calls: seq<Call>, sends: seq<string>, id: string)
    requires KeysOk(db) && id in db.runs
    ensures CallsForKey(db, calls, db.runs[id].envelope.key) == CallsOf(calls, id)
    ensures SendsForKey(db, sends, db.runs[id].envelope.key) == SendsOf(sends, id)
    decreases |calls| + |sends|
  {
    if calls != [] {
      KeyCountsAreRunCounts(db, calls[..|calls| - 1], [], id);
    }
    if sends != [] {
      KeyCountsAreRunCounts(db, [], sends[..|sends| - 1], id);
    }
  }

  lemma {:induction false} UnusedKey(db: Db, calls: seq<Call>, sends: seq<string>, key: string)
    requires forall id :: !Keyed(db, id, key)
    ensures CallsForKey(db, calls, key) == 0 && SendsForKey(db, sends, key) == 0
    decreases |calls| + |sends|
  {
    if calls != [] {
      UnusedKey(db, calls[..|calls| - 1], [], key);
    }
    if sends != [] {
      UnusedKey(db, [], sends[..|sends| - 1], key);
    }
  }

  /**
   * Over every interleaving of submissions, dispatches, executions, cancellations and observed
   * deliveries, with crashes after any statement: an idempotency key has at most one run, that
   * run is claimed at most once, and its adapter and its transport are called at most once ever.
   */
  lemma AtMostOnceEver(labels: seq<Label>, key: string)
    requires AllPermitted(labels)
    ensures var s := From(INIT, labels);
            && (forall a, b :: Keyed(s.db, a, key) && Keyed(s.db, b, key) ==> a == b)
            && (forall id :: id in s.db.runs ==> s.db.runs[id].attempt <= 1)
            && CallsForKey(s.db, s.calls, key) <= 1
            && SendsForKey(s.db, s.sends, key) <= CallsForKey(s.db, s.calls, key)
  {
    ReachableOk(labels);
    var s := From(INIT, labels);
    forall id | id in s.db.runs ensures s.db.runs[id].attempt <= 1 {
      assert CellOk(Project(s.db, id), id);
    }
    if id :| Keyed(s.db, id, key) {
      KeyCountsAreRunCounts(s.db, s.calls, s.sends, id);
      MemoryIsLocal(s);
      assert MemoryAt(s, id);
    } else {
      UnusedKey(s.db, s.calls, s.sends, key);
    }
  }

  // ---- terminal states absorb ----

  predicate Finished(s: Sys, id: string) {
    id in s.db.runs && s.db.runs[id].status.Terminal()
  }

  /** A step leaves every run but its own subject alone. */
  lemma OthersUntouched(s: Sys, l: Label, id: string)
    requires SysOk(s) && Permitted(l) && Subject(l.op) != Some(id)
    ensures Project(After(s, l).db, id) == Project(s.db, id)
  {
    var script := ScriptOf(s, l.op);
    WholeScript(s.db, script);
    ScriptOn(s, l.op);
    ScriptFrame(s.db, script, Subject(l.op), id, if l.Do? then Len(script) else l.k);
  }

  /** No block has anything to do to a finished run. */
  lemma NothingToDo(s: Sys, op: Op, id: string)
    requires Finished(s, id) && Subject(op) == Some(id)
    ensures ScriptOf(s, op) == Done
  {
  }

  lemma FinishedStep(s: Sys, l: Label, id: string)
    requires SysOk(s) && Permitted(l) && Finished(s, id)
    ensures Project(After(s, l).db, id) == Project(s.db, id)
  {
    if Subject(l.op) == Some(id) {
      NothingToDo(s, l.op, id);
    } else {
      OthersUntouched(s, l, id);
    }
  }

  /** Once a run is finished, its row, its attempt, its receipts and its events never change again. */
  lemma {:induction false} FinishedForever(s: Sys, labels: seq<Label>, id: string)
    requires SysOk(s) && AllPermitted(labels) && Finished(s, id)
    ensures Project(From(s, labels).db, id) == Project(s.db, id)
  {
    if labels != [] {
      var init := labels[..|labels| - 1];
      assert forall l :: l in init ==> l in labels;
      FinishedForever(s, init, id);
      StaysOk(s, init);
      assert Project(From(s, init).db, id).run == Project(s.db, id).run;
      assert labels[|labels| - 1] in labels;
      FinishedStep(From(s, init), labels[|labels| - 1], id);
    }
  }

  // ---- the run table refines a once-register per key ----

  /** What a caller can tell about a key: not yet claimed, claimed, or decided. */
  datatype Register = Unclaimed | InFlight | Decided(status: RunStatus, result: Json)

  function RegisterOf(run: Run): Register {
    if run.status in OPEN then Unclaimed
    else if run.status == Running then InFlight
    else Decided(run.status, run.result)
  }

  ghost function KeyRegister(db: Db, key: string): Register {
    if id :| Keyed(db, id, key) then RegisterOf(db.runs[id]) else Unclaimed
  }

  /** The moves of a once-register: it leaves Unclaimed once and never leaves Decided. */
  predicate RegisterMoves(a: Register, b: Register) {
    a == b || a.Unclaimed? || (a.InFlight? && b.Decided?)
  }

  lemma KeyRegisterIs(db: Db, id: string)
    requires KeysOk(db) && id in db.runs
    ensures KeyRegister(db, db.runs[id].envelope.key) == RegisterOf(db.runs[id])
  {
    assert Keyed(db, id, db.runs[id].envelope.key);
  }

  /** A script that closes a run that is not finished yet. */
  predicate Closes(script: Script, id: string) {
    && script.Then? && script.stmt.UpdateRun? && script.stmt.run == id && script.stmt.from <= LIVE
    && script.stmt.patch.Close? && script.stmt.patch.status.Terminal()
    && IsTail(script.rest)
  }

  predicate IsTail(tail: Script) {
    && tail.Then? && tail.rest.Then? && tail.rest.rest.Then? && tail.rest.rest.rest.Done?
    && tail.stmt.CloseAttempt? && tail.rest.stmt.FileReceipt? && tail.rest.rest.stmt.Emit?
  }

  /** While a run is in flight, a block aimed at it either does nothing or closes it. */
  lemma RunningScript(s: Sys, op: Op, id: string)
    requires Subject(op) == Some(id) && id in s.db.runs && s.db.runs[id].status == Running && s.db.runs[id].envelope.id == id
    ensures ScriptOf(s, op) == Done || Closes(ScriptOf(s, op), id)
  {
  }

  lemma ClosingMoves(db: Db, script: Script, k: nat, id: string)
    requires id in db.runs && db.runs[id].status == Running && Closes(script, id)
    ensures id in PerformSome(db, script, k).runs
    ensures RegisterMoves(InFlight, RegisterOf(PerformSome(db, script, k).runs[id]))
  {
    if k > 0 {
      TailLeavesRun(Exec(db, script.stmt), script.rest, k - 1, id);
    }
  }

  lemma RunningStep(s: Sys, l: Label, id: string)
    requires SysOk(s) && Permitted(l)
    requires id in s.db.runs && s.db.runs[id].status == Running
    ensures id in After(s, l).db.runs
    ensures RegisterMoves(InFlight, RegisterOf(After(s, l).db.runs[id]))
  {
    if Subject(l.op) == Some(id) {
      assert CellOk(Project(s.db, id), id);
      RunningScript(s, l.op, id);
      var script := ScriptOf(s, l.op);
      WholeScript(s.db, script);
      if script.Then? {
        ClosingMoves(s.db, script, if l.Do? then Len(script) else l.k, id);
      }
    } else {
      OthersUntouched(s, l, id);
      assert Project(s.db, id).run.Some?;
    }
  }

  lemma TailLeavesRun(db: Db, tail: Script, k: nat, id: string)
    requires id in db.runs && IsTail(tail)
    ensures PerformSome(db, tail, k).runs == db.runs
  {
    if k > 0 {
      var db1 := Exec(db, tail.stmt);
      if k > 1 {
        var db2 := Exec(db1, tail.rest.stmt);
        OneStatement(db2, tail.rest.rest.stmt, k - 2);
        assert PerformSome(db1, tail.rest, k - 1) == PerformSome(db2, tail.rest.rest, k - 2);
      }
    }
  }

  /** Every step of the protocol, cut short or not, is a move of the register of every key. */
  lemma StepRefinesRegister(s: Sys, l: Label, key: string)
    requires SysOk(s) && Permitted(l)
    ensures RegisterMoves(KeyRegister(s.db, key), KeyRegister(After(s, l).db, key))
  {
    StepOk(s, l);
    if id :| Keyed(s.db, id, key) {
      KeyRegisterIs(s.db, id);
      var script := ScriptOf(s, l.op);
      WholeScript(s.db, script);
      ScriptGrows(s.db, script, if l.Do? then Len(script) else l.k);
      KeyRegisterIs(After(s, l).db, id);
      if s.db.runs[id].status.Terminal() {
        FinishedStep(s, l, id);
        assert Project(After(s, l).db, id).run == Project(s.db, id).run;
      } else if s.db.runs[id].status == Running {
        RunningStep(s, l, id);
      }
    }
  }

  /** So once decided, a key answers the same outcome in every later state. */
  lemma {:induction false} DecidedForever(s: Sys, labels: seq<Label>, key: string)
    requires SysOk(s) && AllPermitted(labels) && KeyRegister(s.db, key).Decided?
    ensures KeyRegister(From(s, labels).db, key) == KeyRegister(s.db, key)
  {
    if labels != [] {
      var init := labels[..|labels| - 1];
      assert forall l :: l in init ==> l in labels;
      DecidedForever(s, init, key);
      StaysOk(s, init);
      assert labels[|labels| - 1] in labels;
      StepRefinesRegister(From(s, init), labels[|labels| - 1], key);
    }
  }
}
