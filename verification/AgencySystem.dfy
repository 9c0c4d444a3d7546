/**
 * The run protocol as a transition system. One operation is one synchronous block, which may be
 * cut short after any statement by the death of the process; everything in memory is then lost
 * and every row kept. The adapter is called in a later turn than the claim, so a cancellation
 * can still fall between the two.
 */
module AgencySystem {
  import opened Wrappers
  import opened Vocabulary
  import opened Envelopes
  import opened Policy
  import opened Events
  import opened AgencyTables
  import opened AgencyCells
  import opened AgencyInvariant
  import opened AgencyBlocks

  datatype Adapter = Nothing | Delivery | Custom

  predicate Usable(a: Adapter, kind: ActionKind) {
    a.Custom? || (a.Delivery? && kind in {Speak, Ask})
  }

  /** An execution in memory: claimed, its adapter perhaps called, its controller perhaps aborted. */
  datatype Flight = Flight(adapter: Adapter, invoked: bool, aborted: bool, gate: Option<Config>)

  /** One adapter invocation; gate is the policy under which the run was claimed, None when none was asked. */
  datatype Call = Call(run: string, kind: ActionKind, gate: Option<Config>)

  datatype Sys = Sys(db: Db, flights: map<string, Flight>, calls: seq<Call>, sends: seq<string>)

  const INIT := Sys(EMPTY_DB, map[], [], [])

  datatype Op =
    | Submit(envelope: Envelope, d: Draw)
    | Dispatch(run: string, cfg: Config, adapter: Adapter, d: Draw)
    | Execute(run: string, adapter: Adapter, d: Draw)
    | Invoke(run: string)
    | Finish(run: string, outcome: Outcome, d: Draw)
    | Cancel(run: string, reason: string, d: Draw)
    | Witness(o: Observation, d: Draw)
    | Other(call: AppendCall)

  function Subject(op: Op): Option<string> {
    match op
    case Submit(e, _) => Some(e.id)
    case Dispatch(run, _, _, _) => Some(run)
    case Execute(run, _, _) => Some(run)
    case Invoke(run) => Some(run)
    case Finish(run, _, _) => Some(run)
    case Cancel(run, _, _) => Some(run)
    case Witness(o, _) => Some(o.run)
    case Other(_) => None
  }

  function PolicyOf(run: Run, cfg: Config): Decision {
    Evaluate(cfg, run.envelope.scope, run.Kind(), run.envelope.risk, run.envelope.budget.maxLlm, run.envelope.budget.maxTool)
  }

  /** The block of `executeAgencyRun` up to the point where the adapter is scheduled. */
  function ExecuteScript(db: Db, id: string, adapter: Adapter, d: Draw): Script {
    if id !in db.runs || db.runs[id].status.Terminal() then Done
    else if PastExpiry(db.runs[id], d.now) then ExpireScript(db, id, d)
    else if db.runs[id].status !in OPEN then Done
    else if !Usable(adapter, db.runs[id].Kind()) then NoAdapterScript(db, id, d)
    else ClaimScript(db, id, d)
  }

  predicate Launches(db: Db, id: string, adapter: Adapter, d: Draw) {
    id in db.runs && db.runs[id].status in OPEN && !PastExpiry(db.runs[id], d.now) && Usable(adapter, db.runs[id].Kind())
  }

  predicate Admits(db: Db, op: Op)
    requires op.Dispatch?
  {
    op.run in db.runs && (db.runs[op.run].status.Terminal() || PolicyOf(db.runs[op.run], op.cfg).allowed)
  }

  function ScriptOf(s: Sys, op: Op): Script {
    match op
    case Submit(e, d) => CreateScript(s.db, e, d)
    case Dispatch(run, cfg, adapter, d) =>
      if run !in s.db.runs then Done
      else if Admits(s.db, op) then ExecuteScript(s.db, run, adapter, d)
      else DeferScript(s.db, run, PolicyOf(s.db.runs[run], cfg).reason, d)
    case Execute(run, adapter, d) => ExecuteScript(s.db, run, adapter, d)
    case Invoke(_) => Done
    case Finish(run, outcome, d) =>
      if run in s.flights && s.flights[run].invoked then SettleScript(s.db, run, outcome, d) else Done
    case Cancel(run, reason, d) => CancelScript(s.db, run, reason, d)
    case Witness(o, d) => ObserveScript(s.db, o, d)
    case Other(c) => Then(Emit(c.flags, c.input, c.id, c.now), Done)
  }

  function FlightsAfter(s: Sys, op: Op): map<string, Flight> {
    match op
    case Dispatch(run, cfg, adapter, d) =>
      if Admits(s.db, op) && Launches(s.db, run, adapter, d) then s.flights[run := Flight(adapter, false, false, Some(cfg))]
      else s.flights
    case Execute(run, adapter, d) =>
      if Launches(s.db, run, adapter, d) then s.flights[run := Flight(adapter, false, false, None)] else s.flights
    case Invoke(run) => if run in s.flights then s.flights[run := s.flights[run].(invoked := true)] else s.flights
    case Finish(run, _, _) => if run in s.flights && s.flights[run].invoked then s.flights - {run} else s.flights
    case Cancel(run, _, _) => if run in s.flights then s.flights[run := s.flights[run].(aborted := true)] else s.flights
    case _ => s.flights
  }

  predicate Calling(s: Sys, op: Op) {
    op.Invoke? && op.run in s.flights && !s.flights[op.run].invoked && op.run in s.db.runs
  }

  /** The delivery adapter reaches its transport: not aborted, a scoped chat, a tool call left in the budget. */
  predicate Sending(s: Sys, op: Op) {
    && Calling(s, op)
    && s.flights[op.run].adapter.Delivery? && !s.flights[op.run].aborted
    && var e := s.db.runs[op.run].envelope;
       Scoped(e.scope) && SafeInt(e.scope.chatId.value) && e.budget.maxTool >= 1
  }

  function Next(s: Sys, op: Op): Sys {
    Sys(Perform(s.db, ScriptOf(s, op)), FlightsAfter(s, op),
        if Calling(s, op) then s.calls + [Call(op.run, s.db.runs[op.run].Kind(), s.flights[op.run].gate)] else s.calls,
        if Sending(s, op) then s.sends + [op.run] else s.sends)
  }

  /** A completed block, or the process dying after k of its statements. */
  datatype Label = Do(op: Op) | Die(op: Op, k: nat)

  function After(s: Sys, l: Label): Sys {
    match l
    case Do(op) => Next(s, op)
    case Die(op, k) => Sys(PerformSome(s.db, ScriptOf(s, op), k), map[], s.calls, s.sends)
  }

  function From(s: Sys, labels: seq<Label>): Sys {
    if labels == [] then s else After(From(s, labels[..|labels| - 1]), labels[|labels| - 1])
  }

  /** Other subsystems append only their own kinds of events. */
  predicate Permitted(l: Label) {
    l.op.Other? ==> ForeignInput(l.op.call.input)
  }

  ghost predicate AllPermitted(labels: seq<Label>) {
    forall l :: l in labels ==> Permitted(l)
  }

  lemma FromSnoc(s: Sys, labels: seq<Label>, l: Label)
    ensures From(s, labels + [l]) == After(From(s, labels), l)
  {
    assert (labels + [l])[..|labels|] == labels;
  }

  lemma FromOneMore(s: Sys, a: seq<Label>, b: seq<Label>, l: Label)
    requires From(s, a + b) == From(From(s, a), b)
    ensures From(s, a + (b + [l])) == From(From(s, a), b + [l])
  {
    FromSnoc(s, a + b, l);
    FromSnoc(From(s, a), b, l);
    assert a + (b + [l]) == a + b + [l];
  }

  lemma {:induction false} FromAppends(s: Sys, a: seq<Label>, b: seq<Label>)
    ensures From(s, a + b) == From(From(s, a), b)
    decreases |b|
  {
    if b == [] {
      assert a + b == a;
    } else {
      var init, l := b[..|b| - 1], b[|b| - 1];
      FromAppends(s, a, init);
      assert init + [l] == b;
      FromOneMore(s, a, init, l);
    }
  }

  // ---- what every state satisfies ----

  function CallsOf(calls: seq<Call>, run: string): nat {
    if calls == [] then 0
    else CallsOf(calls[..|calls| - 1], run) + (if calls[|calls| - 1].run == run then 1 else 0)
  }

  function SendsOf(sends: seq<string>, run: string): nat {
    if sends == [] then 0
    else SendsOf(sends[..|sends| - 1], run) + (if sends[|sends| - 1] == run then 1 else 0)
  }

  ghost predicate KeysOk(db: Db) {
    forall a, b :: a in db.runs && b in db.runs && db.runs[a].envelope.key == db.runs[b].envelope.key ==> a == b
  }

  ghost predicate CellsOk(db: Db) {
    AllLinked(db.store.log) && forall id :: CellOk(Project(db, id), id)
  }

  predicate ClaimedOnce(db: Db, id: string) {
    id in db.runs && db.runs[id].attempt == 1
  }

  ghost predicate MemoryOk(s: Sys) {
    && (forall id :: id in s.flights ==> ClaimedOnce(s.db, id) && (!s.flights[id].invoked ==> CallsOf(s.calls, id) == 0))
    && (forall id :: CallsOf(s.calls, id) <= 1 && (CallsOf(s.calls, id) == 1 ==> ClaimedOnce(s.db, id)))
    && (forall id :: SendsOf(s.sends, id) <= CallsOf(s.calls, id))
  }

  ghost predicate SysOk(s: Sys) {
    CellsOk(s.db) && KeysOk(s.db) && MemoryOk(s)
  }

  // ---- scripts stay with their subject ----

  ghost predicate OnlyOn(script: Script, t: Option<string>)
    decreases script
  {
    script.Then? ==> Target(script.stmt) == t && OnlyOn(script.rest, t)
  }

  lemma {:induction false} ScriptFrame(db: Db, script: Script, t: Option<string>, id: string, k: nat)
    requires OnlyOn(script, t) && t != Some(id)
    ensures Project(PerformSome(db, script, k), id) == Project(db, id)
    decreases script
  {
    if script.Then? && k > 0 {
      StatementFrame(db, script.stmt, id);
      ScriptFrame(Exec(db, script.stmt), script.rest, t, id, k - 1);
    }
  }

  lemma ClosingOn(at: Db, run: Run, from: set<RunStatus>, p: Patch, result: Option<Json>, observed: bool, d: Draw)
    ensures OnlyOn(Closing(at, run, from, p, result, observed, d), Some(run.envelope.id))
  {
    var script := Closing(at, run, from, p, result, observed, d);
    var t := Some(run.envelope.id);
    assert OnlyOn(script.rest.rest.rest.rest, t);
    assert OnlyOn(script.rest.rest.rest, t);
    assert OnlyOn(script.rest.rest, t);
    assert OnlyOn(script.rest, t);
  }

  lemma ClaimingOn(run: Run, d: Draw, rest: Script)
    requires OnlyOn(rest, Some(run.envelope.id))
    ensures OnlyOn(Claiming(run, d, rest), Some(run.envelope.id))
  {
    var script := Claiming(run, d, rest);
    assert OnlyOn(script.rest, Some(run.envelope.id));
  }

  lemma ExecuteOn(db: Db, id: string, adapter: Adapter, d: Draw)
    requires CellOk(Project(db, id), id)
    ensures OnlyOn(ExecuteScript(db, id, adapter, d), Some(id))
  {
    if id in db.runs {
      var run := db.runs[id];
      assert run.envelope.id == id;
      ClosingOn(db, run, OPEN, Close(Expired, None, Some("envelope expired"), d.now), Some(JNull), false, d);
      ClosingOn(WithAttempt(db, run, d), Claimed(run, d), ANY, NoAdapterPatch(run, d), Some(JNull), false, d);
      ClaimingOn(run, d, Closing(WithAttempt(db, run, d), Claimed(run, d), ANY, NoAdapterPatch(run, d), Some(JNull), false, d));
      ClaimingOn(run, d, Done);
    }
  }

  lemma ClosersOn(s: Sys, op: Op)
    requires op.Finish? || op.Cancel? || op.Witness?
    requires CellOk(Project(s.db, Subject(op).value), Subject(op).value)
    ensures OnlyOn(ScriptOf(s, op), Subject(op))
  {
    var id := Subject(op).value;
    if ScriptOf(s, op).Then? {
      var run := s.db.runs[id];
      assert run.envelope.id == id;
      match op
      case Finish(_, outcome, d) => ClosingOn(s.db, run, {Running}, OutcomePatch(outcome, d), OutcomeResult(outcome), false, d);
      case Cancel(_, reason, d) => ClosingOn(s.db, run, LIVE, ScriptOf(s, op).stmt.patch, Some(JNull), false, d);
      case Witness(o, d) =>
        var rest := Closing(WithAttempt(s.db, run, d), Claimed(run, d), {Running}, ObservedPatch(o, d), o.result, true, d);
        ClosingOn(WithAttempt(s.db, run, d), Claimed(run, d), {Running}, ObservedPatch(o, d), o.result, true, d);
        ClaimingOn(run, d, rest);
    }
  }

  lemma ScriptOn(s: Sys, op: Op)
    requires CellsOk(s.db) && Permitted(Do(op))
    ensures OnlyOn(ScriptOf(s, op), Subject(op))
  {
    match op
    case Submit(e, d) =>
      var script := CreateScript(s.db, e, d);
      assert script.Then? ==> OnlyOn(script.rest, Some(e.id));
    case Dispatch(run, cfg, adapter, d) =>
      ExecuteOn(s.db, run, adapter, d);
      assert CellOk(Project(s.db, run), run);
      var script := ScriptOf(s, op);
      assert run in s.db.runs && !Admits(s.db, op) && script.Then? ==> OnlyOn(script.rest, Some(run));
    case Execute(run, adapter, d) => ExecuteOn(s.db, run, adapter, d);
    case Invoke(_) =>
    case Other(_) =>
    case _ => ClosersOn(s, op);
  }

  // ---- one block ----

  lemma ExecuteGood(db: Db, id: string, adapter: Adapter, d: Draw)
    requires Ready(db, id)
    ensures Good(db, ExecuteScript(db, id, adapter, d), id, d)
  {
    if id !in db.runs || db.runs[id].status.Terminal() {
    } else if PastExpiry(db.runs[id], d.now) {
      ExpireGood(db, id, d);
    } else if db.runs[id].status !in OPEN {
    } else if !Usable(adapter, db.runs[id].Kind()) {
      NoAdapterGood(db, id, d);
    } else {
      ClaimGood(db, id, d);
    }
  }

  function DrawOf(op: Op): Draw
    requires !op.Invoke? && !op.Other?
  {
    op.d
  }

  /** Every block of the runtime keeps the cell of its run, at every statement and complete at its end. */
  lemma BlockGood(s: Sys, op: Op)
    requires CellsOk(s.db) && !op.Invoke? && !op.Other?
    ensures Good(s.db, ScriptOf(s, op), Subject(op).value, DrawOf(op))
  {
    assert Ready(s.db, Subject(op).value);
    match op
    case Submit(e, d) => CreateGood(s.db, e, d);
    case Dispatch(run, cfg, adapter, d) =>
      if run in s.db.runs && !Admits(s.db, op) {
        DeferGood(s.db, run, PolicyOf(s.db.runs[run], cfg).reason, d);
      } else {
        ExecuteGood(s.db, run, adapter, d);
      }
    case Execute(run, adapter, d) => ExecuteGood(s.db, run, adapter, d);
    case Finish(run, outcome, d) => SettleGood(s.db, run, outcome, d);
    case Cancel(run, reason, d) => CancelGood(s.db, run, reason, d);
    case Witness(o, d) => ObserveGood(s.db, o, d);
  }

  lemma OneStatement(db: Db, stmt: Stmt, k: nat)
    ensures PerformSome(db, Then(stmt, Done), k) == if k == 0 then db else Exec(db, stmt)
  {
    assert k > 0 ==> PerformSome(Exec(db, stmt), Done, k - 1) == Exec(db, stmt);
  }

  lemma BlockKeepsCells(s: Sys, op: Op, k: nat)
    requires CellsOk(s.db) && Permitted(Do(op))
    ensures CellsOk(PerformSome(s.db, ScriptOf(s, op), k))
  {
    var db' := PerformSome(s.db, ScriptOf(s, op), k);
    ScriptOn(s, op);
    if op.Invoke? {
    } else if op.Other? {
      ForeignKeepsLinks(s.db.store, op.call.flags, op.call.input, op.call.id, op.call.now);
      OneStatement(s.db, ScriptOf(s, op).stmt, k);
    } else {
      BlockGood(s, op);
      SafeAnywhere(s.db, ScriptOf(s, op), Subject(op).value, k);
    }
    forall id ensures CellOk(Project(db', id), id) {
      assert CellOk(Project(s.db, id), id);
      if Subject(op) != Some(id) {
        ScriptFrame(s.db, ScriptOf(s, op), Subject(op), id, k);
      }
    }
  }

  // ---- keys and claims only accumulate ----

  /** No statement removes a run, changes its envelope or takes an attempt back. */
  ghost predicate Grown(db: Db, db': Db) {
    forall id :: id in db.runs ==>
      id in db'.runs && db'.runs[id].envelope == db.runs[id].envelope && db'.runs[id].attempt >= db.runs[id].attempt
  }

  lemma StatementGrows(db: Db, s: Stmt)
    ensures Grown(db, Exec(db, s))
    ensures KeysOk(db) ==> KeysOk(Exec(db, s))
  {
    match s
    case InsertRun(_, _) =>
    case UpdateRun(_, _, _) =>
    case _ => assert Exec(db, s).runs == db.runs;
  }

  lemma {:induction false} ScriptGrows(db: Db, script: Script, k: nat)
    ensures Grown(db, PerformSome(db, script, k))
    ensures KeysOk(db) ==> KeysOk(PerformSome(db, script, k))
    decreases script
  {
    if script.Then? && k > 0 {
      StatementGrows(db, script.stmt);
      ScriptGrows(Exec(db, script.stmt), script.rest, k - 1);
    }
  }

  lemma LaunchClaims(db: Db, id: string, d: Draw)
    requires id in db.runs && db.runs[id].status in OPEN && CellOk(Project(db, id), id)
    ensures db.runs[id].attempt == 0
    ensures ClaimedOnce(Perform(db, ClaimScript(db, id, d)), id)
  {
    var script := ClaimScript(db, id, d);
    var db1 := Exec(db, script.stmt);
    assert db1.runs[id].attempt == 1;
    assert Perform(db, script) == Perform(db1, script.rest) == Exec(db1, script.rest.stmt);
  }

  lemma CallsAppend(calls: seq<Call>, c: Call, id: string)
    ensures CallsOf(calls + [c], id) == CallsOf(calls, id) + (if c.run == id then 1 else 0)
  {
    assert (calls + [c])[..|calls|] == calls;
  }

  lemma SendsAppend(sends: seq<string>, r: string, id: string)
    ensures SendsOf(sends + [r], id) == SendsOf(sends, id) + (if r == id then 1 else 0)
  {
    assert (sends + [r])[..|sends|] == sends;
  }

  predicate Remembers(claimed: bool, flight: Option<Flight>, calls: nat, sends: nat) {
    && (flight.Some? ==> claimed && (!flight.value.invoked ==> calls == 0))
    && calls <= 1 && (calls == 1 ==> claimed) && sends <= calls
  }

  function FlightOf(s: Sys, id: string): Option<Flight> {
    if id in s.flights then Some(s.flights[id]) else None
  }

  predicate MemoryAt(s: Sys, id: string) {
    Remembers(ClaimedOnce(s.db, id), FlightOf(s, id), CallsOf(s.calls, id), SendsOf(s.sends, id))
  }

  lemma MemoryIsLocal(s: Sys)
    ensures MemoryOk(s) <==> forall id :: MemoryAt(s, id)
  {
    if MemoryOk(s) {
      forall id ensures MemoryAt(s, id) {
        assert SendsOf(s.sends, id) <= CallsOf(s.calls, id);
      }
    }
    if forall id :: MemoryAt(s, id) {
      forall id
        ensures id in s.flights ==> ClaimedOnce(s.db, id) && (!s.flights[id].invoked ==> CallsOf(s.calls, id) == 0)
        ensures CallsOf(s.calls, id) <= 1 && (CallsOf(s.calls, id) == 1 ==> ClaimedOnce(s.db, id))
        ensures SendsOf(s.sends, id) <= CallsOf(s.calls, id)
      {
        assert MemoryAt(s, id);
      }
    }
  }

  lemma ClaimKept(db: Db, script: Script, k: nat, id: string)
    requires ClaimedOnce(db, id) && CellOk(Project(PerformSome(db, script, k), id), id)
    ensures ClaimedOnce(PerformSome(db, script, k), id)
  {
    ScriptGrows(db, script, k);
  }

  /** How one operation moves a run's flight, calls and sends. */
  lemma FlightMoves(s: Sys, op: Op, id: string)
    requires MemoryAt(s, id)
    ensures var s' := Next(s, op);
            var (f, f') := (FlightOf(s, id), FlightOf(s', id));
            var (c, c') := (CallsOf(s.calls, id), CallsOf(s'.calls, id));
            var (n, n') := (SendsOf(s.sends, id), SendsOf(s'.sends, id));
            || (c' == c && n' == n && (f'.None? || (f.Some? && f'.value.invoked == f.value.invoked)))
            || (c' == c && n' == n && f.Some? && f'.Some? && f.value.invoked)
            || (f.Some? && f'.Some? && !f.value.invoked && f'.value.invoked && c' <= c + 1 && c <= c' && n' <= n + c' - c)
            || (c' == c && n' == n && (op.Dispatch? || op.Execute?) && op.run == id
                && Launches(s.db, id, op.adapter, op.d) && f' != f && (op.Dispatch? ==> Admits(s.db, op)))
  {
    if Calling(s, op) {
      CallsAppend(s.calls, Call(op.run, s.db.runs[op.run].Kind(), s.flights[op.run].gate), id);
      SendsAppend(s.sends, op.run, id);
    }
  }

  lemma LaunchedIsClaimed(s: Sys, op: Op, id: string)
    requires CellOk(Project(s.db, id), id) && (op.Dispatch? || op.Execute?) && op.run == id
    requires Launches(s.db, id, op.adapter, op.d) && (op.Execute? || Admits(s.db, op))
    ensures !ClaimedOnce(s.db, id) && ClaimedOnce(Next(s, op).db, id)
  {
    LaunchClaims(s.db, id, op.d);
    assert ScriptOf(s, op) == ClaimScript(s.db, id, op.d);
  }

  lemma NextKeepsMemory(s: Sys, op: Op, id: string)
    requires CellOk(Project(s.db, id), id) && CellOk(Project(Perform(s.db, ScriptOf(s, op)), id), id)
    requires MemoryAt(s, id)
    ensures MemoryAt(Next(s, op), id)
  {
    WholeScript(s.db, ScriptOf(s, op));
    FlightMoves(s, op, id);
    if ClaimedOnce(s.db, id) {
      ClaimKept(s.db, ScriptOf(s, op), Len(ScriptOf(s, op)), id);
    }
    if (op.Dispatch? || op.Execute?) && op.run == id && Launches(s.db, id, op.adapter, op.d) && (op.Execute? || Admits(s.db, op)) {
      LaunchedIsClaimed(s, op, id);
    }
  }

  lemma StepOk(s: Sys, l: Label)
    requires SysOk(s) && Permitted(l)
    ensures SysOk(After(s, l))
  {
    var s' := After(s, l);
    var script := ScriptOf(s, l.op);
    var k := if l.Do? then Len(script) else l.k;
    WholeScript(s.db, script);
    assert s'.db == PerformSome(s.db, script, k);
    BlockKeepsCells(s, l.op, k);
    ScriptGrows(s.db, script, k);
    StepKeepsMemory(s, l);
  }

  lemma StepKeepsMemory(s: Sys, l: Label)
    requires CellsOk(s.db) && CellsOk(After(s, l).db) && MemoryOk(s)
    ensures MemoryOk(After(s, l))
  {
    var s' := After(s, l);
    MemoryIsLocal(s);
    forall id ensures MemoryAt(s', id) {
      assert CellOk(Project(s.db, id), id) && CellOk(Project(s'.db, id), id);
      assert MemoryAt(s, id);
      if l.Do? {
        NextKeepsMemory(s, l.op, id);
      } else if ClaimedOnce(s.db, id) {
        ClaimKept(s.db, ScriptOf(s, l.op), l.k, id);
      }
    }
    MemoryIsLocal(s');
  }

  lemma InitOk()
    ensures SysOk(INIT)
  {
    forall id ensures CellOk(Project(INIT.db, id), id) {
      assert Project(INIT.db, id) == Cell(None, map[], [], []);
    }
  }

  /** Every state the protocol can reach, crashes included, satisfies the invariant. */
  lemma {:induction false} ReachableOk(labels: seq<Label>)
    requires AllPermitted(labels)
    ensures SysOk(From(INIT, labels))
  {
    if labels == [] {
      InitOk();
    } else {
      assert forall l :: l in labels[..|labels| - 1] ==> l in labels;
      ReachableOk(labels[..|labels| - 1]);
      assert labels[|labels| - 1] in labels;
      StepOk(From(INIT, labels[..|labels| - 1]), labels[|labels| - 1]);
    }
  }
}
