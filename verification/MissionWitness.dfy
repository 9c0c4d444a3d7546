/** A reachable history in which a report dated ahead makes the heartbeat wake its mission every minute. */
module MissionWitness {
  import opened Wrappers
  import opened Text
  import opened Vocabulary
  import opened Events
  import opened Listing
  import opened Projections
  import opened Missions
  import opened MissionTheorems
  import opened MissionQuiet

  const SCOPE := ChatScope(7)
  const FLAGS := Flags(true, false)
  const PROPOSE := EventInput(MissionProposed, SCOPE, Model, Some(100), None, None, None, MissionFact(7, None))
  /** At second 120 the host reports an observation dated 10000, without naming a next wake. */
  const AHEAD := Report(1, SCOPE, Observed, Some(10_000), [], 0, 0, None)

  function Ids(n: nat): nat -> EventId {
    k => n + k
  }

  const PROPOSED: seq<Op> := [Foreign(AppendCall(FLAGS, PROPOSE, 1, 100))]
  const REPORTED: seq<Op> := PROPOSED + [Op.Host(FLAGS, AHEAD, 2)]
  const WOKEN: seq<Op> := REPORTED + [Heartbeat(FLAGS, 120, 20, Ids(3))]
  const WAITED: seq<Op> := WOKEN + [Pass(60)]
  const HISTORY: seq<Op> := WAITED + [Heartbeat(FLAGS, 180, 20, Ids(4))]

  predicate Scoped(e: Event) {
    Ok(e.scopeKey) == ScopeKey(SCOPE)
  }

  predicate IsProposal(e: Event) {
    e.id == 1 && e.kind == MissionProposed && e.fact == MissionFact(7, None) && e.dedupe.None? && Scoped(e)
  }

  predicate IsReport(e: Event) {
    e.kind == MissionObserved && About(e, 1) && Parse(e).value.status == Observed && Parse(e).value.next.None? && e.occurredAt == 10_000
  }

  predicate IsWake(e: Event, t: int) {
    Wakes(e, 1) && e.occurredAt == t && e.fact.wakeAt == t
  }

  /** One mission, its proposal first; small ids; nothing said of it closes it. */
  ghost predicate OneMission(log: seq<Event>) {
    && WellFormed(log) && AllProper(log) && 1 <= |log| <= 9 && IsProposal(log[0])
    && (forall i :: 0 <= i < |log| ==> log[i].id <= 9)
    && (forall i :: 1 <= i < |log| ==> log[i].kind != MissionProposed)
    && (forall i :: 0 <= i < |log| && About(log[i], 1) ==> !Parse(log[i]).value.status.Terminal())
  }

  lemma Shown(log: seq<Event>, scope: Option<Scope>)
    requires scope == None || scope == Some(SCOPE)
    ensures Untruncated(log, scope) || |log| > 1000
  {
    FilterShort(Kinds(MissionObserved, scope, 1000), log);
    FilterShort(Kinds(MissionWakeRequested, scope, 1000), log);
  }

  lemma OnlyProposal(log: seq<Event>, scope: Option<Scope>)
    requires OneMission(log) && (scope == None || scope == Some(SCOPE))
    ensures List(log, Kinds(MissionProposed, scope, 500)) == [log[0]]
  {
    ListSingle(log, MissionProposed, scope, 500, 0);
  }

  lemma DueIsChosen(log: seq<Event>, clock: int)
    requires OneMission(log) && DueBy(log, log[0], 1, clock)
    ensures Chosen(log, 20, clock) == [Project(log[0], Latest(log, None, 1), clock).value]
  {
    OnlyProposal(log, None);
    var c := Project(log[0], Latest(log, None, 1), clock).value;
    assert [log[0]][..0] == [];
    assert ProjectAll(log, None, [log[0]], clock) == [c];
    assert [c][..0] == [];
    assert DueOf([c]) == [c];
  }

  lemma FoundOpen(log: seq<Event>, clock: int)
    requires OneMission(log)
    ensures var c := Current(log, 1, SCOPE, clock);
            c.Some? && !Closed(c.value) && c.value.mission == 1 && c.value.chat == 7 && c.value.last <= 9
  {
    OnlyProposal(log, Some(SCOPE));
    assert WithId([log[0]], 1) == Some(log[0]);
    UpdatesInLog(log, Some(SCOPE));
  }

  lemma SmallNumber(n: nat)
    requires n <= 999
    ensures |Int(n)| <= 3
  {
    assert Pow10(3) == 10 * Pow10(2) == 1000;
    DecLength(n, 3);
  }

  lemma WakeFits(c: Continuity, clock: int, id: EventId)
    requires c.mission == 1 && c.chat == 7 && c.last <= 9 && 0 < clock <= 50_000
    ensures Draft(WakeInput(c, Some(clock), clock), id, clock).Ok?
  {
    SmallNumber(1);
    SmallNumber(c.last);
    SmallNumber(clock / 60);
    StreamNameTight(1);
    TrimIs(Int(c.last));
    TrimIs(MissionStream(1));
    TrimIs(Render(WakeOf(1, clock / 60)));
  }

  lemma AppendWakes(st: Store, c: Continuity, id: EventId, clock: int)
    requires c.mission == 1 && c.chat == 7 && c.last <= 9 && 0 < clock <= 50_000 && !HasEvent(st.log, id)
    requires WithKey(st.log, WakeOf(1, clock / 60)).None?
    ensures var (next, answer) := Append(st, FLAGS, WakeInput(c, Some(clock), clock), id, clock);
            answer.Inserted? && next.log == st.log + [answer.event] && IsWake(answer.event, clock) && answer.event.id == id
  {
    var input := WakeInput(c, Some(clock), clock);
    WakeFits(c, clock, id);
    StoredUnlessKeyed(st, FLAGS, input, id, clock);
    StoredAsGiven(st, FLAGS, input, id, clock);
    AppendShape(st, FLAGS, input, id, clock);
  }

  lemma RequestWakes(st: Store, id: EventId, clock: int)
    requires OneMission(st.log) && 0 < clock <= 50_000 && !HasEvent(st.log, id)
    requires WithKey(st.log, WakeOf(1, clock / 60)).None?
    ensures var (next, answer) := Request(st, FLAGS, 1, SCOPE, Some(clock), id, clock);
            answer.Inserted? && next.log == st.log + [answer.event] && IsWake(answer.event, clock) && answer.event.id == id
  {
    FoundOpen(st.log, clock);
    AppendWakes(st, Current(st.log, 1, SCOPE, clock).value, id, clock);
  }

  /** A heartbeat wakes a mission that is due, once per minute. */
  lemma HeartbeatWakes(st: Store, n: nat, clock: int) returns (w: Event)
    requires OneMission(st.log) && 0 < clock <= 50_000 && !HasEvent(st.log, n) && DueBy(st.log, st.log[0], 1, clock)
    requires WithKey(st.log, WakeOf(1, clock / 60)).None?
    ensures Tick(st, FLAGS, clock, 20, Ids(n), clock).0.log == st.log + [w] && IsWake(w, clock) && w.id == n
  {
    DueIsChosen(st.log, clock);
    var chosen := Chosen(st.log, 20, clock);
    assert WokenUpTo(st, FLAGS, chosen, clock, Ids(n), clock, 0) == (st, []);
    assert Ids(n)(0) == n;
    RequestWakes(st, n, clock);
    w := Request(st, FLAGS, 1, SCOPE, Some(clock), n, clock).1.event;
  }

  // ---- the history, step by step ----

  lemma RunSnoc(clock: int, ops: seq<Op>, op: Op)
    ensures Run(clock, ops + [op]) == Next(Run(clock, ops), op)
  {
    assert (ops + [op])[..|ops|] == ops;
  }

  lemma AllowedSnoc(ops: seq<Op>, op: Op)
    requires Allowed(ops) && (op.Foreign? ==> ForeignInput(op.call.input))
    ensures Allowed(ops + [op])
  {
  }

  lemma Ordinary()
    ensures Allowed(PROPOSED) && Allowed(REPORTED) && Allowed(WOKEN) && Allowed(HISTORY)
    ensures Scheduled(HISTORY)
  {
    AllowedSnoc(PROPOSED, Op.Host(FLAGS, AHEAD, 2));
    AllowedSnoc(REPORTED, Heartbeat(FLAGS, 120, 20, Ids(3)));
    AllowedSnoc(WOKEN, Pass(60));
    AllowedSnoc(WAITED, Heartbeat(FLAGS, 180, 20, Ids(4)));
  }

  lemma ProposalTaken()
    ensures var (next, answer) := Append(EMPTY, FLAGS, PROPOSE, 1, 100);
            answer.Inserted? && next.log == [answer.event] && IsProposal(answer.event)
  {
    StoredUnlessKeyed(EMPTY, FLAGS, PROPOSE, 1, 100);
    StoredAsGiven(EMPTY, FLAGS, PROPOSE, 1, 100);
    AppendShape(EMPTY, FLAGS, PROPOSE, 1, 100);
  }

  lemma Proposed()
    ensures var s := Run(120, PROPOSED);
            s.clock == 120 && |s.store.log| == 1 && IsProposal(s.store.log[0])
  {
    ProposalTaken();
    RunSnoc(120, [], PROPOSED[0]);
    assert [] + PROPOSED == PROPOSED;
  }

  lemma OneProposal(log: seq<Event>)
    requires |log| == 1 && IsProposal(log[0]) && WellFormed(log) && AllProper(log)
    ensures OneMission(log)
  {
  }

  lemma ProposedProper()
    ensures OneMission(Run(120, PROPOSED).store.log)
  {
    Ordinary();
    Proposed();
    EveryLogProper(120, PROPOSED);
    OneProposal(Run(120, PROPOSED).store.log);
  }

  lemma TextsFit()
    ensures |Int(1)| <= 3 && |Int(10_000)| <= 5
  {
    SmallNumber(1);
    assert Pow10(5) == 10 * Pow10(4) == 100 * Pow10(3) == 100_000 by { assert Pow10(3) == 10 * Pow10(2) == 1000; }
    DecLength(10_000, 5);
  }

  lemma KeyIsShort()
    ensures |Trim(Render(OutcomeOf(1, Observed, 10_000)))| <= 240
  {
    TextsFit();
    TrimIs(Render(OutcomeOf(1, Observed, 10_000)));
  }

  lemma ReportFits(id: EventId)
    ensures Draft(OutcomeInput(AHEAD, 120), id, 120).Ok?
  {
    TextsFit();
    KeyIsShort();
    StreamNameTight(1);
    TrimIs(Int(1));
    TrimIs(MissionStream(1));
  }

  lemma ReportInput()
    ensures var input := OutcomeInput(AHEAD, 120);
            && input.kind == MissionObserved && input.fact == MissionOutcome(1, Observed, [], 0, 0, None)
            && input.occurredAt == Some(10_000) && input.dedupe == Some(OutcomeOf(1, Observed, 10_000))
  {
    assert Unique([]) == [];
  }

  lemma Expected(log: seq<Event>)
    requires OneMission(log)
    ensures Reportable(log, AHEAD)
  {
    OnlyProposal(log, Some(SCOPE));
    assert WithId([log[0]], 1) == Some(log[0]);
  }

  lemma AppendFree(st: Store, input: EventInput, id: EventId, now: int)
    requires Draft(input, id, now).Ok? && !HasEvent(st.log, id)
    requires input.dedupe.Some? && !input.dedupe.value.Named? && WithKey(st.log, input.dedupe.value).None?
    ensures var (next, answer) := Append(st, FLAGS, input, id, now);
            answer.Inserted? && next.log == st.log + [answer.event] && answer.event.id == id
  {
    StoredUnlessKeyed(st, FLAGS, input, id, now);
    AppendShape(st, FLAGS, input, id, now);
  }

  lemma ReportKey()
    ensures OutcomeInput(AHEAD, 120).dedupe == Some(OutcomeOf(1, Observed, 10_000))
  {
    ReportInput();
  }

  lemma ReportAppended(st: Store)
    requires !HasEvent(st.log, 2) && WithKey(st.log, OutcomeOf(1, Observed, 10_000)).None?
    ensures var (next, answer) := Append(st, FLAGS, OutcomeInput(AHEAD, 120), 2, 120);
            answer.Inserted? && next.log == st.log + [answer.event] && answer.event.id == 2
  {
    ReportFits(2);
    ReportKey();
    AppendFree(st, OutcomeInput(AHEAD, 120), 2, 120);
  }

  lemma ReportStored(st: Store)
    requires Append(st, FLAGS, OutcomeInput(AHEAD, 120), 2, 120).1.Inserted?
    ensures IsReport(Append(st, FLAGS, OutcomeInput(AHEAD, 120), 2, 120).1.event)
  {
    ReportInput();
    StoredAsGiven(st, FLAGS, OutcomeInput(AHEAD, 120), 2, 120);
  }

  lemma KeyFree(log: seq<Event>)
    requires OneMission(log) && |log| == 1 && AllProper(log) && log[0].dedupe.None?
    ensures WithKey(log, OutcomeOf(1, Observed, 10_000)).None?
  {
  }

  lemma ReportTaken(st: Store) returns (e: Event)
    requires OneMission(st.log) && |st.log| == 1 && st.log[0].dedupe.None?
    ensures Record(st, FLAGS, AHEAD, 2, 120).0.log == st.log + [e] && IsReport(e) && e.id == 2
  {
    Expected(st.log);
    KeyFree(st.log);
    assert st.log == [st.log[0]];
    ReportAppended(st);
    ReportStored(st);
    e := Append(st, FLAGS, OutcomeInput(AHEAD, 120), 2, 120).1.event;
  }

  lemma HostStep(s: Sys)
    ensures Next(s, Op.Host(FLAGS, AHEAD, 2)) == s.(store := Record(s.store, FLAGS, AHEAD, 2, s.clock).0)
  {
  }

  lemma ReportedEvents()
    ensures var s := Run(120, REPORTED);
            s.clock == 120 && |s.store.log| == 2 && IsProposal(s.store.log[0]) && IsReport(s.store.log[1]) && s.store.log[1].id == 2
  {
    Proposed();
    ProposedProper();
    RunSnoc(120, PROPOSED, Op.Host(FLAGS, AHEAD, 2));
    HostStep(Run(120, PROPOSED));
    var e := ReportTaken(Run(120, PROPOSED).store);
  }

  lemma ReportedOne(log: seq<Event>)
    requires |log| == 2 && IsProposal(log[0]) && IsReport(log[1]) && log[1].id == 2 && WellFormed(log) && AllProper(log)
    ensures OneMission(log)
  {
  }

  lemma Reported()
    ensures var s := Run(120, REPORTED);
            s.clock == 120 && |s.store.log| == 2 && OneMission(s.store.log) && IsReport(s.store.log[1]) && s.store.log[1].id == 2
  {
    Ordinary();
    ReportedEvents();
    EveryLogProper(120, REPORTED);
    ReportedOne(Run(120, REPORTED).store.log);
  }

  lemma ShortIsReadable(log: seq<Event>)
    requires WellFormed(log) && AllProper(log) && |log| <= 9
    ensures Readable(log)
  {
    FilterShort(Kinds(MissionObserved, None, 1000), log);
    FilterShort(Kinds(MissionWakeRequested, None, 1000), log);
  }

  lemma ReportDecides(log: seq<Event>)
    requires OneMission(log) && |log| == 2 && IsReport(log[1])
    ensures forall c :: DueBy(log, log[0], 1, c)
  {
    ShortIsReadable(log);
    assert MostRecent(log, 1, log[1]) by {
      assert log == [log[0], log[1]];
    }
    LatestIsMostRecent(log, 1, log[1]);
  }

  /** A minute no wake was scheduled in yet. */
  lemma MinuteFree(log: seq<Event>, minute: int)
    requires AllProper(log) && forall e :: e in log && e.kind == MissionWakeRequested ==> e.fact.MissionWake? && e.fact.wakeAt / 60 != minute
    ensures WithKey(log, WakeOf(1, minute)).None?
  {
    var found := WithKey(log, WakeOf(1, minute));
    if found.Some? {
      assert Proper(found.value);
    }
  }

  /** The proposal, the report, a wake at second 120, and the mission due at every moment since. */
  ghost predicate WokenOnceLog(log: seq<Event>) {
    && OneMission(log) && |log| == 3 && IsReport(log[1]) && log[1].id == 2 && IsWake(log[2], 120) && log[2].id == 3
    && DueBy(log, log[0], 1, 180)
  }

  lemma StaysOneMission(log: seq<Event>, w: Event, t: int)
    requires OneMission(log) && |log| <= 8 && IsWake(w, t) && w.id <= 9 && WellFormed(log + [w]) && AllProper(log + [w])
    ensures OneMission(log + [w])
  {
  }

  lemma StillDue(log: seq<Event>, w: Event)
    requires OneMission(log) && |log| == 2 && IsReport(log[1]) && IsWake(w, 120) && WellFormed(log + [w]) && AllProper(log + [w])
    ensures DueBy(log + [w], log[0], 1, 180)
  {
    ReportDecides(log);
    ShortIsReadable(log);
    ShortIsReadable(log + [w]);
    assert log[1] in log;
    OverruledStaysDue(log, w, 1, log[0], log[1]);
  }

  lemma FirstWake(st: Store) returns (w: Event)
    requires OneMission(st.log) && |st.log| == 2 && IsReport(st.log[1]) && st.log[1].id == 2
    ensures Tick(st, FLAGS, 120, 20, Ids(3), 120).0.log == st.log + [w] && IsWake(w, 120) && w.id == 3
  {
    var log := st.log;
    assert log == [log[0], log[1]];
    ReportDecides(log);
    MinuteFree(log, 2);
    w := HeartbeatWakes(st, 3, 120);
  }

  lemma WokenOnce()
    ensures Run(120, WOKEN).clock == 120 && WokenOnceLog(Run(120, WOKEN).store.log)
  {
    Ordinary();
    Reported();
    RunSnoc(120, REPORTED, Heartbeat(FLAGS, 120, 20, Ids(3)));
    var st := Run(120, REPORTED).store;
    var w := FirstWake(st);
    EveryLogProper(120, WOKEN);
    StaysOneMission(st.log, w, 120);
    StillDue(st.log, w);
  }

  lemma SecondWake(st: Store) returns (w: Event)
    requires WokenOnceLog(st.log)
    ensures Tick(st, FLAGS, 180, 20, Ids(4), 180).0.log == st.log + [w] && IsWake(w, 180)
  {
    var log := st.log;
    assert log == [log[0], log[1], log[2]];
    MinuteFree(log, 3);
    w := HeartbeatWakes(st, 4, 180);
  }

  lemma PassStep(s: Sys)
    ensures Next(s, Pass(60)) == Sys(s.store, s.clock + 60)
  {
  }

  lemma Waited()
    ensures Run(120, WAITED).clock == 180 && WokenOnceLog(Run(120, WAITED).store.log)
  {
    WokenOnce();
    RunSnoc(120, WOKEN, Pass(60));
    PassStep(Run(120, WOKEN));
  }

  lemma BeatStep(s: Sys)
    ensures Next(s, Heartbeat(FLAGS, 180, 20, Ids(4))) == s.(store := Tick(s.store, FLAGS, 180, 20, Ids(4), s.clock).0)
  {
  }

  lemma WokenAgain() returns (log: seq<Event>, w: Event)
    ensures WokenOnceLog(log) && IsWake(w, 180) && Run(120, HISTORY).store.log == log + [w]
  {
    Waited();
    RunSnoc(120, WAITED, Heartbeat(FLAGS, 180, 20, Ids(4)));
    BeatStep(Run(120, WAITED));
    var st := Run(120, WAITED).store;
    log := st.log;
    w := SecondWake(st);
  }

  lemma HeartbeatsSnoc(clock: int, ops: seq<Op>, op: Op)
    requires Heartbeats(clock, ops) && (op.Heartbeat? ==> op.now == Run(clock, ops).clock)
    ensures Heartbeats(clock, ops + [op])
  {
    assert (ops + [op])[..|ops|] == ops;
  }

  lemma OnTheClock()
    requires Run(120, REPORTED).clock == 120 && Run(120, WAITED).clock == 180
    ensures Heartbeats(120, HISTORY)
  {
    HeartbeatsSnoc(120, [], PROPOSED[0]);
    assert [] + PROPOSED == PROPOSED;
    HeartbeatsSnoc(120, PROPOSED, Op.Host(FLAGS, AHEAD, 2));
    HeartbeatsSnoc(120, REPORTED, Heartbeat(FLAGS, 120, 20, Ids(3)));
    HeartbeatsSnoc(120, WOKEN, Pass(60));
    HeartbeatsSnoc(120, WAITED, Heartbeat(FLAGS, 180, 20, Ids(4)));
  }

  lemma TwoWakes(log: seq<Event>, w: Event)
    requires WokenOnceLog(log) && IsWake(w, 180)
    ensures NextWake(log + [w], 2, 3, 1) && !NoneLater(log + [w], 2, 1) && (log + [w])[3].occurredAt == (log + [w])[2].occurredAt + 60
  {
    var next := log + [w];
    assert next[1] == log[1] && next[2] == log[2] && next[3] == w;
  }

  /**
   * One report dated ahead, and a heartbeat a minute later wakes the mission again: two wakes,
   * nothing said of the mission in between, sixty seconds apart.
   */
  lemma WakesAMinuteApart()
    ensures Allowed(HISTORY) && Scheduled(HISTORY) && Heartbeats(120, HISTORY)
    ensures var log := Run(120, HISTORY).store.log;
            && Readable(log) && NextWake(log, 2, 3, 1) && log[3].occurredAt == log[2].occurredAt + 60
            && !NoneLater(log, 2, 1)
  {
    Ordinary();
    Reported();
    Waited();
    var log, w := WokenAgain();
    OnTheClock();
    EveryLogProper(120, HISTORY);
    ShortIsReadable(log + [w]);
    TwoWakes(log, w);
  }
}
