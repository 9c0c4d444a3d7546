/** A reachable history in which a failing evaluation leaves its circuit published. */
module CircuitWitness {
  import opened Wrappers
  import opened Text
  import opened Vocabulary
  import opened Events
  import opened Listing
  import opened Projections
  import opened Circuits
  import opened CircuitTheorems

  const SCOPE := ChatScope(7)
  const FLAGS := Flags(true, false)
  const PROPOSE := EventInput(CircuitProposed, SCOPE, Model, Some(50), None, None, None, CircuitFact(7, None))
  /** A flawless replay at second 100, and a failing one in the same second. */
  const GOOD := Trial(1, SCOPE, CircuitVerified, Some(100), ["receipt"], 3, 3, 0)
  const BAD := Trial(1, SCOPE, CircuitFailed, Some(100), [], 3, 0, 0)

  const PROPOSED: seq<Op> := [Foreign(AppendCall(FLAGS, PROPOSE, 1, 50))]
  const JUDGED: seq<Op> := PROPOSED + [Judge(FLAGS, GOOD, 2, 100)]
  const RELEASED: seq<Op> := JUDGED + [Release(FLAGS, 1, SCOPE, Some(101), 3, 101)]
  const HISTORY: seq<Op> := RELEASED + [Judge(FLAGS, BAD, 4, 102)]

  lemma RunSnoc(ops: seq<Op>, op: Op)
    ensures Run(ops + [op]) == Next(Run(ops), op)
  {
    assert (ops + [op])[..|ops|] == ops;
  }

  lemma AllowedSnoc(ops: seq<Op>, op: Op)
    requires Allowed(ops) && (op.Foreign? ==> ForeignInput(op.call.input))
    ensures Allowed(ops + [op])
  {
  }

  lemma Ordinary()
    ensures Allowed(HISTORY)
  {
    AllowedSnoc(PROPOSED, Judge(FLAGS, GOOD, 2, 100));
    AllowedSnoc(JUDGED, Release(FLAGS, 1, SCOPE, Some(101), 3, 101));
    AllowedSnoc(RELEASED, Judge(FLAGS, BAD, 4, 102));
  }

  /** One circuit: its proposal first, no other proposal, publications of it alone. */
  ghost predicate OneCircuit(log: seq<Event>) {
    && 1 <= |log| <= 3 && IsProposal(log[0])
    && (forall i :: 0 <= i < |log| ==> log[i].id == i + 1)
    && (forall i :: 1 <= i < |log| ==> log[i].kind != CircuitProposed)
  }

  predicate IsProposal(e: Event) {
    e.id == 1 && e.kind == CircuitProposed && e.fact == CircuitFact(7, None) && e.dedupe.None? && Within(e, SCOPE)
  }

  predicate IsGood(e: Event) {
    && e.id == 2 && e.kind == CircuitEvaluated && Evaluates(e, 1) && e.fact.verdict == CircuitVerified
    && e.dedupe == Some(EvaluationOf(1, 100)) && Within(e, SCOPE)
  }

  predicate IsPublication(e: Event) {
    e.id == 3 && e.kind == CircuitPublished && e.fact == CircuitPublication(1) && Within(e, SCOPE)
  }

  lemma Taken(st: Store, input: EventInput, id: EventId, now: int)
    requires Draft(input, id, now).Ok? && !HasEvent(st.log, id)
    requires input.dedupe.Some? ==> !input.dedupe.value.Named? && WithKey(st.log, input.dedupe.value).None?
    ensures var (next, answer) := Append(st, FLAGS, input, id, now);
            && answer.Inserted? && next.log == st.log + [answer.event] && answer.event.id == id
            && answer.event.dedupe == input.dedupe && answer.event.kind == input.kind && answer.event.fact == input.fact
            && Ok(answer.event.scopeKey) == ScopeKey(input.scope)
  {
    StoredUnlessKeyed(st, FLAGS, input, id, now);
    StoredAsGiven(st, FLAGS, input, id, now);
    AppendShape(st, FLAGS, input, id, now);
  }

  lemma OnlyProposal(log: seq<Event>)
    requires OneCircuit(log)
    ensures Known(log, 1, SCOPE) && Proposal(log, 1, SCOPE) == Some(log[0])
  {
    ListSingle(log, CircuitProposed, Some(SCOPE), 500, 0);
    assert WithId([log[0]], 1) == Some(log[0]);
  }

  lemma OnlyEvaluation(log: seq<Event>)
    requires OneCircuit(log) && |log| >= 2 && IsGood(log[1]) && (|log| == 3 ==> log[2].kind == CircuitPublished)
    ensures Latest(log, SCOPE, 1) == Some(log[1]) && LatestVerified(log, SCOPE, 1)
  {
    ListSingle(log, CircuitEvaluated, Some(SCOPE), EVALUATIONS, 1);
    assert First([log[1]], Evaluating(1)) == Some(log[1]);
  }

  // ---- the inputs the log takes ----

  lemma SmallNumber(n: nat)
    requires n <= 999
    ensures |Int(n)| <= 3 && Tight(Int(n)) && Int(n) != ""
  {
    assert Pow10(3) == 10 * Pow10(2) == 1000;
    DecLength(n, 3);
    DecReadsBack(n);
  }

  lemma EndsInNumber(s: string, n: nat)
    requires 1 <= |s| <= 100 && !Blank(s[0]) && n <= 999
    ensures Trim(s + Int(n)) == s + Int(n) && |s + Int(n)| <= 103
  {
    SmallNumber(n);
    var text, tail := s + Int(n), Int(n);
    assert text[0] == s[0] && text[|text| - 1] == tail[|tail| - 1];
    TrimIs(text);
  }

  lemma StreamFits()
    ensures Bounded(Some("circuit:" + Int(1)), 240).Ok? && Bounded(Some(Int(1)), 240).Ok? && Bounded(Some(Int(2)), 240).Ok?
  {
    EndsInNumber("circuit:", 1);
    SmallNumber(1);
    SmallNumber(2);
    TrimIs(Int(1));
    TrimIs(Int(2));
  }

  lemma EvaluationKeyFits()
    ensures KeyFits(Some(EvaluationOf(1, 100)))
  {
    SmallNumber(1);
    var s := "action-circuit-eval" + ":" + (Int(1) + ":");
    EndsInNumber(s, 100);
    assert Render(EvaluationOf(1, 100)) == s + Int(100);
  }

  lemma PublicationKeyFits()
    ensures KeyFits(Some(PublicationOf(1)))
  {
    EndsInNumber("action-circuit-published" + ":", 1);
    assert Render(PublicationOf(1)) == "action-circuit-published" + ":" + Int(1);
  }

  lemma OneReceipt()
    ensures EvidenceIds(["receipt"]) == ["receipt"]
  {
    TrimIs("receipt");
    assert ["receipt"][..0] == [];
    assert Unique([]) == [];
    assert Unique(["receipt"]) == ["receipt"];
  }

  lemma GoodInput()
    ensures var input := EvaluationInput(GOOD, 100);
            && input.kind == CircuitEvaluated && input.dedupe == Some(EvaluationOf(1, 100)) && input.scope == SCOPE
            && input.fact == CircuitEvaluation(1, CircuitVerified, ["receipt"], 3, 3, 0)
  {
    OneReceipt();
  }

  lemma GoodFits()
    ensures Draft(EvaluationInput(GOOD, 100), 2, 100).Ok?
  {
    StreamFits();
    EvaluationKeyFits();
  }

  // ---- the history, step by step ----

  lemma Proposed()
    ensures var log := Run(PROPOSED).log;
            |log| == 1 && OneCircuit(log)
  {
    Taken(EMPTY, PROPOSE, 1, 50);
    RunSnoc([], PROPOSED[0]);
    assert [] + PROPOSED == PROPOSED;
  }

  lemma GoodTaken(st: Store) returns (e: Event)
    requires OneCircuit(st.log) && |st.log| == 1
    ensures Evaluate(st, FLAGS, GOOD, 2, 100).0.log == st.log + [e] && IsGood(e)
  {
    OnlyProposal(st.log);
    GoodInput();
    GoodFits();
    assert st.log == [st.log[0]];
    Taken(st, EvaluationInput(GOOD, 100), 2, 100);
    TrimIs("receipt");
    e := Append(st, FLAGS, EvaluationInput(GOOD, 100), 2, 100).1.event;
  }

  lemma JudgeStep(st: Store, t: Trial, id: EventId, clock: int)
    ensures Next(st, Judge(FLAGS, t, id, clock)) == Evaluate(st, FLAGS, t, id, clock).0
  {
  }

  lemma OneMore(log: seq<Event>, e: Event)
    requires OneCircuit(log) && |log| <= 2 && e.id == |log| + 1 && e.kind != CircuitProposed
    ensures OneCircuit(log + [e])
  {
  }

  lemma Judged()
    ensures var log := Run(JUDGED).log;
            |log| == 2 && OneCircuit(log) && IsGood(log[1])
  {
    Proposed();
    RunSnoc(PROPOSED, Judge(FLAGS, GOOD, 2, 100));
    JudgeStep(Run(PROPOSED), GOOD, 2, 100);
    var e := GoodTaken(Run(PROPOSED));
    OneMore(Run(PROPOSED).log, e);
  }

  lemma Publishable(st: Store)
    requires OneCircuit(st.log) && |st.log| == 2 && IsGood(st.log[1]) && LatestVerified(st.log, SCOPE, 1)
    ensures Publish(st, FLAGS, 1, SCOPE, Some(101), 3, 101) == Append(st, FLAGS, PublicationInput(st.log, 1, SCOPE, 101), 3, 101)
    ensures Draft(PublicationInput(st.log, 1, SCOPE, 101), 3, 101).Ok?
  {
    OnlyProposal(st.log);
    OnlyEvaluation(st.log);
    StreamFits();
    PublicationKeyFits();
  }

  lemma ReleaseTaken(st: Store) returns (e: Event)
    requires OneCircuit(st.log) && |st.log| == 2 && IsGood(st.log[1])
    ensures Publish(st, FLAGS, 1, SCOPE, Some(101), 3, 101).0.log == st.log + [e] && IsPublication(e)
  {
    OnlyEvaluation(st.log);
    Publishable(st);
    assert st.log == [st.log[0], st.log[1]];
    Taken(st, PublicationInput(st.log, 1, SCOPE, 101), 3, 101);
    e := Append(st, FLAGS, PublicationInput(st.log, 1, SCOPE, 101), 3, 101).1.event;
  }

  lemma ReleaseStep(st: Store)
    ensures Next(st, Release(FLAGS, 1, SCOPE, Some(101), 3, 101)) == Publish(st, FLAGS, 1, SCOPE, Some(101), 3, 101).0
  {
  }

  lemma Released()
    ensures var log := Run(RELEASED).log;
            |log| == 3 && OneCircuit(log) && IsGood(log[1]) && IsPublication(log[2])
  {
    Judged();
    RunSnoc(JUDGED, Release(FLAGS, 1, SCOPE, Some(101), 3, 101));
    ReleaseStep(Run(JUDGED));
    var e := ReleaseTaken(Run(JUDGED));
    OneMore(Run(JUDGED).log, e);
  }

  lemma BadKey()
    ensures EvaluationInput(BAD, 102).dedupe == Some(EvaluationOf(1, 100))
  {
  }

  lemma BadFits()
    ensures Draft(EvaluationInput(BAD, 102), 4, 102).Ok?
  {
    StreamFits();
    EvaluationKeyFits();
  }

  lemma Dropped(st: Store, input: EventInput, id: EventId, now: int)
    requires Draft(input, id, now).Ok? && input.dedupe.Some? && !input.dedupe.value.Named? && WithKey(st.log, input.dedupe.value).Some?
    ensures var (next, answer) := Append(st, FLAGS, input, id, now);
            next == st && answer.Duplicate?
  {
  }

  lemma KeyTaken(log: seq<Event>)
    requires |log| == 3 && IsGood(log[1])
    ensures WithKey(log, EvaluationOf(1, 100)).Some?
  {
    assert log[1] in log;
  }

  lemma BadDropped(st: Store)
    requires OneCircuit(st.log) && |st.log| == 3 && IsGood(st.log[1])
    ensures var (next, answer) := Evaluate(st, FLAGS, BAD, 4, 102);
            next == st && answer.Duplicate?
  {
    OnlyProposal(st.log);
    KeyTaken(st.log);
    BadKey();
    BadFits();
    Dropped(st, EvaluationInput(BAD, 102), 4, 102);
  }

  lemma StillListed(log: seq<Event>, now: int)
    requires OneCircuit(log) && |log| == 3 && IsGood(log[1]) && IsPublication(log[2])
    ensures ListPublished(log, SCOPE, 20, now) == [log[2]]
  {
    OnlyProposal(log);
    OnlyEvaluation(log);
    ListSingle(log, CircuitPublished, Some(SCOPE), 500, 2);
    assert [log[2]][..0] == [];
    assert ShownOf(log, SCOPE, [log[2]], now) == [log[2]];
  }

  /** The failing evaluation of the same second is answered as a duplicate, and the circuit stays listed at every later time. */
  lemma BadStaysListed(now: int)
    ensures Allowed(HISTORY) && EvaluationInput(BAD, 102).fact.verdict == CircuitFailed
    ensures var log := Run(HISTORY).log;
            && Evaluate(Run(RELEASED), FLAGS, BAD, 4, 102).1.Duplicate?
            && |log| == 3 && log == Run(RELEASED).log
            && ListPublished(log, SCOPE, 20, now) == [log[2]] && log[2].fact == CircuitPublication(1)
  {
    Ordinary();
    Released();
    RunSnoc(RELEASED, Judge(FLAGS, BAD, 4, 102));
    JudgeStep(Run(RELEASED), BAD, 4, 102);
    BadDropped(Run(RELEASED));
    StillListed(Run(RELEASED).log, now);
  }
}
