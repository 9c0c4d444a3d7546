/** What the circuit listing guarantees over whole histories of evaluations and publications. */
module CircuitTheorems {
  import opened Wrappers
  import opened Text
  import opened Vocabulary
  import opened Events
  import opened Listing
  import opened Projections
  import opened Circuits

  datatype Op =
    | Judge(flags: Flags, trial: Trial, id: EventId, clock: int)
    | Release(flags: Flags, circuit: EventId, scope: Scope, at: Option<int>, id: EventId, clock: int)
    | Foreign(call: AppendCall)

  function Next(st: Store, op: Op): Store {
    match op
    case Judge(flags, trial, id, clock) => Evaluate(st, flags, trial, id, clock).0
    case Release(flags, circuit, scope, at, id, clock) => Publish(st, flags, circuit, scope, at, id, clock).0
    case Foreign(c) => Append(st, c.flags, c.input, c.id, c.now).0
  }

  function Run(ops: seq<Op>): Store {
    if ops == [] then EMPTY else Next(Run(ops[..|ops| - 1]), ops[|ops| - 1])
  }

  predicate ForeignInput(i: EventInput) {
    !i.fact.CircuitEvaluation? && i.kind != CircuitEvaluated && !(i.dedupe.Some? && i.dedupe.value.EvaluationOf?)
  }

  ghost predicate Allowed(ops: seq<Op>) {
    forall op :: op in ops && op.Foreign? ==> ForeignInput(op.call.input)
  }

  predicate Flawless(receipts: seq<string>, samples: nat, successes: nat, falseSuccesses: nat) {
    |receipts| >= 1 && samples >= 3 && successes == samples && falseSuccesses == 0
  }

  /** An evaluation is keyed by its circuit and its date, and only a flawless one is verified. */
  predicate Proper(e: Event) {
    && (e.fact.CircuitEvaluation? <==> e.dedupe.Some? && e.dedupe.value.EvaluationOf?)
    && (e.fact.CircuitEvaluation? <==> e.kind == CircuitEvaluated)
    && (e.fact.CircuitEvaluation? ==>
          && e.dedupe == Some(EvaluationOf(e.fact.circuit, e.occurredAt))
          && Plausible(e.fact.receipts, e.fact.samples, e.fact.successes, e.fact.falseSuccesses)
          && (e.fact.verdict == CircuitVerified ==> Flawless(e.fact.receipts, e.fact.samples, e.fact.successes, e.fact.falseSuccesses)))
  }

  ghost predicate AllProper(log: seq<Event>) {
    forall e :: e in log ==> Proper(e)
  }

  predicate ProperInput(i: EventInput) {
    || ForeignInput(i)
    || (i.kind == CircuitEvaluated && i.fact.CircuitEvaluation? && i.occurredAt.Some?
        && i.dedupe == Some(EvaluationOf(i.fact.circuit, i.occurredAt.value))
        && Plausible(i.fact.receipts, i.fact.samples, i.fact.successes, i.fact.falseSuccesses)
        && (i.fact.verdict == CircuitVerified ==> Flawless(i.fact.receipts, i.fact.samples, i.fact.successes, i.fact.falseSuccesses)))
  }

  lemma AppendProper(st: Store, flags: Flags, input: EventInput, id: EventId, now: int)
    requires AllProper(st.log) && ProperInput(input)
    ensures AllProper(Append(st, flags, input, id, now).0.log)
  {
    AppendShape(st, flags, input, id, now);
    StoredAsGiven(st, flags, input, id, now);
  }

  lemma TrialProper(t: Trial, clock: int)
    ensures ProperInput(EvaluationInput(t, clock))
  {
    UniqueClean(t.receipts);
    forall r | r in EvidenceIds(t.receipts) ensures Trim(r) != "" && |Trim(r)| <= 240 {
      assert r in Unique(t.receipts);
    }
  }

  lemma PublishKeeps(st: Store, flags: Flags, circuit: EventId, scope: Scope, at: Option<int>, id: EventId, clock: int)
    requires WellFormed(st.log) && AllProper(st.log)
    ensures var next := Publish(st, flags, circuit, scope, at, id, clock).0;
            WellFormed(next.log) && AllProper(next.log)
  {
    if LatestVerified(st.log, scope, circuit) {
      var input := PublicationInput(st.log, circuit, scope, At(at, clock));
      AppendKeepsLog(st, flags, input, id, clock);
      AppendProper(st, flags, input, id, clock);
    }
  }

  lemma StepKeeps(st: Store, op: Op)
    requires WellFormed(st.log) && AllProper(st.log) && (op.Foreign? ==> ForeignInput(op.call.input))
    ensures WellFormed(Next(st, op).log) && AllProper(Next(st, op).log)
  {
    match op
    case Judge(flags, t, id, clock) =>
      TrialProper(t, clock);
      AppendKeepsLog(st, flags, EvaluationInput(t, clock), id, clock);
      AppendProper(st, flags, EvaluationInput(t, clock), id, clock);
    case Release(flags, circuit, scope, at, id, clock) => PublishKeeps(st, flags, circuit, scope, at, id, clock);
    case Foreign(c) =>
      AppendKeepsLog(st, c.flags, c.input, c.id, c.now);
      AppendProper(st, c.flags, c.input, c.id, c.now);
  }

  lemma {:induction false} EveryLogProper(ops: seq<Op>)
    requires Allowed(ops)
    ensures WellFormed(Run(ops).log) && AllProper(Run(ops).log)
  {
    if ops != [] {
      assert forall op :: op in ops[..|ops| - 1] ==> op in ops;
      EveryLogProper(ops[..|ops| - 1]);
      assert ops[|ops| - 1] in ops;
      StepKeeps(Run(ops[..|ops| - 1]), ops[|ops| - 1]);
    }
  }

  // ---- the latest evaluation ----

  predicate Within(e: Event, scope: Scope) {
    Ok(e.scopeKey) == ScopeKey(scope)
  }

  function Evaluations(scope: Scope): Query {
    Kinds(CircuitEvaluated, Some(scope), EVALUATIONS)
  }

  ghost predicate IsNewest(log: seq<Event>, scope: Scope, circuit: EventId, l: Event) {
    && l in log && Within(l, scope) && Evaluates(l, circuit)
    && forall x :: x in log && Within(x, scope) && Evaluates(x, circuit) ==> x == l || Before(x, l)
  }

  /**
   * The evaluation that counts is the newest one the circuit has in the scope. The listing it is
   * read from may have been cut off: what is cut off is older.
   */
  lemma LatestIs(log: seq<Event>, scope: Scope, circuit: EventId)
    requires WellFormed(log) && AllProper(log) && ScopeKey(scope).Ok? && Latest(log, scope, circuit).Some?
    ensures IsNewest(log, scope, circuit, Latest(log, scope, circuit).value)
    ensures Latest(log, scope, circuit).value in List(log, Evaluations(scope))
  {
    ListedInLog(log, CircuitEvaluated, Some(scope), EVALUATIONS);
    forall x | x in log && Within(x, scope) && Evaluates(x, circuit)
      ensures x == Latest(log, scope, circuit).value || Before(x, Latest(log, scope, circuit).value)
    {
      assert Proper(x);
      FirstIsNewest(log, Evaluations(scope), Evaluating(circuit), x);
    }
  }

  lemma NewestIsLatest(log: seq<Event>, scope: Scope, circuit: EventId, l: Event)
    requires WellFormed(log) && AllProper(log) && ScopeKey(scope).Ok?
    requires IsNewest(log, scope, circuit, l) && l in List(log, Evaluations(scope))
    ensures Latest(log, scope, circuit) == Some(l)
  {
    assert Evaluating(circuit)(l);
    LatestIs(log, scope, circuit);
  }

  // ---- soundness of the listing ----

  ghost predicate LiveProposal(log: seq<Event>, scope: Scope, circuit: EventId, now: int, p: Event) {
    && p in log && p.id == circuit && p.kind == CircuitProposed && Within(p, scope)
    && p.fact.CircuitFact? && (p.fact.expiresAt.Some? ==> now < p.fact.expiresAt.value)
  }

  ghost predicate GoodEvaluation(log: seq<Event>, scope: Scope, circuit: EventId, l: Event) {
    && Latest(log, scope, circuit) == Some(l) && IsNewest(log, scope, circuit, l)
    && l.fact.verdict == CircuitVerified && Flawless(l.fact.receipts, l.fact.samples, l.fact.successes, l.fact.falseSuccesses)
  }

  lemma ListedIsShown(log: seq<Event>, scope: Scope, limit: int, now: int, e: Event)
    requires WellFormed(log) && e in ListPublished(log, scope, limit, now)
    ensures e in log && Within(e, scope) && e.kind == CircuitPublished && Shown(log, scope, e, now)
  {
    ShownOfIs(log, scope, Publications(log, scope), now);
    ListedInLog(log, CircuitPublished, Some(scope), 500);
  }

  lemma ShownProposal(log: seq<Event>, scope: Scope, now: int, e: Event)
    requires WellFormed(log) && Shown(log, scope, e, now)
    ensures LiveProposal(log, scope, e.fact.published, now, Proposal(log, e.fact.published, scope).value)
  {
    ListedInLog(log, CircuitProposed, Some(scope), 500);
  }

  lemma ShownEvaluation(log: seq<Event>, scope: Scope, now: int, e: Event)
    requires WellFormed(log) && AllProper(log) && ScopeKey(scope).Ok? && Shown(log, scope, e, now)
    ensures GoodEvaluation(log, scope, e.fact.published, Latest(log, scope, e.fact.published).value)
  {
    LatestIs(log, scope, e.fact.published);
    assert Proper(Latest(log, scope, e.fact.published).value);
  }

  /**
   * Whatever was proposed, judged and published before: a listed circuit is published in exactly
   * this scope, not expired, and its latest evaluation rests on a receipt and a flawless replay.
   */
  lemma ListedIsSound(ops: seq<Op>, scope: Scope, limit: int, now: int, e: Event)
    requires Allowed(ops) && e in ListPublished(Run(ops).log, scope, limit, now)
    ensures var log := Run(ops).log;
            && e in log && Within(e, scope) && e.kind == CircuitPublished && e.fact.CircuitPublication?
            && (exists p :: LiveProposal(log, scope, e.fact.published, now, p))
            && (exists l :: GoodEvaluation(log, scope, e.fact.published, l))
  {
    EveryLogProper(ops);
    ListedIsShown(Run(ops).log, scope, limit, now, e);
    ShownProposal(Run(ops).log, scope, now, e);
    ShownEvaluation(Run(ops).log, scope, now, e);
  }

  // ---- completeness of the listing ----

  /** How many of the usable publications a listing shows: all of them, up to its limit and never more than a hundred. */
  lemma ListedCount(log: seq<Event>, scope: Scope, limit: int, now: int)
    requires ChatScoped(scope)
    ensures var usable, n := |ShownOf(log, scope, Publications(log, scope), now)|, |ListPublished(log, scope, limit, now)|;
            && (1 <= limit <= 100 ==> n == if usable <= limit then usable else limit)
            && (limit > 100 ==> n == if usable <= 100 then usable else 100)
            && (limit < 1 ==> n == if usable <= 1 then usable else 1)
  {
  }

  /**
   * As long as the limit has room and the publications fit their listing, every circuit published
   * in the scope, proposed there, not expired, and flawless by its latest evaluation is listed.
   */
  lemma EveryUsableListed(log: seq<Event>, scope: Scope, limit: int, now: int, e: Event)
    requires WellFormed(log) && ChatScoped(scope) && e in log && Within(e, scope) && e.kind == CircuitPublished && Shown(log, scope, e, now)
    requires |Filter(Kinds(CircuitPublished, Some(scope), 500), log)| <= 500
    requires |ShownOf(log, scope, Publications(log, scope), now)| <= limit <= 100 && limit >= 1
    ensures e in ListPublished(log, scope, limit, now)
  {
    UntruncatedList(log, CircuitPublished, Some(scope), 500);
    ShownOfIs(log, scope, Publications(log, scope), now);
  }

  // ---- what a bad evaluation does ----

  /** An evaluation of the circuit that a new one of this date cannot displace. */
  predicate Outdates(x: Event, scope: Scope, circuit: EventId, at: int) {
    Evaluates(x, circuit) && (x.occurredAt == at || (Within(x, scope) && x.occurredAt > at))
  }

  lemma OnlyTheSameDate(log: seq<Event>, circuit: EventId, at: int)
    requires AllProper(log)
    ensures WithKey(log, EvaluationOf(circuit, at)).Some? <==> exists x :: x in log && Evaluates(x, circuit) && x.occurredAt == at
  {
    var found := WithKey(log, EvaluationOf(circuit, at));
    if found.Some? {
      assert Proper(found.value);
    }
  }

  /** A newer evaluation enters the listing wherever the one it displaces was listed. */
  lemma NewLatest(log: seq<Event>, e: Event, scope: Scope, circuit: EventId, l: Event)
    requires WellFormed(log + [e]) && AllProper(log + [e]) && ScopeKey(scope).Ok?
    requires e.kind == CircuitEvaluated && Evaluates(e, circuit) && Within(e, scope)
    requires IsNewest(log, scope, circuit, l) && l in List(log, Evaluations(scope)) && l.occurredAt < e.occurredAt
    ensures Latest(log + [e], scope, circuit) == Some(e)
  {
    ListGrows(log, e, Evaluations(scope), l);
    NewerIsNewest(log, e, scope, circuit, l);
    NewestIsLatest(log + [e], scope, circuit, e);
  }

  lemma NewerIsNewest(log: seq<Event>, e: Event, scope: Scope, circuit: EventId, l: Event)
    requires IsNewest(log, scope, circuit, l) && l.occurredAt < e.occurredAt && Within(e, scope) && Evaluates(e, circuit)
    ensures IsNewest(log + [e], scope, circuit, e)
  {
  }

  lemma OldStaysNewest(log: seq<Event>, e: Event, scope: Scope, circuit: EventId, l: Event)
    requires IsNewest(log, scope, circuit, l) && e.occurredAt < l.occurredAt
    ensures IsNewest(log + [e], scope, circuit, l)
  {
  }

  lemma OldLatest(log: seq<Event>, e: Event, scope: Scope, circuit: EventId, l: Event)
    requires WellFormed(log + [e]) && AllProper(log + [e]) && ScopeKey(scope).Ok?
    requires e.kind == CircuitEvaluated && Within(e, scope)
    requires IsNewest(log, scope, circuit, l) && l in List(log, Evaluations(scope)) && e.occurredAt < l.occurredAt
    ensures Latest(log + [e], scope, circuit) == Some(l)
  {
    ListGrows(log, e, Evaluations(scope), l);
    OldStaysNewest(log, e, scope, circuit, l);
    NewestIsLatest(log + [e], scope, circuit, l);
  }

  /** Appending an evaluation leaves the proposals of every scope alone. */
  lemma ProposalStays(log: seq<Event>, e: Event, circuit: EventId, scope: Scope)
    requires e.kind == CircuitEvaluated
    ensures Proposal(log + [e], circuit, scope) == Proposal(log, circuit, scope)
  {
    ListSkips(log, e, Kinds(CircuitProposed, Some(scope), 500));
  }

  /** A trial the log takes unless its date is taken: known circuit, events on, a new id, and not verified. */
  ghost predicate BadTrial(st: Store, flags: Flags, t: Trial, id: EventId, clock: int) {
    && Known(st.log, t.circuit, t.scope) && flags.events && !HasEvent(st.log, id)
    && Draft(EvaluationInput(t, clock), id, clock).Ok?
    && EvaluationInput(t, clock).fact.verdict != CircuitVerified
  }

  lemma BadTrialDoes(st: Store, flags: Flags, t: Trial, id: EventId, clock: int)
    requires BadTrial(st, flags, t, id, clock)
    ensures var (next, answer) := Evaluate(st, flags, t, id, clock);
            && (answer.Inserted? <==> WithKey(st.log, EvaluationOf(t.circuit, At(t.at, clock))).None?)
            && (!answer.Inserted? ==> next == st)
            && (answer.Inserted? ==>
                  var e := answer.event;
                  && next.log == st.log + [e] && Within(e, t.scope)
                  && e.occurredAt == At(t.at, clock) && e.kind == CircuitEvaluated && e.fact == EvaluationInput(t, clock).fact)
  {
    var input := EvaluationInput(t, clock);
    StoredUnlessKeyed(st, flags, input, id, clock);
    StoredAsGiven(st, flags, input, id, clock);
  }

  lemma AfterBad(log: seq<Event>, bad: Event, scope: Scope, e: Event, l: Event, now: int)
    requires WellFormed(log + [bad]) && AllProper(log + [bad]) && ScopeKey(scope).Ok?
    requires Shown(log, scope, e, now) && IsNewest(log, scope, e.fact.published, l) && l in List(log, Evaluations(scope))
    requires Latest(log, scope, e.fact.published) == Some(l)
    requires bad.kind == CircuitEvaluated && Evaluates(bad, e.fact.published) && Within(bad, scope)
    requires bad.fact.verdict != CircuitVerified && bad.occurredAt != l.occurredAt
    ensures Shown(log + [bad], scope, e, now) <==> l.occurredAt > bad.occurredAt
  {
    ProposalStays(log, bad, e.fact.published, scope);
    if l.occurredAt > bad.occurredAt {
      OldLatest(log, bad, scope, e.fact.published, l);
    } else {
      NewLatest(log, bad, scope, e.fact.published, l);
    }
  }

  lemma OutdatedIff(log: seq<Event>, scope: Scope, circuit: EventId, at: int, l: Event)
    requires IsNewest(log, scope, circuit, l)
    ensures (exists x :: x in log && Outdates(x, scope, circuit, at))
      <==> l.occurredAt > at || exists x :: x in log && Evaluates(x, circuit) && x.occurredAt == at
  {
    if l.occurredAt > at {
      assert Outdates(l, scope, circuit, at);
    }
    if x :| x in log && Evaluates(x, circuit) && x.occurredAt == at {
      assert Outdates(x, scope, circuit, at);
    }
  }

  lemma BadTrialAppends(st: Store, flags: Flags, t: Trial, id: EventId, clock: int) returns (bad: Event)
    requires WellFormed(st.log) && AllProper(st.log) && BadTrial(st, flags, t, id, clock)
    requires WithKey(st.log, EvaluationOf(t.circuit, At(t.at, clock))).None?
    ensures var next := Evaluate(st, flags, t, id, clock).0;
            && next.log == st.log + [bad] && WellFormed(next.log) && AllProper(next.log)
            && bad.kind == CircuitEvaluated && Evaluates(bad, t.circuit) && Within(bad, t.scope)
            && bad.fact.verdict != CircuitVerified && bad.occurredAt == At(t.at, clock)
  {
    BadTrialDoes(st, flags, t, id, clock);
    StepKeeps(st, Judge(flags, t, id, clock));
    bad := Evaluate(st, flags, t, id, clock).1.event;
    TrialProper(t, clock);
  }

  /**
   * A bad evaluation takes a published circuit off the list exactly when it is dated after every
   * evaluation the circuit has in the scope: one of the same second is silently dropped, and an
   * earlier one does not count. The publication itself stays in the log either way.
   */
  lemma BadEvaluationRemovesIff(st: Store, flags: Flags, t: Trial, id: EventId, clock: int, e: Event, now: int)
    requires WellFormed(st.log) && AllProper(st.log) && BadTrial(st, flags, t, id, clock)
    requires e in st.log && Shown(st.log, t.scope, e, now) && e.fact.published == t.circuit
    ensures var next := Evaluate(st, flags, t, id, clock).0;
            && e in next.log
            && (Shown(next.log, t.scope, e, now) <==> exists x :: x in st.log && Outdates(x, t.scope, t.circuit, At(t.at, clock)))
  {
    var at, c := At(t.at, clock), t.circuit;
    var l := Latest(st.log, t.scope, c).value;
    OnlyTheSameDate(st.log, c, at);
    LatestIs(st.log, t.scope, c);
    OutdatedIff(st.log, t.scope, c, at, l);
    if WithKey(st.log, EvaluationOf(c, at)).None? {
      var bad := BadTrialAppends(st, flags, t, id, clock);
      AfterBad(st.log, bad, t.scope, e, l, now);
    } else {
      BadTrialDoes(st, flags, t, id, clock);
    }
  }
}
