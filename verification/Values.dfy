/** Value proposals: the host evaluates them, and adopts one only on its latest, evidence-backed evaluation. */
module Values {
  import opened Wrappers
  import opened Text
  import opened Vocabulary
  import opened Events
  import opened Listing
  import opened Projections

  predicate Judges(e: Event, value: EventId) {
    e.fact.ValueEvaluation? && e.fact.candidate == value
  }

  function Judging(value: EventId): Event -> bool {
    e => Judges(e, value)
  }

  /** Asks for 2000 settlements, of which a listing gives at most 1000. */
  function Settlements(log: seq<Event>, scope: Scope): seq<Event> {
    List(log, Kinds(ValueEvaluated, Some(scope), 2000))
  }

  function Latest(log: seq<Event>, scope: Scope, value: EventId): Option<Event> {
    First(Settlements(log, scope), Judging(value))
  }

  function Proposal(log: seq<Event>, value: EventId, scope: Scope): Option<Event> {
    WithId(List(log, Kinds(ValueProposed, Some(scope), 500)), value)
  }

  predicate Known(log: seq<Event>, value: EventId, scope: Scope) {
    && ScopeKey(scope).Ok?
    && var p := Proposal(log, value, scope);
       p.Some? && p.value.fact.ValueFact? && ScopeKey(p.value.fact.valueScope) == ScopeKey(scope)
  }

  datatype Review = Review(
    value: EventId, scope: Scope, requested: ValueStatus, at: Option<int>, evidence: seq<string>, passed: int, total: int)

  function ReviewInput(r: Review, clock: int): EventInput {
    var at := BoundedPositive(r.at, clock);
    var total: nat := Clamp(r.total, 0, 32);
    var passed: nat := Clamp(r.passed, 0, total);
    var evidence := EvidenceIds(r.evidence);
    var status := if r.requested == Retained && !Proven(passed, total, evidence) then Unverified else r.requested;
    EventInput(ValueEvaluated, r.scope, Host, Some(at), Some(Int(r.value)), Some("value_evaluated:" + Int(r.value)),
               Some(RetentionOf(r.value, status, at)), ValueEvaluation(r.value, status, evidence, passed, total))
  }

  /** The stored form of a review: its figures and evidence, retained only when asked for and proven. */
  predicate ReviewStored(e: Event, r: Review, clock: int) {
    && e.kind == ValueEvaluated && e.source == Host && e.scope == r.scope
    && e.fact.ValueEvaluation? && e.fact.candidate == r.value && e.fact.valueEvidence == EvidenceIds(r.evidence)
    && Dated(r.at, clock, e.occurredAt)
    && Fitted(r.total, 0, 32, e.fact.checksTotal) && Fitted(r.passed, 0, e.fact.checksTotal, e.fact.checksPassed)
    && (r.requested != Retained ==> e.fact.retention == r.requested)
    && (r.requested == Retained ==>
          e.fact.retention == if e.fact.checksTotal >= 1 && e.fact.checksPassed == e.fact.checksTotal && e.fact.valueEvidence != []
                              then Retained else Unverified)
    && e.dedupe == Some(RetentionOf(r.value, e.fact.retention, e.occurredAt))
  }

  lemma ReviewIsStored(e: Event, r: Review, id: EventId, clock: int)
    requires Records(e, ReviewInput(r, clock), id, clock)
    ensures ReviewStored(e, r, clock)
  {
  }

  /** `recordValueEvaluation`. */
  function Evaluate(st: Store, flags: Flags, r: Review, id: EventId, clock: int): (Store, Appended) {
    if !Known(st.log, r.value, r.scope) then (st, Refused("no such value"))
    else Append(st, flags, ReviewInput(r, clock), id, clock)
  }

  predicate Backed(e: Event)
    requires e.fact.ValueEvaluation?
  {
    e.fact.retention == Retained && EvidenceIds(e.fact.valueEvidence) != []
  }

  function AdoptionInput(l: Event, value: EventId, scope: Scope, at: int): EventInput
    requires l.fact.ValueEvaluation?
  {
    EventInput(ValueAdopted, scope, Host, Some(at), Some(Int(value)), Some("value:" + Int(value)),
               Some(AdoptionOf(value)), ValueAdoption(value, EvidenceIds(l.fact.valueEvidence)))
  }

  /** `adoptValueProposal`. */
  function Adopt(st: Store, flags: Flags, value: EventId, scope: Scope, at: Option<int>, id: EventId, clock: int): (Store, Appended) {
    if !Known(st.log, value, scope) then (st, Refused("no such value"))
    else
      var l := Latest(st.log, scope, value);
      if l.None? || !Backed(l.value) then (st, Refused("not retained"))
      else Append(st, flags, AdoptionInput(l.value, value, scope, BoundedPositive(at, clock)), id, clock)
  }

  /** The map holds, for every proposal, the first of these settlements of it. */
  ghost predicate Indexes(out: map<EventId, Event>, events: seq<Event>) {
    forall v :: First(events, Judging(v)) == if v in out then Some(out[v]) else None
  }

  /** The map with a settlement noted, unless its proposal has one already. */
  function Noted(out: map<EventId, Event>, e: Event): map<EventId, Event> {
    if e.fact.ValueEvaluation? && e.fact.candidate !in out then out[e.fact.candidate := e] else out
  }

  lemma IndexNone(events: seq<Event>)
    ensures Indexes(map[], events[..0])
  {
  }

  lemma IndexStep(out: map<EventId, Event>, events: seq<Event>, k: nat)
    requires k < |events| && Indexes(out, events[..k])
    ensures Indexes(Noted(out, events[k]), events[..k + 1])
  {
    assert events[..k + 1] == events[..k] + [events[k]];
    IndexSnoc(out, events[..k], events[k]);
  }

  lemma IndexedIs(out: map<EventId, Event>, log: seq<Event>, scope: Scope)
    requires Indexes(out, Settlements(log, scope))
    ensures forall v :: Latest(log, scope, v) == if v in out then Some(out[v]) else None
  {
  }

  lemma IndexSnoc(out: map<EventId, Event>, events: seq<Event>, e: Event)
    requires Indexes(out, events)
    ensures Indexes(Noted(out, e), events + [e])
  {
    forall v ensures First(events + [e], Judging(v)) ==
      if First(events, Judging(v)).Some? then First(events, Judging(v)) else if Judges(e, v) then Some(e) else None
    {
      FirstSnoc(events, e, Judging(v));
    }
  }

  /** `latestSettlements`: one pass over the listing, the first settlement of a proposal wins. */
  method LatestSettlements(log: seq<Event>, scope: Scope) returns (out: map<EventId, Event>)
    ensures forall v :: Latest(log, scope, v) == if v in out then Some(out[v]) else None
  {
    var events := Settlements(log, scope);
    out := map[];
    IndexNone(events);
    for k := 0 to |events|
      invariant Indexes(out, events[..k])
    {
      IndexStep(out, events, k);
      var fact := events[k].fact;
      if fact.ValueEvaluation? && fact.candidate !in out {
        out := out[fact.candidate := events[k]];
      }
    }
    assert events[..|events|] == events;
    IndexedIs(out, log, scope);
  }

  // ---- histories ----

  datatype Op =
    | Judge(flags: Flags, review: Review, id: EventId, clock: int)
    | Embrace(flags: Flags, value: EventId, scope: Scope, at: Option<int>, id: EventId, clock: int)
    | Foreign(call: AppendCall)

  function Next(st: Store, op: Op): Store {
    match op
    case Judge(flags, review, id, clock) => Evaluate(st, flags, review, id, clock).0
    case Embrace(flags, value, scope, at, id, clock) => Adopt(st, flags, value, scope, at, id, clock).0
    case Foreign(c) => Append(st, c.flags, c.input, c.id, c.now).0
  }

  function Run(ops: seq<Op>): Store {
    if ops == [] then EMPTY else Next(Run(ops[..|ops| - 1]), ops[|ops| - 1])
  }

  predicate ForeignInput(i: EventInput) {
    && !i.fact.ValueEvaluation? && i.kind !in {ValueEvaluated, ValueAdopted} && !i.fact.ValueAdoption?
    && !(i.dedupe.Some? && i.dedupe.value.AdoptionOf?)
  }

  ghost predicate Allowed(ops: seq<Op>) {
    forall op :: op in ops && op.Foreign? ==> ForeignInput(op.call.input)
  }

  /** A retained evaluation passed all of at least one check, on evidence. */
  predicate Proper(e: Event) {
    && (e.fact.ValueEvaluation? && e.fact.retention == Retained ==>
          Proven(e.fact.checksPassed, e.fact.checksTotal, EvidenceIds(e.fact.valueEvidence)))
    && (e.fact.ValueEvaluation? ==> e.kind == ValueEvaluated)
    && (e.fact.ValueAdoption? ==> e.dedupe == Some(AdoptionOf(e.fact.adopted)))
  }

  ghost predicate Grounded(before: seq<Event>, e: Event) {
    e.fact.ValueAdoption? ==>
      var l := Latest(before, e.scope, e.fact.adopted);
      l.Some? && Backed(l.value) && e.fact.grounds == EvidenceIds(l.value.fact.valueEvidence)
  }

  ghost predicate AllGood(log: seq<Event>) {
    (forall e :: e in log ==> Proper(e)) && forall q :: 0 <= q < |log| ==> Grounded(log[..q], log[q])
  }

  lemma GoodAppend(log: seq<Event>, e: Event)
    requires AllGood(log) && Proper(e) && Grounded(log, e)
    ensures AllGood(log + [e])
  {
    var next := log + [e];
    forall q | 0 <= q < |next| ensures Grounded(next[..q], next[q]) {
      assert next[..q] == log[..q];
      assert q == |log| ==> next[..q] == log;
    }
  }

  ghost predicate GoodInput(log: seq<Event>, i: EventInput) {
    && (i.fact.ValueEvaluation? ==> i.kind == ValueEvaluated)
    && (i.fact.ValueEvaluation? && i.fact.retention == Retained ==>
          Proven(i.fact.checksPassed, i.fact.checksTotal, EvidenceIds(i.fact.valueEvidence)))
    && (i.fact.ValueAdoption? ==>
          && i.dedupe == Some(AdoptionOf(i.fact.adopted))
          && var l := Latest(log, i.scope, i.fact.adopted);
             l.Some? && Backed(l.value) && i.fact.grounds == EvidenceIds(l.value.fact.valueEvidence))
  }

  lemma GoodEvent(log: seq<Event>, i: EventInput, e: Event)
    requires GoodInput(log, i) && e.fact == i.fact && e.kind == i.kind && e.scope == i.scope && e.dedupe == StoredKey(i.dedupe)
    ensures Proper(e) && Grounded(log, e)
  {
  }

  lemma InputGood(st: Store, flags: Flags, input: EventInput, id: EventId, now: int)
    requires WellFormed(st.log) && AllGood(st.log) && GoodInput(st.log, input)
    ensures var next := Append(st, flags, input, id, now).0; WellFormed(next.log) && AllGood(next.log)
  {
    AppendKeepsLog(st, flags, input, id, now);
    AppendShape(st, flags, input, id, now);
    StoredAsGiven(st, flags, input, id, now);
    var answer := Append(st, flags, input, id, now).1;
    if answer.Inserted? {
      GoodEvent(st.log, input, answer.event);
      GoodAppend(st.log, answer.event);
    }
  }

  lemma StepGood(st: Store, op: Op)
    requires WellFormed(st.log) && AllGood(st.log) && (op.Foreign? ==> ForeignInput(op.call.input))
    ensures WellFormed(Next(st, op).log) && AllGood(Next(st, op).log)
  {
    match op
    case Judge(flags, r, id, clock) =>
      if ReviewInput(r, clock).fact.retention == Retained {
        UniqueAgain(r.evidence);
      }
      InputGood(st, flags, ReviewInput(r, clock), id, clock);
    case Embrace(flags, value, scope, at, id, clock) =>
      var l := Latest(st.log, scope, value);
      if l.Some? && Backed(l.value) {
        InputGood(st, flags, AdoptionInput(l.value, value, scope, BoundedPositive(at, clock)), id, clock);
      }
    case Foreign(c) => InputGood(st, c.flags, c.input, c.id, c.now);
  }

  lemma {:induction false} EveryLogGood(ops: seq<Op>)
    requires Allowed(ops)
    ensures WellFormed(Run(ops).log) && AllGood(Run(ops).log)
  {
    if ops != [] {
      assert forall op :: op in ops[..|ops| - 1] ==> op in ops;
      EveryLogGood(ops[..|ops| - 1]);
      assert ops[|ops| - 1] in ops;
      StepGood(Run(ops[..|ops| - 1]), ops[|ops| - 1]);
    }
  }

  /** The settlement at the head of a listing, cut off or not, is the newest one of its scope. */
  lemma NewestSettlement(log: seq<Event>, q: nat)
    requires WellFormed(log) && AllGood(log) && q < |log| && ScopeKey(log[q].scope).Ok?
    requires log[q].fact.ValueAdoption? && Latest(log[..q], log[q].scope, log[q].fact.adopted).Some?
    ensures var l := Latest(log[..q], log[q].scope, log[q].fact.adopted).value;
            forall x :: x in log[..q] && Judges(x, log[q].fact.adopted) && Ok(x.scopeKey) == ScopeKey(log[q].scope) ==> x == l || Before(x, l)
  {
    var before, value := log[..q], log[q].fact.adopted;
    forall x | x in before && Judges(x, value) && Ok(x.scopeKey) == ScopeKey(log[q].scope)
      ensures x == Latest(before, log[q].scope, value).value || Before(x, Latest(before, log[q].scope, value).value)
    {
      assert x in log && Proper(x);
      FirstIsNewest(before, Kinds(ValueEvaluated, Some(log[q].scope), 2000), Judging(value), x);
    }
  }

  /**
   * Every adoption in the log was made when the newest evaluation of the value in its scope, by
   * date and id, was a retention with evidence and all of its checks passed, and it cites that
   * evidence; a value is adopted at most once.
   */
  lemma AdoptionIsGrounded(ops: seq<Op>, q: nat)
    requires Allowed(ops) && q < |Run(ops).log| && Run(ops).log[q].fact.ValueAdoption?
    ensures var log := Run(ops).log;
            var l := Latest(log[..q], log[q].scope, log[q].fact.adopted);
            && l.Some? && l.value in log[..q] && Ok(l.value.scopeKey) == ScopeKey(log[q].scope)
            && (forall x :: x in log[..q] && Judges(x, log[q].fact.adopted) && Ok(x.scopeKey) == ScopeKey(log[q].scope) ==>
                  x == l.value || Before(x, l.value))
            && l.value.fact.retention == Retained
            && Proven(l.value.fact.checksPassed, l.value.fact.checksTotal, log[q].fact.grounds)
            && (forall r :: 0 <= r < |log| && log[r].fact.ValueAdoption? && log[r].fact.adopted == log[q].fact.adopted ==> r == q)
  {
    EveryLogGood(ops);
    var log := Run(ops).log;
    var l := Latest(log[..q], log[q].scope, log[q].fact.adopted);
    assert Grounded(log[..q], log[q]);
    ListedInLog(log[..q], ValueEvaluated, Some(log[q].scope), 2000);
    assert l.value in log[..q] && l.value in log;
    NewestSettlement(log, q);
    forall r | 0 <= r < |log| && log[r].fact.ValueAdoption? && log[r].fact.adopted == log[q].fact.adopted ensures r == q {
      assert Proper(log[r]) && Proper(log[q]);
    }
  }
}
