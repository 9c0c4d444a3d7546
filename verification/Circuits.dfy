/**
 * Action circuits: proposals of the model, evaluations and publications of the host. A circuit
 * is usable only while its publication, its expiry and its latest evaluation all say so.
 */
module Circuits {
  import opened Wrappers
  import opened Text
  import opened Vocabulary
  import opened Events
  import opened Listing
  import opened Projections

  predicate Plausible(receipts: seq<string>, samples: nat, successes: nat, falseSuccesses: nat) {
    && |receipts| <= 32 && (forall r :: r in receipts ==> Trim(r) != "" && |Trim(r)| <= 240)
    && samples <= 1000 && successes <= 1000 && falseSuccesses <= 1000
  }

  /** An evaluation the schema accepts, of this circuit. */
  predicate Evaluates(e: Event, circuit: EventId) {
    && e.fact.CircuitEvaluation? && e.fact.circuit == circuit
    && Plausible(e.fact.receipts, e.fact.samples, e.fact.successes, e.fact.falseSuccesses)
  }

  predicate Parses(e: Event) {
    e.fact.CircuitFact? && ValidId(Some(e.fact.circuitChat))
  }

  function Evaluating(circuit: EventId): Event -> bool {
    e => Evaluates(e, circuit)
  }

  const EVALUATIONS := 500

  /** The evaluation that counts: the newest one of the scope. */
  function Latest(log: seq<Event>, scope: Scope, circuit: EventId): Option<Event> {
    First(List(log, Kinds(CircuitEvaluated, Some(scope), EVALUATIONS)), Evaluating(circuit))
  }

  function Proposal(log: seq<Event>, circuit: EventId, scope: Scope): Option<Event> {
    WithId(List(log, Kinds(CircuitProposed, Some(scope), 500)), circuit)
  }

  predicate Known(log: seq<Event>, circuit: EventId, scope: Scope) {
    && ChatScoped(scope)
    && var p := Proposal(log, circuit, scope);
       p.Some? && Parses(p.value) && ScopeKey(ChatScope(p.value.fact.circuitChat)) == ScopeKey(scope)
  }

  /** `safeStatus`: a request for verification is granted only on receipts and a flawless replay. */
  function SafeStatus(requested: CircuitStatus, receipts: seq<string>, samples: int, successes: int, falseSuccesses: int): (r: CircuitStatus)
    ensures r == CircuitVerified <==>
      requested != CircuitFailed && receipts != [] && samples >= 3 && successes == samples && falseSuccesses <= 0
  {
    if requested == CircuitFailed then CircuitFailed
    else if receipts == [] || samples < 3 || successes != samples || falseSuccesses > 0 then CircuitUnverified
    else CircuitVerified
  }

  datatype Trial = Trial(
    circuit: EventId, scope: Scope, requested: CircuitStatus, at: Option<int>, receipts: seq<string>,
    samples: int, successes: int, falseSuccesses: int)

  function At(at: Option<int>, clock: int): int {
    if at.Some? && SafeInt(at.value) && at.value > 0 then at.value else clock
  }

  function EvaluationInput(t: Trial, clock: int): EventInput {
    var receipts := EvidenceIds(t.receipts);
    var samples: nat := Clamp(t.samples, 0, 1000);
    var successes: nat := Least(samples, Clamp(t.successes, 0, 1000));
    var falses: nat := Clamp(t.falseSuccesses, 0, 1000);
    var status := SafeStatus(t.requested, receipts, samples, successes, falses);
    EventInput(CircuitEvaluated, t.scope, Host, Some(At(t.at, clock)), Some(Int(t.circuit)), Some("circuit:" + Int(t.circuit)),
               Some(EvaluationOf(t.circuit, At(t.at, clock))),
               CircuitEvaluation(t.circuit, status, receipts, samples, successes, falses))
  }

  /** The stored form of a trial: its figures and receipts, verified only when not failed, received and flawless. */
  predicate TrialStored(e: Event, t: Trial, clock: int) {
    && e.kind == CircuitEvaluated && e.source == Host && e.scope == t.scope
    && e.fact.CircuitEvaluation? && e.fact.circuit == t.circuit && e.fact.receipts == EvidenceIds(t.receipts)
    && (if t.at.Some? && 0 < t.at.value <= MAX_SAFE then e.occurredAt == t.at.value else e.occurredAt == clock)
    && Fitted(t.samples, 0, 1000, e.fact.samples) && Fitted(t.falseSuccesses, 0, 1000, e.fact.falseSuccesses)
    && Fitted(t.successes, 0, e.fact.samples, e.fact.successes)
    && (t.requested == CircuitFailed <==> e.fact.verdict == CircuitFailed)
    && (e.fact.verdict == CircuitVerified <==>
          && t.requested != CircuitFailed && e.fact.receipts != [] && e.fact.samples >= 3
          && e.fact.successes == e.fact.samples && e.fact.falseSuccesses == 0)
    && e.dedupe == Some(EvaluationOf(t.circuit, e.occurredAt))
  }

  lemma TrialIsStored(e: Event, t: Trial, id: EventId, clock: int)
    requires Records(e, EvaluationInput(t, clock), id, clock)
    ensures TrialStored(e, t, clock)
  {
  }

  /** `recordActionCircuitEvaluation`. */
  function Evaluate(st: Store, flags: Flags, t: Trial, id: EventId, clock: int): (Store, Appended) {
    if !Known(st.log, t.circuit, t.scope) then (st, Refused("no such circuit"))
    else Append(st, flags, EvaluationInput(t, clock), id, clock)
  }

  predicate Alive(proposal: Event, now: int)
    requires Parses(proposal)
  {
    proposal.fact.expiresAt.Some? ==> proposal.fact.expiresAt.value > now
  }

  predicate LatestVerified(log: seq<Event>, scope: Scope, circuit: EventId) {
    var l := Latest(log, scope, circuit);
    l.Some? && l.value.fact.verdict == CircuitVerified
  }

  function PublicationInput(log: seq<Event>, circuit: EventId, scope: Scope, at: int): EventInput
    requires Latest(log, scope, circuit).Some?
  {
    EventInput(CircuitPublished, scope, Host, Some(at), Some(Int(Latest(log, scope, circuit).value.id)),
               Some("circuit:" + Int(circuit)), Some(PublicationOf(circuit)), CircuitPublication(circuit))
  }

  /** `publishActionCircuit`. */
  function Publish(st: Store, flags: Flags, circuit: EventId, scope: Scope, at: Option<int>, id: EventId, clock: int): (Store, Appended) {
    if !Known(st.log, circuit, scope) then (st, Refused("no such circuit"))
    else if !LatestVerified(st.log, scope, circuit) then (st, Refused("not verified"))
    else if !Alive(Proposal(st.log, circuit, scope).value, At(at, clock)) then (st, Refused("expired"))
    else Append(st, flags, PublicationInput(st.log, circuit, scope, At(at, clock)), id, clock)
  }

  /** A publication the listing lets through. */
  predicate Shown(log: seq<Event>, scope: Scope, e: Event, now: int) {
    && e.fact.CircuitPublication?
    && var p := Proposal(log, e.fact.published, scope);
       p.Some? && Parses(p.value) && Alive(p.value, now) && LatestVerified(log, scope, e.fact.published)
  }

  function ShownOf(log: seq<Event>, scope: Scope, events: seq<Event>, now: int): seq<Event> {
    if events == [] then []
    else
      var n := |events| - 1;
      var rest := ShownOf(log, scope, events[..n], now);
      if Shown(log, scope, events[n], now) then rest + [events[n]] else rest
  }

  lemma {:induction false} ShownOfIs(log: seq<Event>, scope: Scope, events: seq<Event>, now: int)
    ensures forall e :: e in ShownOf(log, scope, events, now) <==> e in events && Shown(log, scope, e, now)
  {
    if events != [] {
      ShownOfIs(log, scope, events[..|events| - 1], now);
      assert events == events[..|events| - 1] + [events[|events| - 1]];
    }
  }

  function Publications(log: seq<Event>, scope: Scope): seq<Event> {
    List(log, Kinds(CircuitPublished, Some(scope), 500))
  }

  /** `listPublishedActionCircuits`, as the publication events it answers for. */
  function ListPublished(log: seq<Event>, scope: Scope, limit: int, now: int): seq<Event> {
    if !ChatScoped(scope) then []
    else Take(ShownOf(log, scope, Publications(log, scope), now), Clamp(limit, 1, 100))
  }

  lemma {:induction false} ShownOfPrefix(log: seq<Event>, scope: Scope, events: seq<Event>, now: int, k: nat)
    requires k <= |events|
    ensures ShownOf(log, scope, events[..k], now) <= ShownOf(log, scope, events, now)
    decreases |events|
  {
    if k < |events| {
      ShownOfPrefix(log, scope, events[..|events| - 1], now, k);
      assert events[..|events| - 1][..k] == events[..k];
    } else {
      assert events[..k] == events;
    }
  }

  /** The listing's loop: it stops as soon as the limit is reached. */
  method ListCircuits(log: seq<Event>, scope: Scope, limit: int, now: int) returns (out: seq<Event>)
    ensures out == ListPublished(log, scope, limit, now)
  {
    if !ChatScoped(scope) {
      return [];
    }
    var published, max := Publications(log, scope), Clamp(limit, 1, 100);
    out := [];
    var k := 0;
    while k < |published|
      invariant k <= |published|
      invariant out == ShownOf(log, scope, published[..k], now)
      invariant |out| < max
    {
      assert published[..k + 1][..k] == published[..k];
      if Shown(log, scope, published[k], now) {
        out := out + [published[k]];
        if |out| >= max {
          ShownOfPrefix(log, scope, published, now, k + 1);
          return;
        }
      }
      k := k + 1;
    }
    assert published[..|published|] == published;
  }
}
