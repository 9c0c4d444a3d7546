/** The host's evaluations, publications and adoptions as they write to the event store. */
module EvidenceRecords {
  import opened Wrappers
  import opened Vocabulary
  import opened Events
  import opened Listing
  import opened EventTables
  import opened Projections
  import Circuits
  import Values

  predicate ProposesCircuit(p: Event, circuit: EventId, scope: Scope) {
    p.id == circuit && p.kind == CircuitProposed && p.fact.CircuitFact? && scope.chatId == Some(p.fact.circuitChat)
  }

  /** The circuit was proposed for the very chat of the scope. */
  ghost predicate CircuitProposedIn(log: seq<Event>, circuit: EventId, scope: Scope) {
    scope.visibility == Chat && exists p :: p in log && ProposesCircuit(p, circuit, scope)
  }

  lemma KnownCircuit(log: seq<Event>, circuit: EventId, scope: Scope)
    requires WellFormed(log) && Circuits.Known(log, circuit, scope)
    ensures CircuitProposedIn(log, circuit, scope)
  {
    ListedInLog(log, CircuitProposed, Some(scope), 500);
    var p := Circuits.Proposal(log, circuit, scope).value;
    assert p in log && ProposesCircuit(p, circuit, scope) by {
      ScopeKeysEqualIff(ChatScope(p.fact.circuitChat), scope);
    }
  }

  predicate ProposesValue(p: Event, value: EventId, scope: Scope) {
    && p.id == value && p.kind == ValueProposed && p.fact.ValueFact?
    && p.fact.valueScope.visibility == scope.visibility && ScopeKey(p.fact.valueScope) == ScopeKey(scope)
  }

  /** The value was proposed for this scope. */
  ghost predicate ValueProposedIn(log: seq<Event>, value: EventId, scope: Scope) {
    exists p :: p in log && ProposesValue(p, value, scope)
  }

  lemma KnownValue(log: seq<Event>, value: EventId, scope: Scope)
    requires WellFormed(log) && Values.Known(log, value, scope)
    ensures ValueProposedIn(log, value, scope)
  {
    ListedInLog(log, ValueProposed, Some(scope), 500);
    var p := Values.Proposal(log, value, scope).value;
    assert p in log && ProposesValue(p, value, scope) by {
      ScopeKeysEqualIff(p.fact.valueScope, scope);
    }
  }

  /** `recordActionCircuitEvaluation`: answers with the status granted, which may be less than the one asked for. */
  method EvaluateCircuit(store: EventStore, flags: Flags, t: Circuits.Trial, id: EventId, clock: int) returns (answer: Appended)
    modifies store
    ensures (store.Contents(), answer) == Circuits.Evaluate(old(store.Contents()), flags, t, id, clock)
    ensures old(store.Valid()) ==> store.Valid()
    ensures answer.Inserted? ==> Circuits.TrialStored(answer.event, t, clock) && store.log == old(store.log) + [answer.event]
    ensures old(store.Valid()) && answer.Inserted? ==> CircuitProposedIn(old(store.log), t.circuit, t.scope)
  {
    if !Circuits.Known(store.log, t.circuit, t.scope) {
      return Refused("no such circuit");
    }
    if old(store.Valid()) {
      KnownCircuit(store.log, t.circuit, t.scope);
    }
    answer := store.Append(flags, Circuits.EvaluationInput(t, clock), id, clock);
    if answer.Inserted? {
      Circuits.TrialIsStored(answer.event, t, id, clock);
    }
  }

  /** `publishActionCircuit`. */
  method PublishCircuit(store: EventStore, flags: Flags, circuit: EventId, scope: Scope, at: Option<int>, id: EventId, clock: int)
    returns (answer: Appended)
    modifies store
    ensures (store.Contents(), answer) == Circuits.Publish(old(store.Contents()), flags, circuit, scope, at, id, clock)
    ensures old(store.Valid()) ==> store.Valid()
    ensures answer.Inserted? ==>
      && Circuits.LatestVerified(old(store.log), scope, circuit)
      && answer.event.kind == CircuitPublished && answer.event.fact == CircuitPublication(circuit) && answer.event.scope == scope
      && var p := Circuits.Proposal(old(store.log), circuit, scope);
         p.Some? && p.value.fact.CircuitFact? && (p.value.fact.expiresAt.Some? ==> answer.event.occurredAt < p.value.fact.expiresAt.value)
  {
    if !Circuits.Known(store.log, circuit, scope) {
      return Refused("no such circuit");
    }
    if !Circuits.LatestVerified(store.log, scope, circuit) {
      return Refused("not verified");
    }
    var publishedAt := Circuits.At(at, clock);
    if !Circuits.Alive(Circuits.Proposal(store.log, circuit, scope).value, publishedAt) {
      return Refused("expired");
    }
    answer := store.Append(flags, Circuits.PublicationInput(store.log, circuit, scope, publishedAt), id, clock);
  }

  /** `recordValueEvaluation`: a retention without its proof is stored as unverified. */
  method EvaluateValue(store: EventStore, flags: Flags, r: Values.Review, id: EventId, clock: int) returns (answer: Appended)
    modifies store
    ensures (store.Contents(), answer) == Values.Evaluate(old(store.Contents()), flags, r, id, clock)
    ensures old(store.Valid()) ==> store.Valid()
    ensures answer.Inserted? ==> Values.ReviewStored(answer.event, r, clock) && store.log == old(store.log) + [answer.event]
    ensures old(store.Valid()) && answer.Inserted? ==> ValueProposedIn(old(store.log), r.value, r.scope)
  {
    if !Values.Known(store.log, r.value, r.scope) {
      return Refused("no such value");
    }
    if old(store.Valid()) {
      KnownValue(store.log, r.value, r.scope);
    }
    answer := store.Append(flags, Values.ReviewInput(r, clock), id, clock);
    if answer.Inserted? {
      Values.ReviewIsStored(answer.event, r, id, clock);
    }
  }

  /** `adoptValueProposal`: looks the value up in the map of latest settlements. */
  method AdoptValue(store: EventStore, flags: Flags, value: EventId, scope: Scope, at: Option<int>, id: EventId, clock: int)
    returns (answer: Appended)
    modifies store
    ensures (store.Contents(), answer) == Values.Adopt(old(store.Contents()), flags, value, scope, at, id, clock)
    ensures answer.Inserted? ==>
      && answer.event.kind == ValueAdopted && answer.event.scope == scope && Dated(at, clock, answer.event.occurredAt)
      && var l := Values.Latest(old(store.log), scope, value);
         l.Some? && l.value.fact.retention == Retained && EvidenceIds(l.value.fact.valueEvidence) != []
         && answer.event.fact == ValueAdoption(value, EvidenceIds(l.value.fact.valueEvidence))
    ensures old(store.Valid()) ==> store.Valid()
  {
    if !Values.Known(store.log, value, scope) {
      return Refused("no such value");
    }
    var latest := Values.LatestSettlements(store.log, scope);
    if value !in latest || !Values.Backed(latest[value]) {
      return Refused("not retained");
    }
    var adoptedAt := BoundedPositive(at, clock);
    answer := store.Append(flags, Values.AdoptionInput(latest[value], value, scope, adoptedAt), id, clock);
  }
}
