/** The mission functions as they write to the event store. */
module MissionScheduler {
  import opened Wrappers
  import opened Text
  import opened Vocabulary
  import opened Events
  import opened EventTables
  import opened Listing
  import opened Projections
  import opened Missions
  import opened MissionTheorems

  lemma TightStream(m: EventId)
    ensures Trim(MissionStream(m)) == MissionStream(m) != ""
  {
    StreamNameTight(m);
    TrimIs(MissionStream(m));
  }

  predicate Proposing(p: Event, r: Report) {
    p.id == r.mission && p.kind == MissionProposed && p.fact.MissionFact? && r.scope.chatId == Some(p.fact.chat)
  }

  /** The mission was proposed, for the very chat the report names. */
  ghost predicate WasProposed(log: seq<Event>, r: Report) {
    exists p :: p in log && Proposing(p, r)
  }

  lemma ProposalKnown(log: seq<Event>, r: Report)
    requires WellFormed(log) && Reportable(log, r)
    ensures WasProposed(log, r)
  {
    ListedInLog(log, MissionProposed, Some(r.scope), 500);
    var p := FindMission(log, r.mission, r.scope).value;
    assert p in log && Proposing(p, r) by {
      ScopeKeysEqualIff(ChatScope(p.fact.chat), r.scope);
    }
  }

  /** `recordMissionObservation`: a verified report without its proof is stored as merely observed. */
  method RecordObservation(store: EventStore, flags: Flags, r: Report, id: EventId, clock: int) returns (answer: Appended)
    modifies store
    ensures (store.Contents(), answer) == Record(old(store.Contents()), flags, r, id, clock)
    ensures old(store.Valid()) ==> store.Valid()
    ensures answer.Inserted? ==> ReportStored(answer.event, r, clock) && store.log == old(store.log) + [answer.event]
    ensures answer.Inserted? && answer.event.fact.outcome == Verified ==>
      r.status == Verified && Proven(answer.event.fact.passed, answer.event.fact.total, answer.event.fact.missionEvidence)
    ensures old(store.Valid()) && answer.Inserted? ==>
      WasProposed(old(store.log), r)
  {
    TightStream(r.mission);
    if !Reportable(store.log, r) {
      return Refused("no such mission");
    }
    if old(store.Valid()) {
      ProposalKnown(store.log, r);
    }
    answer := store.Append(flags, OutcomeInput(r, clock), id, clock);
    if answer.Inserted? {
      OutcomeIsStored(answer.event, r, id, clock);
    }
  }

  /** `requestMissionWake`. */
  method RequestWake(store: EventStore, flags: Flags, m: EventId, scope: Scope, wakeAt: Option<int>, id: EventId, clock: int)
    returns (answer: Appended)
    modifies store
    ensures (store.Contents(), answer) == Request(old(store.Contents()), flags, m, scope, wakeAt, id, clock)
    ensures old(store.Valid()) ==> store.Valid()
    ensures var c := Current(old(store.log), m, scope, clock); c.Some? && Closed(c.value) ==> store.log == old(store.log)
    ensures answer.Inserted? ==>
      var c := Current(old(store.log), m, scope, clock);
      && c.Some? && !Closed(c.value) && WakeStored(answer.event, m, c.value.chat, wakeAt, clock)
      && store.log == old(store.log) + [answer.event]
  {
    TightStream(m);
    if !ChatScoped(scope) {
      return Refused("chat scope required");
    }
    var c := Current(store.log, m, scope, clock);
    if c.None? || Closed(c.value) {
      return Refused("not wakeable");
    }
    answer := store.Append(flags, WakeInput(c.value, wakeAt, clock), id, clock);
    if answer.Inserted? {
      WakeIsStored(answer.event, c.value, wakeAt, id, clock);
    }
  }

  /** `claimDueMissionWakes`: one request per due mission, of which only the inserted ones are reported. */
  method ClaimDue(store: EventStore, flags: Flags, now: int, limit: int, ids: nat -> EventId, clock: int) returns (wakes: seq<Wake>)
    modifies store
    ensures (store.Contents(), wakes) == Tick(old(store.Contents()), flags, now, limit, ids, clock)
    ensures old(store.Valid()) ==> store.Valid()
  {
    ghost var was := store.Contents();
    var chosen := Chosen(store.log, limit, clock);
    wakes := [];
    for k := 0 to |chosen|
      invariant (store.Contents(), wakes) == WokenUpTo(was, flags, chosen, now, ids, clock, k)
      invariant old(store.Valid()) ==> store.Valid()
    {
      var c := chosen[k];
      var answer := RequestWake(store, flags, c.mission, ChatScope(c.chat), Some(now), ids(k), clock);
      if answer.Inserted? {
        wakes := wakes + [Wake(c.mission, answer.event.id)];
      }
    }
  }
}
