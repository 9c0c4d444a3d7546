/**
 * Missions as a projection of the log: proposals, host observations and scheduler wakes, of
 * which the latest update decides. The log is the only state.
 */
module Missions {
  import opened Wrappers
  import opened Text
  import opened Vocabulary
  import opened Events
  import opened Listing
  import opened Projections

  datatype Update = Update(
    mission: EventId, status: MissionStatus, evidence: seq<string>, passed: nat, total: nat, next: Option<int>)

  /** What an event says about a mission, if anything. */
  function Parse(e: Event): Option<Update> {
    if e.kind == MissionWakeRequested then
      if e.fact.MissionWake? && SafeInt(e.fact.wakeAt) && e.fact.wakeAt > 0 then
        Some(Update(e.fact.woken, WakeRequested, [Int(e.id)], 0, 0, Some(Least(FAR, e.fact.wakeAt + 3600))))
      else None
    else if e.kind == MissionObserved && e.fact.MissionOutcome? then
      Some(Update(e.fact.mission, e.fact.outcome, EvidenceIds(e.fact.missionEvidence),
                  Least(8, e.fact.passed), Least(8, e.fact.total),
                  if e.fact.next.Some? && SafeInt(e.fact.next.value) && e.fact.next.value > 0 then e.fact.next else None))
    else None
  }

  predicate About(e: Event, m: EventId) {
    Parse(e).Some? && Parse(e).value.mission == m
  }

  predicate Wakes(e: Event, m: EventId) {
    e.kind == MissionWakeRequested && About(e, m)
  }

  // ---- projections ----

  /** All updates within the listing caps, latest first. */
  function Updates(log: seq<Event>, scope: Option<Scope>): seq<Event> {
    Sort(Recent, List(log, Kinds(MissionObserved, scope, 1000)) + List(log, Kinds(MissionWakeRequested, scope, 1000)))
  }

  function Updating(m: EventId): Event -> bool {
    e => About(e, m)
  }

  /** The update that decides a mission's status. */
  function Latest(log: seq<Event>, scope: Option<Scope>, m: EventId): Option<Event> {
    First(Updates(log, scope), Updating(m))
  }

  datatype Continuity = Continuity(
    mission: EventId, chat: int, status: Option<MissionStatus>, last: EventId, next: Option<int>, due: bool,
    evidence: seq<string>, passed: nat, total: nat)

  predicate Closed(c: Continuity) {
    c.status.Some? && c.status.value.Terminal()
  }

  /** `missionContinuityFromProposal`; a status of None is a mission still only proposed. */
  function Project(proposal: Event, latest: Option<Event>, clock: int): Option<Continuity>
    requires latest.Some? ==> Parse(latest.value).Some?
  {
    if !proposal.fact.MissionFact? || !ValidId(Some(proposal.fact.chat)) then None
    else
      var u := if latest.Some? then Parse(latest.value) else None;
      var status := if u.Some? then Some(u.value.status) else None;
      var next := if u.Some? && u.value.next.Some? then u.value.next else proposal.fact.wakeFirst;
      var terminal := status.Some? && status.value.Terminal();
      Some(Continuity(proposal.id, proposal.fact.chat, status, if latest.Some? then latest.value.id else proposal.id, next,
                      !terminal && (next.None? || next.value <= clock),
                      if u.Some? then u.value.evidence else [], if u.Some? then u.value.passed else 0,
                      if u.Some? then u.value.total else 0))
  }

  function Proposals(log: seq<Event>, scope: Option<Scope>, limit: int): seq<Event> {
    List(log, Kinds(MissionProposed, scope, Clamp(limit, 1, 500)))
  }

  function ProjectAll(log: seq<Event>, scope: Option<Scope>, proposals: seq<Event>, clock: int): seq<Continuity> {
    if proposals == [] then []
    else
      var n := |proposals| - 1;
      var rest := ProjectAll(log, scope, proposals[..n], clock);
      var c := Project(proposals[n], Latest(log, scope, proposals[n].id), clock);
      if c.Some? then rest + [c.value] else rest
  }

  /** `listMissionContinuity`. */
  function ListMissions(log: seq<Event>, scope: Option<Scope>, limit: int, clock: int): seq<Continuity> {
    if scope.Some? && !ChatScoped(scope.value) then [] else ProjectAll(log, scope, Proposals(log, scope, limit), clock)
  }

  /** `eventForMission`. */
  function FindMission(log: seq<Event>, m: EventId, scope: Scope): Option<Event> {
    WithId(List(log, Kinds(MissionProposed, Some(scope), 500)), m)
  }

  /** `getMissionContinuity`. */
  function Current(log: seq<Event>, m: EventId, scope: Scope, clock: int): Option<Continuity> {
    var proposal := FindMission(log, m, scope);
    if proposal.None? then None else Project(proposal.value, Latest(log, Some(scope), m), clock)
  }

  // ---- writing ----

  function MissionStream(m: EventId): string {
    "mission:" + Int(m)
  }

  datatype Report = Report(
    mission: EventId, scope: Scope, status: MissionStatus, observedAt: Option<int>, evidence: seq<string>,
    passed: int, total: int, next: Option<int>)

  function OutcomeInput(r: Report, clock: int): EventInput {
    var at := BoundedPositive(r.observedAt, clock);
    var total: nat := Clamp(r.total, 0, 8);
    var passed: nat := Clamp(r.passed, 0, total);
    var evidence := EvidenceIds(r.evidence);
    var status := if r.status == Verified && !Proven(passed, total, evidence) then Observed else r.status;
    var next := if r.next.Some? && SafeInt(r.next.value) && r.next.value > at then Some(Least(FAR, r.next.value)) else None;
    EventInput(MissionObserved, r.scope, Host, Some(at), Some(Int(r.mission)), Some(MissionStream(r.mission)),
               Some(OutcomeOf(r.mission, status, at)), MissionOutcome(r.mission, status, evidence, passed, total, next))
  }

  /** The stored form of a report: its date, figures and evidence, verified only when asked for and proven. */
  predicate ReportStored(e: Event, r: Report, clock: int) {
    && e.kind == MissionObserved && e.source == Host && e.scope == r.scope && e.correlation == "mission:" + Int(r.mission)
    && e.fact.MissionOutcome? && e.fact.mission == r.mission && e.fact.missionEvidence == EvidenceIds(r.evidence)
    && Dated(r.observedAt, clock, e.occurredAt)
    && Fitted(r.total, 0, 8, e.fact.total) && Fitted(r.passed, 0, e.fact.total, e.fact.passed)
    && (r.status != Verified ==> e.fact.outcome == r.status)
    && (r.status == Verified ==>
          e.fact.outcome == if e.fact.total >= 1 && e.fact.passed == e.fact.total && e.fact.missionEvidence != [] then Verified else Observed)
    && (r.next.Some? && e.occurredAt < r.next.value <= MAX_SAFE ==>
          e.fact.next == Some(if r.next.value > 4_102_444_800 then 4_102_444_800 else r.next.value))
    && (!(r.next.Some? && e.occurredAt < r.next.value <= MAX_SAFE) ==> e.fact.next.None?)
  }

  lemma OutcomeIsStored(e: Event, r: Report, id: EventId, clock: int)
    requires Records(e, OutcomeInput(r, clock), id, clock) && e.occurredAt > 0 && Trim(MissionStream(r.mission)) == MissionStream(r.mission) != ""
    ensures ReportStored(e, r, clock)
  {
  }

  /** Whether the host may report on this mission at all. */
  predicate Reportable(log: seq<Event>, r: Report) {
    && ChatScoped(r.scope) && r.status != WakeRequested
    && var mission := FindMission(log, r.mission, r.scope);
       mission.Some? && mission.value.fact.MissionFact? && ValidId(Some(mission.value.fact.chat))
       && ScopeKey(ChatScope(mission.value.fact.chat)) == ScopeKey(r.scope)
  }

  /** `recordMissionObservation`. */
  function Record(st: Store, flags: Flags, r: Report, id: EventId, clock: int): (Store, Appended) {
    if !Reportable(st.log, r) then (st, Refused("no such mission"))
    else Append(st, flags, OutcomeInput(r, clock), id, clock)
  }

  function WakeInput(c: Continuity, wakeAt: Option<int>, clock: int): EventInput {
    var at := BoundedPositive(wakeAt, clock);
    EventInput(MissionWakeRequested, ChatScope(c.chat), Scheduler, Some(clock), Some(Int(c.last)), Some(MissionStream(c.mission)),
               Some(WakeOf(c.mission, at / 60)), MissionWake(c.mission, at))
  }

  predicate WakeStored(e: Event, m: EventId, chat: int, wakeAt: Option<int>, clock: int) {
    && e.kind == MissionWakeRequested && e.source == Scheduler && e.scope == ChatScope(chat) && e.occurredAt == clock
    && e.fact.MissionWake? && e.fact.woken == m && Dated(wakeAt, clock, e.fact.wakeAt)
    && e.dedupe == Some(WakeOf(m, e.fact.wakeAt / 60)) && e.correlation == "mission:" + Int(m)
  }

  lemma WakeIsStored(e: Event, c: Continuity, wakeAt: Option<int>, id: EventId, clock: int)
    requires Records(e, WakeInput(c, wakeAt, clock), id, clock) && Trim(MissionStream(c.mission)) == MissionStream(c.mission) != ""
    ensures WakeStored(e, c.mission, c.chat, wakeAt, clock)
  {
  }

  /** `requestMissionWake`: nothing is written for a mission unknown in the scope or closed. */
  function Request(st: Store, flags: Flags, m: EventId, scope: Scope, wakeAt: Option<int>, id: EventId, clock: int): (Store, Appended) {
    if !ChatScoped(scope) then (st, Refused("chat scope required"))
    else
      var c := Current(st.log, m, scope, clock);
      if c.None? || Closed(c.value) then (st, Refused("not wakeable"))
      else Append(st, flags, WakeInput(c.value, wakeAt, clock), id, clock)
  }

  function DueOf(all: seq<Continuity>): seq<Continuity> {
    if all == [] then []
    else
      var rest := DueOf(all[..|all| - 1]);
      if all[|all| - 1].due then rest + [all[|all| - 1]] else rest
  }

  /** The missions one tick turns to. */
  function Chosen(log: seq<Event>, limit: int, clock: int): seq<Continuity> {
    var due := DueOf(ListMissions(log, None, 500, clock));
    if |due| <= Clamp(limit, 1, 100) then due else due[..Clamp(limit, 1, 100)]
  }

  datatype Wake = Wake(mission: EventId, wakeEvent: EventId)

  /** The store and the wakes after the first k chosen missions. */
  function WokenUpTo(st: Store, flags: Flags, chosen: seq<Continuity>, now: int, ids: nat -> EventId, clock: int, k: nat): (Store, seq<Wake>)
    requires k <= |chosen|
  {
    if k == 0 then (st, [])
    else
      var (before, wakes) := WokenUpTo(st, flags, chosen, now, ids, clock, k - 1);
      var c := chosen[k - 1];
      var (next, answer) := Request(before, flags, c.mission, ChatScope(c.chat), Some(now), ids(k - 1), clock);
      (next, if answer.Inserted? then wakes + [Wake(c.mission, answer.event.id)] else wakes)
  }

  /** `claimDueMissionWakes`. */
  function Tick(st: Store, flags: Flags, now: int, limit: int, ids: nat -> EventId, clock: int): (Store, seq<Wake>) {
    var chosen := Chosen(st.log, limit, clock);
    WokenUpTo(st, flags, chosen, now, ids, clock, |chosen|)
  }

  // ---- the loops ----

  /** The map holds, for every mission, the first of these events about it. */
  ghost predicate Indexes(out: map<EventId, Event>, events: seq<Event>) {
    forall m :: First(events, Updating(m)) == if m in out then Some(out[m]) else None
  }

  /** The map with an event noted, unless its mission has one already. */
  function Noted(out: map<EventId, Event>, e: Event): map<EventId, Event> {
    var u := Parse(e);
    if u.Some? && u.value.mission !in out then out[u.value.mission := e] else out
  }

  lemma IndexStep(out: map<EventId, Event>, events: seq<Event>, k: nat)
    requires k < |events| && Indexes(out, events[..k])
    ensures Indexes(Noted(out, events[k]), events[..k + 1])
  {
    assert events[..k + 1] == events[..k] + [events[k]];
    IndexSnoc(out, events[..k], events[k]);
  }

  lemma IndexNone(events: seq<Event>)
    ensures Indexes(map[], events[..0])
  {
  }

  lemma IndexSnoc(out: map<EventId, Event>, events: seq<Event>, e: Event)
    requires Indexes(out, events)
    ensures Indexes(Noted(out, e), events + [e])
  {
    forall m ensures First(events + [e], Updating(m)) ==
      if First(events, Updating(m)).Some? then First(events, Updating(m)) else if About(e, m) then Some(e) else None
    {
      FirstSnoc(events, e, Updating(m));
    }
  }

  lemma IndexedIs(out: map<EventId, Event>, log: seq<Event>, scope: Option<Scope>)
    requires Indexes(out, Updates(log, scope))
    ensures forall m :: Latest(log, scope, m) == if m in out then Some(out[m]) else None
  {
  }

  /** `latestObservationByMission`: one pass over the sorted updates, the first one of a mission wins. */
  method LatestByMission(log: seq<Event>, scope: Option<Scope>) returns (out: map<EventId, Event>)
    ensures forall m :: Latest(log, scope, m) == if m in out then Some(out[m]) else None
  {
    var events := Updates(log, scope);
    out := map[];
    IndexNone(events);
    for k := 0 to |events|
      invariant Indexes(out, events[..k])
    {
      IndexStep(out, events, k);
      var u := Parse(events[k]);
      if u.Some? && u.value.mission !in out {
        out := out[u.value.mission := events[k]];
      }
    }
    assert events[..|events|] == events;
    IndexedIs(out, log, scope);
  }
}
