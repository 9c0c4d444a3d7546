/** What missions keep over whole histories of reports, scheduler ticks and foreign events. */
module MissionTheorems {
  import opened Wrappers
  import opened Text
  import opened Vocabulary
  import opened Events
  import opened Listing
  import opened Projections
  import opened EventTables
  import opened Missions

  datatype Op =
    | Host(flags: Flags, report: Report, id: EventId)
    | Heartbeat(flags: Flags, now: int, limit: int, ids: nat -> EventId)
    | Nudge(flags: Flags, mission: EventId, scope: Scope, wakeAt: Option<int>, id: EventId)
    | Foreign(call: AppendCall)
    | Pass(seconds: nat)

  datatype Sys = Sys(store: Store, clock: int)

  function Next(s: Sys, op: Op): Sys {
    match op
    case Host(flags, report, id) => s.(store := Record(s.store, flags, report, id, s.clock).0)
    case Heartbeat(flags, now, limit, ids) => s.(store := Tick(s.store, flags, now, limit, ids, s.clock).0)
    case Nudge(flags, m, scope, wakeAt, id) => s.(store := Request(s.store, flags, m, scope, wakeAt, id, s.clock).0)
    case Foreign(c) => s.(store := Append(s.store, c.flags, c.input, c.id, c.now).0)
    case Pass(n) => s.(clock := s.clock + n)
  }

  function Run(clock: int, ops: seq<Op>): Sys {
    if ops == [] then Sys(EMPTY, clock) else Next(Run(clock, ops[..|ops| - 1]), ops[|ops| - 1])
  }

  /** Only the mission functions write mission updates and wake keys; proposals are foreign. */
  predicate ForeignInput(input: EventInput) {
    && input.kind !in {MissionObserved, MissionWakeRequested}
    && !input.fact.MissionOutcome? && !input.fact.MissionWake?
    && !(input.dedupe.Some? && input.dedupe.value.WakeOf?)
  }

  ghost predicate Allowed(ops: seq<Op>) {
    forall op :: op in ops && op.Foreign? ==> ForeignInput(op.call.input)
  }

  // ---- what every mission event satisfies ----

  predicate WakeEvent(e: Event) {
    && e.kind == MissionWakeRequested && e.fact.MissionWake? && e.fact.wakeAt > 0 && SafeInt(e.fact.wakeAt)
    && e.dedupe == Some(WakeOf(e.fact.woken, e.fact.wakeAt / 60)) && e.correlation == MissionStream(e.fact.woken)
  }

  predicate OutcomeEvent(e: Event) {
    && e.kind == MissionObserved && e.fact.MissionOutcome? && e.correlation == MissionStream(e.fact.mission)
    && (e.fact.outcome == Verified ==>
          Proven(e.fact.passed, e.fact.total, EvidenceIds(e.fact.missionEvidence)) && e.fact.total <= 8)
  }

  predicate Proper(e: Event) {
    && (e.kind == MissionWakeRequested || e.fact.MissionWake? || (e.dedupe.Some? && e.dedupe.value.WakeOf?) ==> WakeEvent(e))
    && (e.kind == MissionObserved || e.fact.MissionOutcome? ==> OutcomeEvent(e))
  }

  ghost predicate AllProper(log: seq<Event>) {
    forall e :: e in log ==> Proper(e)
  }

  lemma StreamNameTight(m: EventId)
    ensures Tight(MissionStream(m)) && MissionStream(m) != ""
  {
    DecReadsBack(m);
    var name, digits := MissionStream(m), Dec(m);
    assert name[0] == 'm' && name[|name| - 1] == digits[|digits| - 1];
  }

  /** An input whose event will be proper. */
  predicate ProperInput(i: EventInput) {
    || ForeignInput(i)
    || (i.kind == MissionWakeRequested && i.fact.MissionWake? && i.fact.wakeAt > 0 && SafeInt(i.fact.wakeAt)
        && i.dedupe == Some(WakeOf(i.fact.woken, i.fact.wakeAt / 60)) && i.correlation == Some(MissionStream(i.fact.woken)))
    || (i.kind == MissionObserved && i.fact.MissionOutcome? && i.correlation == Some(MissionStream(i.fact.mission))
        && !(i.dedupe.Some? && i.dedupe.value.WakeOf?)
        && (i.fact.outcome == Verified ==>
              Proven(i.fact.passed, i.fact.total, EvidenceIds(i.fact.missionEvidence)) && i.fact.total <= 8))
  }

  lemma AppendProper(st: Store, flags: Flags, input: EventInput, id: EventId, now: int)
    requires AllProper(st.log) && ProperInput(input)
    ensures AllProper(Append(st, flags, input, id, now).0.log)
  {
    AppendShape(st, flags, input, id, now);
    StoredAsGiven(st, flags, input, id, now);
    if input.fact.MissionWake? {
      StreamNameTight(input.fact.woken);
    }
    if input.fact.MissionOutcome? {
      StreamNameTight(input.fact.mission);
    }
  }

  lemma OutcomeProper(r: Report, clock: int)
    ensures ProperInput(OutcomeInput(r, clock))
  {
    if OutcomeInput(r, clock).fact.outcome == Verified {
      UniqueAgain(r.evidence);
    }
  }

  lemma WakeProper(c: Continuity, wakeAt: Option<int>, clock: int)
    requires clock > 0 && SafeInt(clock)
    ensures ProperInput(WakeInput(c, wakeAt, clock))
  {
  }

  /** A wake dated outside the clock's range is refused by the log. */
  lemma BadClockRefused(st: Store, flags: Flags, c: Continuity, wakeAt: Option<int>, id: EventId, clock: int)
    requires !(clock > 0 && SafeInt(clock))
    ensures Append(st, flags, WakeInput(c, wakeAt, clock), id, clock).0 == st
  {
  }

  /** A request writes nothing, or one wake of its mission, dated now. */
  ghost predicate Woke(st: Store, next: Store, m: EventId, clock: int, closed: bool) {
    || next.log == st.log
    || (!closed && |next.log| == |st.log| + 1 && st.log == next.log[..|st.log|]
        && Wakes(next.log[|st.log|], m) && next.log[|st.log|].occurredAt == clock)
  }

  lemma WakeAppended(st: Store, flags: Flags, c: Continuity, wakeAt: Option<int>, id: EventId, clock: int)
    requires AllProper(st.log)
    ensures var (next, answer) := Append(st, flags, WakeInput(c, wakeAt, clock), id, clock);
            && AllProper(next.log) && Woke(st, next, c.mission, clock, false)
            && (answer.Inserted? <==> next.log != st.log)
  {
    var input := WakeInput(c, wakeAt, clock);
    AppendShape(st, flags, input, id, clock);
    if clock > 0 && SafeInt(clock) {
      WakeProper(c, wakeAt, clock);
      AppendProper(st, flags, input, id, clock);
      StoredAsGiven(st, flags, input, id, clock);
    } else {
      BadClockRefused(st, flags, c, wakeAt, id, clock);
    }
  }

  lemma RequestDoes(st: Store, flags: Flags, m: EventId, scope: Scope, wakeAt: Option<int>, id: EventId, clock: int)
    requires AllProper(st.log)
    ensures var (next, answer) := Request(st, flags, m, scope, wakeAt, id, clock);
            var c := Current(st.log, m, scope, clock);
            && AllProper(next.log)
            && Woke(st, next, m, clock, c.Some? && Closed(c.value))
            && (answer.Inserted? <==> next.log != st.log)
  {
    var c := Current(st.log, m, scope, clock);
    if ChatScoped(scope) && c.Some? && !Closed(c.value) {
      assert c.value.mission == m;
      WakeAppended(st, flags, c.value, wakeAt, id, clock);
    }
  }

  // ---- the latest update ----

  /** Every update of the scope fits the listing caps. */
  ghost predicate Untruncated(log: seq<Event>, scope: Option<Scope>) {
    && |Filter(Kinds(MissionObserved, scope, 1000), log)| <= 1000
    && |Filter(Kinds(MissionWakeRequested, scope, 1000), log)| <= 1000
    && (scope.Some? ==> ScopeKey(scope.value).Ok?)
  }

  predicate Seen(e: Event, scope: Option<Scope>) {
    && (e.kind == MissionObserved || e.kind == MissionWakeRequested)
    && (scope.Some? ==> Ok(e.scopeKey) == ScopeKey(scope.value))
  }

  lemma UpdatesAre(log: seq<Event>, scope: Option<Scope>)
    requires Distinct(log) && Untruncated(log, scope)
    ensures Sorted(Recent, Updates(log, scope))
    ensures forall e :: e in Updates(log, scope) <==> e in log && Seen(e, scope)
  {
    UntruncatedList(log, MissionObserved, scope, 1000);
    UntruncatedList(log, MissionWakeRequested, scope, 1000);
    var a, b := List(log, Kinds(MissionObserved, scope, 1000)), List(log, Kinds(MissionWakeRequested, scope, 1000));
    forall i, j | 0 <= i < |a| && 0 <= j < |b| ensures a[i].id != b[j].id {
      assert a[i] in a && b[j] in b;
    }
    SortIs(Recent, a + b);
  }

  /** The update the projection uses is the most recent one: no other update of the mission precedes it. */
  lemma LatestIs(log: seq<Event>, scope: Option<Scope>, m: EventId)
    requires Distinct(log) && Untruncated(log, scope)
    ensures var l := Latest(log, scope, m);
            && (l.None? <==> forall e :: e in log && Seen(e, scope) ==> !About(e, m))
            && (l.Some? ==>
                  && l.value in log && Seen(l.value, scope) && About(l.value, m)
                  && forall e :: e in log && Seen(e, scope) && About(e, m) && e != l.value ==> Precedes(Recent, l.value, e))
  {
    UpdatesAre(log, scope);
    forall e | e in log && Seen(e, scope) && About(e, m)
      ensures Latest(log, scope, m).Some? && (Latest(log, scope, m).value == e || Precedes(Recent, Latest(log, scope, m).value, e))
    {
      FirstIsEarliest(Recent, Updates(log, scope), Updating(m), e);
    }
  }

  lemma {:induction false} StreamGrows(log: seq<Event>, c: string, i: nat, j: nat)
    requires i <= j <= |log|
    ensures |Stream(log[..i], c)| <= |Stream(log[..j], c)|
    decreases j
  {
    if i < j {
      StreamGrows(log, c, i, j - 1);
      assert log[..j][..j - 1] == log[..j - 1];
    }
  }

  /** Within one correlation later events carry greater sequence numbers. */
  lemma SequenceRises(log: seq<Event>, i: nat, j: nat)
    requires Numbered(log) && i < j < |log| && log[i].correlation == log[j].correlation
    ensures log[i].sequence < log[j].sequence
  {
    var c := log[i].correlation;
    StreamGrows(log, c, i + 1, j);
    assert log[..i + 1][..i] == log[..i];
  }

  lemma AboutStream(log: seq<Event>, e: Event, m: EventId)
    requires AllProper(log) && e in log && About(e, m)
    ensures e.correlation == MissionStream(m) && Seen(e, None)
  {
  }

  lemma LastPrecedes(log: seq<Event>, p: nat, m: EventId, l: Event)
    requires Numbered(log) && AllProper(log) && p < |log| && About(log[p], m) && l in log && About(l, m) && l != log[p]
    requires forall i :: 0 <= i < p && About(log[i], m) ==> log[i].occurredAt <= log[p].occurredAt
    requires forall i :: p < i < |log| ==> !About(log[i], m)
    ensures !Precedes(Recent, l, log[p])
  {
    var i :| 0 <= i < |log| && log[i] == l;
    AboutStream(log, log[p], m);
    AboutStream(log, l, m);
    SequenceRises(log, i, p);
  }

  /** An update that nothing is dated after and nothing follows is the latest. */
  lemma LastWins(log: seq<Event>, p: nat, m: EventId)
    requires WellFormed(log) && AllProper(log) && Untruncated(log, None) && p < |log| && About(log[p], m)
    requires forall i :: 0 <= i < p && About(log[i], m) ==> log[i].occurredAt <= log[p].occurredAt
    requires forall i :: p < i < |log| ==> !About(log[i], m)
    ensures Latest(log, None, m) == Some(log[p])
  {
    LatestIs(log, None, m);
    AboutStream(log, log[p], m);
    var l := Latest(log, None, m).value;
    if l != log[p] {
      LastPrecedes(log, p, m, l);
    }
  }

  // ---- spacing ----

  /** Two wakes of a mission with no other update of it in between. */
  ghost predicate NextWake(log: seq<Event>, p: nat, q: nat, m: EventId) {
    p < q < |log| && Wakes(log[p], m) && Wakes(log[q], m) && forall i :: p < i < q ==> !About(log[i], m)
  }

  /** No earlier update of the mission is dated after this event. */
  ghost predicate NoneLater(log: seq<Event>, p: nat, m: EventId)
    requires p < |log|
  {
    forall i :: 0 <= i < p && About(log[i], m) ==> log[i].occurredAt <= log[p].occurredAt
  }

  ghost predicate SpacedFor(log: seq<Event>, p: nat, q: nat, m: EventId) {
    NextWake(log, p, q, m) && NoneLater(log, p, m) ==> log[q].occurredAt >= Least(FAR, log[p].fact.wakeAt + 3600)
  }

  /** Every wake from position n on keeps its distance from the one before it. */
  ghost predicate Spaced(log: seq<Event>, n: nat) {
    forall p, q, m | n <= q :: SpacedFor(log, p, q, m)
  }

  /** The projection of a log at some time shows the mission as due. */
  ghost predicate DueAt(log: seq<Event>, m: EventId, clock: int) {
    exists proposal :: DueBy(log, proposal, m, clock)
  }

  ghost predicate DueBy(log: seq<Event>, proposal: Event, m: EventId, clock: int) {
    proposal.id == m && Project(proposal, Latest(log, None, m), clock).Some? && Project(proposal, Latest(log, None, m), clock).value.due
  }

  lemma SpacedPrefix(log: seq<Event>, longer: seq<Event>, p: nat, q: nat, m: EventId)
    requires log <= longer && q < |log| && SpacedFor(log, p, q, m)
    ensures SpacedFor(longer, p, q, m)
  {
    forall i | 0 <= i < |log| ensures longer[i] == log[i] {
    }
  }

  lemma SpacedJoin(log: seq<Event>, longer: seq<Event>, n: nat)
    requires log <= longer && Spaced(log, n) && Spaced(longer, |log|)
    ensures Spaced(longer, n)
  {
    forall p: nat, q: nat, m | n <= q ensures SpacedFor(longer, p, q, m) {
      if q < |log| {
        SpacedPrefix(log, longer, p, q, m);
      }
    }
  }

  /** The log at the start of a tick, of which the current log is a continuation that says nothing new about m. */
  ghost predicate SilentSince(log0: seq<Event>, log: seq<Event>, m: EventId) {
    log0 <= log && forall i :: |log0| <= i < |log| ==> !About(log[i], m)
  }

  lemma QuietHour(log0: seq<Event>, log: seq<Event>, e: Event, p: nat, m: EventId)
    requires SilentSince(log0, log, m) && WellFormed(log0) && AllProper(log0) && Untruncated(log0, None)
    requires DueAt(log0, m, e.occurredAt)
    ensures SpacedFor(log + [e], p, |log|, m)
  {
    if NextWake(log + [e], p, |log|, m) && NoneLater(log + [e], p, m) {
      assert (log + [e])[p] == log[p];
      assert p < |log0|;
      forall i | 0 <= i < |log0| ensures log0[i] == (log + [e])[i] {
      }
      LastWins(log0, p, m);
      var proposal :| DueBy(log0, proposal, m, e.occurredAt);
      assert Parse(log0[p]).value.next == Some(Least(FAR, log0[p].fact.wakeAt + 3600));
    }
  }

  lemma SpacedAppend(log0: seq<Event>, log: seq<Event>, e: Event, n: nat)
    requires Spaced(log, n) && WellFormed(log0) && AllProper(log0) && Untruncated(log0, None)
    requires forall m :: Wakes(e, m) ==> SilentSince(log0, log, m) && DueAt(log0, m, e.occurredAt)
    ensures Spaced(log + [e], n)
  {
    forall p: nat, q: nat, m | n <= q ensures SpacedFor(log + [e], p, q, m) {
      if q < |log| {
        SpacedPrefix(log, log + [e], p, q, m);
      } else if NextWake(log + [e], p, q, m) {
        QuietHour(log0, log, e, p, m);
      }
    }
  }

  // ---- one tick ----

  ghost predicate DistinctMissions(cs: seq<Continuity>) {
    forall i, j :: 0 <= i < j < |cs| ==> cs[i].mission != cs[j].mission
  }

  ghost predicate FromProposal(log: seq<Event>, proposals: seq<Event>, c: Continuity, clock: int) {
    exists p :: p in proposals && p.id == c.mission && Project(p, Latest(log, None, p.id), clock) == Some(c)
  }

  lemma FromMore(log: seq<Event>, some: seq<Event>, more: seq<Event>, c: Continuity, clock: int)
    requires FromProposal(log, some, c, clock) && some <= more
    ensures FromProposal(log, more, c, clock)
  {
    var p :| p in some && p.id == c.mission && Project(p, Latest(log, None, p.id), clock) == Some(c);
    assert p in more;
  }

  lemma {:induction false} ProjectAllIs(log: seq<Event>, proposals: seq<Event>, clock: int)
    requires Distinct(proposals)
    ensures var cs := ProjectAll(log, None, proposals, clock);
            DistinctMissions(cs) && forall c :: c in cs ==> FromProposal(log, proposals, c, clock)
  {
    if proposals != [] {
      var n := |proposals| - 1;
      var rest := ProjectAll(log, None, proposals[..n], clock);
      ProjectAllIs(log, proposals[..n], clock);
      forall c | c in rest ensures FromProposal(log, proposals, c, clock) && c.mission != proposals[n].id {
        FromMore(log, proposals[..n], proposals, c, clock);
      }
      var c := Project(proposals[n], Latest(log, None, proposals[n].id), clock);
      assert c.Some? ==> proposals[n] in proposals && FromProposal(log, proposals, c.value, clock);
    }
  }

  lemma {:induction false} DueOfIs(all: seq<Continuity>)
    requires DistinctMissions(all)
    ensures DistinctMissions(DueOf(all)) && forall c :: c in DueOf(all) ==> c in all && c.due
  {
    if all != [] {
      DueOfIs(all[..|all| - 1]);
    }
  }

  lemma ListedMissions(log: seq<Event>, clock: int)
    requires Distinct(log)
    ensures var all := ListMissions(log, None, 500, clock);
            DistinctMissions(all) && forall c :: c in all ==> FromProposal(log, log, c, clock)
  {
    var proposals := Proposals(log, None, 500);
    var q := Kinds(MissionProposed, None, 500);
    FilterDistinct(q, log);
    SortIs(Newest, Filter(q, log));
    SortedDistinct(Newest, log, proposals);
    ProjectAllIs(log, proposals, clock);
    forall c | c in ProjectAll(log, None, proposals, clock) ensures FromProposal(log, log, c, clock) {
      var p :| p in proposals && p.id == c.mission && Project(p, Latest(log, None, p.id), clock) == Some(c);
      assert p in log;
    }
  }

  lemma DueIsDue(log: seq<Event>, c: Continuity, clock: int)
    requires FromProposal(log, log, c, clock) && c.due
    ensures DueAt(log, c.mission, clock) && !Closed(c)
  {
    var p :| p in log && p.id == c.mission && Project(p, Latest(log, None, p.id), clock) == Some(c);
    assert DueBy(log, p, c.mission, clock);
  }

  lemma {:induction false} ProjectsEach(log: seq<Event>, proposals: seq<Event>, clock: int, p: Event)
    requires p in proposals && Project(p, Latest(log, None, p.id), clock).Some?
    ensures Project(p, Latest(log, None, p.id), clock).value in ProjectAll(log, None, proposals, clock)
  {
    var n := |proposals| - 1;
    ProjectAllSnoc(log, proposals, clock);
    if p != proposals[n] {
      MemberOfInit(proposals, p);
      ProjectsEach(log, proposals[..n], clock, p);
    }
  }

  lemma MemberOfInit(s: seq<Event>, e: Event)
    requires e in s && e != s[|s| - 1]
    ensures e in s[..|s| - 1]
  {
    assert s == s[..|s| - 1] + [s[|s| - 1]];
  }

  lemma ProjectAllSnoc(log: seq<Event>, proposals: seq<Event>, clock: int)
    requires proposals != []
    ensures var n := |proposals| - 1;
            var c := Project(proposals[n], Latest(log, None, proposals[n].id), clock);
            ProjectAll(log, None, proposals, clock)
              == ProjectAll(log, None, proposals[..n], clock) + (if c.Some? then [c.value] else [])
  {
  }

  lemma {:induction false} DueOfKeeps(all: seq<Continuity>, c: Continuity)
    requires c in all && c.due
    ensures c in DueOf(all)
  {
    var n := |all| - 1;
    if c != all[n] {
      assert all == all[..n] + [all[n]];
      DueOfKeeps(all[..n], c);
    }
  }

  lemma AllChosen(log: seq<Event>, limit: int, clock: int, c: Continuity)
    requires c in ListMissions(log, None, 500, clock) && c.due
    requires 1 <= limit <= 100 && |DueOf(ListMissions(log, None, 500, clock))| <= limit
    ensures exists k :: 0 <= k < |Chosen(log, limit, clock)| && Chosen(log, limit, clock)[k].mission == c.mission
  {
    DueOfKeeps(ListMissions(log, None, 500, clock), c);
    var chosen := Chosen(log, limit, clock);
    assert c in chosen;
    var k :| 0 <= k < |chosen| && chosen[k] == c;
  }

  /** As long as no listing is cut off and the limit has room, a tick turns to every mission that is due. */
  lemma EveryDueChosen(log: seq<Event>, limit: int, clock: int, p: Event)
    requires Distinct(log) && |Filter(Kinds(MissionProposed, None, 500), log)| <= 500
    requires p in log && p.kind == MissionProposed && DueBy(log, p, p.id, clock)
    requires 1 <= limit <= 100 && |DueOf(ListMissions(log, None, 500, clock))| <= limit
    ensures exists k :: 0 <= k < |Chosen(log, limit, clock)| && Chosen(log, limit, clock)[k].mission == p.id
  {
    UntruncatedList(log, MissionProposed, None, 500);
    assert p in Proposals(log, None, 500);
    var c := Project(p, Latest(log, None, p.id), clock).value;
    ProjectsEach(log, Proposals(log, None, 500), clock, p);
    AllChosen(log, limit, clock, c);
  }

  /** However many are due, a tick turns to as many of them as its limit allows, at most a hundred. */
  lemma ChosenCount(log: seq<Event>, limit: int, clock: int)
    ensures var due, n := |DueOf(ListMissions(log, None, 500, clock))|, |Chosen(log, limit, clock)|;
            && n <= 100 && (1 <= limit <= 100 ==> n == if due <= limit then due else limit)
            && (limit > 100 ==> n == if due <= 100 then due else 100)
            && (limit < 1 ==> n == if due <= 1 then due else 1)
  {
  }

  /** A tick turns to distinct missions, each due and so not closed. */
  lemma ChosenIs(log: seq<Event>, limit: int, clock: int)
    requires Distinct(log)
    ensures var cs := Chosen(log, limit, clock);
            && DistinctMissions(cs)
            && forall k :: 0 <= k < |cs| ==>
                 DueAt(log, cs[k].mission, clock) && FromProposal(log, log, cs[k], clock) && cs[k].due && !Closed(cs[k])
  {
    var all := ListMissions(log, None, 500, clock);
    ListedMissions(log, clock);
    DueOfIs(all);
    var cs := Chosen(log, limit, clock);
    forall k | 0 <= k < |cs|
      ensures DueAt(log, cs[k].mission, clock) && FromProposal(log, log, cs[k], clock) && cs[k].due && !Closed(cs[k])
    {
      assert cs[k] in DueOf(all);
      DueIsDue(log, cs[k], clock);
    }
  }

  ghost predicate OneOf(e: Event, chosen: seq<Continuity>, k: nat)
    requires k <= |chosen|
  {
    exists c :: c in chosen[..k] && Wakes(e, c.mission)
  }

  ghost predicate WokenFrom(log: seq<Event>, start: nat, chosen: seq<Continuity>, k: nat, clock: int)
    requires k <= |chosen| && start <= |log|
  {
    forall i :: start <= i < |log| ==> log[i].occurredAt == clock && OneOf(log[i], chosen, k)
  }

  ghost predicate TickOk(log0: seq<Event>, log: seq<Event>, chosen: seq<Continuity>, k: nat, clock: int) {
    && k <= |chosen| && log0 <= log && WellFormed(log) && AllProper(log) && WokenFrom(log, |log0|, chosen, k, clock)
    && (Untruncated(log0, None) ==> Spaced(log, |log0|))
  }

  lemma NotYetWoken(log0: seq<Event>, log: seq<Event>, chosen: seq<Continuity>, k: nat, clock: int, m: EventId)
    requires TickOk(log0, log, chosen, k, clock) && DistinctMissions(chosen) && k < |chosen| && m == chosen[k].mission
    ensures SilentSince(log0, log, m)
  {
    forall i | |log0| <= i < |log| ensures !About(log[i], m) {
      assert OneOf(log[i], chosen, k);
      var c :| c in chosen[..k] && Wakes(log[i], c.mission);
      var j :| 0 <= j < k && chosen[j] == c;
    }
  }

  lemma OneOfMore(e: Event, chosen: seq<Continuity>, k: nat)
    requires k < |chosen| && (OneOf(e, chosen, k) || Wakes(e, chosen[k].mission))
    ensures OneOf(e, chosen, k + 1)
  {
    assert chosen[..k + 1] == chosen[..k] + [chosen[k]];
    if c :| c in chosen[..k] && Wakes(e, c.mission) {
      assert c in chosen[..k + 1];
    }
  }

  lemma WokenFurther(log: seq<Event>, tail: seq<Event>, start: nat, chosen: seq<Continuity>, k: nat, clock: int)
    requires k < |chosen| && start <= |log| && WokenFrom(log, start, chosen, k, clock)
    requires |tail| <= 1 && (tail != [] ==> Wakes(tail[0], chosen[k].mission) && tail[0].occurredAt == clock)
    ensures WokenFrom(log + tail, start, chosen, k + 1, clock)
  {
    var next := log + tail;
    forall i | start <= i < |next| ensures next[i].occurredAt == clock && OneOf(next[i], chosen, k + 1) {
      OneOfMore(next[i], chosen, k);
    }
  }

  lemma SpacedOneMore(log0: seq<Event>, log: seq<Event>, tail: seq<Event>, m: EventId, clock: int)
    requires Spaced(log, |log0|) && WellFormed(log0) && AllProper(log0) && Untruncated(log0, None)
    requires SilentSince(log0, log, m) && DueAt(log0, m, clock)
    requires |tail| <= 1 && (tail != [] ==> Wakes(tail[0], m) && tail[0].occurredAt == clock)
    ensures Spaced(log + tail, |log0|)
  {
    if tail == [] {
      assert log + tail == log;
    } else {
      assert tail == [tail[0]];
      SpacedAppend(log0, log, tail[0], |log0|);
    }
  }

  lemma WokenOne(log0: seq<Event>, st: Store, next: Store, chosen: seq<Continuity>, k: nat, clock: int)
    requires WellFormed(log0) && AllProper(log0) && DistinctMissions(chosen) && k < |chosen|
    requires DueAt(log0, chosen[k].mission, clock)
    requires TickOk(log0, st.log, chosen, k, clock)
    requires AllProper(next.log) && WellFormed(next.log) && Woke(st, next, chosen[k].mission, clock, false)
    ensures TickOk(log0, next.log, chosen, k + 1, clock)
  {
    var tail := next.log[|st.log|..];
    assert next.log == st.log + tail;
    WokenFurther(st.log, tail, |log0|, chosen, k, clock);
    if Untruncated(log0, None) {
      NotYetWoken(log0, st.log, chosen, k, clock, chosen[k].mission);
      SpacedOneMore(log0, st.log, tail, chosen[k].mission, clock);
    }
  }

  lemma RequestWellFormed(st: Store, flags: Flags, m: EventId, scope: Scope, wakeAt: Option<int>, id: EventId, clock: int)
    requires WellFormed(st.log)
    ensures WellFormed(Request(st, flags, m, scope, wakeAt, id, clock).0.log)
  {
    var c := Current(st.log, m, scope, clock);
    if ChatScoped(scope) && c.Some? && !Closed(c.value) {
      AppendKeepsLog(st, flags, WakeInput(c.value, wakeAt, clock), id, clock);
    }
  }

  lemma WokenStep(log0: seq<Event>, before: Store, flags: Flags, chosen: seq<Continuity>, now: int, id: EventId, clock: int, k: nat)
    requires WellFormed(log0) && AllProper(log0) && DistinctMissions(chosen) && k < |chosen|
    requires DueAt(log0, chosen[k].mission, clock) && TickOk(log0, before.log, chosen, k, clock)
    ensures var c := chosen[k];
            TickOk(log0, Request(before, flags, c.mission, ChatScope(c.chat), Some(now), id, clock).0.log, chosen, k + 1, clock)
  {
    var c := chosen[k];
    RequestDoes(before, flags, c.mission, ChatScope(c.chat), Some(now), id, clock);
    RequestWellFormed(before, flags, c.mission, ChatScope(c.chat), Some(now), id, clock);
    WokenOne(log0, before, Request(before, flags, c.mission, ChatScope(c.chat), Some(now), id, clock).0, chosen, k, clock);
  }

  ghost predicate AllDueAt(log: seq<Event>, chosen: seq<Continuity>, clock: int) {
    forall i :: 0 <= i < |chosen| ==> DueAt(log, chosen[i].mission, clock)
  }

  lemma WokenNext(st: Store, flags: Flags, chosen: seq<Continuity>, now: int, ids: nat -> EventId, clock: int, k: nat)
    requires WellFormed(st.log) && AllProper(st.log) && DistinctMissions(chosen) && k < |chosen|
    requires AllDueAt(st.log, chosen, clock) && WokenOk(st, flags, chosen, now, ids, clock, k)
    ensures WokenOk(st, flags, chosen, now, ids, clock, k + 1)
  {
    WokenStep(st.log, WokenUpTo(st, flags, chosen, now, ids, clock, k).0, flags, chosen, now, ids(k), clock, k);
  }

  lemma NothingWoken(log: seq<Event>, chosen: seq<Continuity>, clock: int)
    requires WellFormed(log) && AllProper(log)
    ensures TickOk(log, log, chosen, 0, clock)
  {
  }

  ghost predicate WokenOk(st: Store, flags: Flags, chosen: seq<Continuity>, now: int, ids: nat -> EventId, clock: int, k: nat) {
    k <= |chosen| && TickOk(st.log, WokenUpTo(st, flags, chosen, now, ids, clock, k).0.log, chosen, k, clock)
  }

  lemma {:induction false} WokenIsOk(st: Store, flags: Flags, chosen: seq<Continuity>, now: int, ids: nat -> EventId, clock: int, k: nat)
    requires WellFormed(st.log) && AllProper(st.log) && k <= |chosen| && DistinctMissions(chosen) && AllDueAt(st.log, chosen, clock)
    ensures WokenOk(st, flags, chosen, now, ids, clock, k)
  {
    if k == 0 {
      NothingWoken(st.log, chosen, clock);
    } else {
      WokenIsOk(st, flags, chosen, now, ids, clock, k - 1);
      WokenNext(st, flags, chosen, now, ids, clock, k - 1);
    }
  }

  lemma TickIsOk(st: Store, flags: Flags, now: int, limit: int, ids: nat -> EventId, clock: int)
    requires WellFormed(st.log) && AllProper(st.log)
    ensures var chosen := Chosen(st.log, limit, clock);
            TickOk(st.log, Tick(st, flags, now, limit, ids, clock).0.log, chosen, |chosen|, clock)
  {
    ChosenIs(st.log, limit, clock);
    var chosen := Chosen(st.log, limit, clock);
    WokenIsOk(st, flags, chosen, now, ids, clock, |chosen|);
  }

  lemma NotItsProposal(log: seq<Event>, c: Continuity, clock: int, m: EventId, proposal: Event)
    requires Distinct(log) && FromProposal(log, log, c, clock) && c.due && proposal in log && proposal.id == m
    requires Project(proposal, Latest(log, None, m), clock).Some? && !Project(proposal, Latest(log, None, m), clock).value.due
    ensures c.mission != m
  {
    var p :| p in log && p.id == c.mission && Project(p, Latest(log, None, p.id), clock) == Some(c);
    if p.id == m {
      SameId(log, p, proposal);
    }
  }

  /** A scheduler tick never writes about a mission whose projection is closed, or is not due. */
  lemma TickSparesClosed(st: Store, flags: Flags, now: int, limit: int, ids: nat -> EventId, clock: int, m: EventId, proposal: Event)
    requires WellFormed(st.log) && AllProper(st.log)
    requires proposal in st.log && proposal.id == m
    requires Project(proposal, Latest(st.log, None, m), clock).Some? && !Project(proposal, Latest(st.log, None, m), clock).value.due
    ensures var log := Tick(st, flags, now, limit, ids, clock).0.log;
            st.log <= log && forall i :: |st.log| <= i < |log| ==> !About(log[i], m)
  {
    var chosen := Chosen(st.log, limit, clock);
    TickIsOk(st, flags, now, limit, ids, clock);
    ChosenIs(st.log, limit, clock);
    forall k | 0 <= k < |chosen| ensures chosen[k].mission != m {
      NotItsProposal(st.log, chosen[k], clock, m, proposal);
    }
    OthersWoken(st.log, Tick(st, flags, now, limit, ids, clock).0.log, chosen, clock, m);
  }

  lemma OthersWoken(log0: seq<Event>, log: seq<Event>, chosen: seq<Continuity>, clock: int, m: EventId)
    requires log0 <= log && WokenFrom(log, |log0|, chosen, |chosen|, clock)
    requires forall k :: 0 <= k < |chosen| ==> chosen[k].mission != m
    ensures forall i :: |log0| <= i < |log| ==> !About(log[i], m)
  {
    forall i | |log0| <= i < |log| ensures !About(log[i], m) {
      assert OneOf(log[i], chosen, |chosen|);
      var c :| c in chosen[..|chosen|] && Wakes(log[i], c.mission);
      var j :| 0 <= j < |chosen| && chosen[j] == c;
    }
  }

  // ---- whole histories ----

  lemma UntruncatedPrefix(a: seq<Event>, b: seq<Event>)
    requires a <= b && Untruncated(b, None)
    ensures Untruncated(a, None)
  {
    FilterGrows(Kinds(MissionObserved, None, 1000), a, b);
    FilterGrows(Kinds(MissionWakeRequested, None, 1000), a, b);
  }

  /** One append that wakes nothing keeps the spacing. */
  lemma QuietAppend(log: seq<Event>, next: seq<Event>)
    requires log <= next && |next| <= |log| + 1
    requires forall m :: |next| == |log| + 1 ==> !Wakes(next[|log|], m)
    ensures Spaced(next, |log|)
  {
  }

  lemma AppendKeeps(st: Store, flags: Flags, input: EventInput, id: EventId, now: int)
    requires WellFormed(st.log) && AllProper(st.log) && ProperInput(input)
    ensures var next := Append(st, flags, input, id, now).0; WellFormed(next.log) && AllProper(next.log) && st.log <= next.log
  {
    AppendKeepsLog(st, flags, input, id, now);
    AppendProper(st, flags, input, id, now);
  }

  lemma AppendQuiet(st: Store, flags: Flags, input: EventInput, id: EventId, now: int)
    requires input.kind != MissionWakeRequested
    ensures Spaced(Append(st, flags, input, id, now).0.log, |st.log|)
  {
    AppendShape(st, flags, input, id, now);
    StoredAsGiven(st, flags, input, id, now);
    QuietAppend(st.log, Append(st, flags, input, id, now).0.log);
  }

  lemma NudgeKeeps(st: Store, flags: Flags, m: EventId, scope: Scope, wakeAt: Option<int>, id: EventId, clock: int)
    requires WellFormed(st.log) && AllProper(st.log)
    ensures var next := Request(st, flags, m, scope, wakeAt, id, clock).0;
            WellFormed(next.log) && AllProper(next.log) && st.log <= next.log
  {
    RequestDoes(st, flags, m, scope, wakeAt, id, clock);
    RequestWellFormed(st, flags, m, scope, wakeAt, id, clock);
  }

  lemma StepKeeps(s: Sys, op: Op)
    requires WellFormed(s.store.log) && AllProper(s.store.log) && (op.Foreign? ==> ForeignInput(op.call.input))
    ensures var log := Next(s, op).store.log;
            WellFormed(log) && AllProper(log) && s.store.log <= log
  {
    match op
    case Host(flags, report, id) =>
      OutcomeProper(report, s.clock);
      AppendKeeps(s.store, flags, OutcomeInput(report, s.clock), id, s.clock);
    case Heartbeat(flags, now, limit, ids) =>
      TickIsOk(s.store, flags, now, limit, ids, s.clock);
    case Nudge(flags, m, scope, wakeAt, id) => NudgeKeeps(s.store, flags, m, scope, wakeAt, id, s.clock);
    case Foreign(c) => AppendKeeps(s.store, c.flags, c.input, c.id, c.now);
    case Pass(_) =>
  }

  /** Every step but a direct request spaces the wakes it writes. */
  lemma StepSpaced(s: Sys, op: Op)
    requires WellFormed(s.store.log) && AllProper(s.store.log) && Untruncated(s.store.log, None)
    requires !op.Nudge? && (op.Foreign? ==> ForeignInput(op.call.input))
    ensures Spaced(Next(s, op).store.log, |s.store.log|)
  {
    match op
    case Host(flags, report, id) =>
      AppendQuiet(s.store, flags, OutcomeInput(report, s.clock), id, s.clock);
      QuietAppend(s.store.log, s.store.log);
    case Heartbeat(flags, now, limit, ids) => TickIsOk(s.store, flags, now, limit, ids, s.clock);
    case Foreign(c) => AppendQuiet(s.store, c.flags, c.input, c.id, c.now);
    case Pass(_) => QuietAppend(s.store.log, s.store.log);
  }

  lemma {:induction false} EveryLogProper(clock: int, ops: seq<Op>)
    requires Allowed(ops)
    ensures WellFormed(Run(clock, ops).store.log) && AllProper(Run(clock, ops).store.log)
  {
    if ops != [] {
      assert forall op :: op in ops[..|ops| - 1] ==> op in ops;
      EveryLogProper(clock, ops[..|ops| - 1]);
      assert ops[|ops| - 1] in ops;
      StepKeeps(Run(clock, ops[..|ops| - 1]), ops[|ops| - 1]);
    }
  }

  lemma {:induction false} LogsExtend(clock: int, ops: seq<Op>, k: nat)
    requires Allowed(ops) && k <= |ops|
    ensures Run(clock, ops[..k]).store.log <= Run(clock, ops).store.log
    decreases |ops|
  {
    if k < |ops| {
      var init := ops[..|ops| - 1];
      assert forall op :: op in init ==> op in ops;
      assert ops[|ops| - 1] in ops && init[..k] == ops[..k];
      LogsExtend(clock, init, k);
      EveryLogProper(clock, init);
      StepKeeps(Run(clock, init), ops[|ops| - 1]);
    } else {
      assert ops[..k] == ops;
    }
  }

  /**
   * In every history, also one in which wakes are requested directly: a wake that a heartbeat
   * wrote keeps its distance from the wake before it, whoever asked for that one. At least an
   * hour passes after the time the earlier one was scheduled for (or the far end of the calendar
   * is reached), provided nothing else was said of the mission in between, no earlier update was
   * dated after it, and the listings were not cut off when the heartbeat looked.
   */
  lemma HeartbeatKeepsDistance(clock: int, ops: seq<Op>, k: nat, p: nat, q: nat, m: EventId)
    requires Allowed(ops) && k < |ops| && ops[k].Heartbeat? && Untruncated(Run(clock, ops[..k]).store.log, None)
    requires |Run(clock, ops[..k]).store.log| <= q < |Run(clock, ops[..k + 1]).store.log|
    ensures SpacedFor(Run(clock, ops).store.log, p, q, m)
  {
    assert forall op :: op in ops[..k] ==> op in ops;
    assert ops[..k + 1][..k] == ops[..k] && ops[..k + 1][k] == ops[k];
    EveryLogProper(clock, ops[..k]);
    StepSpaced(Run(clock, ops[..k]), ops[k]);
    LogsExtend(clock, ops, k + 1);
    assert SpacedFor(Run(clock, ops[..k + 1]).store.log, p, q, m);
    SpacedPrefix(Run(clock, ops[..k + 1]).store.log, Run(clock, ops).store.log, p, q, m);
  }

  /** Only the scheduler asks for wakes. */
  ghost predicate Scheduled(ops: seq<Op>) {
    forall op :: op in ops ==> !op.Nudge?
  }

  /** So when only the scheduler asks for wakes, any two successive ones keep their distance. */
  lemma {:induction false} EveryWakeSpaced(clock: int, ops: seq<Op>)
    requires Allowed(ops) && Scheduled(ops) && Untruncated(Run(clock, ops).store.log, None)
    ensures Spaced(Run(clock, ops).store.log, 0)
  {
    if ops == [] {
      QuietAppend([], []);
    } else {
      var init, last := ops[..|ops| - 1], ops[|ops| - 1];
      assert forall op :: op in init ==> op in ops;
      assert last in ops;
      EveryLogProper(clock, init);
      StepKeeps(Run(clock, init), last);
      UntruncatedPrefix(Run(clock, init).store.log, Run(clock, ops).store.log);
      EveryWakeSpaced(clock, init);
      StepSpaced(Run(clock, init), last);
      SpacedJoin(Run(clock, init).store.log, Run(clock, ops).store.log, 0);
    }
  }

  // ---- any two wakes ----

  /** A wake as the heartbeat makes it: scheduled for the second it is written in. */
  predicate Prompt(e: Event) {
    e.kind == MissionWakeRequested ==> e.fact.MissionWake? && e.fact.wakeAt == Least(FAR, e.occurredAt)
  }

  /** Wakes are prompt, not dated after the clock, and dated in log order. */
  ghost predicate OnTime(log: seq<Event>, clock: int) {
    && (forall e :: e in log && e.kind == MissionWakeRequested ==> Prompt(e) && e.occurredAt <= clock)
    && (forall i, j :: 0 <= i < j < |log| && log[i].kind == MissionWakeRequested && log[j].kind == MissionWakeRequested ==>
          log[i].occurredAt <= log[j].occurredAt)
  }

  ghost predicate Extends(log: seq<Event>, next: seq<Event>, clock: int) {
    log <= next && forall i :: |log| <= i < |next| && next[i].kind == MissionWakeRequested ==> Prompt(next[i]) && next[i].occurredAt == clock
  }

  lemma StillOnTime(log: seq<Event>, next: seq<Event>, clock: int)
    requires OnTime(log, clock) && Extends(log, next, clock)
    ensures OnTime(next, clock)
  {
    forall e | e in next && e.kind == MissionWakeRequested ensures Prompt(e) && e.occurredAt <= clock {
      var i :| 0 <= i < |next| && next[i] == e;
      assert i < |log| ==> e in log;
    }
    forall i, j | 0 <= i < j < |next| && next[i].kind == MissionWakeRequested && next[j].kind == MissionWakeRequested
      ensures next[i].occurredAt <= next[j].occurredAt
    {
      assert i < |log| ==> log[i] in log;
    }
  }

  lemma AppendExtends(st: Store, flags: Flags, input: EventInput, id: EventId, now: int, clock: int)
    requires input.kind == MissionWakeRequested ==>
      input.occurredAt == Some(clock) && input.fact.MissionWake? && (clock > 0 && SafeInt(clock) ==> input.fact.wakeAt == Least(FAR, clock))
    ensures Extends(st.log, Append(st, flags, input, id, now).0.log, clock)
  {
    AppendShape(st, flags, input, id, now);
    StoredAsGiven(st, flags, input, id, now);
  }

  lemma RequestExtends(st: Store, flags: Flags, m: EventId, scope: Scope, id: EventId, clock: int)
    ensures Extends(st.log, Request(st, flags, m, scope, Some(clock), id, clock).0.log, clock)
  {
    var c := Current(st.log, m, scope, clock);
    if ChatScoped(scope) && c.Some? && !Closed(c.value) {
      AppendExtends(st, flags, WakeInput(c.value, Some(clock), clock), id, clock, clock);
    }
  }

  lemma {:induction false} WokenExtends(st: Store, flags: Flags, chosen: seq<Continuity>, ids: nat -> EventId, clock: int, k: nat)
    requires k <= |chosen|
    ensures Extends(st.log, WokenUpTo(st, flags, chosen, clock, ids, clock, k).0.log, clock)
  {
    if k > 0 {
      WokenExtends(st, flags, chosen, ids, clock, k - 1);
      var before := WokenUpTo(st, flags, chosen, clock, ids, clock, k - 1).0;
      RequestExtends(before, flags, chosen[k - 1].mission, ChatScope(chosen[k - 1].chat), ids(k - 1), clock);
    }
  }

  /** The heartbeat passes the clock itself. */
  ghost predicate Heartbeats(clock: int, ops: seq<Op>)
    decreases |ops|
  {
    ops != [] ==>
      && Heartbeats(clock, ops[..|ops| - 1])
      && (ops[|ops| - 1].Heartbeat? ==> ops[|ops| - 1].now == Run(clock, ops[..|ops| - 1]).clock)
  }

  lemma StepOnTime(s: Sys, op: Op)
    requires OnTime(s.store.log, s.clock) && !op.Nudge? && (op.Foreign? ==> ForeignInput(op.call.input)) && (op.Heartbeat? ==> op.now == s.clock)
    ensures OnTime(Next(s, op).store.log, Next(s, op).clock)
  {
    match op
    case Host(flags, report, id) =>
      AppendExtends(s.store, flags, OutcomeInput(report, s.clock), id, s.clock, s.clock);
      StillOnTime(s.store.log, Next(s, op).store.log, s.clock);
    case Heartbeat(flags, now, limit, ids) =>
      WokenExtends(s.store, flags, Chosen(s.store.log, limit, s.clock), ids, s.clock, |Chosen(s.store.log, limit, s.clock)|);
      StillOnTime(s.store.log, Next(s, op).store.log, s.clock);
    case Foreign(c) =>
      AppendExtends(s.store, c.flags, c.input, c.id, c.now, s.clock);
      StillOnTime(s.store.log, Next(s, op).store.log, s.clock);
    case Pass(_) =>
  }

  lemma {:induction false} EveryWakeOnTime(clock: int, ops: seq<Op>)
    requires Allowed(ops) && Scheduled(ops) && Heartbeats(clock, ops)
    ensures OnTime(Run(clock, ops).store.log, Run(clock, ops).clock)
  {
    if ops != [] {
      assert forall op :: op in ops[..|ops| - 1] ==> op in ops;
      assert ops[|ops| - 1] in ops;
      EveryWakeOnTime(clock, ops[..|ops| - 1]);
      StepOnTime(Run(clock, ops[..|ops| - 1]), ops[|ops| - 1]);
    }
  }

  /** No report of the host on the mission between two positions of the log. */
  ghost predicate Unreported(log: seq<Event>, p: nat, q: nat, m: EventId)
    requires q <= |log|
  {
    forall i :: p < i < q && About(log[i], m) ==> Wakes(log[i], m)
  }

  lemma {:induction false} LastWakeBefore(log: seq<Event>, p: nat, q: nat, m: EventId) returns (r: nat)
    requires p < q < |log| && Wakes(log[p], m) && Unreported(log, p, q, m)
    ensures p <= r < q && Wakes(log[r], m) && forall i :: r < i < q ==> !About(log[i], m)
  {
    r := p;
    for k := p + 1 to q
      invariant p <= r < k && Wakes(log[r], m) && forall i :: r < i < k ==> !About(log[i], m)
    {
      if About(log[k], m) {
        r := k;
      }
    }
  }

  /**
   * With a heartbeat on the clock, any two wakes of a mission with no report of the host in
   * between lie at least an hour apart, however many wakes there are, up to the far end of the
   * calendar; provided no update before the first was dated later, and no listing was cut off.
   */
  lemma WakesAnHourApart(clock: int, ops: seq<Op>, p: nat, q: nat, m: EventId)
    requires Allowed(ops) && Scheduled(ops) && Heartbeats(clock, ops) && Untruncated(Run(clock, ops).store.log, None)
    requires var log := Run(clock, ops).store.log;
             p < q < |log| && Wakes(log[p], m) && Wakes(log[q], m) && Unreported(log, p, q, m) && NoneLater(log, p, m)
    ensures var log := Run(clock, ops).store.log; log[q].occurredAt >= Least(FAR, log[p].occurredAt + 3600)
  {
    EveryWakeSpaced(clock, ops);
    EveryWakeOnTime(clock, ops);
    HourApart(Run(clock, ops).store.log, Run(clock, ops).clock, p, q, m);
  }

  lemma HourApart(log: seq<Event>, clock: int, p: nat, q: nat, m: EventId)
    requires Spaced(log, 0) && OnTime(log, clock)
    requires p < q < |log| && Wakes(log[p], m) && Wakes(log[q], m) && Unreported(log, p, q, m) && NoneLater(log, p, m)
    ensures log[q].occurredAt >= Least(FAR, log[p].occurredAt + 3600)
  {
    var r := LastWakeBefore(log, p, q, m);
    WakeFollows(log, clock, p, r, q, m);
    assert SpacedFor(log, r, q, m);
    assert Prompt(log[r]);
  }

  lemma WakeFollows(log: seq<Event>, clock: int, p: nat, r: nat, q: nat, m: EventId)
    requires OnTime(log, clock) && p <= r < q < |log| && Wakes(log[p], m) && Wakes(log[r], m)
    requires Unreported(log, p, q, m) && NoneLater(log, p, m)
    ensures NoneLater(log, r, m) && log[p].occurredAt <= log[r].occurredAt
  {
    forall i | 0 <= i < r && About(log[i], m) ensures log[i].occurredAt <= log[r].occurredAt {
      if i > p {
        assert Wakes(log[i], m);
      }
    }
  }

  /** A mission is woken at most once per minute of schedule, whatever else happens. */
  lemma OneWakePerMinute(clock: int, ops: seq<Op>, i: nat, j: nat, m: EventId)
    requires Allowed(ops) && i < j < |Run(clock, ops).store.log|
    requires var log := Run(clock, ops).store.log; Wakes(log[i], m) && Wakes(log[j], m)
    ensures var log := Run(clock, ops).store.log; log[i].fact.wakeAt / 60 != log[j].fact.wakeAt / 60
  {
    EveryLogProper(clock, ops);
    var log := Run(clock, ops).store.log;
    assert Proper(log[i]) && Proper(log[j]);
  }

  /** A mission that projects as verified has evidence, and all of at least one check passed. */
  lemma VerifiedIsProven(clock: int, ops: seq<Op>, scope: Option<Scope>, proposal: Event, at: int)
    requires Allowed(ops)
    ensures var log := Run(clock, ops).store.log;
            var c := Project(proposal, Latest(log, scope, proposal.id), at);
            c.Some? && c.value.status == Some(Verified) ==>
              c.value.evidence != [] && c.value.total >= 1 && c.value.passed == c.value.total
  {
    EveryLogProper(clock, ops);
    var log := Run(clock, ops).store.log;
    var l := Latest(log, scope, proposal.id);
    if l.Some? {
      UpdatesInLog(log, scope);
      assert Proper(l.value);
    }
  }

  lemma UpdatesInLog(log: seq<Event>, scope: Option<Scope>)
    requires Distinct(log)
    ensures forall e :: e in Updates(log, scope) ==> e in log
  {
    var qa, qb := Kinds(MissionObserved, scope, 1000), Kinds(MissionWakeRequested, scope, 1000);
    FilterDistinct(qa, log);
    FilterDistinct(qb, log);
    SortIs(Newest, Filter(qa, log));
    SortIs(Newest, Filter(qb, log));
    var a, b := List(log, qa), List(log, qb);
    SortedDistinct(Newest, log, a);
    SortedDistinct(Newest, log, b);
    forall i, j | 0 <= i < |a| && 0 <= j < |b| ensures a[i].id != b[j].id {
      assert a[i] in a && b[j] in b && a[i] in log && b[j] in log;
      assert a[i].kind == MissionObserved && b[j].kind == MissionWakeRequested;
    }
    SortIs(Recent, a + b);
  }
}
