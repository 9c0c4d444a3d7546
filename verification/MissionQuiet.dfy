/** When a wake quiets its mission, exactly. */
module MissionQuiet {
  import opened Wrappers
  import opened Text
  import opened Vocabulary
  import opened Events
  import opened Listing
  import opened Projections
  import opened Missions
  import opened MissionTheorems

  // ---- which update decides ----

  /**
   * A wake appended now decides the projection of its mission exactly when no update of the
   * mission already in the log is dated later than now.
   */
  lemma WakeTakesEffectIff(log: seq<Event>, e: Event, m: EventId)
    requires WellFormed(log + [e]) && AllProper(log + [e]) && Untruncated(log + [e], None) && Wakes(e, m)
    ensures Latest(log + [e], None, m) == Some(e) <==> forall x :: x in log && About(x, m) ==> x.occurredAt <= e.occurredAt
  {
    if forall x :: x in log && About(x, m) ==> x.occurredAt <= e.occurredAt {
      NewestWins(log, e, m);
    } else {
      var x :| x in log && About(x, m) && x.occurredAt > e.occurredAt;
      OlderLoses(log, e, m, x);
    }
  }

  lemma NewestWins(log: seq<Event>, e: Event, m: EventId)
    requires WellFormed(log + [e]) && AllProper(log + [e]) && Untruncated(log + [e], None) && About(e, m)
    requires forall x :: x in log && About(x, m) ==> x.occurredAt <= e.occurredAt
    ensures Latest(log + [e], None, m) == Some(e)
  {
    var next := log + [e];
    forall i | 0 <= i < |log| && About(next[i], m) ensures next[i].occurredAt <= next[|log|].occurredAt {
      assert log[i] in log;
    }
    LastWins(next, |log|, m);
  }

  lemma OlderLoses(log: seq<Event>, e: Event, m: EventId, x: Event)
    requires WellFormed(log + [e]) && AllProper(log + [e]) && Untruncated(log + [e], None)
    requires x in log && About(x, m) && x.occurredAt > e.occurredAt
    ensures Latest(log + [e], None, m) != Some(e)
  {
    assert x in log + [e];
    LatestBeats(log + [e], m, x);
    assert !Precedes(Recent, e, x);
  }

  lemma LatestBeats(log: seq<Event>, m: EventId, x: Event)
    requires Distinct(log) && Untruncated(log, None) && x in log && About(x, m)
    ensures Latest(log, None, m) == Some(x) || (Latest(log, None, m).Some? && Precedes(Recent, Latest(log, None, m).value, x))
  {
    LatestIs(log, None, m);
    assert Seen(x, None);
  }

  // ---- what makes a mission due ----

  /** A mission nothing was said of yet is due from its proposed first wake on, or at once without one. */
  lemma ProposedDueIff(log: seq<Event>, proposal: Event, c: int)
    requires Proposes(proposal) && Latest(log, None, proposal.id).None?
    ensures DueBy(log, proposal, proposal.id, c) <==> proposal.fact.wakeFirst.None? || proposal.fact.wakeFirst.value <= c
  {
  }

  predicate ClosesMission(status: MissionStatus) {
    status == Verified || status == MissionFailed || status == Stopped || status == MissionExpired
  }

  /** When a stored report is the one that decides, at some moment. */
  predicate DueUnder(e: Event, r: Report, proposal: Event, c: int)
    requires e.fact.MissionOutcome? && proposal.fact.MissionFact?
  {
    && !ClosesMission(e.fact.outcome)
    && if r.next.Some? && e.occurredAt < r.next.value <= MAX_SAFE then c >= r.next.value || c >= 4_102_444_800
       else proposal.fact.wakeFirst.None? || proposal.fact.wakeFirst.value <= c
  }

  lemma ReportProjects(e: Event, r: Report, clock: int, proposal: Event, c: int)
    requires ReportStored(e, r, clock) && e.occurredAt > 0 && Proposes(proposal)
    ensures About(e, r.mission)
    ensures Project(proposal, Some(e), c).Some? && (Project(proposal, Some(e), c).value.due <==> DueUnder(e, r, proposal, c))
  {
  }

  /**
   * A host report that nothing is dated after governs its mission: the mission is closed by a
   * closing status, and otherwise due from the wake the report schedules, else from the first wake
   * of the proposal, else at once.
   */
  lemma ReportGoverns(log: seq<Event>, e: Event, r: Report, clock: int, proposal: Event, c: int)
    requires WellFormed(log + [e]) && AllProper(log + [e]) && Untruncated(log + [e], None)
    requires ReportStored(e, r, clock) && e.occurredAt > 0 && Proposes(proposal) && proposal.id == r.mission
    requires forall x :: x in log && About(x, r.mission) ==> x.occurredAt <= e.occurredAt
    ensures DueBy(log + [e], proposal, r.mission, c) <==> DueUnder(e, r, proposal, c)
  {
    ReportProjects(e, r, clock, proposal, c);
    NewestWins(log, e, r.mission);
  }

  // ---- the quiet hour ----

  /** Every other update of the mission comes before this one by date, sequence and id. */
  ghost predicate MostRecent(log: seq<Event>, m: EventId, x: Event) {
    x in log && About(x, m) && forall y :: y in log && About(y, m) && y != x ==> Precedes(Recent, x, y)
  }

  /** The most recent update is dated after the wake at position p. */
  ghost predicate Overrules(log: seq<Event>, p: nat, m: EventId, x: Event)
    requires p < |log|
  {
    MostRecent(log, m, x) && x.occurredAt > log[p].occurredAt
  }

  /** The update closes its mission, or it or the proposal schedules the next wake no sooner than a given time. */
  predicate Rests(proposal: Event, x: Event, until: int)
    requires proposal.fact.MissionFact? && Parse(x).Some?
  {
    var next := if Parse(x).value.next.Some? then Parse(x).value.next else proposal.fact.wakeFirst;
    Parse(x).value.status.Terminal() || (next.Some? && next.value >= until)
  }

  /** The mission is due at no moment of the interval. */
  ghost predicate Quiet(log: seq<Event>, proposal: Event, from: int, until: int) {
    forall c | from <= c < until :: !DueBy(log, proposal, proposal.id, c)
  }

  ghost predicate Proposes(proposal: Event) {
    proposal.fact.MissionFact? && ValidId(Some(proposal.fact.chat))
  }

  /** A decided mission is quiet up to a later moment exactly when the deciding update rests until then. */
  lemma QuietByLatest(log: seq<Event>, proposal: Event, x: Event, from: int, until: int)
    requires Proposes(proposal) && Latest(log, None, proposal.id) == Some(x) && from < until
    ensures Quiet(log, proposal, from, until) <==> Rests(proposal, x, until)
  {
    assert from <= until - 1 < until;
    if Quiet(log, proposal, from, until) {
      assert !DueBy(log, proposal, proposal.id, until - 1);
    }
  }

  lemma LatestIsMostRecent(log: seq<Event>, m: EventId, x: Event)
    requires WellFormed(log) && AllProper(log) && Untruncated(log, None)
    ensures MostRecent(log, m, x) <==> Latest(log, None, m) == Some(x)
  {
    LatestIs(log, None, m);
    if MostRecent(log, m, x) {
      LatestBeats(log, m, x);
    }
    if Latest(log, None, m) == Some(x) {
      forall y | y in log && About(y, m) && y != x ensures Precedes(Recent, x, y) {
        AboutStream(log, y, m);
      }
    }
  }

  /** A log the projections can be read off: well formed, with proper mission events, none of them cut off. */
  ghost predicate Readable(log: seq<Event>) {
    WellFormed(log) && AllProper(log) && Untruncated(log, None)
  }

  lemma LaterOneDecides(log: seq<Event>, m: EventId, x: Event)
    requires Readable(log) && x in log && About(x, m)
    ensures Latest(log, None, m).Some?
    ensures MostRecent(log, m, Latest(log, None, m).value) && Latest(log, None, m).value.occurredAt >= x.occurredAt
  {
    LatestBeats(log, m, x);
    LatestIsMostRecent(log, m, Latest(log, None, m).value);
  }

  /** Unless nothing is dated after the wake, some update overrules it. */
  lemma SomethingOverrules(log: seq<Event>, p: nat, m: EventId)
    requires WellFormed(log) && AllProper(log) && Untruncated(log, None) && p < |log| && About(log[p], m)
    requires !NoneLater(log, p, m)
    ensures Latest(log, None, m).Some? && Overrules(log, p, m, Latest(log, None, m).value)
  {
    var i :| 0 <= i < p && About(log[i], m) && log[i].occurredAt > log[p].occurredAt;
    assert log[i] in log;
    LaterOneDecides(log, m, log[i]);
  }

  /** Nothing is dated after the wake, or what overrules it lets the mission rest that long anyway. */
  ghost predicate LetRest(log: seq<Event>, p: nat, proposal: Event, until: int)
    requires p < |log| && proposal.fact.MissionFact?
  {
    NoneLater(log, p, proposal.id) || exists x :: Overrules(log, p, proposal.id, x) && Rests(proposal, x, until)
  }

  /**
   * In every history: after a wake of a mission, as long as nothing more is said of it, the
   * mission stays quiet for an hour past the wake's schedule exactly when no update dated after
   * the wake stands, or when the most recent of those closes the mission or reschedules it past
   * that hour. Any other future-dated report leaves the mission due throughout.
   */
  lemma QuietHourIff(clock: int, ops: seq<Op>, p: nat, proposal: Event)
    requires Allowed(ops) && Untruncated(Run(clock, ops).store.log, None) && Proposes(proposal)
    requires var log := Run(clock, ops).store.log;
             && p < |log| && Wakes(log[p], proposal.id) && (forall i :: p < i < |log| ==> !About(log[i], proposal.id))
             && log[p].occurredAt < Least(FAR, log[p].fact.wakeAt + 3600)
    ensures var log := Run(clock, ops).store.log;
            var until := Least(FAR, log[p].fact.wakeAt + 3600);
            Quiet(log, proposal, log[p].occurredAt, until) <==> LetRest(log, p, proposal, until)
  {
    EveryLogProper(clock, ops);
    QuietIff(Run(clock, ops).store.log, p, proposal);
  }

  lemma QuietIff(log: seq<Event>, p: nat, proposal: Event)
    requires WellFormed(log) && AllProper(log) && Untruncated(log, None) && Proposes(proposal)
    requires p < |log| && Wakes(log[p], proposal.id) && (forall i :: p < i < |log| ==> !About(log[i], proposal.id))
    requires log[p].occurredAt < Least(FAR, log[p].fact.wakeAt + 3600)
    ensures var until := Least(FAR, log[p].fact.wakeAt + 3600);
            Quiet(log, proposal, log[p].occurredAt, until) <==> LetRest(log, p, proposal, until)
  {
    var m, until := proposal.id, Least(FAR, log[p].fact.wakeAt + 3600);
    if NoneLater(log, p, m) {
      LastWins(log, p, m);
      QuietByLatest(log, proposal, log[p], log[p].occurredAt, until);
    } else {
      SomethingOverrules(log, p, m);
      var l := Latest(log, None, m).value;
      QuietByLatest(log, proposal, l, log[p].occurredAt, until);
      forall x | Overrules(log, p, m, x) ensures x == l {
        LatestIsMostRecent(log, m, x);
      }
    }
  }

  lemma StillRecent(log: seq<Event>, e: Event, m: EventId, l: Event)
    requires MostRecent(log, m, l) && l.occurredAt > e.occurredAt
    ensures MostRecent(log + [e], m, l)
  {
    var next := log + [e];
    forall y | y in next && About(y, m) && y != l ensures Precedes(Recent, l, y) {
      assert y == e || y in log;
    }
  }

  lemma RecentStays(log: seq<Event>, e: Event, m: EventId, l: Event)
    requires Readable(log + [e]) && MostRecent(log, m, l) && l.occurredAt > e.occurredAt
    ensures Latest(log + [e], None, m) == Some(l)
  {
    StillRecent(log, e, m, l);
    LatestIsMostRecent(log + [e], m, l);
  }

  lemma DueLater(log: seq<Event>, next: seq<Event>, proposal: Event, m: EventId, from: int, l: Event)
    requires Latest(log, None, m) == Some(l) && Latest(next, None, m) == Some(l) && DueBy(log, proposal, m, from)
    ensures forall c :: c >= from ==> DueBy(next, proposal, m, c)
  {
  }

  /** A wake overruled by a later-dated update changes nothing: a mission due before it is due at every later time. */
  lemma OverruledStaysDue(log: seq<Event>, e: Event, m: EventId, proposal: Event, x: Event)
    requires Readable(log) && Readable(log + [e])
    requires Wakes(e, m) && DueBy(log, proposal, m, e.occurredAt) && x in log && About(x, m) && x.occurredAt > e.occurredAt
    ensures forall c :: c >= e.occurredAt ==> DueBy(log + [e], proposal, m, c)
  {
    LaterOneDecides(log, m, x);
    var l := Latest(log, None, m).value;
    RecentStays(log, e, m, l);
    DueLater(log, log + [e], proposal, m, e.occurredAt, l);
  }
}
