/** The action board: candidates are judged one by one, and at most one stays eligible per trigger of the winner. */
module ActionBoard {
  import opened Wrappers
  import opened Vocabulary

  datatype Kind = SpeakIt | ShareIt | RepairIt | ChallengeIt | WorkIt | ObserveIt | WaitIt | LeaveIt

  datatype Capability = SendText | SendMedia | React | Poll | Sticker | Voice | DeleteOwn

  /** What the host has observed; a capability outside the map is unknown. */
  type Snapshot = map<Capability, bool>

  datatype Status = IsCandidate | IsDeferred | IsAccepted | IsOther(name: string)

  /** Candidate ids are compared by one strict total order; a priority of None is absent or not finite. */
  datatype Candidate = Candidate(
    id: nat, kind: Kind, scope: Scope, expiresAt: Option<int>, status: Status, trigger: string,
    priority: Option<real>, needs: Option<seq<Capability>>)

  datatype State = Eligible | Deferred | Barred

  datatype Decision = Decision(id: nat, kind: Kind, state: State, score: real, reason: string, trigger: string)

  datatype Board = Board(selected: Option<Decision>, decisions: seq<Decision>, deferredCount: nat, rejectedCount: nat)

  const MAX_CANDIDATES := 64

  function Bias(kind: Kind): real {
    match kind
    case SpeakIt => 6.0
    case ShareIt => 5.0
    case RepairIt => 5.0
    case ChallengeIt => 4.0
    case WorkIt => 3.0
    case ObserveIt => 2.0
    case WaitIt => 1.0
    case LeaveIt => 0.0
  }

  function BoundedPriority(p: Option<real>): (r: real)
    ensures -100.0 <= r <= 100.0
  {
    if p.None? then 0.0 else if p.value < -100.0 then -100.0 else if p.value > 100.0 then 100.0 else p.value
  }

  function DefaultNeeds(kind: Kind): seq<Capability> {
    if kind in {SpeakIt, ShareIt, RepairIt, ChallengeIt} then [SendText] else []
  }

  function Needs(c: Candidate): seq<Capability> {
    if c.needs.Some? then c.needs.value else DefaultNeeds(c.kind)
  }

  predicate SameScope(a: Scope, b: Scope) {
    ScopeKey(a).Ok? && ScopeKey(b).Ok? && ScopeKey(a) == ScopeKey(b)
  }

  predicate Missing(host: Option<Snapshot>, c: Capability) {
    host.None? || c !in host.value
  }

  predicate Denied(host: Option<Snapshot>, c: Capability) {
    host.Some? && c in host.value && !host.value[c]
  }

  /** `decisionFor`: an observed lack outranks an unknown capability. */
  function DecisionFor(c: Candidate, scope: Scope, host: Option<Snapshot>, asOf: int): (d: Decision)
    ensures d.id == c.id && d.trigger == c.trigger && d.kind == c.kind
    ensures d.state == Deferred <==>
      && SameScope(c.scope, scope) && (c.expiresAt.Some? ==> c.expiresAt.value > asOf) && !c.status.IsOther?
      && (forall n :: n in Needs(c) ==> host.None? || n !in host.value || host.value[n])
      && (exists n :: n in Needs(c) && (host.None? || n !in host.value))
    ensures d.state == Eligible <==>
      && SameScope(c.scope, scope) && (c.expiresAt.Some? ==> c.expiresAt.value > asOf) && !c.status.IsOther?
      && forall n :: n in Needs(c) ==> host.Some? && n in host.value && host.value[n]
  {
    var (state, reason) :=
      if !SameScope(c.scope, scope) then (Barred, "scope_mismatch")
      else if c.expiresAt.Some? && c.expiresAt.value <= asOf then (Barred, "expired")
      else if c.status.IsOther? then (Barred, "status_" + c.status.name)
      else if exists n :: n in Needs(c) && Denied(host, n) then (Barred, "host_capability_unavailable")
      else if exists n :: n in Needs(c) && Missing(host, n) then (Deferred, "host_capability_unknown")
      else (Eligible, "eligible");
    Decision(c.id, c.kind, state, Bias(c.kind) + BoundedPriority(c.priority), reason, c.trigger)
  }

  function Decisions(cs: seq<Candidate>, scope: Scope, host: Option<Snapshot>, asOf: int): seq<Decision> {
    seq(|cs|, i requires 0 <= i < |cs| => DecisionFor(cs[i], scope, host, asOf))
  }

  function Considered(cs: seq<Candidate>): seq<Candidate> {
    if |cs| <= MAX_CANDIDATES then cs else cs[..MAX_CANDIDATES]
  }

  // ---- arbitration ----

  predicate Better(a: Decision, b: Decision) {
    a.score > b.score || (a.score == b.score && a.id < b.id)
  }

  function EligibleOf(ds: seq<Decision>): (r: seq<Decision>)
    ensures forall d :: d in r <==> d in ds && d.state == Eligible
  {
    if ds == [] then []
    else
      var rest := EligibleOf(ds[..|ds| - 1]);
      assert ds == ds[..|ds| - 1] + [ds[|ds| - 1]];
      if ds[|ds| - 1].state == Eligible then rest + [ds[|ds| - 1]] else rest
  }

  /** Stable insertion: behind everything it does not beat. */
  function Place(d: Decision, s: seq<Decision>): (r: seq<Decision>)
    ensures forall x :: x in r <==> x == d || x in s
    ensures r != [] && (r[0] == d || (s != [] && r[0] == s[0] && !Better(d, s[0])))
  {
    if s == [] || Better(d, s[0]) then [d] + s
    else
      assert s == [s[0]] + s[1..];
      [s[0]] + Place(d, s[1..])
  }

  function Ranked(ds: seq<Decision>): (r: seq<Decision>)
    ensures forall x :: x in r <==> x in ds
  {
    if ds == [] then []
    else
      assert ds == ds[..|ds| - 1] + [ds[|ds| - 1]];
      Place(ds[|ds| - 1], Ranked(ds[..|ds| - 1]))
  }

  function Winner(ds: seq<Decision>): Option<Decision> {
    var ranked := Ranked(EligibleOf(ds));
    if ranked == [] then None else Some(ranked[0])
  }

  predicate Loses(d: Decision, w: Decision) {
    d.id != w.id && d.state == Eligible && d.trigger == w.trigger
  }

  function Resolved(d: Decision, w: Option<Decision>): Decision {
    if w.Some? && Loses(d, w.value) then d.(state := Barred, reason := "trigger_conflict") else d
  }

  function ResolveAll(ds: seq<Decision>, w: Option<Decision>): seq<Decision> {
    seq(|ds|, i requires 0 <= i < |ds| => Resolved(ds[i], w))
  }

  function CountOf(ds: seq<Decision>, s: State): nat {
    if ds == [] then 0 else CountOf(ds[..|ds| - 1], s) + (if ds[|ds| - 1].state == s then 1 else 0)
  }

  /** `buildActionBoard`. */
  function BoardOf(cs: seq<Candidate>, scope: Scope, host: Option<Snapshot>, asOf: int): Board {
    var ds := Decisions(Considered(cs), scope, host, asOf);
    var end := ResolveAll(ds, Winner(ds));
    Board(Winner(ds), end, CountOf(end, Deferred), CountOf(end, Barred))
  }

  function SelectedAction(b: Board): Option<nat> {
    if b.selected.Some? && b.selected.value.state == Eligible then Some(b.selected.value.id) else None
  }

  /** The loop over the decisions, which rejects the winner's rivals in place. */
  method RejectRivals(decisions: array<Decision>, w: Decision)
    modifies decisions
    ensures decisions[..] == ResolveAll(old(decisions[..]), Some(w))
  {
    for i := 0 to decisions.Length
      invariant forall k :: 0 <= k < i ==> decisions[k] == Resolved(old(decisions[k]), Some(w))
      invariant forall k :: i <= k < decisions.Length ==> decisions[k] == old(decisions[k])
    {
      var d := decisions[i];
      if d.id != w.id && d.state == Eligible && d.trigger == w.trigger {
        decisions[i] := d.(state := Barred, reason := "trigger_conflict");
      }
    }
  }

  method BuildActionBoard(cs: seq<Candidate>, scope: Scope, host: Option<Snapshot>, asOf: int) returns (board: Board)
    ensures board == BoardOf(cs, scope, host, asOf)
  {
    var considered := Considered(cs);
    var decisions := new Decision[|considered|](i requires 0 <= i < |considered| => DecisionFor(considered[i], scope, host, asOf));
    assert decisions[..] == Decisions(considered, scope, host, asOf);
    var eligible := Ranked(EligibleOf(decisions[..]));
    var winner := None;
    if eligible != [] {
      winner := Some(eligible[0]);
      RejectRivals(decisions, eligible[0]);
    } else {
      assert decisions[..] == ResolveAll(decisions[..], None);
    }
    return Board(winner, decisions[..], CountOf(decisions[..], Deferred), CountOf(decisions[..], Barred));
  }

  // ---- what makes a candidate win ----

  /** In scope, alive, in a live status, and everything it needs observed: what it names, else sending text for what is said. */
  predicate Qualified(c: Candidate, scope: Scope, host: Option<Snapshot>, asOf: int) {
    && ScopeKey(c.scope).Ok? && ScopeKey(c.scope) == ScopeKey(scope)
    && (c.expiresAt.Some? ==> asOf < c.expiresAt.value)
    && (c.status.IsCandidate? || c.status.IsDeferred? || c.status.IsAccepted?)
    && (if c.needs.Some? then forall n :: n in c.needs.value ==> Observed(host, n)
        else c.kind in {SpeakIt, ShareIt, RepairIt, ChallengeIt} ==> Observed(host, SendText))
  }

  predicate Observed(host: Option<Snapshot>, n: Capability) {
    host.Some? && n in host.value && host.value[n]
  }

  /** The kinds from the weakest to the strongest; one place is worth one point of priority. */
  const RANKING: seq<set<Kind>> :=
    [{LeaveIt}, {WaitIt}, {ObserveIt}, {WorkIt}, {ChallengeIt}, {RepairIt, ShareIt}, {SpeakIt}]

  /** The priority that counts: none is zero, and what lies beyond a hundred on either side counts as that bound. */
  predicate Counts(priority: Option<real>, p: real) {
    && (priority.None? ==> p == 0.0)
    && (priority.Some? && -100.0 <= priority.value <= 100.0 ==> p == priority.value)
    && (priority.Some? && priority.value > 100.0 ==> p == 100.0)
    && (priority.Some? && priority.value < -100.0 ==> p == -100.0)
  }

  /** A candidate of the x-th kind with priority p goes before one of the y-th kind with priority q. */
  predicate Outranks(p: real, x: nat, id: nat, q: real, y: nat, other: nat) {
    p - q > y as real - x as real || (p - q == y as real - x as real && id < other)
  }

  lemma QualifiedIsEligible(c: Candidate, scope: Scope, host: Option<Snapshot>, asOf: int)
    ensures Qualified(c, scope, host, asOf) <==> DecisionFor(c, scope, host, asOf).state == Eligible
  {
    if c.needs.None? && c.kind in {SpeakIt, ShareIt, RepairIt, ChallengeIt} {
      assert SendText in Needs(c);
    }
  }

  lemma OutranksIsBetter(c: Candidate, p: real, x: nat, e: Candidate, q: real, y: nat, scope: Scope, host: Option<Snapshot>, asOf: int)
    requires x < |RANKING| && c.kind in RANKING[x] && Counts(c.priority, p)
    requires y < |RANKING| && e.kind in RANKING[y] && Counts(e.priority, q)
    ensures Outranks(p, x, c.id, q, y, e.id) <==> Better(DecisionFor(c, scope, host, asOf), DecisionFor(e, scope, host, asOf))
  {
    RankIsBias(c.kind, x);
    RankIsBias(e.kind, y);
  }

  lemma RankIsBias(k: Kind, x: nat)
    requires x < |RANKING| && k in RANKING[x]
    ensures Bias(k) == x as real
  {
  }

  /**
   * Who wins, said of the candidates alone: the board selects somebody exactly when one of the first
   * 64 candidates qualifies, and never one that another qualified candidate outranks. Among equal
   * kinds the higher priority wins and then the smaller id; a kind g places behind wins exactly
   * with a priority lead above g, or of g and the smaller id.
   */
  lemma StrongestWins(cs: seq<Candidate>, scope: Scope, host: Option<Snapshot>, asOf: int,
                      i: nat, p: real, x: nat, j: nat, q: real, y: nat)
    requires DistinctIds(Considered(cs)) && i < |cs| && i < 64 && j < |cs| && j < 64
    requires Qualified(cs[i], scope, host, asOf) && Qualified(cs[j], scope, host, asOf)
    requires x < |RANKING| && cs[i].kind in RANKING[x] && Counts(cs[i].priority, p)
    requires y < |RANKING| && cs[j].kind in RANKING[y] && Counts(cs[j].priority, q)
    requires Outranks(p, x, cs[i].id, q, y, cs[j].id)
    ensures SelectedAction(BoardOf(cs, scope, host, asOf)) != Some(cs[j].id)
  {
    var ds := Decisions(Considered(cs), scope, host, asOf);
    WinnerIsBest(cs, scope, host, asOf);
    QualifiedIsEligible(cs[i], scope, host, asOf);
    QualifiedIsEligible(cs[j], scope, host, asOf);
    OutranksIsBetter(cs[i], p, x, cs[j], q, y, scope, host, asOf);
    assert ds[i] in ds && ds[j] in ds;
    DecisionsDistinct(Considered(cs), scope, host, asOf);
  }

  lemma EligibleIsQualified(cs: seq<Candidate>, scope: Scope, host: Option<Snapshot>, asOf: int, d: Decision) returns (i: nat)
    requires d in Decisions(Considered(cs), scope, host, asOf) && d.state == Eligible
    ensures i < |cs| && i < 64 && Qualified(cs[i], scope, host, asOf) && cs[i].id == d.id
  {
    var ds := Decisions(Considered(cs), scope, host, asOf);
    i :| 0 <= i < |ds| && ds[i] == d;
    QualifiedIsEligible(cs[i], scope, host, asOf);
  }

  /** Somebody is selected exactly when somebody qualifies, and then a qualified candidate is. */
  lemma SomebodyWins(cs: seq<Candidate>, scope: Scope, host: Option<Snapshot>, asOf: int)
    requires DistinctIds(Considered(cs))
    ensures var selected := SelectedAction(BoardOf(cs, scope, host, asOf));
            && (selected.Some? <==> exists i :: 0 <= i < |cs| && i < 64 && Qualified(cs[i], scope, host, asOf))
            && (selected.Some? ==> exists i :: 0 <= i < |cs| && i < 64 && Qualified(cs[i], scope, host, asOf) && cs[i].id == selected.value)
  {
    var ds := Decisions(Considered(cs), scope, host, asOf);
    WinnerIsBest(cs, scope, host, asOf);
    BoardIsSettled(cs, scope, host, asOf);
    if SelectedAction(BoardOf(cs, scope, host, asOf)).Some? {
      var i := EligibleIsQualified(cs, scope, host, asOf, BoardOf(cs, scope, host, asOf).selected.value);
    }
    if i :| 0 <= i < |cs| && i < 64 && Qualified(cs[i], scope, host, asOf) {
      QualifiedIsEligible(cs[i], scope, host, asOf);
      assert ds[i] in ds;
    }
  }

  // ---- what the board guarantees ----

  lemma {:induction false} HeadIsBest(ds: seq<Decision>)
    ensures var r := Ranked(ds); r != [] ==> forall d :: d in r ==> !Better(d, r[0])
  {
    if ds != [] {
      HeadIsBest(ds[..|ds| - 1]);
    }
  }

  ghost predicate DistinctIds(cs: seq<Candidate>) {
    forall i, j :: 0 <= i < j < |cs| ==> cs[i].id != cs[j].id
  }

  /** The decision of this id that no other eligible decision beats. */
  ghost predicate Best(ds: seq<Decision>, w: Decision) {
    && w in ds && w.state == Eligible
    && forall d :: d in ds && d.state == Eligible && d != w ==> Better(w, d)
  }

  lemma DecisionsDistinct(cs: seq<Candidate>, scope: Scope, host: Option<Snapshot>, asOf: int)
    requires DistinctIds(cs)
    ensures var ds := Decisions(cs, scope, host, asOf);
            forall a, b :: a in ds && b in ds && a.id == b.id ==> a == b
  {
  }

  /** The winner is the one eligible decision that beats every other; there is none only if nothing is eligible. */
  lemma WinnerIsBest(cs: seq<Candidate>, scope: Scope, host: Option<Snapshot>, asOf: int)
    requires DistinctIds(Considered(cs))
    ensures var ds := Decisions(Considered(cs), scope, host, asOf);
            var w := BoardOf(cs, scope, host, asOf).selected;
            && (w.None? <==> forall d :: d in ds ==> d.state != Eligible)
            && (w.Some? ==> Best(ds, w.value))
  {
    var ds := Decisions(Considered(cs), scope, host, asOf);
    DecisionsDistinct(Considered(cs), scope, host, asOf);
    HeadIsBest(EligibleOf(ds));
  }

  lemma SameMembers(a: seq<Candidate>, b: seq<Candidate>, scope: Scope, host: Option<Snapshot>, asOf: int)
    requires multiset(a) == multiset(b)
    ensures forall d :: d in Decisions(a, scope, host, asOf) ==> d in Decisions(b, scope, host, asOf)
  {
    var da, db := Decisions(a, scope, host, asOf), Decisions(b, scope, host, asOf);
    forall d | d in da ensures d in db {
      var i :| 0 <= i < |da| && da[i] == d;
      assert a[i] in multiset(a);
      assert a[i] in b;
      var j :| 0 <= j < |b| && b[j] == a[i];
      assert db[j] == d;
    }
  }

  lemma SameBest(da: seq<Decision>, db: seq<Decision>, v: Decision, w: Decision)
    requires (forall d :: d in da <==> d in db) && Best(da, v) && Best(db, w)
    ensures v == w
  {
  }

  /** Up to 64 candidates with distinct ids, in whatever order they come, the same one is selected. */
  lemma OrderDoesNotMatter(a: seq<Candidate>, b: seq<Candidate>, scope: Scope, host: Option<Snapshot>, asOf: int)
    requires multiset(a) == multiset(b) && |a| <= MAX_CANDIDATES && DistinctIds(a) && DistinctIds(b)
    ensures BoardOf(a, scope, host, asOf).selected == BoardOf(b, scope, host, asOf).selected
    ensures SelectedAction(BoardOf(a, scope, host, asOf)) == SelectedAction(BoardOf(b, scope, host, asOf))
  {
    assert |multiset(a)| == |a| && |multiset(b)| == |b|;
    SameMembers(a, b, scope, host, asOf);
    SameMembers(b, a, scope, host, asOf);
    WinnerIsBest(a, scope, host, asOf);
    WinnerIsBest(b, scope, host, asOf);
    var v, w := BoardOf(a, scope, host, asOf).selected, BoardOf(b, scope, host, asOf).selected;
    if v.Some? && w.Some? {
      SameBest(Decisions(a, scope, host, asOf), Decisions(b, scope, host, asOf), v.value, w.value);
    }
  }

  lemma {:induction false} CountsPartition(ds: seq<Decision>)
    ensures CountOf(ds, Eligible) + CountOf(ds, Deferred) + CountOf(ds, Barred) == |ds|
  {
    if ds != [] {
      CountsPartition(ds[..|ds| - 1]);
    }
  }

  lemma RivalsGone(ds: seq<Decision>, w: Decision)
    requires Best(ds, w) && forall a, b :: a in ds && b in ds && a.id == b.id ==> a == b
    ensures var end := ResolveAll(ds, Some(w));
            && w in end
            && (forall d :: d in end && d.state == Eligible && d.trigger == w.trigger ==> d == w)
            && (forall i :: 0 <= i < |ds| && end[i] != ds[i] ==> Loses(ds[i], w) && end[i].state == Barred)
  {
    var end := ResolveAll(ds, Some(w));
    var i :| 0 <= i < |ds| && ds[i] == w;
    assert end[i] == w;
    forall d | d in end && d.state == Eligible && d.trigger == w.trigger ensures d == w {
      var k :| 0 <= k < |end| && end[k] == d;
      assert ds[k] in ds && end[k] == Resolved(ds[k], Some(w));
    }
  }

  /**
   * The three states partition the decisions; the winner stays eligible and is what is selected,
   * no other decision with its trigger stays eligible, and nothing else changes its state.
   */
  lemma BoardIsSettled(cs: seq<Candidate>, scope: Scope, host: Option<Snapshot>, asOf: int)
    requires DistinctIds(Considered(cs))
    ensures var b := BoardOf(cs, scope, host, asOf);
            var ds := Decisions(Considered(cs), scope, host, asOf);
            && |b.decisions| == |ds| && CountOf(b.decisions, Eligible) + b.deferredCount + b.rejectedCount == |ds|
            && b.deferredCount == CountOf(b.decisions, Deferred) && b.rejectedCount == CountOf(b.decisions, Barred)
            && (SelectedAction(b).Some? <==> exists d :: d in ds && d.state == Eligible)
            && (b.selected.Some? ==> b.selected.value in b.decisions && SelectedAction(b) == Some(b.selected.value.id))
            && (b.selected.Some? ==> forall d :: d in b.decisions && d.state == Eligible && d.trigger == b.selected.value.trigger ==> d == b.selected.value)
            && (forall i :: 0 <= i < |ds| && b.decisions[i] != ds[i] ==>
                  b.selected.Some? && Loses(ds[i], b.selected.value) && b.decisions[i].state == Barred)
  {
    var ds := Decisions(Considered(cs), scope, host, asOf);
    var b := BoardOf(cs, scope, host, asOf);
    WinnerIsBest(cs, scope, host, asOf);
    DecisionsDistinct(Considered(cs), scope, host, asOf);
    CountsPartition(b.decisions);
    if b.selected.Some? {
      RivalsGone(ds, b.selected.value);
    }
  }
}
