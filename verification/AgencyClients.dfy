/** Guarantees of the rollout gate and of the reply transport that follow from the run protocol. */
module AgencyClients {
  import opened Wrappers
  import opened Text
  import opened Vocabulary
  import opened Actions
  import opened Envelopes
  import opened Policy
  import opened Events
  import opened AgencyTables
  import opened AgencyCells
  import opened AgencyInvariant
  import opened AgencyBlocks
  import opened AgencySystem
  import opened AgencyTheorems

  // ---- the policy gate ----

  /** The modes the rollout goes through in this history; executions may also bypass the gate. */
  ghost predicate ModesIn(labels: seq<Label>, modes: set<Mode>) {
    forall l :: l in labels && l.op.Dispatch? ==> l.op.cfg.mode in modes
  }

  predicate Passed(db: Db, run: string, cfg: Config, modes: set<Mode>) {
    cfg.mode in modes && run in db.runs && PolicyOf(db.runs[run], cfg).allowed
  }

  predicate GateOk(db: Db, run: string, gate: Option<Config>, modes: set<Mode>) {
    gate.Some? ==> Passed(db, run, gate.value, modes)
  }

  predicate CallOk(db: Db, c: Call, modes: set<Mode>) {
    c.run in db.runs && c.kind == db.runs[c.run].Kind() && GateOk(db, c.run, c.gate, modes)
  }

  ghost predicate GatesOk(s: Sys, modes: set<Mode>) {
    && (forall id :: id in s.flights ==> GateOk(s.db, id, s.flights[id].gate, modes))
    && (forall i :: 0 <= i < |s.calls| ==> CallOk(s.db, s.calls[i], modes))
  }

  lemma GateStays(db: Db, db': Db, run: string, gate: Option<Config>, modes: set<Mode>)
    requires Grown(db, db') && GateOk(db, run, gate, modes)
    ensures GateOk(db', run, gate, modes)
    ensures run in db.runs ==> db'.runs[run].Kind() == db.runs[run].Kind()
  {
  }

  lemma FlightGateOk(s: Sys, op: Op, modes: set<Mode>, id: string)
    requires forall i :: i in s.flights ==> GateOk(s.db, i, s.flights[i].gate, modes)
    requires op.Dispatch? ==> op.cfg.mode in modes
    requires id in FlightsAfter(s, op)
    ensures GateOk(s.db, id, FlightsAfter(s, op)[id].gate, modes)
  {
    if op.Dispatch? && op.run == id && Launches(s.db, id, op.adapter, op.d) && Admits(s.db, op) {
      assert PolicyOf(s.db.runs[id], op.cfg).allowed;
    }
  }

  /** The calls a step leaves are the earlier ones and perhaps one from a flight. */
  lemma CallsAfter(s: Sys, l: Label, modes: set<Mode>, i: nat)
    requires GatesOk(s, modes) && i < |After(s, l).calls|
    ensures CallOk(s.db, After(s, l).calls[i], modes)
  {
  }

  lemma GateStep(s: Sys, l: Label, modes: set<Mode>)
    requires GatesOk(s, modes) && (l.op.Dispatch? ==> l.op.cfg.mode in modes)
    ensures GatesOk(After(s, l), modes)
  {
    var s' := After(s, l);
    var script := ScriptOf(s, l.op);
    WholeScript(s.db, script);
    ScriptGrows(s.db, script, if l.Do? then Len(script) else l.k);
    forall id | id in s'.flights ensures GateOk(s'.db, id, s'.flights[id].gate, modes) {
      FlightGateOk(s, l.op, modes, id);
      GateStays(s.db, s'.db, id, s'.flights[id].gate, modes);
    }
    forall i | 0 <= i < |s'.calls| ensures CallOk(s'.db, s'.calls[i], modes) {
      CallsAfter(s, l, modes, i);
      GateStays(s.db, s'.db, s'.calls[i].run, s'.calls[i].gate, modes);
    }
  }

  lemma {:induction false} EveryGateOk(labels: seq<Label>, modes: set<Mode>)
    requires ModesIn(labels, modes)
    ensures GatesOk(From(INIT, labels), modes)
  {
    if labels != [] {
      assert forall l :: l in labels[..|labels| - 1] ==> l in labels;
      EveryGateOk(labels[..|labels| - 1], modes);
      assert labels[|labels| - 1] in labels;
      GateStep(From(INIT, labels[..|labels| - 1]), labels[|labels| - 1], modes);
    }
  }

  lemma GateNeeds(db: Db, c: Call, modes: set<Mode>)
    requires CallOk(db, c, modes) && c.gate.Some?
    ensures Permits(c.gate.value, db.runs[c.run].envelope, c.kind)
  {
    AllowedIff(c.gate.value, db.runs[c.run].envelope, c.kind);
  }

  /**
   * In any history, also one with executions that bypass the gate: every adapter call that came
   * through the gate is permitted by the configuration in force when its run was claimed. In
   * canary mode it is for a listed chat, in advisory mode it observes, it is within the caps, and
   * only authority mode lets anything irreversible through.
   */
  lemma GatedCallsAllowed(labels: seq<Label>, modes: set<Mode>, i: nat)
    requires ModesIn(labels, modes) && i < |From(INIT, labels).calls|
    ensures var s := From(INIT, labels);
            var c := s.calls[i];
            c.gate.Some? ==>
              && c.run in s.db.runs && c.kind == s.db.runs[c.run].Kind()
              && var (g, e) := (c.gate.value, s.db.runs[c.run].envelope);
                 && g.mode in modes && Permits(g, e, c.kind)
                 && g.mode != Shadow && (c.kind in {Act, Stop} ==> g.mode == Authority)
                 && (g.mode == Canary ==> e.scope.chatId.value in g.canaryChats)
                 && (g.mode == Advisory ==> c.kind == Observe)
                 && 0 <= e.budget.maxLlm <= g.maxLlm && 0 <= e.budget.maxTool <= g.maxTool
                 && FittingRisk(e.risk, c.kind)
  {
    EveryGateOk(labels, modes);
    var s := From(INIT, labels);
    if s.calls[i].gate.Some? {
      GateNeeds(s.db, s.calls[i], modes);
    }
  }

  ghost predicate NoBypass(labels: seq<Label>) {
    forall l :: l in labels ==> !l.op.Execute?
  }

  ghost predicate AllGated(s: Sys) {
    && (forall id :: id in s.flights ==> s.flights[id].gate.Some?)
    && (forall i :: 0 <= i < |s.calls| ==> s.calls[i].gate.Some?)
  }

  lemma GatedStep(s: Sys, l: Label)
    requires AllGated(s) && !l.op.Execute?
    ensures AllGated(After(s, l))
  {
    assert FlightsAfter(s, l.op).Keys <= s.flights.Keys + (if l.op.Dispatch? then {l.op.run} else {});
    forall id | id in FlightsAfter(s, l.op) ensures FlightsAfter(s, l.op)[id].gate.Some? {
    }
  }

  lemma {:induction false} EveryCallGated(labels: seq<Label>)
    requires NoBypass(labels)
    ensures AllGated(From(INIT, labels))
  {
    if labels != [] {
      assert forall l :: l in labels[..|labels| - 1] ==> l in labels;
      EveryCallGated(labels[..|labels| - 1]);
      assert labels[|labels| - 1] in labels;
      GatedStep(From(INIT, labels[..|labels| - 1]), labels[|labels| - 1]);
    }
  }

  /**
   * So a history that goes through the gate throughout calls nothing irreversible unless it has
   * been in authority mode, and nothing at all in pure shadow.
   */
  lemma EveryCallAllowed(labels: seq<Label>, modes: set<Mode>)
    requires ModesIn(labels, modes) && NoBypass(labels)
    ensures var s := From(INIT, labels);
            && (Authority !in modes ==> forall i :: 0 <= i < |s.calls| ==> s.calls[i].kind !in {Act, Stop})
            && (modes <= {Shadow} ==> s.calls == [])
  {
    var s := From(INIT, labels);
    EveryCallGated(labels);
    forall i | 0 <= i < |s.calls|
      ensures s.calls[i].gate.Some? && s.calls[i].gate.value.mode in modes && s.calls[i].gate.value.mode != Shadow
      ensures s.calls[i].kind in {Act, Stop} ==> s.calls[i].gate.value.mode == Authority
    {
      GatedCallsAllowed(labels, modes, i);
    }
    assert s.calls != [] ==> s.calls[0].gate.value.mode in modes && s.calls[0].gate.value.mode != Shadow;
  }

  // ---- replies ----

  datatype Reply = Reply(chat: int, trigger: int, segment: int)

  /** The idempotency key of one reply segment. */
  function ReplyKey(r: Reply): string {
    "agency-reply:" + Int(r.chat) + ":" + Int(r.trigger) + ":" + Int(r.segment)
  }

  lemma ReplyKeyInjective(a: Reply, b: Reply)
    requires ReplyKey(a) == ReplyKey(b)
    ensures a == b
  {
    IntHasNoColon(a.trigger);
    IntHasNoColon(b.trigger);
    IntHasNoColon(a.segment);
    IntHasNoColon(b.segment);
    SplitLast("agency-reply:" + Int(a.chat) + ":" + Int(a.trigger), Int(a.segment),
              "agency-reply:" + Int(b.chat) + ":" + Int(b.trigger), Int(b.segment), ':');
    SplitLast("agency-reply:" + Int(a.chat), Int(a.trigger), "agency-reply:" + Int(b.chat), Int(b.trigger), ':');
    assert ("agency-reply:" + Int(a.chat))[13..] == Int(a.chat);
    assert ("agency-reply:" + Int(b.chat))[13..] == Int(b.chat);
    IntInjective(a.segment, b.segment);
    IntInjective(a.trigger, b.trigger);
    IntInjective(a.chat, b.chat);
  }

  predicate ValidReply(r: Reply, text: string, replyTo: Option<int>) {
    && SafeInt(r.chat) && r.chat != 0 && SafeInt(r.trigger) && r.trigger > 0 && 0 <= r.segment <= 999
    && Trim(text) != "" && |Trim(text)| <= 4000
    && (replyTo.Some? ==> SafeInt(replyTo.value) && replyTo.value > 0)
  }

  /** What the bridge asks for; the texts only the audit reads are passed in. */
  function ReplyRequest(r: Reply, text: string, replyTo: Option<int>, causation: string, expected: string): Request {
    Request(AsRaw(Say(Trim(text), replyTo)), ChatScope(r.chat), ReplyKey(r),
            Some("reply:" + Int(r.chat) + ":" + Int(r.trigger)), Some(causation), Some(expected),
            PartialBudget(Some(30_000), Some(0), Some(1)), None)
  }

  lemma SafeIntLength(z: int)
    requires SafeInt(z)
    ensures 1 <= |Int(z)| <= 17
  {
    assert Pow10(4) == 10_000 by { assert Pow10(2) == 100; }
    assert Pow10(8) == 100_000_000 by { assert Pow10(6) == 1_000_000; }
    assert Pow10(12) == 1_000_000_000_000 by { assert Pow10(10) == 10_000_000_000; }
    assert Pow10(14) == 100_000_000_000_000;
    assert Pow10(16) == 10_000_000_000_000_000;
    DecLength(if z < 0 then -z else z, 16);
    DecReadsBack(if z < 0 then -z else z);
  }

  lemma ReplyKeyFits(r: Reply)
    requires SafeInt(r.chat) && SafeInt(r.trigger) && SafeInt(r.segment)
    ensures Tight(ReplyKey(r)) && |ReplyKey(r)| <= 240
  {
    SafeIntLength(r.chat);
    SafeIntLength(r.trigger);
    SafeIntLength(r.segment);
    EndsInDigit("agency-reply:" + Int(r.chat) + ":" + Int(r.trigger) + ":", r.segment);
  }

  lemma EndsInDigit(s: string, z: int)
    requires s != "" && !Blank(s[0])
    ensures Tight(s + Int(z))
  {
    DecReadsBack(if z < 0 then -z else z);
    var tail := Int(z);
    assert (s + tail)[|s + tail| - 1] == tail[|tail| - 1];
  }

  lemma ReplyStreamFits(r: Reply)
    requires SafeInt(r.chat) && SafeInt(r.trigger)
    ensures var c := "reply:" + Int(r.chat) + ":" + Int(r.trigger);
            Trim(c) == c && c != "" && |c| <= 240
  {
    SafeIntLength(r.chat);
    SafeIntLength(r.trigger);
    EndsInDigit("reply:" + Int(r.chat) + ":", r.trigger);
    TrimIs("reply:" + Int(r.chat) + ":" + Int(r.trigger));
  }

  /** Every valid reply gets an envelope the run table admits, under its own key, addressed to its chat and carrying its words. */
  lemma ReplyEnvelopeBuilt(r: Reply, text: string, replyTo: Option<int>, causation: string, expected: string, id: string, now: int)
    requires ValidReply(r, text, replyTo) && Uuid(id) && SafeInt(now) && now > 0
    ensures var built := CreateEnvelope(ReplyRequest(r, text, replyTo, causation, expected), id, now);
            && built.Ok? && PersistError(built.value) == None
            && built.value.key == ReplyKey(r) && built.value.scope == ChatScope(r.chat)
            && StoredAction(built.value) == Say(Trim(text), replyTo)
            && built.value.budget == Budget(30_000, 0, 1) && built.value.expiresAt.None?
            && built.value.correlation == "reply:" + Int(r.chat) + ":" + Int(r.trigger)
            && KeptText(Some(causation), built.value.causation, 240) && KeptText(Some(expected), built.value.expected, 500)
  {
    var request := ReplyRequest(r, text, replyTo, causation, expected);
    TrimIs(text);
    assert Accepted(Say(Trim(text), replyTo));
    MessageReadsBack(Say(Trim(text), replyTo));
    ReplyKeyFits(r);
    TrimIs(request.key);
    BuiltAsAsked(request, id, now);
    BuiltActionIsAsked(request, id, now);
    BuiltEnvelopesAdmitted(request, id, now);
    ReplyStreamFits(r);
  }

  /** `acceptedMessageId` of a run. */
  function AcceptedMessage(run: Run): Option<int> {
    if run.status == Succeeded then ResultMessageId(run.result) else None
  }

  /** What a dispatch of this reply, first or replayed, answers in a given state. */
  ghost function ReplyAnswer(db: Db, r: Reply): Option<int> {
    match KeyRegister(db, ReplyKey(r))
    case Decided(Succeeded, result) => ResultMessageId(result)
    case _ => None
  }

  /** Any accepting dispatch answers from the one run of its key. */
  lemma AnswerComesFromTheRun(db: Db, id: string, r: Reply)
    requires KeysOk(db) && Keyed(db, id, ReplyKey(r))
    ensures ReplyAnswer(db, r) == AcceptedMessage(db.runs[id])
  {
    KeyRegisterIs(db, id);
  }

  /**
   * A reply segment is sent at most once, distinct segments never share a run, and once a
   * message id has been answered every later answer for the segment is that message id.
   */
  lemma ReplySentOnce(labels: seq<Label>, later: seq<Label>, r: Reply, other: Reply, id: string)
    requires AllPermitted(labels) && AllPermitted(later)
    ensures var s := From(INIT, labels);
            && SendsForKey(s.db, s.sends, ReplyKey(r)) <= 1
            && (Keyed(s.db, id, ReplyKey(r)) && Keyed(s.db, id, ReplyKey(other)) ==> r == other)
            && (ReplyAnswer(s.db, r).Some? ==> ReplyAnswer(From(INIT, labels + later).db, r) == ReplyAnswer(s.db, r))
  {
    var s := From(INIT, labels);
    ReachableOk(labels);
    AtMostOnceEver(labels, ReplyKey(r));
    FromAppends(INIT, labels, later);
    if ReplyAnswer(s.db, r).Some? {
      DecidedForever(s, later, ReplyKey(r));
    }
    if ReplyKey(r) == ReplyKey(other) {
      ReplyKeyInjective(r, other);
    }
  }
}
