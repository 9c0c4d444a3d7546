/** The reply bridge: one segment of a reply, sent through the run protocol. */
module AgencyReplies {
  import opened Wrappers
  import opened Text
  import opened Vocabulary
  import Actions
  import opened Envelopes
  import opened Policy
  import opened Events
  import opened AgencyTables
  import opened AgencyCells
  import opened AgencySystem
  import opened AgencyTheorems
  import opened AgencyClients
  import opened AgencyDelivery
  import opened AgencyRuntimes

  /** A segment as it is handed in, with the event that caused it if one is known. */
  datatype Segment = Segment(reply: Reply, text: string, replyTo: Option<int>, anchor: Option<string>)

  /** What a dispatch answers: nothing tried, not accepted, suspended in its run, or the sent message. */
  datatype Sent = Off | NotSent(reason: string) | Awaiting(run: string, usage: AgencyUsage) | Accepted(run: string, messageId: int)

  function InputError(s: Segment): Option<string> {
    if !SafeInt(s.reply.chat) || s.reply.chat == 0 then Some("scoped_chat_required")
    else if !SafeInt(s.reply.trigger) || s.reply.trigger <= 0 then Some("invalid_trigger_message_id")
    else if s.reply.segment < 0 || s.reply.segment > 999 then Some("invalid_reply_segment")
    else if Trim(s.text) == "" then Some("empty_reply_text")
    else if |Trim(s.text)| > 4000 then Some("reply_text_too_long")
    else if s.replyTo.Some? && (!SafeInt(s.replyTo.value) || s.replyTo.value <= 0) then Some("invalid_reply_to_message_id")
    else if s.anchor.Some? && (Trim(s.anchor.value) == "" || |Trim(s.anchor.value)| > 240) then Some("invalid_cognitive_anchor_event_id")
    else None
  }

  /** What the run is recorded to answer to: the anchor, or else the message that triggered it. */
  function Causation(s: Segment): string {
    if s.anchor.Some? && Trim(s.anchor.value) != "" then Trim(s.anchor.value)
    else "telegram:" + Int(s.reply.chat) + ":message:" + Int(s.reply.trigger)
  }

  function ExpectedOutcome(s: Segment): string {
    "Telegram speak receipt chat=" + Int(s.reply.chat) + " trigger=" + Int(s.reply.trigger) + " segment=" + Int(s.reply.segment)
      + " chars=" + Int(|Trim(s.text)|)
  }

  function RequestOf(s: Segment): Request {
    ReplyRequest(s.reply, s.text, s.replyTo, Causation(s), ExpectedOutcome(s))
  }

  lemma ShortIsBounded(text: string)
    requires |text| <= 240
    ensures Bounded(Some(text), 240).Ok?
  {
    TrimIs(text);
  }

  lemma NormalisedIsBounded(value: Option<string>)
    ensures Bounded(BoundedText(value, 240), 240).Ok?
  {
    if BoundedText(value, 240).Some? {
      ShortIsBounded(BoundedText(value, 240).value);
    }
  }

  lemma CausationFits(s: Segment)
    requires InputError(s).None?
    ensures Trim(Causation(s)) == Causation(s) && 1 <= |Causation(s)| <= 240
  {
    if s.anchor.Some? {
      TrimIs(s.anchor.value);
      TrimIs(Trim(s.anchor.value));
    } else {
      SafeIntLength(s.reply.chat);
      SafeIntLength(s.reply.trigger);
      EndsInDigit("telegram:" + Int(s.reply.chat) + ":message:", s.reply.trigger);
      TrimIs(Causation(s));
    }
  }

  /** An envelope that addresses the segment's chat and carries its words and the message it replies to. */
  predicate Carries(e: Envelope, s: Segment) {
    && e.scope == ChatScope(s.reply.chat) && StoredAction(e) == Actions.Say(Trim(s.text), s.replyTo)
    && e.budget == Budget(30_000, 0, 1) && e.risk == Reversible
  }

  /**
   * A segment the bridge does not refuse gets an envelope under its key that carries it, that the
   * run table admits, and every event of whose run the log takes, whatever the anchor.
   */
  lemma SegmentBuilt(s: Segment, uuid: string, now: int)
    requires InputError(s).None? && Uuid(uuid) && SafeInt(now) && now > 0
    ensures var built := CreateEnvelope(RequestOf(s), uuid, now);
            && built.Ok? && PersistError(built.value).None? && built.value.key == ReplyKey(s.reply)
            && Carries(built.value, s) && Loggable(built.value)
            && built.value.expiresAt.None?
            && built.value.correlation == "reply:" + Int(s.reply.chat) + ":" + Int(s.reply.trigger)
            && built.value.causation.Some? && built.value.causation.value ==
                 if s.anchor.Some? then Trim(s.anchor.value) else "telegram:" + Int(s.reply.chat) + ":message:" + Int(s.reply.trigger)
  {
    ReplyEnvelopeBuilt(s.reply, s.text, s.replyTo, Causation(s), ExpectedOutcome(s), uuid, now);
    CausationFits(s);
    NormalisedIsBounded(Some(Causation(s)));
    CorrelationFine(RequestOf(s).correlation, uuid);
    ShortIsBounded(CreateEnvelope(RequestOf(s), uuid, now).value.correlation);
  }

  /** `runReason`: the run's error, else what the dispatch says, else the run's status; never empty. */
  function RunReason(run: Option<Run>, reason: string): (text: string)
    ensures text != ""
    ensures run.Some? && run.value.error.Some? && Trim(run.value.error.value) != "" ==>
      text <= Trim(run.value.error.value) && (|text| == 240 || text == Trim(run.value.error.value))
    ensures !(run.Some? && run.value.error.Some? && Trim(run.value.error.value) != "") && Trim(reason) != "" ==>
      text <= Trim(reason) && (|text| == 240 || text == Trim(reason))
  {
    if run.Some? && run.value.error.Some? && Trim(run.value.error.value) != "" then Clip(Trim(run.value.error.value), 240)
    else if Trim(reason) != "" then Clip(Trim(reason), 240)
    else if run.Some? then "agency_run_" + run.value.status.Name()
    else "agency_run_unavailable"
  }

  /** The answer to a run that was dispatched: accepted only with a usable message id. */
  method Answer(id: string, result: RunResult) returns (sent: Sent)
    ensures sent.Accepted? <==> result.ok && result.run.Some? && AcceptedMessage(result.run.value).Some?
    ensures sent.Accepted? ==> sent.run == id && Some(sent.messageId) == AcceptedMessage(result.run.value)
    ensures sent.Accepted? || sent.NotSent?
    ensures sent.NotSent? && (result.run.Some? ==> AcceptedMessage(result.run.value).None?) ==>
      sent.reason == RunReason(result.run, result.reason)
  {
    var messageId := if result.run.Some? && result.run.value.status == Succeeded then ResultMessageId(result.run.value.result) else None;
    if messageId.None? {
      return NotSent(RunReason(result.run, result.reason));
    }
    if !result.ok {
      return NotSent(if result.reason == "" then "agency_dispatch_rejected" else result.reason);
    }
    return Accepted(id, messageId.value);
  }

  lemma NextKeepsKeys(s: Sys, op: Op)
    requires KeysOk(s.db)
    ensures KeysOk(AgencySystem.Next(s, op).db) && Grown(s.db, AgencySystem.Next(s, op).db)
    ensures forall id, key :: Keyed(s.db, id, key) ==> Keyed(AgencySystem.Next(s, op).db, id, key)
  {
    WholeScript(s.db, ScriptOf(s, op));
    ScriptGrows(s.db, ScriptOf(s, op), Len(ScriptOf(s, op)));
  }

  lemma FinishedStays(s: Sys, id: string, cfg: Config, d: Draw)
    requires id in s.db.runs && s.db.runs[id].status == Succeeded
    ensures AgencySystem.Next(s, AgencySystem.Dispatch(id, cfg, Delivery, d)) == s
  {
  }

  /** The dispatch of a segment's run: launched when it is ready and permitted; a delivered one is only answered. */
  method Forward(runtime: AgencyRuntime, id: string, r: Reply, cfg: Config, d: Draw) returns (sent: Sent)
    requires runtime.Valid() && KeysOk(runtime.Tables()) && Keyed(runtime.Tables(), id, ReplyKey(r))
    modifies runtime`runs, runtime`attempts, runtime`receipts, runtime`flights, runtime`claimed, runtime.events
    ensures runtime.Valid() && KeysOk(runtime.Tables()) && Grown(old(runtime.Tables()), runtime.Tables()) && !sent.Off?
    ensures sent.Awaiting? <==> var run := old(runtime.runs)[id]; Ready(run, Delivery, d.now) && Permits(cfg, run.envelope, run.Kind())
    ensures sent.Awaiting? ==> sent.run == id && Scheduled(runtime.flights, id) && Keyed(runtime.Tables(), id, ReplyKey(r))
    ensures sent.Accepted? ==> sent.run == id && ReplyAnswer(runtime.Tables(), r) == Some(sent.messageId)
    ensures AcceptedMessage(old(runtime.runs)[id]).Some? ==>
      sent == Accepted(id, AcceptedMessage(old(runtime.runs)[id]).value) && runtime.State() == old(runtime.State())
  {
    NextKeepsKeys(runtime.State(), AgencySystem.Dispatch(id, cfg, Delivery, d));
    if runtime.runs[id].status == Succeeded {
      FinishedStays(runtime.State(), id, cfg, d);
    }
    var begun := runtime.Dispatch(id, cfg, Delivery, d);
    if begun.Launched? {
      return Awaiting(id, begun.usage);
    }
    sent := Answer(id, begun.result);
    if sent.Accepted? {
      AnswerComesFromTheRun(runtime.Tables(), id, r);
    }
  }

  /** A delivery waiting for its adapter's turn. */
  predicate Scheduled(flights: map<string, Flight>, id: string) {
    id in flights && flights[id].adapter.Delivery? && !flights[id].invoked && !flights[id].aborted
  }

  /** The run of a segment: the one its key has, else a new one that carries the segment. */
  method FindOrCreate(runtime: AgencyRuntime, s: Segment, uuid: string, d: Draw) returns (created: RunResult)
    requires runtime.Valid() && KeysOk(runtime.Tables()) && Uuid(uuid) && SafeInt(d.now) && d.now > 0 && InputError(s).None?
    modifies runtime`runs, runtime.events
    ensures runtime.Valid() && KeysOk(runtime.Tables()) && Grown(old(runtime.Tables()), runtime.Tables())
    ensures created.ok <==> HasKey(old(runtime.Tables()), ReplyKey(s.reply)) || uuid !in old(runtime.runs)
    ensures created.ok ==> created.run.Some? && Keyed(runtime.Tables(), created.run.value.envelope.id, ReplyKey(s.reply))
    ensures HasKey(old(runtime.Tables()), ReplyKey(s.reply)) ==> runtime.State() == old(runtime.State())
    ensures created.ok && !HasKey(old(runtime.Tables()), ReplyKey(s.reply)) ==>
      && created.run.value.envelope.id == uuid && uuid in runtime.runs
      && runtime.runs[uuid].status == Pending && runtime.runs[uuid].envelope.expiresAt.None? && Carries(runtime.runs[uuid].envelope, s)
    ensures created.ok ==> created.run.value.envelope.id in old(runtime.runs) || created.run.value.envelope.id == uuid
  {
    SegmentBuilt(s, uuid, d.now);
    BuiltAsAsked(RequestOf(s), uuid, d.now);
    var built := CreateEnvelope(RequestOf(s), uuid, d.now);
    AdmittedIff(built.value);
    NextKeepsKeys(runtime.State(), Submit(built.value, d));
    created := runtime.Create(built.value, d);
  }

  /** Neither the segment's key nor the drawn id is in use. */
  ghost predicate New(db: Db, s: Segment, uuid: string) {
    !HasKey(db, ReplyKey(s.reply)) && uuid !in db.runs
  }

  /** The configuration replies are meant to be sent under. */
  predicate FullAuthority(cfg: Config) {
    cfg.mode == Authority && cfg.maxLlm >= 0 && cfg.maxTool >= 1
  }

  /** A carried segment is ready to go out under full authority. */
  lemma CarriedIsReady(run: Run, s: Segment, cfg: Config, now: int)
    requires Carries(run.envelope, s) && InputError(s).None? && FullAuthority(cfg)
    requires run.status == Pending && run.envelope.expiresAt.None?
    ensures Ready(run, Delivery, now) && Permits(cfg, run.envelope, run.Kind())
  {
  }

  /** The part of a valid segment: find or create its run, and dispatch it. */
  method SendValid(runtime: AgencyRuntime, s: Segment, uuid: string, cfg: Config, d: Draw, d2: Draw) returns (sent: Sent)
    requires runtime.Valid() && KeysOk(runtime.Tables()) && Uuid(uuid) && SafeInt(d.now) && d.now > 0 && InputError(s).None?
    modifies runtime`runs, runtime`attempts, runtime`receipts, runtime`flights, runtime`claimed, runtime.events
    ensures runtime.Valid() && KeysOk(runtime.Tables()) && !sent.Off?
    ensures sent.Awaiting? ==> Scheduled(runtime.flights, sent.run) && Keyed(runtime.Tables(), sent.run, ReplyKey(s.reply))
    ensures sent.Accepted? ==> ReplyAnswer(runtime.Tables(), s.reply) == Some(sent.messageId)
    ensures sent.Awaiting? && sent.run !in old(runtime.runs) ==> sent.run in runtime.runs && Carries(runtime.runs[sent.run].envelope, s)
    ensures New(old(runtime.Tables()), s, uuid) && FullAuthority(cfg) ==> sent.Awaiting? && sent.run == uuid
    ensures forall id :: Keyed(old(runtime.Tables()), id, ReplyKey(s.reply)) && AcceptedMessage(old(runtime.runs)[id]).Some? ==>
      runtime.State() == old(runtime.State()) && sent == Accepted(id, AcceptedMessage(old(runtime.runs)[id]).value)
  {
    var created := FindOrCreate(runtime, s, uuid, d);
    if !created.ok {
      return NotSent(created.reason);
    }
    var id := created.run.value.envelope.id;
    if New(old(runtime.Tables()), s, uuid) && FullAuthority(cfg) {
      CarriedIsReady(runtime.runs[id], s, cfg, d2.now);
    }
    sent := Forward(runtime, id, s.reply, cfg, d2);
  }

  /** An answered key has a run that was delivered. */
  lemma AnsweredRun(db: Db, r: Reply) returns (id: string)
    requires KeysOk(db) && ReplyAnswer(db, r).Some?
    ensures Keyed(db, id, ReplyKey(r)) && AcceptedMessage(db.runs[id]) == ReplyAnswer(db, r)
  {
    id :| Keyed(db, id, ReplyKey(r));
    AnswerComesFromTheRun(db, id, r);
  }

  /**
   * `dispatchReplyViaAgency` up to its await: the segment's run is found or created under its
   * key and dispatched. Under full authority a new segment is on its way in a run that carries it;
   * a segment already delivered is answered from its run, and nothing changes.
   */
  method Send(runtime: AgencyRuntime, s: Segment, enabled: bool, uuid: string, cfg: Config, d: Draw, d2: Draw) returns (sent: Sent)
    requires runtime.Valid() && KeysOk(runtime.Tables()) && Uuid(uuid) && SafeInt(d.now) && d.now > 0
    modifies runtime`runs, runtime`attempts, runtime`receipts, runtime`flights, runtime`claimed, runtime.events
    ensures runtime.Valid() && KeysOk(runtime.Tables())
    ensures sent.Off? <==> !enabled
    ensures !enabled || InputError(s).Some? ==> runtime.State() == old(runtime.State()) && !sent.Awaiting? && !sent.Accepted?
    ensures sent.Awaiting? ==> Scheduled(runtime.flights, sent.run) && Keyed(runtime.Tables(), sent.run, ReplyKey(s.reply))
    ensures sent.Accepted? ==> ReplyAnswer(runtime.Tables(), s.reply) == Some(sent.messageId)
    ensures sent.Awaiting? && sent.run !in old(runtime.runs) ==> sent.run in runtime.runs && Carries(runtime.runs[sent.run].envelope, s)
    ensures enabled && InputError(s).None? && New(old(runtime.Tables()), s, uuid) && FullAuthority(cfg) ==>
      sent.Awaiting? && sent.run == uuid
    ensures enabled && InputError(s).None? && ReplyAnswer(old(runtime.Tables()), s.reply).Some? ==>
      && runtime.State() == old(runtime.State())
      && sent.Accepted? && Some(sent.messageId) == ReplyAnswer(old(runtime.Tables()), s.reply)
  {
    if !enabled {
      return Off;
    }
    var invalid := InputError(s);
    if invalid.Some? {
      return NotSent(invalid.value);
    }
    if ReplyAnswer(runtime.Tables(), s.reply).Some? {
      ghost var id := AnsweredRun(runtime.Tables(), s.reply);
    }
    sent := SendValid(runtime, s, uuid, cfg, d, d2);
  }

  lemma SegmentSends(sys: Sys, s: Segment, id: string)
    requires id in sys.flights && !sys.flights[id].invoked && sys.flights[id].adapter.Delivery?
    requires InputError(s).None? && id in sys.db.runs && Carries(sys.db.runs[id].envelope, s)
    ensures Sending(sys, Invoke(id)) <==> !sys.flights[id].aborted
    ensures AgencySystem.Next(sys, Invoke(id)).sends == if sys.flights[id].aborted then sys.sends else sys.sends + [id]
  {
    SendingIs(sys, id);
    InvokeDoes(sys, id);
  }

  /**
   * The adapter's turn of a segment's run: what reaches the transport is the segment, in its chat,
   * word for word and as a reply to the message it names; it does unless the run was cancelled.
   */
  method Transmit(runtime: AgencyRuntime, s: Segment, id: string, usage: AgencyUsage) returns (step: Result<Option<Message>>)
    requires runtime.Valid() && id in runtime.flights && !runtime.flights[id].invoked && runtime.flights[id].adapter.Delivery?
    requires InputError(s).None? && Carries(runtime.runs[id].envelope, s)
    requires usage.Valid() && usage.llmCalls == usage.toolCalls == 0 && usage.budget == runtime.claimed[id].envelope.budget
    modifies runtime`flights, runtime`calls, runtime`sends, usage`toolCalls
    ensures runtime.Valid() && runtime.State() == AgencySystem.Next(old(runtime.State()), Invoke(id))
    ensures step.Ok? <==> !old(runtime.flights)[id].aborted
    ensures step.Ok? ==> step.value == Some(Message(s.reply.chat, Trim(s.text), s.replyTo))
    ensures runtime.sends == if step.Ok? then old(runtime.sends) + [id] else old(runtime.sends)
  {
    SegmentSends(runtime.State(), s, id);
    step := runtime.Invoke(id, usage);
  }

  /** The rest after the await: what the settled run holds is what is answered, now and for its key. */
  method Conclude(runtime: AgencyRuntime, id: string, r: Reply, race: Race, usage: AgencyUsage, d: Draw) returns (sent: Sent)
    requires runtime.Valid() && KeysOk(runtime.Tables()) && Keyed(runtime.Tables(), id, ReplyKey(r))
    requires id in runtime.flights && runtime.flights[id].invoked
    requires usage.Valid() && usage.budget == runtime.claimed[id].envelope.budget
    modifies runtime`runs, runtime`attempts, runtime`receipts, runtime`flights, runtime`claimed, runtime.events
    ensures runtime.Valid() && KeysOk(runtime.Tables())
    ensures sent.Accepted? ==> sent.run == id && ReplyAnswer(runtime.Tables(), r) == Some(sent.messageId)
    ensures sent.Accepted? <==>
      && race.Won? && race.result.Some? && race.result.value.JMessage? && 0 < race.result.value.messageId <= MAX_SAFE
      && id in old(runtime.runs) && old(runtime.runs)[id].status == Running
    ensures sent.Accepted? ==> sent.messageId == race.result.value.messageId
  {
    NextKeepsKeys(runtime.State(), Finish(id, RaceOutcome(race, runtime.flights[id].aborted), d));
    var result := runtime.Settle(id, race, usage, d);
    sent := Answer(id, result);
    if sent.Accepted? {
      AnswerComesFromTheRun(runtime.Tables(), id, r);
    }
  }
}
