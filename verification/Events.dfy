/** The append-only event log with its transactional outbox, as values. */
module Events {
  import opened Wrappers
  import opened Text
  import opened Vocabulary

  datatype Event = Event(
    id: EventId, kind: EventType, scopeKey: string, scope: Scope, source: Source, occurredAt: int,
    sequence: nat, causation: Option<string>, correlation: string, dedupe: Option<Dedupe>,
    fact: Fact, createdAt: int)

  datatype OutboxStatus = Queued | Processing | Delivered | Dead

  /** One outbox row; its id is its position in the table. */
  datatype OutboxRow = OutboxRow(
    event: EventId, status: OutboxStatus, attempts: nat, availableAt: int,
    lockedAt: Option<int>, lockedBy: Option<string>, lastError: Option<string>)

  datatype Store = Store(log: seq<Event>, outbox: seq<OutboxRow>)

  const EMPTY := Store([], [])

  /** Deployment switches, read anew by every call. */
  datatype Flags = Flags(events: bool, outbox: bool)

  datatype EventInput = EventInput(
    kind: EventType, scope: Scope, source: Source, occurredAt: Option<int>,
    causation: Option<string>, correlation: Option<string>, dedupe: Option<Dedupe>, fact: Fact)

  /** What append answers: nothing, an error, the earlier event, or the new one. */
  datatype Appended = Disabled | Refused(reason: string) | Conflict | Duplicate(event: Event) | Inserted(event: Event)

  // ---- append ----

  function Bounded(value: Option<string>, max: nat): Result<Option<string>> {
    if value.None? || Trim(value.value) == "" then Ok(None)
    else if |Trim(value.value)| > max then Err("too long")
    else Ok(Some(Trim(value.value)))
  }

  /** A key as the log stores it: trimmed, and none at all when nothing is left. */
  function StoredKey(key: Option<Dedupe>): Option<Dedupe> {
    if key.Some? && key.value.Named? then
      if Trim(key.value.text) == "" then None else Some(Named(Trim(key.value.text)))
    else key
  }

  predicate KeyFits(key: Option<Dedupe>) {
    key.Some? ==> |Trim(Render(key.value))| <= 240
  }

  predicate BadId(id: Option<int>) {
    id.Some? && !ValidId(id)
  }

  /** The row to store, apart from its sequence number, or the error thrown for a malformed input. */
  function Draft(input: EventInput, id: EventId, now: int): Result<Event> {
    var key := ScopeKey(input.scope);
    var at := if input.occurredAt.Some? then input.occurredAt.value else now;
    var correlation := Bounded(input.correlation, 240);
    var causation := Bounded(input.causation, 240);
    if key.Err? then Err(key.reason)
    else if BadId(input.scope.chatId) || BadId(input.scope.userId) then Err("id must be a non-zero safe integer")
    else if !SafeInt(at) || at <= 0 then Err("occurredAt must be a positive integer in seconds")
    else if correlation.Err? then Err(correlation.reason)
    else if causation.Err? then Err(causation.reason)
    else if !KeyFits(input.dedupe) then Err("dedupeKey exceeds 240 characters")
    else Ok(Event(id, input.kind, key.value, input.scope, input.source, at, 0, causation.value,
                  if correlation.value.Some? then correlation.value.value else "event-stream:" + key.value,
                  StoredKey(input.dedupe), input.fact, now))
  }

  /** The inputs the log takes. */
  predicate Acceptable(input: EventInput, now: int) {
    && ScopeKey(input.scope).Ok?
    && (input.scope.chatId.Some? ==> ValidId(input.scope.chatId)) && (input.scope.userId.Some? ==> ValidId(input.scope.userId))
    && 0 < (if input.occurredAt.Some? then input.occurredAt.value else now) <= MAX_SAFE
    && (input.correlation.Some? ==> |Trim(input.correlation.value)| <= 240)
    && (input.causation.Some? ==> |Trim(input.causation.value)| <= 240)
    && (input.dedupe.Some? ==> |Trim(Render(input.dedupe.value))| <= 240)
  }

  predicate BlankText(text: Option<string>) {
    text.None? || Trim(text.value) == ""
  }

  /** The event says what its input said, in the scope it named, and when it was stored. */
  predicate Records(e: Event, input: EventInput, id: EventId, now: int) {
    && e.id == id && e.kind == input.kind && e.source == input.source && e.fact == input.fact && e.createdAt == now
    && e.scope == input.scope && Ok(e.scopeKey) == ScopeKey(input.scope)
    && e.occurredAt == (if input.occurredAt.Some? then input.occurredAt.value else now)
    && (if BlankText(input.causation) then e.causation.None? else e.causation == Some(Trim(input.causation.value)))
    && (if BlankText(input.correlation) then e.correlation == "event-stream:" + e.scopeKey else e.correlation == Trim(input.correlation.value))
    && (input.dedupe.None? ==> e.dedupe.None?)
    && (input.dedupe.Some? && !input.dedupe.value.Named? ==> e.dedupe == input.dedupe)
    && (input.dedupe.Some? && input.dedupe.value.Named? ==>
          var text := Trim(input.dedupe.value.text); if text == "" then e.dedupe.None? else e.dedupe == Some(Named(text)))
  }

  /** Exactly the acceptable inputs are taken, and what is stored of one is what it said. */
  lemma DraftIs(input: EventInput, id: EventId, now: int)
    ensures Draft(input, id, now).Ok? <==> Acceptable(input, now)
    ensures Draft(input, id, now).Ok? ==> Records(Draft(input, id, now).value, input, id, now)
  {
  }

  /** The events of one correlation, in append order. */
  function Stream(log: seq<Event>, correlation: string): seq<Event> {
    if log == [] then []
    else
      var rest := Stream(log[..|log| - 1], correlation);
      if log[|log| - 1].correlation == correlation then rest + [log[|log| - 1]] else rest
  }

  /** `COALESCE(MAX(sequence), 0)` over one correlation. */
  function MaxSequence(log: seq<Event>, correlation: string): nat {
    if log == [] then 0
    else
      var rest := MaxSequence(log[..|log| - 1], correlation);
      var last := log[|log| - 1];
      if last.correlation == correlation && last.sequence > rest then last.sequence else rest
  }

  /** The event holding a dedupe key. */
  function WithKey(log: seq<Event>, key: Dedupe): (r: Option<Event>)
    ensures r.Some? ==> r.value in log && r.value.dedupe == Some(key)
    ensures r.None? ==> forall e :: e in log ==> e.dedupe != Some(key)
  {
    if log == [] then None
    else if log[|log| - 1].dedupe == Some(key) then Some(log[|log| - 1])
    else WithKey(log[..|log| - 1], key)
  }

  predicate HasEvent(log: seq<Event>, id: EventId) {
    exists e :: e in log && e.id == id
  }

  /** One append transaction. */
  function Append(st: Store, flags: Flags, input: EventInput, id: EventId, now: int): (Store, Appended) {
    if !flags.events then (st, Disabled)
    else
      var draft := Draft(input, id, now);
      if draft.Err? then (st, Refused(draft.reason))
      else if draft.value.dedupe.Some? && WithKey(st.log, draft.value.dedupe.value).Some? then
        (st, Duplicate(WithKey(st.log, draft.value.dedupe.value).value))
      else if HasEvent(st.log, id) then (st, Conflict)
      else
        var event := draft.value.(sequence := MaxSequence(st.log, draft.value.correlation) + 1);
        var row := OutboxRow(id, Queued, 0, now, None, None, None);
        (Store(st.log + [event], if flags.outbox then st.outbox + [row] else st.outbox), Inserted(event))
  }

  // ---- what every log keeps ----

  ghost predicate UniqueIds(log: seq<Event>) {
    forall i, j :: 0 <= i < j < |log| ==> log[i].id != log[j].id
  }

  ghost predicate UniqueKeys(log: seq<Event>) {
    forall i, j :: 0 <= i < j < |log| && log[i].dedupe.Some? ==> log[i].dedupe != log[j].dedupe
  }

  /** Every event numbers itself after the earlier events of its correlation. */
  ghost predicate Numbered(log: seq<Event>) {
    forall i :: 0 <= i < |log| ==> log[i].sequence == |Stream(log[..i], log[i].correlation)| + 1
  }

  ghost predicate WellFormed(log: seq<Event>) {
    UniqueIds(log) && UniqueKeys(log) && Numbered(log)
  }

  /** Outbox rows name events of the log, in log order and without repetition. */
  ghost predicate OutboxInOrder(st: Store) {
    exists at: seq<nat> :: OutboxAt(st, at)
  }

  lemma {:induction false} MaxIsCount(log: seq<Event>, correlation: string)
    requires Numbered(log)
    ensures MaxSequence(log, correlation) == |Stream(log, correlation)|
  {
    if log != [] {
      var init := log[..|log| - 1];
      forall i | 0 <= i < |init| ensures init[i].sequence == |Stream(init[..i], init[i].correlation)| + 1 {
        assert init[..i] == log[..i];
      }
      MaxIsCount(init, correlation);
    }
  }

  /** The only way a log grows. */
  ghost predicate Fits(log: seq<Event>, e: Event) {
    && !HasEvent(log, e.id)
    && (e.dedupe.Some? ==> WithKey(log, e.dedupe.value).None?)
    && e.sequence == MaxSequence(log, e.correlation) + 1
  }

  lemma AppendShape(st: Store, flags: Flags, input: EventInput, id: EventId, now: int)
    ensures var (next, answer) := Append(st, flags, input, id, now);
            if answer.Inserted? then
              && Fits(st.log, answer.event) && answer.event.id == id
              && next.log == st.log + [answer.event]
              && (flags.outbox ==> next.outbox == st.outbox + [OutboxRow(id, Queued, 0, now, None, None, None)])
              && (!flags.outbox ==> next.outbox == st.outbox)
            else next == st
  {
  }

  lemma FittingKeepsLog(log: seq<Event>, e: Event)
    requires WellFormed(log) && Fits(log, e)
    ensures WellFormed(log + [e])
  {
    var n := |log|;
    MaxIsCount(log, e.correlation);
    var next := log + [e];
    assert next[..n] == log;
    forall i | 0 <= i <= n ensures next[i].sequence == |Stream(next[..i], next[i].correlation)| + 1 {
      if i < n {
        assert next[..i] == log[..i];
      }
    }
  }

  /** An append keeps the log well formed, whatever its input. */
  lemma AppendKeepsLog(st: Store, flags: Flags, input: EventInput, id: EventId, now: int)
    requires WellFormed(st.log)
    ensures WellFormed(Append(st, flags, input, id, now).0.log)
    ensures st.log <= Append(st, flags, input, id, now).0.log
  {
    AppendShape(st, flags, input, id, now);
    var answer := Append(st, flags, input, id, now).1;
    if answer.Inserted? {
      FittingKeepsLog(st.log, answer.event);
    }
  }

  /** In a well-formed log the stream of every correlation is numbered 1..n in append order. */
  lemma {:induction false} StreamNumbered(log: seq<Event>, correlation: string, k: nat)
    requires Numbered(log) && k < |Stream(log, correlation)|
    ensures Stream(log, correlation)[k].sequence == k + 1
    ensures Stream(log, correlation)[k].correlation == correlation
  {
    var init := log[..|log| - 1];
    forall i | 0 <= i < |init| ensures init[i].sequence == |Stream(init[..i], init[i].correlation)| + 1 {
      assert init[..i] == log[..i];
    }
    if k < |Stream(init, correlation)| {
      StreamNumbered(init, correlation, k);
    }
  }

  ghost predicate OutboxAt(st: Store, at: seq<nat>) {
    && |at| == |st.outbox|
    && (forall i :: 0 <= i < |at| ==> at[i] < |st.log| && st.outbox[i].event == st.log[at[i]].id)
    && (forall i, j :: 0 <= i < j < |at| ==> at[i] < at[j])
  }

  lemma OutboxSame(st: Store, next: Store, e: Event, at: seq<nat>)
    requires OutboxAt(st, at) && next.log == st.log + [e] && next.outbox == st.outbox
    ensures OutboxAt(next, at)
  {
    forall i | 0 <= i < |at| ensures at[i] < |next.log| && next.outbox[i].event == next.log[at[i]].id {
      assert next.log[at[i]] == st.log[at[i]];
    }
  }

  lemma OutboxOneMore(st: Store, next: Store, e: Event, at: seq<nat>)
    requires OutboxAt(st, at) && next.log == st.log + [e]
    requires |next.outbox| == |st.outbox| + 1 && st.outbox <= next.outbox && next.outbox[|st.outbox|].event == e.id
    ensures OutboxAt(next, at + [|st.log|])
  {
    var longer := at + [|st.log|];
    forall i | 0 <= i < |longer| ensures longer[i] < |next.log| && next.outbox[i].event == next.log[longer[i]].id {
      if i < |at| {
        assert longer[i] == at[i] && next.outbox[i] == st.outbox[i] && next.log[at[i]] == st.log[at[i]];
      }
    }
  }

  lemma OutboxLonger(st: Store, next: Store, e: Event)
    requires OutboxInOrder(st) && next.log == st.log + [e]
    requires next.outbox == st.outbox || (|next.outbox| == |st.outbox| + 1 && st.outbox <= next.outbox && next.outbox[|st.outbox|].event == e.id)
    ensures OutboxInOrder(next)
  {
    var at: seq<nat> :| OutboxAt(st, at);
    if next.outbox == st.outbox {
      OutboxSame(st, next, e, at);
    } else {
      OutboxOneMore(st, next, e, at);
    }
  }

  lemma AppendKeepsOutbox(st: Store, flags: Flags, input: EventInput, id: EventId, now: int)
    requires OutboxInOrder(st)
    ensures OutboxInOrder(Append(st, flags, input, id, now).0)
  {
    AppendShape(st, flags, input, id, now);
    var (next, answer) := Append(st, flags, input, id, now);
    if answer.Inserted? {
      OutboxLonger(st, next, answer.event);
    }
  }

  // ---- whole histories of appends ----

  datatype AppendCall = AppendCall(flags: Flags, input: EventInput, id: EventId, now: int)

  function AppendAll(calls: seq<AppendCall>): Store {
    if calls == [] then EMPTY
    else
      var c := calls[|calls| - 1];
      Append(AppendAll(calls[..|calls| - 1]), c.flags, c.input, c.id, c.now).0
  }

  ghost predicate OutboxMirrorsLog(st: Store) {
    |st.outbox| == |st.log| && forall i :: 0 <= i < |st.log| ==> st.outbox[i].event == st.log[i].id
  }

  lemma AppendKeepsMirror(st: Store, flags: Flags, input: EventInput, id: EventId, now: int)
    requires OutboxMirrorsLog(st) && flags.outbox
    ensures OutboxMirrorsLog(Append(st, flags, input, id, now).0)
  {
    AppendShape(st, flags, input, id, now);
  }

  /**
   * After any history of appends ids and dedupe keys are unique, each correlation is numbered
   * 1..n in append order, and the outbox follows the log.
   */
  lemma {:induction false} EveryLogWellFormed(calls: seq<AppendCall>)
    ensures WellFormed(AppendAll(calls).log)
    ensures OutboxInOrder(AppendAll(calls))
  {
    if calls == [] {
      assert OutboxAt(EMPTY, []);
    } else {
      var init, c := calls[..|calls| - 1], calls[|calls| - 1];
      EveryLogWellFormed(init);
      AppendKeepsLog(AppendAll(init), c.flags, c.input, c.id, c.now);
      AppendKeepsOutbox(AppendAll(init), c.flags, c.input, c.id, c.now);
    }
  }

  /** With the outbox always on, its rows are the events one for one. */
  lemma {:induction false} EveryOutboxMirrors(calls: seq<AppendCall>)
    requires forall c :: c in calls ==> c.flags.outbox
    ensures OutboxMirrorsLog(AppendAll(calls))
  {
    if calls != [] {
      var init, c := calls[..|calls| - 1], calls[|calls| - 1];
      EveryOutboxMirrors(init);
      AppendKeepsMirror(AppendAll(init), c.flags, c.input, c.id, c.now);
    }
  }
}
