/** Scopes, event types, facts and dedupe keys shared by the log and its clients. */
module Vocabulary {
  import opened Wrappers
  import opened Text

  const MAX_SAFE: int := 9_007_199_254_740_991

  predicate SafeInt(z: int) {
    -MAX_SAFE <= z <= MAX_SAFE
  }

  // ---- scopes ----

  datatype Visibility = Global | Chat | User | Task

  datatype Scope = Scope(
    visibility: Visibility, chatId: Option<int>, userId: Option<int>, taskId: Option<string>)

  predicate ValidId(id: Option<int>) {
    id.Some? && SafeInt(id.value) && id.value != 0
  }

  function ChatSuffix(scope: Scope): string {
    if ValidId(scope.chatId) then "@chat:" + Int(scope.chatId.value) else ""
  }

  /** The persisted key of a scope; incomplete scopes are refused. */
  function ScopeKey(scope: Scope): Result<string> {
    match scope.visibility
    case Global => Ok("global")
    case Chat =>
      if ValidId(scope.chatId) then Ok("chat:" + Int(scope.chatId.value))
      else Err("chat scope requires a non-zero chatId")
    case User =>
      if ValidId(scope.userId) then Ok("user:" + Int(scope.userId.value) + ChatSuffix(scope))
      else Err("user scope requires a non-zero userId")
    case Task =>
      if scope.taskId.Some? && Clip(Trim(scope.taskId.value), 120) != "" then
        Ok("task:" + Clip(Trim(scope.taskId.value), 120) + ChatSuffix(scope))
      else Err("task scope requires a taskId")
  }

  /** The chat a key of this scope names, if it names one. */
  function NamedChat(scope: Scope): Option<int> {
    if scope.visibility == Global || !ValidId(scope.chatId) then None else scope.chatId
  }

  function KeptTask(scope: Scope): string {
    if scope.taskId.Some? then Clip(Trim(scope.taskId.value), 120) else ""
  }

  /** A task without a chat whose id spells out the chat of another task's scope. */
  predicate Imitates(a: Scope, b: Scope) {
    NamedChat(a).None? && NamedChat(b).Some? && KeptTask(a) == KeptTask(b) + "@chat:" + Int(NamedChat(b).value)
  }

  /**
   * Scopes share a key exactly when they are of one visibility and name the same chat, user or
   * task; except that one task id may imitate the chat of another task.
   */
  lemma ScopeKeysEqualIff(a: Scope, b: Scope)
    requires ScopeKey(a).Ok? && ScopeKey(b).Ok?
    ensures ScopeKey(a) == ScopeKey(b) <==>
      && a.visibility == b.visibility
      && match a.visibility
         case Global => true
         case Chat => a.chatId == b.chatId
         case User => a.userId == b.userId && NamedChat(a) == NamedChat(b)
         case Task => (KeptTask(a) == KeptTask(b) && NamedChat(a) == NamedChat(b)) || Imitates(a, b) || Imitates(b, a)
  {
    if a.visibility != b.visibility {
      KeysStartApart(a, b);
    } else {
      match a.visibility
      case Global =>
      case Chat => ChatKeys(a, b);
      case User => UserKeys(a, b);
      case Task => TaskKeys(a, b);
    }
  }

  lemma KeysStartApart(a: Scope, b: Scope)
    requires ScopeKey(a).Ok? && ScopeKey(b).Ok? && a.visibility != b.visibility
    ensures ScopeKey(a) != ScopeKey(b)
  {
    assert ScopeKey(a).value[0] != ScopeKey(b).value[0];
  }

  lemma ChatKeys(a: Scope, b: Scope)
    requires a.visibility == b.visibility == Chat && ScopeKey(a).Ok? && ScopeKey(b).Ok?
    ensures ScopeKey(a) == ScopeKey(b) ==> a.chatId == b.chatId
  {
    if ScopeKey(a) == ScopeKey(b) {
      assert ScopeKey(a).value[5..] == Int(a.chatId.value) && ScopeKey(b).value[5..] == Int(b.chatId.value);
      IntInjective(a.chatId.value, b.chatId.value);
    }
  }

  lemma SamePrefix(p: string, x: string, y: string)
    requires p + x == p + y
    ensures x == y
  {
    assert x == (p + x)[|p|..] && y == (p + y)[|p|..];
  }

  lemma UserKeyIs(a: Scope)
    requires a.visibility == User && ScopeKey(a).Ok?
    ensures ScopeKey(a) == Ok("user:" + (Int(a.userId.value) + ChatSuffix(a)))
  {
    assert "user:" + Int(a.userId.value) + ChatSuffix(a) == "user:" + (Int(a.userId.value) + ChatSuffix(a));
  }

  lemma UserKeys(a: Scope, b: Scope)
    requires a.visibility == b.visibility == User && ScopeKey(a).Ok? && ScopeKey(b).Ok?
    ensures ScopeKey(a) == ScopeKey(b) <==> a.userId == b.userId && NamedChat(a) == NamedChat(b)
  {
    var s, t := Int(a.userId.value), Int(b.userId.value);
    UserKeyIs(a);
    UserKeyIs(b);
    if ScopeKey(a) == ScopeKey(b) {
      SamePrefix("user:", s + ChatSuffix(a), t + ChatSuffix(b));
      IntHasNoAt(a.userId.value);
      IntHasNoAt(b.userId.value);
      PlainSplits(s, a, t, b);
      IntInjective(a.userId.value, b.userId.value);
    }
  }

  lemma PlainSplits(s: string, a: Scope, t: string, b: Scope)
    requires s + ChatSuffix(a) == t + ChatSuffix(b) && a.visibility != Global && b.visibility != Global
    requires '@' !in s && '@' !in t
    ensures s == t && NamedChat(a) == NamedChat(b)
  {
    SuffixSplits(s, a, t, b);
    assert NamedChat(b).Some? ==> (t + "@chat:" + Int(NamedChat(b).value))[|t|] == '@';
    assert NamedChat(a).Some? ==> (s + "@chat:" + Int(NamedChat(a).value))[|s|] == '@';
  }

  lemma TaskKeyIs(a: Scope)
    requires a.visibility == Task && ScopeKey(a).Ok?
    ensures ScopeKey(a) == Ok("task:" + (KeptTask(a) + ChatSuffix(a)))
  {
    assert "task:" + KeptTask(a) + ChatSuffix(a) == "task:" + (KeptTask(a) + ChatSuffix(a));
  }

  lemma Regrouped(x: string, y: string, p: string, n: string)
    requires x == y + p + n
    ensures x + "" == y + (p + n)
  {
  }

  lemma ImitatesPrintsSame(a: Scope, b: Scope)
    requires a.visibility == b.visibility == Task && Imitates(a, b)
    ensures KeptTask(a) + ChatSuffix(a) == KeptTask(b) + ChatSuffix(b)
  {
    Regrouped(KeptTask(a), KeptTask(b), "@chat:", Int(NamedChat(b).value));
    assert ChatSuffix(a) == "" && ChatSuffix(b) == "@chat:" + Int(NamedChat(b).value);
  }

  lemma TaskKeys(a: Scope, b: Scope)
    requires a.visibility == b.visibility == Task && ScopeKey(a).Ok? && ScopeKey(b).Ok?
    ensures ScopeKey(a) == ScopeKey(b) <==>
      (KeptTask(a) == KeptTask(b) && NamedChat(a) == NamedChat(b)) || Imitates(a, b) || Imitates(b, a)
  {
    TaskKeyIs(a);
    TaskKeyIs(b);
    if Imitates(a, b) {
      ImitatesPrintsSame(a, b);
    } else if Imitates(b, a) {
      ImitatesPrintsSame(b, a);
    } else if ScopeKey(a) == ScopeKey(b) {
      SamePrefix("task:", KeptTask(a) + ChatSuffix(a), KeptTask(b) + ChatSuffix(b));
      SuffixSplits(KeptTask(a), a, KeptTask(b), b);
    }
  }

  lemma IntHasNoAt(z: int)
    ensures '@' !in Int(z)
  {
    DecReadsBack(if z < 0 then -z else z);
  }

  /** Two texts with chats appended: the chats are told apart by their digits, and a chat by its mark. */
  lemma SuffixSplits(s: string, a: Scope, t: string, b: Scope)
    requires s + ChatSuffix(a) == t + ChatSuffix(b) && a.visibility != Global && b.visibility != Global
    ensures NamedChat(a).Some? == NamedChat(b).Some? ==> s == t && NamedChat(a) == NamedChat(b)
    ensures NamedChat(a).None? && NamedChat(b).Some? ==> s == t + "@chat:" + Int(NamedChat(b).value)
    ensures NamedChat(a).Some? && NamedChat(b).None? ==> t == s + "@chat:" + Int(NamedChat(a).value)
  {
    if ValidId(a.chatId) && ValidId(b.chatId) {
      var n, m := Int(a.chatId.value), Int(b.chatId.value);
      IntHasNoColon(a.chatId.value);
      IntHasNoColon(b.chatId.value);
      assert s + ChatSuffix(a) == (s + "@chat") + [':'] + n && t + ChatSuffix(b) == (t + "@chat") + [':'] + m;
      SplitLast(s + "@chat", n, t + "@chat", m, ':');
      assert s == (s + "@chat")[..|s|] == (t + "@chat")[..|t|] == t;
      IntInjective(a.chatId.value, b.chatId.value);
    } else if ValidId(a.chatId) {
      assert t == t + "" == s + ("@chat:" + Int(a.chatId.value)) == s + "@chat:" + Int(a.chatId.value);
    } else if ValidId(b.chatId) {
      assert s == s + "" == t + ("@chat:" + Int(b.chatId.value)) == t + "@chat:" + Int(b.chatId.value);
    } else {
      assert s == s + "" == t + "" == t;
    }
  }

  /** A task that imitates another one's chat, and so shares its key. */
  lemma TaskKeysClash()
    ensures var a, b := Scope(Task, None, None, Some("x@chat:5")), Scope(Task, Some(5), None, Some("x"));
            ScopeKey(a).Ok? && ScopeKey(a) == ScopeKey(b) && NamedChat(a) != NamedChat(b)
  {
    TrimIs("x@chat:5");
    TrimIs("x");
    assert Int(5) == "5";
    assert "task:" + "x@chat:5" + "" == "task:" + "x" + ("@chat:" + "5");
  }

  function ChatScope(chat: int): Scope {
    Scope(Chat, Some(chat), None, None)
  }

  // ---- vocabulary of the clients ----

  datatype ActionKind = Speak | Act | Ask | Wait | Observe | Remember | Correct | Stop

  datatype RunStatus = Pending | Running | Waiting | Succeeded | Failed | Cancelled | Expired {
    predicate Terminal() {
      this in {Succeeded, Failed, Cancelled, Expired}
    }

    function Name(): (name: string)
      ensures ':' !in name
    {
      match this
      case Pending => "pending"
      case Running => "running"
      case Waiting => "waiting"
      case Succeeded => "succeeded"
      case Failed => "failed"
      case Cancelled => "cancelled"
      case Expired => "expired"
    }
  }

  datatype MissionStatus = WakeRequested | Observed | Verified | MissionFailed | Stopped | MissionExpired {
    predicate Terminal() {
      this in {Verified, MissionFailed, Stopped, MissionExpired}
    }
  }

  datatype CircuitStatus = CircuitVerified | CircuitUnverified | CircuitFailed

  datatype ValueStatus = Retained | Unverified | Rejected | ValueExpired

  datatype Source = Telegram | Host | Scheduler | Tool | Model | Import

  datatype EventType =
    | TaskObservation | BotDelivery
    | MissionProposed | MissionObserved | MissionWakeRequested
    | CircuitProposed | CircuitEvaluated | CircuitPublished
    | ValueProposed | ValueEvaluated | ValueAdopted
    | OtherType(name: string)

  /** Event ids are opaque; only their identity and their strict total order matter. */
  type EventId = nat

  datatype Fact =
    | RunFact(run: string, action: ActionKind, state: RunStatus, attempt: nat, error: Option<string>,
              messageId: Option<int>, receipt: Option<nat>, observed: bool)
    | MissionFact(chat: int, wakeFirst: Option<int>)
    | MissionOutcome(mission: EventId, outcome: MissionStatus, missionEvidence: seq<string>,
                     passed: nat, total: nat, next: Option<int>)
    | MissionWake(woken: EventId, wakeAt: int)
    | CircuitFact(circuitChat: int, expiresAt: Option<int>)
    | CircuitEvaluation(circuit: EventId, verdict: CircuitStatus, receipts: seq<string>,
                        samples: nat, successes: nat, falseSuccesses: nat)
    | CircuitPublication(published: EventId)
    | ValueFact(valueScope: Scope)
    | ValueEvaluation(candidate: EventId, retention: ValueStatus, valueEvidence: seq<string>,
                      checksPassed: nat, checksTotal: nat)
    | ValueAdoption(adopted: EventId, grounds: seq<string>)
    | Opaque(text: string)

  // ---- dedupe keys ----

  /** A dedupe key by the tuple it prints; every other key is Named. */
  datatype Dedupe =
    | RunEvent(run: string, state: RunStatus, attempt: nat)
    | WakeOf(mission: EventId, minute: int)
    | OutcomeOf(mission: EventId, outcome: MissionStatus, at: int)
    | EvaluationOf(circuit: EventId, at: int)
    | PublicationOf(circuit: EventId)
    | RetentionOf(value: EventId, retention: ValueStatus, at: int)
    | AdoptionOf(value: EventId)
    | Named(text: string)

  function OutcomeName(s: MissionStatus): (name: string)
    ensures ':' !in name
  {
    match s
    case WakeRequested => "wake_requested"
    case Observed => "observed"
    case Verified => "verified"
    case MissionFailed => "failed"
    case Stopped => "stopped"
    case MissionExpired => "expired"
  }

  function RetentionName(s: ValueStatus): (name: string)
    ensures ':' !in name
  {
    match s
    case Retained => "retained"
    case Unverified => "unverified"
    case Rejected => "rejected"
    case ValueExpired => "expired"
  }

  function Tag(key: Dedupe): string {
    match key
    case RunEvent(_, _, _) => "agency-run"
    case WakeOf(_, _) => "mission-wake"
    case OutcomeOf(_, _, _) => "mission-observation"
    case EvaluationOf(_, _) => "action-circuit-eval"
    case PublicationOf(_) => "action-circuit-published"
    case RetentionOf(_, _, _) => "value-evaluation"
    case AdoptionOf(_) => "value-adopted"
    case Named(_) => ""
  }

  function Body(key: Dedupe): string {
    match key
    case RunEvent(run, state, attempt) => run + ":" + state.Name() + ":" + Int(attempt)
    case WakeOf(mission, minute) => Int(mission) + ":" + Int(minute)
    case OutcomeOf(mission, outcome, at) => Int(mission) + ":" + OutcomeName(outcome) + ":" + Int(at)
    case EvaluationOf(circuit, at) => Int(circuit) + ":" + Int(at)
    case PublicationOf(circuit) => Int(circuit)
    case RetentionOf(value, retention, at) => Int(value) + ":" + RetentionName(retention) + ":" + Int(at)
    case AdoptionOf(value) => Int(value)
    case Named(text) => text
  }

  /** The key as it is stored. */
  function Render(key: Dedupe): string {
    if key.Named? then key.text else Tag(key) + ":" + Body(key)
  }

  /**
   * Printed keys are as distinct as the tuples they print, even when a run id contains the
   * separator, so a key can stand for its tuple in the log.
   */
  lemma RenderInjective(a: Dedupe, b: Dedupe)
    requires !a.Named? && !b.Named?
    requires Render(a) == Render(b)
    ensures a == b
  {
    SplitFirst(Tag(a), Body(a), Tag(b), Body(b), ':');
    TagsDiffer(a, b);
    BodiesDiffer(a, b);
  }

  predicate SameKind(a: Dedupe, b: Dedupe) {
    && a.RunEvent? == b.RunEvent? && a.WakeOf? == b.WakeOf? && a.OutcomeOf? == b.OutcomeOf?
    && a.EvaluationOf? == b.EvaluationOf? && a.PublicationOf? == b.PublicationOf?
    && a.RetentionOf? == b.RetentionOf? && a.AdoptionOf? == b.AdoptionOf?
  }

  lemma BodiesDiffer(a: Dedupe, b: Dedupe)
    requires !a.Named? && !b.Named? && SameKind(a, b) && Body(a) == Body(b)
    ensures a == b
  {
    match a
    case RunEvent(_, _, _) => RunBodies(a, b);
    case WakeOf(mission, minute) => TwoNumbers(mission, minute, b.mission, b.minute);
    case OutcomeOf(mission, outcome, at) =>
      Middle(mission, OutcomeName(outcome), at, b.mission, OutcomeName(b.outcome), b.at);
      OutcomesDiffer(outcome, b.outcome);
    case EvaluationOf(circuit, at) => TwoNumbers(circuit, at, b.circuit, b.at);
    case PublicationOf(circuit) => IntInjective(circuit, b.circuit);
    case RetentionOf(value, retention, at) =>
      Middle(value, RetentionName(retention), at, b.value, RetentionName(b.retention), b.at);
      RetentionsDiffer(retention, b.retention);
    case AdoptionOf(value) => IntInjective(value, b.value);
  }

  lemma RunBodies(a: Dedupe, b: Dedupe)
    requires a.RunEvent? && b.RunEvent? && Body(a) == Body(b)
    ensures a == b
  {
    IntHasNoColon(a.attempt);
    IntHasNoColon(b.attempt);
    SplitLast(a.run + ":" + a.state.Name(), Int(a.attempt), b.run + ":" + b.state.Name(), Int(b.attempt), ':');
    IntInjective(a.attempt, b.attempt);
    SplitLast(a.run, a.state.Name(), b.run, b.state.Name(), ':');
    NamesDiffer(a.state, b.state);
  }

  /** No two kinds of key share a tag. */
  lemma TagsDiffer(a: Dedupe, b: Dedupe)
    requires !a.Named? && !b.Named? && Tag(a) == Tag(b)
    ensures SameKind(a, b)
  {
    assert |Tag(a)| == |Tag(b)|;
  }

  lemma RetentionsDiffer(a: ValueStatus, b: ValueStatus)
    requires RetentionName(a) == RetentionName(b)
    ensures a == b
  {
    assert RetentionName(a)[0] == RetentionName(b)[0] && |RetentionName(a)| == |RetentionName(b)|;
  }

  lemma NamesDiffer(a: RunStatus, b: RunStatus)
    requires a.Name() == b.Name()
    ensures a == b
  {
    assert a.Name()[0] == b.Name()[0] && |a.Name()| == |b.Name()|;
  }

  lemma OutcomesDiffer(a: MissionStatus, b: MissionStatus)
    requires OutcomeName(a) == OutcomeName(b)
    ensures a == b
  {
    assert OutcomeName(a)[0] == OutcomeName(b)[0] && |OutcomeName(a)| == |OutcomeName(b)|;
  }

  lemma TwoNumbers(a: int, x: int, b: int, y: int)
    requires Int(a) + ":" + Int(x) == Int(b) + ":" + Int(y)
    ensures a == b && x == y
  {
    IntHasNoColon(a);
    IntHasNoColon(b);
    SplitFirst(Int(a), Int(x), Int(b), Int(y), ':');
    IntInjective(a, b);
    IntInjective(x, y);
  }

  lemma Middle(a: int, m: string, x: int, b: int, n: string, y: int)
    requires ':' !in m && ':' !in n
    requires Int(a) + ":" + m + ":" + Int(x) == Int(b) + ":" + n + ":" + Int(y)
    ensures a == b && m == n && x == y
  {
    IntHasNoColon(x);
    IntHasNoColon(y);
    SplitLast(Int(a) + ":" + m, Int(x), Int(b) + ":" + n, Int(y), ':');
    SplitLast(Int(a), m, Int(b), n, ':');
    IntInjective(a, b);
    IntInjective(x, y);
  }
}
