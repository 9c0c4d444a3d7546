/** Host-owned action envelopes: built by one validator, admitted to the run table by another. */
module Envelopes {
  import opened Wrappers
  import opened Text
  import opened Vocabulary
  import opened Actions

  datatype Risk = Read | Reversible | Irreversible

  function RiskOf(kind: ActionKind): Risk {
    match kind
    case Observe => Read
    case Act => Irreversible
    case Stop => Irreversible
    case _ => Reversible
  }

  datatype Budget = Budget(maxMs: int, maxLlm: int, maxTool: int)

  datatype PartialBudget = PartialBudget(maxMs: Option<int>, maxLlm: Option<int>, maxTool: Option<int>)

  const DEFAULT_BUDGET := Budget(30_000, 1, 4)

  datatype Envelope = Envelope(
    id: string, correlation: string, causation: Option<string>, scope: Scope, action: Raw, risk: Risk,
    budget: Budget, expected: Option<string>, key: string, createdAt: int, expiresAt: Option<int>)

  datatype Request = Request(
    action: Raw, scope: Scope, key: string, correlation: Option<string>, causation: Option<string>,
    expected: Option<string>, budget: PartialBudget, expiresAt: Option<int>)

  function OrElse(value: Option<int>, fallback: int): int {
    if value.Some? then value.value else fallback
  }

  function NormalizeBudget(input: PartialBudget): Option<Budget> {
    var b := Budget(OrElse(input.maxMs, DEFAULT_BUDGET.maxMs), OrElse(input.maxLlm, DEFAULT_BUDGET.maxLlm),
                    OrElse(input.maxTool, DEFAULT_BUDGET.maxTool));
    if 100 <= b.maxMs <= 600_000 && 0 <= b.maxLlm <= 100 && 0 <= b.maxTool <= 100 then Some(b) else None
  }

  function Whole(b: Budget): PartialBudget {
    PartialBudget(Some(b.maxMs), Some(b.maxLlm), Some(b.maxTool))
  }

  /** `boundedText`. */
  function BoundedText(value: Option<string>, max: nat): Option<string> {
    if value.None? || Trim(value.value) == "" then None else Some(Clip(Trim(value.value), max))
  }

  predicate Scoped(scope: Scope) {
    !scope.visibility.Global? && scope.chatId.Some? && scope.chatId.value != 0
  }

  predicate GoodExpiry(expiresAt: Option<int>, createdAt: int) {
    expiresAt.Some? ==> SafeInt(expiresAt.value) && expiresAt.value > createdAt
  }

  /** `createAgencyEnvelope`; `id` is the drawn UUID, `now` the clock. */
  function CreateEnvelope(input: Request, id: string, now: int): Result<Envelope> {
    var action := Validate(input.action);
    var key := Trim(input.key);
    var budget := NormalizeBudget(input.budget);
    if action.Err? then Err(action.reason)
    else if !Scoped(input.scope) then Err("scoped_chat_required")
    else if ScopeKey(input.scope).Err? then Err(ScopeKey(input.scope).reason)
    else if key == "" || |key| > 240 then Err("invalid_idempotency_key")
    else if budget.None? then Err("invalid_budget")
    else if !GoodExpiry(input.expiresAt, now) then Err("invalid_expiry")
    else
      var correlation := BoundedText(input.correlation, 240);
      Ok(Envelope(id, if correlation.Some? then correlation.value else "agency:" + id,
                  BoundedText(input.causation, 240), input.scope, AsRaw(action.value), RiskOf(action.value.Kind()),
                  budget.value, BoundedText(input.expected, 500), key, now, input.expiresAt))
  }

  /** `validatePersistedEnvelope`: the reason to refuse an envelope, if any. */
  function PersistError(e: Envelope): Option<string> {
    var action := Validate(e.action);
    if Trim(e.id) == "" || |e.id| > 240 then Some("invalid_envelope_id")
    else if Trim(e.correlation) == "" || |e.correlation| > 240 then Some("invalid_correlation_id")
    else if action.Err? then Some(action.reason)
    else if !Scoped(e.scope) then Some("scoped_chat_required")
    else if ScopeKey(e.scope).Err? then Some(ScopeKey(e.scope).reason)
    else if e.risk != RiskOf(action.value.Kind()) then Some("risk_mismatch")
    else if Trim(e.key) == "" || |e.key| > 240 then Some("invalid_idempotency_key")
    else if !SafeInt(e.createdAt) || e.createdAt <= 0 then Some("invalid_created_at")
    else if !GoodExpiry(e.expiresAt, e.createdAt) then Some("invalid_expiry")
    else if NormalizeBudget(Whole(e.budget)).None? then Some("invalid_budget")
    else None
  }

  /** The shape of a drawn UUID. */
  predicate Uuid(id: string) {
    |id| == 36 && Tight(id)
  }

  /** The action a stored row reads back as: unreadable JSON falls back to a harmless observation. */
  function StoredAction(e: Envelope): Action {
    var action := Validate(e.action);
    if action.Ok? then action.value else Look("invalid persisted action", None)
  }

  // ---- what the builder makes of a request ----

  /** The requests the builder accepts. */
  ghost predicate Buildable(input: Request, now: int) {
    && Validate(input.action).Ok?
    && input.scope.visibility != Global && input.scope.chatId.Some? && input.scope.chatId.value != 0 && ScopeKey(input.scope).Ok?
    && 1 <= |Trim(input.key)| <= 240
    && (input.budget.maxMs.Some? ==> 100 <= input.budget.maxMs.value <= 600_000)
    && (input.budget.maxLlm.Some? ==> 0 <= input.budget.maxLlm.value <= 100)
    && (input.budget.maxTool.Some? ==> 0 <= input.budget.maxTool.value <= 100)
    && (input.expiresAt.Some? ==> SafeInt(input.expiresAt.value) && input.expiresAt.value > now)
  }

  /** A text kept: trimmed and cut off at a length, and none at all when nothing is left. */
  ghost predicate KeptText(given: Option<string>, kept: Option<string>, max: nat) {
    && (kept.None? <==> given.None? || Trim(given.value) == "")
    && (kept.Some? ==>
          kept.value <= Trim(given.value) && (|kept.value| == max || kept.value == Trim(given.value)) && |kept.value| <= max)
  }

  predicate KeptNumber(given: Option<int>, kept: int, fallback: int) {
    if given.Some? then kept == given.value else kept == fallback
  }

  lemma BoundedTextKeeps(value: Option<string>, max: nat)
    ensures KeptText(value, BoundedText(value, max), max)
  {
  }

  /**
   * The builder accepts exactly the buildable requests, and its envelope carries what was asked
   * for: the scope, the key, the expiry, every part of the budget that was given, the texts.
   */
  lemma BuiltAsAsked(input: Request, id: string, now: int)
    ensures CreateEnvelope(input, id, now).Ok? <==> Buildable(input, now)
    ensures CreateEnvelope(input, id, now).Ok? ==>
      var e := CreateEnvelope(input, id, now).value;
      && e.id == id && e.createdAt == now && e.scope == input.scope && e.key == Trim(input.key) && e.expiresAt == input.expiresAt
      && KeptNumber(input.budget.maxMs, e.budget.maxMs, 30_000)
      && KeptNumber(input.budget.maxLlm, e.budget.maxLlm, 1) && KeptNumber(input.budget.maxTool, e.budget.maxTool, 4)
      && KeptText(input.causation, e.causation, 240) && KeptText(input.expected, e.expected, 500)
      && (if input.correlation.Some? && Trim(input.correlation.value) != "" then KeptText(input.correlation, Some(e.correlation), 240)
          else e.correlation == "agency:" + id)
  {
    BoundedTextKeeps(input.causation, 240);
    BoundedTextKeeps(input.expected, 500);
    BoundedTextKeeps(input.correlation, 240);
  }

  /** The stored action is the one that was asked for: a message word for word, any other up to trailing blanks of a clipped text. */
  lemma BuiltActionIsAsked(input: Request, id: string, now: int)
    requires CreateEnvelope(input, id, now).Ok?
    ensures var (a, stored) := (Validate(input.action).value, StoredAction(CreateEnvelope(input, id, now).value));
            && stored.Kind() == a.Kind() && stored.Words() == Trim(a.Words()) && WithWords(a, stored.Words()) == stored
            && (a.Say? || a.Question? ==> stored == a)
  {
    ValidatedIsAccepted(input.action);
    var a := Validate(input.action).value;
    AcceptedReadsBack(a);
    TrimmedIsAccepted(a);
    TrimIs(a.Words());
    assert WithWords(a, a.Words()) == a;
  }

  /** Observing only reads, acting and stopping cannot be undone, everything else can. */
  predicate FittingRisk(risk: Risk, kind: ActionKind) {
    risk == if kind == Observe then Read else if kind == Act || kind == Stop then Irreversible else Reversible
  }

  /** The envelopes the run table admits. */
  predicate Admissible(e: Envelope) {
    && Trim(e.id) != "" && |e.id| <= 240 && Trim(e.correlation) != "" && |e.correlation| <= 240
    && Trim(e.key) != "" && |e.key| <= 240
    && Validate(e.action).Ok? && FittingRisk(e.risk, Validate(e.action).value.Kind())
    && e.scope.visibility != Global && e.scope.chatId.Some? && e.scope.chatId.value != 0 && ScopeKey(e.scope).Ok?
    && SafeInt(e.createdAt) && e.createdAt > 0
    && (e.expiresAt.Some? ==> SafeInt(e.expiresAt.value) && e.expiresAt.value > e.createdAt)
    && 100 <= e.budget.maxMs <= 600_000 && 0 <= e.budget.maxLlm <= 100 && 0 <= e.budget.maxTool <= 100
  }

  lemma AdmittedIff(e: Envelope)
    ensures PersistError(e).None? <==> Admissible(e)
  {
  }

  lemma CorrelationFine(value: Option<string>, id: string)
    requires Uuid(id)
    ensures var c := BoundedText(value, 240);
            var correlation := if c.Some? then c.value else "agency:" + id;
            Trim(correlation) != "" && |correlation| <= 240
  {
    var c := BoundedText(value, 240);
    if c.Some? {
      TrimIs(value.value);
      ClippedText(Trim(value.value), 240);
    } else {
      TrimIs("agency:" + id);
    }
  }

  /**
   * Every envelope the builder returns is admitted by the validator in front of the run table,
   * and the row reads back with the kind and the risk the builder saw.
   */
  lemma BuiltEnvelopesAdmitted(input: Request, id: string, now: int)
    requires Uuid(id) && SafeInt(now) && now > 0
    requires CreateEnvelope(input, id, now).Ok?
    ensures var e := CreateEnvelope(input, id, now).value;
            && PersistError(e) == None
            && StoredAction(e).Kind() == Validate(input.action).value.Kind()
            && FittingRisk(e.risk, StoredAction(e).Kind())
  {
    NormalisingTwice(input.action);
    TrimIs(id);
    TrimIs(input.key);
    TrimIs(Trim(input.key));
    CorrelationFine(input.correlation, id);
  }
}

/** The rollout gate in front of every production dispatch. */
module Policy {
  import opened Wrappers
  import opened Vocabulary
  import opened Envelopes

  datatype Mode = Shadow | Advisory | Canary | Authority

  datatype Config = Config(mode: Mode, canaryChats: seq<int>, maxLlm: int, maxTool: int)

  datatype Decision = Decision(allowed: bool, deferred: bool, reason: string)

  predicate ValidScopedChat(scope: Scope) {
    Scoped(scope) && ScopeKey(scope).Ok? && SafeInt(scope.chatId.value)
  }

  const ALLOW := Decision(true, false, "")

  function Defer(reason: string): Decision {
    Decision(false, true, reason)
  }

  /** `evaluateAgencyPolicy` on a run's own scope, action kind, declared risk and budget. */
  function Evaluate(cfg: Config, scope: Scope, kind: ActionKind, declared: Risk, llm: int, tool: int): Decision {
    if declared != RiskOf(kind) then Decision(false, false, "risk_mismatch")
    else if !ValidScopedChat(scope) then Decision(false, false, "scoped_chat_required")
    else if llm < 0 || llm > cfg.maxLlm then Defer("llm_budget_exceeded")
    else if tool < 0 || tool > cfg.maxTool then Defer("tool_budget_exceeded")
    else
      match cfg.mode
      case Shadow => Defer("shadow_only")
      case Advisory => if declared == Read then ALLOW else Defer("advisory_read_only")
      case Canary =>
        if scope.chatId.value !in cfg.canaryChats then Defer("canary_chat_not_allowed")
        else if declared == Irreversible then Defer("canary_irreversible_blocked")
        else ALLOW
      case Authority => ALLOW
  }

  /**
   * What the rollout lets through, said of the action itself: a declared risk that fits its kind, a
   * valid chat, a budget within the caps; in advisory mode observations alone, in canary mode
   * only listed chats and nothing irreversible, in shadow mode nothing.
   */
  predicate Permits(g: Config, e: Envelope, kind: ActionKind) {
    && FittingRisk(e.risk, kind)
    && e.scope.visibility != Global && e.scope.chatId.Some? && e.scope.chatId.value != 0 && SafeInt(e.scope.chatId.value)
    && ScopeKey(e.scope).Ok?
    && 0 <= e.budget.maxLlm <= g.maxLlm && 0 <= e.budget.maxTool <= g.maxTool
    && g.mode != Shadow
    && (g.mode == Advisory ==> kind == Observe)
    && (g.mode == Canary ==> e.scope.chatId.value in g.canaryChats && kind != Act && kind != Stop)
  }

  /** The gate allows exactly what the rollout permits, and says why whenever it does not. */
  lemma AllowedIff(g: Config, e: Envelope, kind: ActionKind)
    ensures var d := Evaluate(g, e.scope, kind, e.risk, e.budget.maxLlm, e.budget.maxTool);
            (d.allowed <==> Permits(g, e, kind)) && (d.allowed <==> d.reason == "")
  {
  }

  /** Authority is the widest mode: whatever another mode allows, authority allows under the same caps. */
  lemma AuthorityIsWidest(cfg: Config, scope: Scope, kind: ActionKind, declared: Risk, llm: int, tool: int)
    requires Evaluate(cfg, scope, kind, declared, llm, tool).allowed
    ensures Evaluate(cfg.(mode := Authority), scope, kind, declared, llm, tool).allowed
    ensures cfg.mode != Shadow && (kind in {Act, Stop} ==> cfg.mode == Authority)
  {
  }
}
