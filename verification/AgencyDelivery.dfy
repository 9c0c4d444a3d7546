/** The budget counters of one execution and the delivery adapter that spends from them. */
module AgencyDelivery {
  import opened Wrappers
  import opened Text
  import opened Vocabulary
  import opened Actions
  import opened Envelopes
  import opened AgencyTables

  class AgencyUsage {
    const budget: Budget
    var llmCalls: nat
    var toolCalls: nat

    /** No more calls than the budget grants. */
    ghost predicate Valid()
      reads this
    {
      && (llmCalls > 0 ==> llmCalls <= budget.maxLlm)
      && (toolCalls > 0 ==> toolCalls <= budget.maxTool)
    }

    constructor (budget: Budget)
      ensures Valid() && this.budget == budget && llmCalls == toolCalls == 0
    {
      this.budget, llmCalls, toolCalls := budget, 0, 0;
    }

    method ConsumeLlmCall() returns (r: Result<nat>)
      requires Valid()
      modifies `llmCalls
      ensures Valid()
      ensures r.Ok? <==> old(llmCalls) < budget.maxLlm
      ensures llmCalls == if r.Ok? then old(llmCalls) + 1 else old(llmCalls)
      ensures r.Ok? ==> r.value == llmCalls
    {
      if llmCalls >= budget.maxLlm {
        return Err("agency LLM budget exceeded");
      }
      llmCalls := llmCalls + 1;
      return Ok(llmCalls);
    }

    method ConsumeToolCall() returns (r: Result<nat>)
      requires Valid()
      modifies `toolCalls
      ensures Valid()
      ensures r.Ok? <==> old(toolCalls) < budget.maxTool
      ensures toolCalls == if r.Ok? then old(toolCalls) + 1 else old(toolCalls)
      ensures r.Ok? ==> r.value == toolCalls
    {
      if toolCalls >= budget.maxTool {
        return Err("agency tool budget exceeded");
      }
      toolCalls := toolCalls + 1;
      return Ok(toolCalls);
    }
  }

  /** One call of the transport. */
  datatype Message = Message(chat: int, text: string, replyTo: Option<int>)

  predicate Speaks(a: Action, kind: ActionKind) {
    a.Kind() == kind && (a.Say? || a.Question?)
  }

  /**
   * The adapter up to its transport call: the transport is reached exactly when the action is of
   * the expected kind, the chat is scoped, the run is not cancelled and a tool call is left,
   * and that call is spent before the transport is.
   */
  method BeginDelivery(kind: ActionKind, action: Action, scope: Scope, aborted: bool, usage: AgencyUsage)
    returns (r: Result<Message>)
    requires usage.Valid()
    modifies usage`toolCalls
    ensures usage.Valid()
    ensures r.Ok? <==>
      && Validate(AsRaw(action)).Ok? && Speaks(Validate(AsRaw(action)).value, kind)
      && Scoped(scope) && SafeInt(scope.chatId.value) && !aborted && old(usage.toolCalls) < usage.budget.maxTool
    ensures usage.toolCalls == if r.Ok? then old(usage.toolCalls) + 1 else old(usage.toolCalls)
    ensures r.Ok? ==>
      var checked := Validate(AsRaw(action)).value;
      r.value == Message(scope.chatId.value, checked.Words(), checked.replyTo)
  {
    var checked := Validate(AsRaw(action));
    if checked.Err? || !Speaks(checked.value, kind) {
      return Err("delivery adapter action mismatch");
    }
    if scope.visibility.Global? || scope.chatId.None? || !SafeInt(scope.chatId.value) || scope.chatId.value == 0 {
      return Err("delivery requires a scoped chat");
    }
    if aborted {
      return Err("agency run cancelled");
    }
    var spent := usage.ConsumeToolCall();
    if spent.Err? {
      return Err(spent.reason);
    }
    return Ok(Message(scope.chatId.value, checked.value.Words(), checked.value.replyTo));
  }

  /** The rest of the adapter: only a transport answer with a usable message id counts as delivered. */
  method EndDelivery(answer: Json) returns (r: Result<Json>)
    ensures r.Ok? <==> ResultMessageId(answer).Some?
    ensures r.Ok? ==> ResultMessageId(r.value) == ResultMessageId(answer)
  {
    if !answer.JMessage? || answer.messageId <= 0 || answer.messageId > MAX_SAFE {
      return Err("invalid delivery receipt");
    }
    return Ok(JMessage(answer.messageId));
  }
}
