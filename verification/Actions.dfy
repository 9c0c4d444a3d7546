/** The action space: a total normaliser from host or model JSON to typed actions. */
module Actions {
  import opened Wrappers
  import opened Text
  import opened Vocabulary

  /** A JSON field: a plain object carries its serialised length, None when it has none. */
  datatype Js = Missing | Str(s: string) | Num(n: real) | NotFinite | Plain(tag: nat, size: Option<nat>) | OtherJs

  datatype Raw = NotObject | Object(fields: map<string, Js>)

  datatype Action =
    | Say(text: string, replyTo: Option<int>)
    | Perform(goal: string, taskId: Option<string>)
    | Question(question: string, replyTo: Option<int>)
    | Pause(reason: string, waitSec: Option<real>)
    | Look(target: string, args: Option<Js>)
    | Note(fact: string)
    | Amend(debtId: int, resolution: string)
    | Halt(why: string)
  {
    function Kind(): ActionKind {
      match this
      case Say(_, _) => Speak
      case Perform(_, _) => Act
      case Question(_, _) => Ask
      case Pause(_, _) => Wait
      case Look(_, _) => Observe
      case Note(_) => Remember
      case Amend(_, _) => Correct
      case Halt(_) => Stop
    }

    /** The text the normaliser trims and, except for messages, clips. */
    function Words(): string {
      match this
      case Say(text, _) => text
      case Perform(goal, _) => goal
      case Question(question, _) => question
      case Pause(reason, _) => reason
      case Look(target, _) => target
      case Note(fact) => fact
      case Amend(_, resolution) => resolution
      case Halt(why) => why
    }
  }

  function Field(raw: Raw, name: string): Js {
    if raw.Object? && name in raw.fields then raw.fields[name] else Missing
  }

  /** A string field trimmed, anything else as empty. */
  function TrimmedField(raw: Raw, name: string): string {
    if Field(raw, name).Str? then Trim(Field(raw, name).s) else ""
  }

  function WordsOf(raw: Raw): string {
    if Field(raw, "text").Str? then Trim(Field(raw, "text").s) else TrimmedField(raw, "question")
  }

  predicate PositiveInteger(js: Js) {
    js.Num? && js.n.Floor as real == js.n && js.n > 0.0
  }

  function OptInt(js: Js): Option<int>
    requires js.Missing? || js.Num?
  {
    if js.Missing? then None else Some(js.n.Floor)
  }

  function ValidateMessage(raw: Raw, kind: ActionKind): Result<Action> {
    var words, reply := WordsOf(raw), Field(raw, "replyToMessageId");
    if words == "" then Err("empty_text")
    else if |words| > 4000 then Err("text_too_long")
    else if !reply.Missing? && !PositiveInteger(reply) then Err("bad_reply_to")
    else Ok(if kind == Speak then Say(words, OptInt(reply)) else Question(words, OptInt(reply)))
  }

  function ValidateWait(raw: Raw): Result<Action> {
    var reason, sec := TrimmedField(raw, "reason"), Field(raw, "waitSec");
    if reason == "" then Err("wait:empty_reason")
    else if !sec.Missing? && !(sec.Num? && 0.0 <= sec.n <= 86400.0) then Err("wait:bad_wait_sec")
    else Ok(Pause(Clip(reason, 500), if sec.Missing? then None else Some(sec.n)))
  }

  function ValidateObserve(raw: Raw): Result<Action> {
    var target, args := TrimmedField(raw, "target"), Field(raw, "args");
    if target == "" then Err("observe:empty_target")
    else if !args.Missing? && !args.Plain? then Err("observe:bad_args")
    else if args.Plain? && args.size.None? then Err("observe:args_not_serializable")
    else if args.Plain? && args.size.value > 4000 then Err("observe:args_too_large")
    else Ok(Look(Clip(target, 500), if args.Plain? then Some(args) else None))
  }

  /** `validateAgencyAction`. */
  function Validate(raw: Raw): Result<Action> {
    if raw.NotObject? then Err("not_object")
    else
      var kind := Field(raw, "type");
      if kind == Str("speak") then ValidateMessage(raw, Speak)
      else if kind == Str("ask") then ValidateMessage(raw, Ask)
      else if kind == Str("act") then
        var goal := TrimmedField(raw, "goal");
        var task := Field(raw, "taskId");
        if goal == "" then Err("act:empty_goal")
        else Ok(Perform(Clip(goal, 2000), if task.Str? then Some(task.s) else None))
      else if kind == Str("wait") then ValidateWait(raw)
      else if kind == Str("observe") then ValidateObserve(raw)
      else if kind == Str("remember") then
        var fact := TrimmedField(raw, "fact");
        if fact == "" then Err("remember:empty_fact") else Ok(Note(Clip(fact, 1000)))
      else if kind == Str("correct") then
        var debt, resolution := Field(raw, "debtId"), TrimmedField(raw, "resolution");
        if !PositiveInteger(debt) then Err("correct:bad_debt_id")
        else if resolution == "" then Err("correct:empty_resolution")
        else Ok(Amend(debt.n.Floor, Clip(resolution, 400)))
      else if kind == Str("stop") then
        var reason := TrimmedField(raw, "reason");
        if reason == "" then Err("stop:empty_reason") else Ok(Halt(Clip(reason, 500)))
      else Err("unknown_type")
  }

  function OptField(name: string, value: Option<Js>): map<string, Js> {
    if value.Some? then map[name := value.value] else map[]
  }

  function OptNum(value: Option<int>): Option<Js> {
    if value.Some? then Some(Num(value.value as real)) else None
  }

  /** The JSON of a typed action, as it is persisted and read back. */
  function AsRaw(a: Action): Raw {
    match a
    case Say(text, reply) => Object(map["type" := Str("speak"), "text" := Str(text)] + OptField("replyToMessageId", OptNum(reply)))
    case Perform(goal, task) =>
      Object(map["type" := Str("act"), "goal" := Str(goal)] + OptField("taskId", if task.Some? then Some(Str(task.value)) else None))
    case Question(question, reply) =>
      Object(map["type" := Str("ask"), "question" := Str(question)] + OptField("replyToMessageId", OptNum(reply)))
    case Pause(reason, sec) =>
      Object(map["type" := Str("wait"), "reason" := Str(reason)] + OptField("waitSec", if sec.Some? then Some(Num(sec.value)) else None))
    case Look(target, args) => Object(map["type" := Str("observe"), "target" := Str(target)] + OptField("args", args))
    case Note(fact) => Object(map["type" := Str("remember"), "fact" := Str(fact)])
    case Amend(debt, resolution) =>
      Object(map["type" := Str("correct"), "debtId" := Num(debt as real), "resolution" := Str(resolution)])
    case Halt(why) => Object(map["type" := Str("stop"), "reason" := Str(why)])
  }

  /** What every accepted action satisfies. */
  predicate Accepted(a: Action) {
    && a.Words() != "" && !Blank(a.Words()[0])
    && match a
       case Say(text, reply) => Tight(text) && |text| <= 4000 && (reply.Some? ==> reply.value > 0)
       case Question(question, reply) => Tight(question) && |question| <= 4000 && (reply.Some? ==> reply.value > 0)
       case Perform(goal, _) => |goal| <= 2000
       case Pause(reason, sec) => |reason| <= 500 && (sec.Some? ==> 0.0 <= sec.value <= 86400.0)
       case Look(target, args) => |target| <= 500 &&
         (args.Some? ==> args.value.Plain? && args.value.size.Some? && args.value.size.value <= 4000)
       case Note(fact) => |fact| <= 1000
       case Amend(debt, resolution) => debt > 0 && |resolution| <= 400
       case Halt(why) => |why| <= 500
  }

  /** The action with its words replaced. */
  function WithWords(a: Action, w: string): Action {
    match a
    case Say(_, reply) => Say(w, reply)
    case Perform(_, task) => Perform(w, task)
    case Question(_, reply) => Question(w, reply)
    case Pause(_, sec) => Pause(w, sec)
    case Look(_, args) => Look(w, args)
    case Note(_) => Note(w)
    case Amend(debt, _) => Amend(debt, w)
    case Halt(_) => Halt(w)
  }

  lemma ClippedIsFine(s: string, n: nat)
    requires Trim(s) != "" && n > 0
    ensures Clip(Trim(s), n) != "" && !Blank(Clip(Trim(s), n)[0]) && |Clip(Trim(s), n)| <= n
  {
    TrimIs(s);
  }

  lemma ValidatedIsAccepted(raw: Raw)
    requires Validate(raw).Ok?
    ensures Accepted(Validate(raw).value)
  {
    var kind := Field(raw, "type");
    if kind == Str("speak") || kind == Str("ask") {
      TrimIs(if Field(raw, "text").Str? then Field(raw, "text").s else Field(raw, "question").s);
    } else if kind == Str("act") {
      ClippedIsFine(Field(raw, "goal").s, 2000);
    } else if kind == Str("observe") {
      ClippedIsFine(Field(raw, "target").s, 500);
    } else if kind == Str("remember") {
      ClippedIsFine(Field(raw, "fact").s, 1000);
    } else if kind == Str("correct") {
      ClippedIsFine(Field(raw, "resolution").s, 400);
    } else {
      ClippedIsFine(Field(raw, "reason").s, 500);
    }
  }

  /** A text cut off at a length. */
  predicate CutOff(full: string, kept: string, max: nat) {
    kept <= full && |kept| <= max && (kept == full || |kept| == max)
  }

  predicate SameNumber(js: Js, value: Option<int>) {
    (value.None? <==> js.Missing?) && (value.Some? ==> js == Num(value.value as real))
  }

  /**
   * A normalised action is of the type the JSON names and holds what its fields say: a message the
   * trimmed text (of a question only when no text is given), the others their own field cut off.
   */
  lemma ValidatedCarries(raw: Raw)
    requires Validate(raw).Ok?
    ensures var a := Validate(raw).value;
            match a
            case Say(text, reply) => Field(raw, "type") == Str("speak") && Worded(raw, text) && SameNumber(Field(raw, "replyToMessageId"), reply)
            case Question(text, reply) => Field(raw, "type") == Str("ask") && Worded(raw, text) && SameNumber(Field(raw, "replyToMessageId"), reply)
            case Perform(goal, task) =>
              && Field(raw, "type") == Str("act") && Field(raw, "goal").Str? && CutOff(Trim(Field(raw, "goal").s), goal, 2000)
              && (task.Some? ==> Field(raw, "taskId") == Str(task.value)) && (task.None? ==> !Field(raw, "taskId").Str?)
            case Pause(reason, sec) =>
              && Field(raw, "type") == Str("wait") && Field(raw, "reason").Str? && CutOff(Trim(Field(raw, "reason").s), reason, 500)
              && Field(raw, "waitSec") == (if sec.Some? then Num(sec.value) else Missing)
            case Look(target, args) =>
              && Field(raw, "type") == Str("observe") && Field(raw, "target").Str? && CutOff(Trim(Field(raw, "target").s), target, 500)
              && Field(raw, "args") == (if args.Some? then args.value else Missing)
            case Note(fact) => Field(raw, "type") == Str("remember") && Field(raw, "fact").Str? && CutOff(Trim(Field(raw, "fact").s), fact, 1000)
            case Amend(debt, resolution) =>
              && Field(raw, "type") == Str("correct") && Field(raw, "resolution").Str?
              && Field(raw, "debtId") == Num(debt as real) && CutOff(Trim(Field(raw, "resolution").s), resolution, 400)
            case Halt(why) => Field(raw, "type") == Str("stop") && Field(raw, "reason").Str? && CutOff(Trim(Field(raw, "reason").s), why, 500)
  {
  }

  predicate Worded(raw: Raw, text: string) {
    text != "" && if Field(raw, "text").Str? then text == Trim(Field(raw, "text").s)
                  else Field(raw, "question").Str? && text == Trim(Field(raw, "question").s)
  }

  /** Trimming an accepted text can only drop trailing blanks, and fits whatever it fitted before. */
  lemma AcceptedWords(w: string, n: nat)
    requires w != "" && !Blank(w[0]) && |w| <= n
    ensures Trim(w) != "" && Tight(Trim(w)) && Clip(Trim(w), n) == Trim(w) && |Trim(w)| <= n
    ensures Trim(w) == w <==> Tight(w)
  {
    TrimIs(w);
    TrimRightIs(w);
  }

  lemma MessageReadsBack(a: Action)
    requires Accepted(a) && (a.Say? || a.Question?)
    ensures Validate(AsRaw(a)) == Ok(a)
  {
    var raw := AsRaw(a);
    TrimIs(a.Words());
    assert WordsOf(raw) == a.Words();
  }

  lemma WorkReadsBack(a: Action)
    requires Accepted(a) && (a.Perform? || a.Pause?)
    ensures Validate(AsRaw(a)) == Ok(WithWords(a, Trim(a.Words())))
  {
    AcceptedWords(a.Words(), if a.Perform? then 2000 else 500);
    assert Field(AsRaw(a), if a.Perform? then "goal" else "reason") == Str(a.Words());
  }

  lemma LookReadsBack(a: Action)
    requires Accepted(a) && a.Look?
    ensures Validate(AsRaw(a)) == Ok(WithWords(a, Trim(a.Words())))
  {
    AcceptedWords(a.Words(), 500);
    assert Field(AsRaw(a), "target") == Str(a.Words());
  }

  lemma RecordReadsBack(a: Action)
    requires Accepted(a) && (a.Note? || a.Amend? || a.Halt?)
    ensures Validate(AsRaw(a)) == Ok(WithWords(a, Trim(a.Words())))
  {
    AcceptedWords(a.Words(), if a.Note? then 1000 else if a.Amend? then 400 else 500);
  }

  lemma AcceptedReadsBack(a: Action)
    requires Accepted(a)
    ensures Validate(AsRaw(a)) == Ok(WithWords(a, Trim(a.Words())))
  {
    TrimIs(a.Words());
    match a
    case Say(_, _) => MessageReadsBack(a);
    case Question(_, _) => MessageReadsBack(a);
    case Perform(_, _) => WorkReadsBack(a);
    case Pause(_, _) => WorkReadsBack(a);
    case Look(_, _) => LookReadsBack(a);
    case Note(_) => RecordReadsBack(a);
    case Amend(_, _) => RecordReadsBack(a);
    case Halt(_) => RecordReadsBack(a);
  }

  lemma TrimmedIsAccepted(a: Action)
    requires Accepted(a)
    ensures var b := WithWords(a, Trim(a.Words()));
            && Accepted(b) && Tight(b.Words()) && b.Kind() == a.Kind()
            && (b == a <==> Tight(a.Words()))
  {
    AcceptedWords(a.Words(), |a.Words()|);
  }

  /**
   * A normalised action validates again, with the same kind; the second normalisation is a
   * fixed point, and already the first is exactly when clipping left no trailing blank.
   */
  lemma NormalisingTwice(raw: Raw)
    requires Validate(raw).Ok?
    ensures var once := Validate(raw).value;
            && Validate(AsRaw(once)).Ok?
            && var twice := Validate(AsRaw(once)).value;
            && twice.Kind() == once.Kind()
            && Validate(AsRaw(twice)) == Ok(twice)
            && (twice == once <==> Tight(once.Words()))
  {
    ValidatedIsAccepted(raw);
    var once := Validate(raw).value;
    AcceptedReadsBack(once);
    TrimmedIsAccepted(once);
    var twice := WithWords(once, Trim(once.Words()));
    TrimIs(twice.Words());
    AcceptedReadsBack(twice);
    assert WithWords(twice, twice.Words()) == twice;
  }
}
