/**
 * The coordinator agent's deterministic parts: reading the routing decision out of the
 * language model's reply, the fallback decision, and the history it shows the model.
 */
module CoordinatorAgent {
  import opened Wrappers
  import opened Text
  import opened Json
  import opened State

  /** A routing decision: where to go next, the task, whether to ask the user, and a reply. */
  datatype Decision = Decision(
    nextAgent: string,
    currentTask: Option<string>,
    requiresHumanInput: bool,
    response: Option<string>)

  /** The agents a decision may name. */
  const RoutableAgents: set<string> := {CourseAdvisor, LearningPlanner, HumanInput, End}

  /**
   * `_parse_decision`: decode the object in the reply, require `next_agent` and
   * `current_task`, replace an unknown agent by "human_input" (which then asks the user),
   * and default `requires_human_input` to false and `response` to null.
   */
  function ParseDecision(response: string, decode: Decoder): (r: Result<Decision, ParseError>)
    ensures r == Err(Undecodable(NoJsonFound)) <==> '{' !in response || '}' !in response
    ensures r.Ok? ==> r.value.nextAgent in RoutableAgents
    ensures DecodeObject(response, decode).Err? <==> r.Err? && r.error.Undecodable?
    ensures DecodeObject(response, decode).Ok? ==>
      var fields := DecodeObject(response, decode).value;
      && (r == Err(MissingField("next_agent")) <==> "next_agent" !in fields)
      && (r == Err(MissingField("current_task")) <==> "next_agent" in fields && "current_task" !in fields)
      && (r.Ok? ==>
            && r.value.currentTask == AsOptionalString(fields["current_task"])
            && r.value.response == (if "response" in fields then AsOptionalString(fields["response"]) else None)
            && (fields["next_agent"].JStr? && fields["next_agent"].s in RoutableAgents ==>
                  r.value.nextAgent == fields["next_agent"].s &&
                  r.value.requiresHumanInput == ("requires_human_input" in fields && Truthy(fields["requires_human_input"])))
            && (!(fields["next_agent"].JStr? && fields["next_agent"].s in RoutableAgents) ==>
                  r.value.nextAgent == HumanInput && r.value.requiresHumanInput))
  {
    match DecodeObject(response, decode)
    case Err(e) => Err(Undecodable(e))
    case Ok(fields) =>
      if "next_agent" !in fields then Err(MissingField("next_agent"))
      else if "current_task" !in fields then Err(MissingField("current_task"))
      else
        var named := fields["next_agent"];
        var valid := named.JStr? && named.s in RoutableAgents;
        var flag := if valid then Lookup(fields, "requires_human_input").GetOr(JBool(false)) else JBool(true);
        Ok(Decision(
          nextAgent := if valid then named.s else HumanInput,
          currentTask := AsOptionalString(fields["current_task"]),
          requiresHumanInput := Truthy(flag),
          response := AsOptionalString(Lookup(fields, "response").GetOr(JNull))))
  }

  const ClarifyTask := "需要用户澄清"
  const ClarifyText := "抱歉，我不太确定如何帮助您。能否请您详细说明一下您的需求？"

  /** The decision used when the reply cannot be parsed: ask the user to clarify. */
  const FallbackDecision := Decision(HumanInput, Some(ClarifyTask), true, Some(ClarifyText))

  /**
   * `analyze_and_route` given the model's reply, or the type name of the exception the
   * model call raised, which propagates to the caller.
   */
  function AnalyzeAndRoute(reply: Result<string, string>, decode: Decoder): (r: Result<Decision, string>)
    ensures r.Err? <==> reply.Err?
    ensures r.Err? ==> r.error == reply.error
    ensures r.Ok? ==> r.value.nextAgent in RoutableAgents
    ensures reply.Ok? && ParseDecision(reply.value, decode).Err? ==> r == Ok(FallbackDecision)
    ensures reply.Ok? && ParseDecision(reply.value, decode).Ok? ==> r == Ok(ParseDecision(reply.value, decode).value)
  {
    match reply
    case Err(errorType) => Err(errorType)
    case Ok(text) =>
      match ParseDecision(text, decode)
      case Ok(decision) => Ok(decision)
      case Err(_) => Ok(FallbackDecision)
  }

  const NoUserInput := "（无用户输入）"

  /** `_extract_user_input`: scans the history backwards for the user's latest message. */
  method ExtractUserInput(messages: seq<Message>) returns (input: string)
    ensures input == LastUserContent(messages).GetOr(NoUserInput)
  {
    var i := |messages|;
    while i > 0
      invariant 0 <= i <= |messages|
      invariant LastUserContent(messages) == LastUserContent(messages[..i])
    {
      if messages[i - 1].role == UserRole {
        assert messages[..i][..i - 1] == messages[..i - 1];
        return messages[i - 1].content;
      }
      assert messages[..i][..i - 1] == messages[..i - 1];
      i := i - 1;
    }
    return NoUserInput;
  }

  const NoHistory := "（暂无对话历史）"

  /** The label a role is shown with; an unknown role is shown as is. */
  function RoleLabel(role: string): string
  {
    if role == UserRole then "用户"
    else if role == AssistantRole then "助手"
    else if role == SystemRole then "系统"
    else role
  }

  /** One history line: the role label, the agent in brackets when there is one, and the content. */
  function HistoryLine(m: Message): string
  {
    RoleLabel(m.role) + (if HasText(m.agent) then "[" + m.agent.value + "]" else "") + ": " + m.content
  }

  /**
   * `_format_conversation_history`: one line per message of the last `maxMessages`, oldest
   * first, joined by newlines; a placeholder for an empty history.
   */
  method FormatConversationHistory(messages: seq<Message>, maxMessages: int := 10) returns (history: string)
    ensures messages == [] ==> history == NoHistory
    ensures messages != [] ==>
      history == Join(Rendered(LastN(messages, maxMessages), (_, m) => HistoryLine(m)), "\n")
  {
    if messages == [] {
      return NoHistory;
    }
    var recent := LastN(messages, maxMessages);
    history := RenderJoin(recent, (_, m) => HistoryLine(m), "\n");
  }

  /** The formatted history has one line per shown message, at most `maxMessages` of them. */
  lemma HistoryLinesBounded(messages: seq<Message>, maxMessages: int)
    requires maxMessages > 0
    ensures var lines := Rendered(LastN(messages, maxMessages), (_, m) => HistoryLine(m));
      |lines| <= maxMessages && |lines| <= |messages| &&
      forall i :: 0 <= i < |lines| ==> lines[i] == HistoryLine(messages[|messages| - |lines| + i])
  {
  }
}
