/**
 * The error policy: each handler answers a failure with one message to the user and sets or
 * keeps the human-input flag; a corrupted state is replaced by a fresh one. An error is
 * represented by the name of its exception type.
 */
module ErrorHandler {
  import opened Wrappers
  import opened Text
  import opened State
  import opened Helpers

  /** The exception classes of the language-model client (all derive from `VLLMClientError`). */
  const LlmClientErrors: set<string> := {"VLLMClientError", "VLLMConnectionError", "VLLMAPIError", "VLLMTimeoutError"}
  /** The exception classes of the web-search client (all derive from `WebSearchError`). */
  const WebSearchErrors: set<string> := {"WebSearchError", "WebSearchConnectionError", "WebSearchAPIError"}
  /** The exception classes of the browser client (all derive from `MCPPlaywrightError`). */
  const McpErrors: set<string> := {"MCPPlaywrightError", "MCPPlaywrightConnectionError", "MCPPlaywrightNavigationError"}

  const ConnectionText := "抱歉，无法连接到 AI 服务。请检查网络连接或稍后再试。"
  const TimeoutText := "抱歉，AI 服务响应超时。请稍后再试。"
  const ApiText := "抱歉，AI 服务遇到了问题。请稍后再试。"
  const UnavailableText := "抱歉，AI 服务暂时不可用。请稍后再试。"
  const ResetText := "系统遇到了一些问题，已重置对话。请重新开始。"
  const ClarificationText := "抱歉，我不太确定如何帮助您。您是想要：\n1. 咨询课程推荐\n2. 制定学习计划\n3. 其他问题\n\n请告诉我您的需求，我会尽力帮助您。"
  const UnexpectedText := "抱歉，系统遇到了意外错误。请稍后再试或联系技术支持。"
  const ServiceDownText := "抱歉，AI 服务当前不可用。\n这可能是由于：\n1. 服务器维护\n2. 网络连接问题\n3. 服务暂时过载\n\n请稍后再试，或联系系统管理员。"

  /** The apology for a language-model failure, chosen by the exception's type name. */
  function LlmErrorText(errorType: string): (r: string)
    ensures r == ConnectionText <==> Contains(errorType, "Connection")
    ensures r == TimeoutText <==> !Contains(errorType, "Connection") && Contains(errorType, "Timeout")
    ensures r == ApiText <==> !Contains(errorType, "Connection") && !Contains(errorType, "Timeout") && Contains(errorType, "API")
    ensures r in {ConnectionText, TimeoutText, ApiText, UnavailableText}
  {
    if Contains(errorType, "Connection") then ConnectionText
    else if Contains(errorType, "Timeout") then TimeoutText
    else if Contains(errorType, "API") then ApiText
    else UnavailableText
  }

  /** The state after `handle_llm_error`. */
  function LlmErrorHandled(s: AgentState, errorType: string): AgentState
  {
    s.Say(AssistantMessage(LlmErrorText(errorType), SystemRole)).(requiresHumanInput := true)
  }

  /** `handle_llm_error`: one apology, and the user is asked for input. */
  method HandleLlmError(errorType: string, st: SharedState)
    modifies st
    ensures st.Value() == LlmErrorHandled(old(st.Value()), errorType)
  {
    st.AddMessage(AssistantRole, LlmErrorText(errorType), Some(SystemRole));
    st.requiresHumanInput := true;
  }

  /** The notice that a tool is unavailable and a fallback is used. */
  function ToolErrorText(toolName: string): string
  {
    "无法访问 " + toolName + " 工具，将使用备用方案为您服务。部分功能可能受限，但我会尽力帮助您。"
  }

  /** The notice names the failing tool. */
  lemma ToolErrorTextNamesTool(toolName: string)
    ensures Contains(ToolErrorText(toolName), toolName)
  {
    var prefix := "无法访问 ";
    assert ToolErrorText(toolName)[|prefix|..|prefix| + |toolName|] == toolName;
    OccursAtContains(ToolErrorText(toolName), toolName, |prefix|);
  }

  /** The state after `handle_tool_error`: the flags are left as they were. */
  function ToolErrorHandled(s: AgentState, toolName: string): AgentState
  {
    s.Say(AssistantMessage(ToolErrorText(toolName), SystemRole))
  }

  /** `handle_tool_error`: one notice naming the tool; the error itself is only logged. */
  method HandleToolError(toolName: string, st: SharedState)
    modifies st
    ensures st.Value() == ToolErrorHandled(old(st.Value()), toolName)
  {
    st.AddMessage(AssistantRole, ToolErrorText(toolName), Some(SystemRole));
  }

  /** The `conversation_id` entry of a corrupted state: missing, present as `None`, or a string. */
  datatype StoredId = IdMissing | IdNone | IdText(text: string)

  /**
   * The state `handle_state_error` rebuilds: a fresh conversation whose only message is the
   * reset notice. A missing identifier becomes "unknown"; one present as `None` is passed on
   * as `None`, so `create_initial_state` generates `newConversationId`; a string is kept.
   */
  function StateErrorHandled(stored: StoredId, newConversationId: string, newUserId: string): AgentState
  {
    var id := match stored
      case IdMissing => Some("unknown")
      case IdNone => None
      case IdText(text) => Some(text);
    CreateInitialState(id, None, newConversationId, newUserId).Say(AssistantMessage(ResetText, SystemRole))
  }

  /** `handle_state_error`: the corrupted state is dropped and a fresh one returned. */
  method HandleStateError(stored: StoredId, newConversationId: string, newUserId: string) returns (safe: SharedState)
    ensures fresh(safe)
    ensures safe.Value() == StateErrorHandled(stored, newConversationId, newUserId)
  {
    var id: Option<string>;
    if stored.IdMissing? {
      id := Some("unknown");
    } else if stored.IdNone? {
      id := None;
    } else {
      id := Some(stored.text);
    }
    safe := new SharedState(CreateInitialState(id, None, newConversationId, newUserId));
    safe.AddMessage(AssistantRole, ResetText, Some(SystemRole));
  }

  /** The rebuilt state keeps a stored identifier, holds only the notice, and is otherwise initial. */
  lemma StateErrorResets(stored: StoredId, newConversationId: string, newUserId: string)
    ensures var s := StateErrorHandled(stored, newConversationId, newUserId);
      && s.conversationId == (match stored
           case IdMissing => "unknown"
           case IdNone => newConversationId
           case IdText(text) => text)
      && s.messages == [AssistantMessage(ResetText, SystemRole)]
      && s.loopCount == 0 && !s.isComplete && !s.requiresHumanInput && s.nextAgent.None?
      && s.courseCandidates == [] && s.learningPlan.None?
      && (s.conversationId != "" ==> WellFormed(s))
  {
  }

  /** The state after `handle_routing_error`. */
  function RoutingErrorHandled(s: AgentState): AgentState
  {
    s.Say(AssistantMessage(ClarificationText, Coordinator)).(requiresHumanInput := true)
  }

  /** `handle_routing_error`: the coordinator asks the user what they want. */
  method HandleRoutingError(st: SharedState)
    modifies st
    ensures st.Value() == RoutingErrorHandled(old(st.Value()))
  {
    st.AddMessage(AssistantRole, ClarificationText, Some(Coordinator));
    st.requiresHumanInput := true;
  }

  /** The state after `handle_generic_error`. */
  function GenericErrorHandled(s: AgentState): AgentState
  {
    s.Say(AssistantMessage(UnexpectedText, SystemRole)).(requiresHumanInput := true)
  }

  /** `handle_generic_error`: one apology; where the error happened is only logged. */
  method HandleGenericError(st: SharedState)
    modifies st
    ensures st.Value() == GenericErrorHandled(old(st.Value()))
  {
    st.AddMessage(AssistantRole, UnexpectedText, Some(SystemRole));
    st.requiresHumanInput := true;
  }

  /** The state after `handle_vllm_service_failure`. */
  function ServiceFailureHandled(s: AgentState): AgentState
  {
    s.Say(AssistantMessage(ServiceDownText, SystemRole)).(requiresHumanInput := true)
  }

  /** `handle_vllm_service_failure`. */
  method HandleVllmServiceFailure(st: SharedState)
    modifies st
    ensures st.Value() == ServiceFailureHandled(old(st.Value()))
  {
    st.AddMessage(AssistantRole, ServiceDownText, Some(SystemRole));
    st.requiresHumanInput := true;
  }

  /** Every in-place handler appends exactly one message and keeps the rest of the history. */
  lemma HandlersAppendOneMessage(s: AgentState, errorType: string, toolName: string)
    ensures var outcomes := [LlmErrorHandled(s, errorType), ToolErrorHandled(s, toolName),
                             RoutingErrorHandled(s), GenericErrorHandled(s), ServiceFailureHandled(s)];
      forall k :: 0 <= k < |outcomes| ==>
        |outcomes[k].messages| == |s.messages| + 1 && outcomes[k].messages[..|s.messages|] == s.messages &&
        outcomes[k].messages[|s.messages|].role == AssistantRole &&
        outcomes[k].conversationId == s.conversationId && outcomes[k].loopCount == s.loopCount &&
        outcomes[k].nextAgent == s.nextAgent && outcomes[k].currentTask == s.currentTask &&
        (k != 1 ==> outcomes[k].requiresHumanInput) &&
        (k == 1 ==> outcomes[k].requiresHumanInput == s.requiresHumanInput)
  {
  }

  const RecoverablePatterns: seq<string> := ["Connection", "Timeout", "ConnectionError", "TimeoutError"]

  /** `is_recoverable_error`: the type name contains one of the recoverable patterns. */
  predicate IsRecoverableError(errorType: string)
  {
    ContainsAny(errorType, RecoverablePatterns)
  }

  /** The longer patterns add nothing: an error is recoverable iff it names a connection or a timeout. */
  lemma RecoverableIffConnectionOrTimeout(errorType: string)
    ensures IsRecoverableError(errorType) <==> Contains(errorType, "Connection") || Contains(errorType, "Timeout")
  {
    if Contains(errorType, "ConnectionError") {
      OccursAtContains("ConnectionError", "Connection", 0);
      ContainsTransitive(errorType, "ConnectionError", "Connection");
    }
    if Contains(errorType, "TimeoutError") {
      OccursAtContains("TimeoutError", "Timeout", 0);
      ContainsTransitive(errorType, "TimeoutError", "Timeout");
    }
    if Contains(errorType, "Connection") {
      assert "Connection" in RecoverablePatterns;
    }
    if Contains(errorType, "Timeout") {
      assert "Timeout" in RecoverablePatterns;
    }
  }

  /** Recoverable failures are exactly those the user is told are a connection or timeout problem. */
  lemma RecoverableMatchesApology(errorType: string)
    ensures IsRecoverableError(errorType) <==> LlmErrorText(errorType) in {ConnectionText, TimeoutText}
  {
    RecoverableIffConnectionOrTimeout(errorType);
  }

  /** `should_retry`: never once the attempts are used up, otherwise exactly for recoverable errors. */
  function ShouldRetry(errorType: string, attempt: int, maxAttempts: int := 3): (r: bool)
    ensures r ==> attempt < maxAttempts
    ensures r <==> attempt < maxAttempts && (Contains(errorType, "Connection") || Contains(errorType, "Timeout"))
  {
    RecoverableIffConnectionOrTimeout(errorType);
    if attempt >= maxAttempts then false else IsRecoverableError(errorType)
  }
}
