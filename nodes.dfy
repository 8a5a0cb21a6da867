/**
 * The graph's nodes as state transitions. Each node is a method that updates the shared
 * state step by step, as the node functions do, and is proved equal to a function of the old
 * state; the agents' work enters as the outcome of their call.
 */
module Nodes {
  import opened Wrappers
  import opened Text
  import opened State
  import opened Helpers
  import opened ConversationFlow
  import opened ErrorHandler
  import CoordinatorAgent
  import CourseAdvisorAgent
  import LearningPlannerAgent

  /**
   * How a node's agent call went: the agent was never initialised, it returned a value, or it
   * raised an exception (given by its type name).
   */
  datatype AgentCall<T> = AgentMissing | Returned(value: T) | Raised(errorType: string)

  type Decision = CoordinatorAgent.Decision
  type Recommendation = CourseAdvisorAgent.Recommendation
  type PlanResult = LearningPlannerAgent.PlanResult

  // ---------------------------------------------------------------------------------------
  // entry and end

  /** The state after `entry_node`. */
  function Entered(s: AgentState): AgentState
  {
    s.(nextAgent := Some(Coordinator), loopCount := 0)
  }

  /** `entry_node`: hand over to the coordinator with a fresh loop counter. */
  method EntryNode(st: SharedState)
    modifies st
    ensures st.Value() == Entered(old(st.Value()))
  {
    st.nextAgent := Some(Coordinator);
    st.ResetLoopCount();
  }

  const FarewellText := "感谢您的使用！如有其他问题，欢迎随时回来。"
  const GoodbyeWord := "再见"

  /** The history already ends with a goodbye. */
  predicate SaidGoodbye(messages: seq<Message>)
  {
    messages != [] && Contains(messages[|messages| - 1].content, GoodbyeWord)
  }

  /** The state after `end_node`. */
  function Ended(s: AgentState): AgentState
  {
    var closed := s.(isComplete := true, nextAgent := None);
    if SaidGoodbye(s.messages) then closed else closed.Say(AssistantMessage(FarewellText, SystemRole))
  }

  /** `end_node`: mark the conversation complete, and say farewell unless a goodbye was said. */
  method EndNode(st: SharedState)
    modifies st
    ensures st.Value() == Ended(old(st.Value()))
  {
    st.isComplete := true;
    st.nextAgent := None;
    if !SaidGoodbye(st.messages) {
      st.AddMessage(AssistantRole, FarewellText, Some(SystemRole));
    }
  }

  // ---------------------------------------------------------------------------------------
  // coordinator

  /** The coordinator node's own loop limit, independent of the graph's. */
  const CoordinatorLoopLimit := 10
  const LoopLimitText := "对话已达到最大轮次限制。如需继续，请开始新的对话。"

  /** The state after the coordinator applies a decision. */
  function Decided(s: AgentState, d: Decision): AgentState
  {
    var routed := s.(nextAgent := Some(d.nextAgent), currentTask := d.currentTask,
                     requiresHumanInput := d.requiresHumanInput);
    var answered := if HasText(d.response) then routed.Say(AssistantMessage(d.response.value, Coordinator)) else routed;
    if d.nextAgent != "" && d.nextAgent != Coordinator then Transitioned(answered, Coordinator, d.nextAgent)
    else answered
  }

  /** The state after the coordinator acts on its agent's call. */
  function Responded(s: AgentState, call: AgentCall<Decision>): AgentState
  {
    match call
    case AgentMissing => s
    case Returned(d) => Decided(s, d)
    case Raised(e) => if e in LlmClientErrors then LlmErrorHandled(s, e) else RoutingErrorHandled(s)
  }

  /** The state after a counted coordinator round within the limit: a topic move, then the agent's decision. */
  function CoordinatorRound(s: AgentState, shift: Option<TopicShift>, call: AgentCall<Decision>): AgentState
  {
    if shift == Some(PreviousTopic) then ReturnedToPrevious(s)
    else Responded(if shift == Some(NewTopic) then TopicSwitched(s) else s, call)
  }

  /** The state after the coordinator stops a conversation that ran past its limit. */
  function Stopped(s: AgentState): AgentState
  {
    s.(nextAgent := Some(End), isComplete := true).Say(AssistantMessage(LoopLimitText, SystemRole))
  }

  /** The state after a coordinator round on the already counted state `counted`. */
  function CountedRound(counted: AgentState, call: AgentCall<Decision>): AgentState
  {
    if counted.loopCount > CoordinatorLoopLimit then Stopped(counted)
    else CoordinatorRound(counted, DetectTopicSwitch(counted), call)
  }

  /** The state after `coordinator_node`. */
  function Coordinated(s: AgentState, call: AgentCall<Decision>): AgentState
  {
    if call.AgentMissing? then GenericErrorHandled(s)
    else CountedRound(s.(loopCount := s.loopCount + 1), call)
  }

  /** The part of `coordinator_node` after the round is counted: follow a topic move, or the decision. */
  method FollowRound(st: SharedState, shift: Option<TopicShift>, call: AgentCall<Decision>)
    modifies st
    ensures st.Value() == CoordinatorRound(old(st.Value()), shift, call)
  {
    if shift == Some(NewTopic) {
      HandleTopicSwitch(st, "new_topic");
    } else if shift == Some(PreviousTopic) {
      ReturnToPreviousTopic(st);
      return;
    }
    match call {
      case AgentMissing =>
      case Raised(e) =>
        if e in LlmClientErrors {
          HandleLlmError(e, st);
        } else {
          HandleRoutingError(st);
        }
      case Returned(d) =>
        st.nextAgent := Some(d.nextAgent);
        st.currentTask := d.currentTask;
        st.requiresHumanInput := d.requiresHumanInput;
        if HasText(d.response) {
          st.AddMessage(AssistantRole, d.response.value, Some(Coordinator));
        }
        if d.nextAgent != "" && d.nextAgent != Coordinator {
          MaintainContextOnTransition(st, Coordinator, d.nextAgent);
        }
    }
  }

  /**
   * `coordinator_node`: count the round, stop at the limit, follow a topic switch, and
   * apply the coordinator's decision; a failed call is handled on the state as it then is.
   */
  method CoordinatorNode(st: SharedState, call: AgentCall<Decision>)
    modifies st
    ensures st.Value() == Coordinated(old(st.Value()), call)
  {
    if call.AgentMissing? {
      HandleGenericError(st);
      return;
    }
    st.IncrementLoopCount();
    if st.loopCount > CoordinatorLoopLimit {
      st.nextAgent := Some(End);
      st.isComplete := true;
      st.AddMessage(AssistantRole, LoopLimitText, Some(SystemRole));
      return;
    }
    var shift := DetectTopicSwitch(st.Value());
    FollowRound(st, shift, call);
  }

  // ---------------------------------------------------------------------------------------
  // course advisor

  /** The tool name the advisor's tool failures are reported under. */
  const CourseSearchTool := "course_search"

  /** The state after `course_advisor_node`. */
  function Advised(s: AgentState, call: AgentCall<Recommendation>): AgentState
  {
    match call
    case AgentMissing => GenericErrorHandled(s)
    case Raised(e) =>
      if e in LlmClientErrors then LlmErrorHandled(s, e)
      else if e in McpErrors || e in WebSearchErrors then ToolErrorHandled(s, CourseSearchTool)
      else GenericErrorHandled(s)
    case Returned(r) =>
      var found := s.(courseCandidates := r.courses).Say(AssistantMessage(r.response, CourseAdvisor));
      var summarized := SubtaskSummarized(found, CourseSearch, SubtaskResult(numCourses := Some(|r.courses|)));
      Transitioned(summarized, CourseAdvisor, Coordinator).(nextAgent := Some(Coordinator))
  }

  /**
   * `course_advisor_node`: store the recommended courses, post the recommendation and a
   * summary, and hand back to the coordinator.
   */
  method CourseAdvisorNode(st: SharedState, call: AgentCall<Recommendation>)
    modifies st
    ensures st.Value() == Advised(old(st.Value()), call)
  {
    match call {
      case AgentMissing =>
        HandleGenericError(st);
      case Raised(e) =>
        if e in LlmClientErrors {
          HandleLlmError(e, st);
        } else if e in McpErrors || e in WebSearchErrors {
          HandleToolError(CourseSearchTool, st);
        } else {
          HandleGenericError(st);
        }
      case Returned(r) =>
        st.courseCandidates := r.courses;
        st.AddMessage(AssistantRole, r.response, Some(CourseAdvisor));
        SummarizeSubtaskCompletion(st, CourseSearch, SubtaskResult(numCourses := Some(|r.courses|)));
        MaintainContextOnTransition(st, CourseAdvisor, Coordinator);
        st.nextAgent := Some(Coordinator);
    }
  }

  // ---------------------------------------------------------------------------------------
  // learning planner

  /** The tool name the planner's search failures are reported under. */
  const WebSearchTool := "web_search"

  /** The state after `learning_planner_node`. */
  function Planned(s: AgentState, call: AgentCall<PlanResult>): AgentState
  {
    match call
    case AgentMissing => GenericErrorHandled(s)
    case Raised(e) =>
      if e in LlmClientErrors then LlmErrorHandled(s, e)
      else if e in WebSearchErrors then ToolErrorHandled(s, WebSearchTool)
      else GenericErrorHandled(s)
    case Returned(r) =>
      var planned := s.(learningPlan := Some(r.plan)).Say(AssistantMessage(r.response, LearningPlanner));
      var summarized := SubtaskSummarized(planned, LearningPlanCreation,
        SubtaskResult(milestones := Some(r.plan.milestones), estimatedDuration := Some(r.plan.estimatedDuration)));
      Transitioned(summarized, LearningPlanner, HumanInput).(requiresHumanInput := true, nextAgent := Some(HumanInput))
  }

  /**
   * `learning_planner_node`: store the plan, post it and a summary, and ask the user to
   * review it.
   */
  method LearningPlannerNode(st: SharedState, call: AgentCall<PlanResult>)
    modifies st
    ensures st.Value() == Planned(old(st.Value()), call)
  {
    match call {
      case AgentMissing =>
        HandleGenericError(st);
      case Raised(e) =>
        if e in LlmClientErrors {
          HandleLlmError(e, st);
        } else if e in WebSearchErrors {
          HandleToolError(WebSearchTool, st);
        } else {
          HandleGenericError(st);
        }
      case Returned(r) =>
        st.learningPlan := Some(r.plan);
        st.AddMessage(AssistantRole, r.response, Some(LearningPlanner));
        SummarizeSubtaskCompletion(st, LearningPlanCreation,
          SubtaskResult(milestones := Some(r.plan.milestones), estimatedDuration := Some(r.plan.estimatedDuration)));
        MaintainContextOnTransition(st, LearningPlanner, HumanInput);
        st.requiresHumanInput := true;
        st.nextAgent := Some(HumanInput);
    }
  }

  // ---------------------------------------------------------------------------------------
  // human input

  const PlanPromptText := "我已经为您制定了学习计划。请查看上述计划并提供反馈：\n- 如果您同意该计划，请回复「同意」或「批准」\n- 如果需要调整，请告诉我您的具体建议\n- 如果想重新规划，请回复「重新规划」"
  const CoursePromptText := "我已经为您推荐了一些课程。请提供您的反馈：\n- 如果您对推荐满意，请回复「满意」\n- 如果需要更多课程，请回复「更多推荐」\n- 如果想调整推荐方向，请告诉我您的具体需求"
  const GeneralPromptText := "请提供您的反馈或确认，以便我继续为您服务。"
  const RevisePlanText := "好的，我会根据您的反馈调整学习计划。请告诉我您希望如何调整？"
  const AdjustPlanText := "我理解了您的反馈。让我根据您的建议调整学习计划。"
  const ThanksText := "感谢您的反馈。让我继续为您服务。"

  const ApproveKeywords: seq<string> := ["同意", "批准", "确认", "好的", "可以", "approve", "yes"]
  const ReviseKeywords: seq<string> := ["重新", "不同", "修改", "调整", "redo", "change"]
  const MoreKeywords: seq<string> := ["更多", "其他", "别的", "再推荐", "more", "other"]
  const SatisfiedKeywords: seq<string> := ["满意", "好的", "可以", "不错", "satisfied", "good"]

  const RevisePlanTask := "revise_learning_plan"
  const AdjustPlanTask := "adjust_learning_plan_with_feedback"
  const FindMoreTask := "find_more_courses"
  const AdjustCoursesTask := "adjust_course_recommendations"

  /** A draft plan is waiting for the user's approval. */
  predicate AwaitingPlanApproval(s: AgentState)
  {
    s.learningPlan.Some? && s.learningPlan.value.status == Draft
  }

  /** Recommended courses are waiting for the user's feedback. */
  predicate AwaitingCourseFeedback(s: AgentState)
  {
    s.courseCandidates != []
  }

  /** No feedback has been placed in the state: none, empty, or only whitespace. */
  predicate NoFeedback(s: AgentState)
  {
    s.humanFeedback.None? || Strip(s.humanFeedback.value) == ""
  }

  /** The prompt chosen by what the conversation is waiting for. */
  function PromptFor(s: AgentState): string
  {
    if AwaitingPlanApproval(s) then PlanPromptText
    else if AwaitingCourseFeedback(s) then CoursePromptText
    else GeneralPromptText
  }

  /** The state after `human_input_node` without feedback: the prompt, unless it was just posted. */
  function Prompted(s: AgentState): AgentState
  {
    var prompt := PromptFor(s);
    if s.messages == [] || s.messages[|s.messages| - 1].content != prompt
    then s.Say(AssistantMessage(prompt, SystemRole))
    else s
  }

  /** The reaction to feedback on a draft plan; approval keywords are looked for first. */
  function PlanFeedback(s: AgentState, key: string): AgentState
    requires AwaitingPlanApproval(s)
  {
    if ContainsAny(key, ApproveKeywords) then
      SubtaskSummarized(s.(learningPlan := Some(s.learningPlan.value.(status := Approved))),
                        PlanApproval, SubtaskResult(status := Some(Approved)))
    else if ContainsAny(key, ReviseKeywords) then
      s.(currentTask := Some(RevisePlanTask)).Say(AssistantMessage(RevisePlanText, SystemRole))
    else
      s.(currentTask := Some(AdjustPlanTask)).Say(AssistantMessage(AdjustPlanText, SystemRole))
  }

  /** The reaction to feedback on recommended courses; "more" keywords are looked for first. */
  function CourseFeedback(s: AgentState, key: string): AgentState
  {
    if ContainsAny(key, MoreKeywords) then
      SubtaskSummarized(s.(currentTask := Some(FindMoreTask)), CourseRecommendationFeedback,
                        SubtaskResult(feedbackType := Some("more")))
    else if ContainsAny(key, SatisfiedKeywords) then
      SubtaskSummarized(s, CourseRecommendationFeedback, SubtaskResult(feedbackType := Some("satisfied")))
    else
      SubtaskSummarized(s.(currentTask := Some(AdjustCoursesTask)), CourseRecommendationFeedback,
                        SubtaskResult(feedbackType := Some("adjust")))
  }

  /** The reply to the recorded feedback, chosen by what the conversation is waiting for. */
  function Reacted(said: AgentState, key: string): AgentState
  {
    if AwaitingPlanApproval(said) then PlanFeedback(said, key)
    else if AwaitingCourseFeedback(said) then CourseFeedback(said, key)
    else said.Say(AssistantMessage(ThanksText, SystemRole))
  }

  /** The state after `human_input_node` processes the feedback `feedback`. */
  function FeedbackProcessed(s: AgentState, feedback: string): AgentState
  {
    var said := s.Say(Message(UserRole, feedback, None));
    var reacted := Reacted(said, Strip(Lower(feedback)));
    Transitioned(reacted.(requiresHumanInput := false, humanFeedback := None), HumanInput, Coordinator)
      .(nextAgent := Some(Coordinator))
  }

  /** The state after `human_input_node`. */
  function HumanInputHandled(s: AgentState): AgentState
  {
    if NoFeedback(s) then Prompted(s) else FeedbackProcessed(s, s.humanFeedback.value)
  }

  /** The no-feedback branch of `human_input_node`. */
  method PromptForFeedback(st: SharedState)
    modifies st
    ensures st.Value() == Prompted(old(st.Value()))
  {
    var prompt := PromptFor(st.Value());
    if st.messages == [] || st.messages[|st.messages| - 1].content != prompt {
      st.AddMessage(AssistantRole, prompt, Some(SystemRole));
    }
  }

  /** The draft-plan branch of `human_input_node`. */
  method ReactToPlanFeedback(st: SharedState, key: string)
    requires AwaitingPlanApproval(st.Value())
    modifies st
    ensures st.Value() == PlanFeedback(old(st.Value()), key)
  {
    if ContainsAny(key, ApproveKeywords) {
      st.learningPlan := Some(st.learningPlan.value.(status := Approved));
      SummarizeSubtaskCompletion(st, PlanApproval, SubtaskResult(status := Some(Approved)));
    } else if ContainsAny(key, ReviseKeywords) {
      st.currentTask := Some(RevisePlanTask);
      st.AddMessage(AssistantRole, RevisePlanText, Some(SystemRole));
    } else {
      st.currentTask := Some(AdjustPlanTask);
      st.AddMessage(AssistantRole, AdjustPlanText, Some(SystemRole));
    }
  }

  /** The recommended-courses branch of `human_input_node`. */
  method ReactToCourseFeedback(st: SharedState, key: string)
    modifies st
    ensures st.Value() == CourseFeedback(old(st.Value()), key)
  {
    if ContainsAny(key, MoreKeywords) {
      st.currentTask := Some(FindMoreTask);
      SummarizeSubtaskCompletion(st, CourseRecommendationFeedback, SubtaskResult(feedbackType := Some("more")));
    } else if ContainsAny(key, SatisfiedKeywords) {
      SummarizeSubtaskCompletion(st, CourseRecommendationFeedback, SubtaskResult(feedbackType := Some("satisfied")));
    } else {
      st.currentTask := Some(AdjustCoursesTask);
      SummarizeSubtaskCompletion(st, CourseRecommendationFeedback, SubtaskResult(feedbackType := Some("adjust")));
    }
  }

  /**
   * `human_input_node`: without feedback, prompt for it (once); with feedback, record it as
   * the user's message, react to it by what was awaited, clear the request and hand back to
   * the coordinator.
   */
  method HumanInputNode(st: SharedState)
    modifies st
    ensures st.Value() == HumanInputHandled(old(st.Value()))
  {
    if st.humanFeedback.None? || Strip(st.humanFeedback.value) == "" {
      PromptForFeedback(st);
      return;
    }
    var feedback := st.humanFeedback.value;
    st.AddMessage(UserRole, feedback, None);
    var key := Strip(Lower(feedback));
    if st.learningPlan.Some? && st.learningPlan.value.status == Draft {
      ReactToPlanFeedback(st, key);
    } else if st.courseCandidates != [] {
      ReactToCourseFeedback(st, key);
    } else {
      st.AddMessage(AssistantRole, ThanksText, Some(SystemRole));
    }
    st.ClearHumanInputRequest();
    MaintainContextOnTransition(st, HumanInput, Coordinator);
    st.nextAgent := Some(Coordinator);
  }

  // ---------------------------------------------------------------------------------------
  // Properties of the nodes

  /**
   * The coordinator counts every round it runs exactly once, and past its own limit it
   * completes the conversation, which the router then ends; without its agent it counts
   * nothing and asks the user.
   */
  lemma CoordinatorLoopAccounting(s: AgentState, call: AgentCall<Decision>, maxLoopCount: int)
    ensures call.AgentMissing? ==>
      Coordinated(s, call).loopCount == s.loopCount && Coordinated(s, call).requiresHumanInput
    ensures !call.AgentMissing? ==> Coordinated(s, call).loopCount == s.loopCount + 1
    ensures !call.AgentMissing? && s.loopCount + 1 > CoordinatorLoopLimit ==>
      var r := Coordinated(s, call);
      && r.isComplete && r.nextAgent == Some(End)
      && r.messages == s.messages + [AssistantMessage(LoopLimitText, SystemRole)]
      && RouteNext(r, maxLoopCount) == End
  {
    if !call.AgentMissing? {
      var counted := s.(loopCount := s.loopCount + 1);
      assert Coordinated(s, call) == CountedRound(counted, call);
      if counted.loopCount > CoordinatorLoopLimit {
        assert Coordinated(s, call) == Stopped(counted);
        assert counted.messages == s.messages;
      } else {
        CoordinatorRoundKeepsShape(counted, DetectTopicSwitch(counted), call);
      }
    } else {
      assert Coordinated(s, call) == GenericErrorHandled(s);
    }
  }

  /**
   * A request to return to the previous topic is served without consulting the agent: the
   * outcome of its call makes no difference.
   */
  lemma PreviousTopicSkipsAgent(s: AgentState, call1: AgentCall<Decision>, call2: AgentCall<Decision>)
    requires !call1.AgentMissing? && !call2.AgentMissing?
    requires s.loopCount + 1 <= CoordinatorLoopLimit && DetectTopicSwitch(s) == Some(PreviousTopic)
    ensures Coordinated(s, call1) == Coordinated(s, call2) == ReturnedToPrevious(s.(loopCount := s.loopCount + 1))
  {
    assert DetectTopicSwitch(s.(loopCount := s.loopCount + 1)) == DetectTopicSwitch(s);
  }

  /** A decision is applied as given: its agent, its task, its flag, and its reply when non-empty. */
  lemma CoordinatorAppliesDecision(s: AgentState, d: Decision)
    requires s.loopCount + 1 <= CoordinatorLoopLimit && DetectTopicSwitch(s).None?
    ensures var r := Coordinated(s, Returned(d));
      && r.nextAgent == Some(d.nextAgent) && r.currentTask == d.currentTask
      && r.requiresHumanInput == d.requiresHumanInput
      && (HasText(d.response) ==> |r.messages| > |s.messages| && r.messages[|s.messages|] == AssistantMessage(d.response.value, Coordinator))
      && (!HasText(d.response) && d.nextAgent !in {CourseAdvisor, LearningPlanner} ==> r.messages == s.messages)
  {
    assert DetectTopicSwitch(s.(loopCount := s.loopCount + 1)) == DetectTopicSwitch(s);
  }

  /** Adding a message with one of the three roles keeps a state well-formed. */
  lemma SayKeepsWellFormed(s: AgentState, m: Message)
    requires WellFormed(s) && m.role in Roles
    ensures WellFormed(s.Say(m))
  {
  }

  /** Switching topics only appends to the history and keeps a state well-formed. */
  lemma SwitchKeepsShape(s: AgentState)
    ensures Extends(s, TopicSwitched(s))
  {
    if WellFormed(s) {
      assert AssistantRole in Roles;
      SayKeepsWellFormed(s.(userProfile := s.userProfile.(conversationStack := Some(s.Stack() + [ExtractConversationContext(s)]))),
        AssistantMessage(TopicSwitchText, SystemRole));
    }
  }

  /** Returning to the previous topic only appends to the history and keeps a state well-formed. */
  lemma ReturnKeepsShape(s: AgentState)
    ensures Extends(s, ReturnedToPrevious(s))
  {
    if WellFormed(s) {
      assert AssistantRole in Roles;
      var stack := s.Stack();
      if stack == [] {
        SayKeepsWellFormed(s, AssistantMessage(NoPreviousTopicText, SystemRole));
      } else {
        SayKeepsWellFormed(s.(userProfile := s.userProfile.(conversationStack := Some(stack[..|stack| - 1]))),
          AssistantMessage(ReturnText(stack[|stack| - 1].phase), SystemRole));
      }
    }
  }

  /** Applying a decision only appends to the history and keeps a state well-formed. */
  lemma DecidedKeepsShape(s: AgentState, d: Decision)
    ensures s.messages <= Decided(s, d).messages && Decided(s, d).loopCount == s.loopCount
    ensures WellFormed(s) && d.nextAgent in AgentNames ==> WellFormed(Decided(s, d))
  {
    var routed := s.(nextAgent := Some(d.nextAgent), currentTask := d.currentTask,
                     requiresHumanInput := d.requiresHumanInput);
    var answered := if HasText(d.response) then routed.Say(AssistantMessage(d.response.value, Coordinator)) else routed;
    assert s.messages <= answered.messages;
    if WellFormed(s) && d.nextAgent in AgentNames {
      assert AssistantRole in Roles;
      assert WellFormed(routed);
      if HasText(d.response) {
        SayKeepsWellFormed(routed, AssistantMessage(d.response.value, Coordinator));
      }
      if TransitionMessage(Coordinator, d.nextAgent).Some? {
        SayKeepsWellFormed(answered, AssistantMessage(TransitionMessage(Coordinator, d.nextAgent).value, SystemRole));
      }
    }
  }

  /** Acting on the agent's call only appends to the history and keeps a state well-formed. */
  lemma RespondedKeepsShape(s: AgentState, call: AgentCall<Decision>)
    ensures s.messages <= Responded(s, call).messages && Responded(s, call).loopCount == s.loopCount
    ensures WellFormed(s) && (call.Returned? ==> call.value.nextAgent in AgentNames) ==> WellFormed(Responded(s, call))
  {
    match call
    case AgentMissing =>
    case Returned(d) => DecidedKeepsShape(s, d);
    case Raised(e) => ErrorHandlingExtends(s, e, "");
  }

  /** A coordinator round only appends to the history and keeps a state well-formed. */
  lemma CoordinatorRoundKeepsShape(s: AgentState, shift: Option<TopicShift>, call: AgentCall<Decision>)
    ensures s.messages <= CoordinatorRound(s, shift, call).messages
    ensures CoordinatorRound(s, shift, call).loopCount == s.loopCount
    ensures WellFormed(s) && (call.Returned? ==> call.value.nextAgent in AgentNames) ==>
      WellFormed(CoordinatorRound(s, shift, call))
  {
    if shift == Some(PreviousTopic) {
      ReturnKeepsShape(s);
    } else if shift == Some(NewTopic) {
      SwitchKeepsShape(s);
      RespondedKeepsShape(TopicSwitched(s), call);
    } else {
      RespondedKeepsShape(s, call);
    }
  }

  /** The coordinator only appends to the history and keeps a well-formed state well-formed. */
  lemma CoordinatorKeepsHistoryAndShape(s: AgentState, call: AgentCall<Decision>)
    ensures s.messages <= Coordinated(s, call).messages
    ensures WellFormed(s) && (call.Returned? ==> call.value.nextAgent in AgentNames) ==> WellFormed(Coordinated(s, call))
  {
    if call.AgentMissing? {
      GenericErrorKeepsShape(s);
    } else {
      CountingKeepsShape(s);
      CountedRoundKeepsShape(s.(loopCount := s.loopCount + 1), call);
    }
  }

  /** Without its agent the coordinator only appends an apology, keeping a state well-formed. */
  lemma GenericErrorKeepsShape(s: AgentState)
    ensures s.messages <= GenericErrorHandled(s).messages
    ensures WellFormed(s) ==> WellFormed(GenericErrorHandled(s))
  {
    if WellFormed(s) {
      assert AssistantRole in Roles;
      SayKeepsWellFormed(s, AssistantMessage(UnexpectedText, SystemRole));
    }
  }

  /** A counted round only appends to the history and keeps a state well-formed. */
  lemma CountedRoundKeepsShape(counted: AgentState, call: AgentCall<Decision>)
    ensures counted.messages <= CountedRound(counted, call).messages
    ensures WellFormed(counted) && (call.Returned? ==> call.value.nextAgent in AgentNames) ==>
      WellFormed(CountedRound(counted, call))
  {
    if counted.loopCount > CoordinatorLoopLimit {
      StoppedKeepsShape(counted);
    } else {
      CoordinatorRoundKeepsShape(counted, DetectTopicSwitch(counted), call);
    }
  }

  /** Counting a round keeps the history and keeps a state well-formed. */
  lemma CountingKeepsShape(s: AgentState)
    ensures var counted := s.(loopCount := s.loopCount + 1);
      counted.messages == s.messages && (WellFormed(s) ==> WellFormed(counted))
  {
  }

  /** Stopping a conversation only appends to the history and keeps a state well-formed. */
  lemma StoppedKeepsShape(s: AgentState)
    ensures s.messages <= Stopped(s).messages
    ensures WellFormed(s) ==> WellFormed(Stopped(s))
  {
    var stopped := s.(nextAgent := Some(End), isComplete := true);
    if WellFormed(s) {
      assert AssistantRole in Roles && WellFormed(stopped);
      SayKeepsWellFormed(stopped, AssistantMessage(LoopLimitText, SystemRole));
    }
  }

  /** `t` only appends to the history of `s`, keeps its loop count, and keeps it well-formed. */
  predicate Extends(s: AgentState, t: AgentState)
  {
    s.messages <= t.messages && t.loopCount == s.loopCount && (WellFormed(s) ==> WellFormed(t))
  }

  /** Every error handler a node calls only appends to the history and keeps a state well-formed. */
  lemma ErrorHandlingExtends(s: AgentState, e: string, toolName: string)
    ensures Extends(s, GenericErrorHandled(s)) && Extends(s, LlmErrorHandled(s, e))
    ensures Extends(s, ToolErrorHandled(s, toolName)) && Extends(s, RoutingErrorHandled(s))
  {
    if WellFormed(s) {
      assert AssistantRole in Roles;
      SayKeepsWellFormed(s, AssistantMessage(UnexpectedText, SystemRole));
      SayKeepsWellFormed(s, AssistantMessage(LlmErrorText(e), SystemRole));
      SayKeepsWellFormed(s, AssistantMessage(ToolErrorText(toolName), SystemRole));
      SayKeepsWellFormed(s, AssistantMessage(ClarificationText, Coordinator));
    }
  }

  /** The course advisor only appends to the history and keeps a well-formed state well-formed. */
  lemma AdvisorKeepsHistoryAndShape(s: AgentState, call: AgentCall<Recommendation>)
    ensures s.messages <= Advised(s, call).messages
    ensures Advised(s, call).loopCount == s.loopCount
    ensures WellFormed(s) ==> WellFormed(Advised(s, call))
  {
    match call
    case AgentMissing => ErrorHandlingExtends(s, "", CourseSearchTool);
    case Raised(e) => ErrorHandlingExtends(s, e, CourseSearchTool);
    case Returned(r) => AdviceExtends(s, r);
  }

  /** Storing a recommendation only appends to the history and keeps a state well-formed. */
  lemma AdviceExtends(s: AgentState, r: Recommendation)
    ensures Extends(s, Advised(s, Returned(r)))
  {
    var t := s.(courseCandidates := r.courses);
    var found := t.Say(AssistantMessage(r.response, CourseAdvisor));
    var summarized := SubtaskSummarized(found, CourseSearch, SubtaskResult(numCourses := Some(|r.courses|)));
    assert TransitionMessage(CourseAdvisor, Coordinator).None?;
    assert Advised(s, Returned(r)) == summarized.(nextAgent := Some(Coordinator));
    if WellFormed(s) {
      assert AssistantRole in Roles && WellFormed(t);
      SayKeepsWellFormed(t, AssistantMessage(r.response, CourseAdvisor));
      SayKeepsWellFormed(found, AssistantMessage(SubtaskSummary(CourseSearch, SubtaskResult(numCourses := Some(|r.courses|))), SystemRole));
    }
  }

  /** The learning planner only appends to the history and keeps a well-formed state well-formed. */
  lemma PlannerKeepsHistoryAndShape(s: AgentState, call: AgentCall<PlanResult>)
    ensures s.messages <= Planned(s, call).messages
    ensures Planned(s, call).loopCount == s.loopCount
    ensures WellFormed(s) && (call.Returned? ==> call.value.plan.status in PlanStatuses) ==> WellFormed(Planned(s, call))
  {
    match call
    case AgentMissing => ErrorHandlingExtends(s, "", WebSearchTool);
    case Raised(e) => ErrorHandlingExtends(s, e, WebSearchTool);
    case Returned(r) => PlanExtends(s, r);
  }

  /** Storing a plan with a known status only appends to the history and keeps a state well-formed. */
  lemma PlanExtends(s: AgentState, r: PlanResult)
    ensures s.messages <= Planned(s, Returned(r)).messages && Planned(s, Returned(r)).loopCount == s.loopCount
    ensures r.plan.status in PlanStatuses ==> Extends(s, Planned(s, Returned(r)))
  {
    var t := s.(learningPlan := Some(r.plan));
    var planned := t.Say(AssistantMessage(r.response, LearningPlanner));
    var result := SubtaskResult(milestones := Some(r.plan.milestones), estimatedDuration := Some(r.plan.estimatedDuration));
    var summarized := SubtaskSummarized(planned, LearningPlanCreation, result);
    assert TransitionMessage(LearningPlanner, HumanInput).None?;
    assert Planned(s, Returned(r)) == summarized.(requiresHumanInput := true, nextAgent := Some(HumanInput));
    if WellFormed(s) && r.plan.status in PlanStatuses {
      assert AssistantRole in Roles && WellFormed(t);
      SayKeepsWellFormed(t, AssistantMessage(r.response, LearningPlanner));
      SayKeepsWellFormed(planned, AssistantMessage(SubtaskSummary(LearningPlanCreation, result), SystemRole));
    }
  }

  /** Reacting to plan feedback only appends to the history and keeps a state well-formed. */
  lemma PlanFeedbackKeepsShape(s: AgentState, key: string)
    requires AwaitingPlanApproval(s)
    ensures var r := PlanFeedback(s, key);
      && |r.messages| == |s.messages| + 1 && r.messages[..|s.messages|] == s.messages && s.messages <= r.messages
      && r.loopCount == s.loopCount && r.courseCandidates == s.courseCandidates
    ensures WellFormed(s) ==> WellFormed(PlanFeedback(s, key))
  {
    if WellFormed(s) {
      assert AssistantRole in Roles;
      var approved := s.(learningPlan := Some(s.learningPlan.value.(status := Approved)));
      SayKeepsWellFormed(approved, AssistantMessage(SubtaskSummary(PlanApproval, SubtaskResult(status := Some(Approved))), SystemRole));
      SayKeepsWellFormed(s.(currentTask := Some(RevisePlanTask)), AssistantMessage(RevisePlanText, SystemRole));
      SayKeepsWellFormed(s.(currentTask := Some(AdjustPlanTask)), AssistantMessage(AdjustPlanText, SystemRole));
    }
  }

  /** Reacting to course feedback only appends to the history and keeps a state well-formed. */
  lemma CourseFeedbackKeepsShape(s: AgentState, key: string)
    ensures var r := CourseFeedback(s, key);
      && |r.messages| == |s.messages| + 1 && r.messages[..|s.messages|] == s.messages && s.messages <= r.messages
      && r.loopCount == s.loopCount && r.courseCandidates == s.courseCandidates
    ensures WellFormed(s) ==> WellFormed(CourseFeedback(s, key))
  {
    if WellFormed(s) {
      assert AssistantRole in Roles;
      SayKeepsWellFormed(s.(currentTask := Some(FindMoreTask)), AssistantMessage(SubtaskSummary(CourseRecommendationFeedback, SubtaskResult(feedbackType := Some("more"))), SystemRole));
      SayKeepsWellFormed(s, AssistantMessage(SubtaskSummary(CourseRecommendationFeedback, SubtaskResult(feedbackType := Some("satisfied"))), SystemRole));
      SayKeepsWellFormed(s.(currentTask := Some(AdjustCoursesTask)), AssistantMessage(SubtaskSummary(CourseRecommendationFeedback, SubtaskResult(feedbackType := Some("adjust"))), SystemRole));
    }
  }

  /** The human-input node only appends to the history and keeps a well-formed state well-formed. */
  lemma HumanInputKeepsHistoryAndShape(s: AgentState)
    ensures s.messages <= HumanInputHandled(s).messages
    ensures HumanInputHandled(s).loopCount == s.loopCount
    ensures WellFormed(s) ==> WellFormed(HumanInputHandled(s))
  {
    if NoFeedback(s) {
      if WellFormed(s) {
        assert AssistantRole in Roles;
        SayKeepsWellFormed(s, AssistantMessage(PromptFor(s), SystemRole));
      }
    } else {
      FeedbackExtends(s);
    }
  }

  /** Processing feedback only appends to the history and keeps a state well-formed. */
  lemma FeedbackExtends(s: AgentState)
    requires !NoFeedback(s)
    ensures Extends(s, HumanInputHandled(s))
  {
    var said := s.Say(Message(UserRole, s.humanFeedback.value, None));
    var key := Strip(Lower(s.humanFeedback.value));
    var reacted := Reacted(said, key);
    ReactionAppendsOne(said, key);
    assert TransitionMessage(HumanInput, Coordinator).None?;
    assert HumanInputHandled(s) == reacted.(requiresHumanInput := false, humanFeedback := None, nextAgent := Some(Coordinator));
    assert s.messages <= said.messages;
    if WellFormed(s) {
      assert UserRole in Roles;
      SayKeepsWellFormed(s, Message(UserRole, s.humanFeedback.value, None));
    }
  }

  /** The human-input node never completes a conversation or reopens one. */
  lemma HumanInputKeepsCompletion(s: AgentState)
    ensures HumanInputHandled(s).isComplete == s.isComplete
  {
    if !NoFeedback(s) {
      var said := s.Say(Message(UserRole, s.humanFeedback.value, None));
      var key := Strip(Lower(s.humanFeedback.value));
      if AwaitingPlanApproval(said) {
        assert PlanFeedback(said, key).isComplete == s.isComplete;
      } else {
        assert CourseFeedback(said, key).isComplete == s.isComplete;
      }
    }
  }

  /** `entry_node` and `end_node` keep a well-formed state well-formed; `end_node` only appends. */
  lemma EntryAndEndKeepShape(s: AgentState)
    ensures s.messages <= Ended(s).messages && Ended(s).loopCount == s.loopCount
    ensures WellFormed(s) ==> WellFormed(Entered(s)) && WellFormed(Ended(s))
  {
    if WellFormed(s) {
      assert AssistantRole in Roles;
      SayKeepsWellFormed(s.(isComplete := true, nextAgent := None), AssistantMessage(FarewellText, SystemRole));
    }
  }

  /** The specialists hand back as the graph expects: to the coordinator, or to the user. */
  lemma SpecialistsHandBack(s: AgentState, r: Recommendation, p: PlanResult)
    ensures Advised(s, Returned(r)).nextAgent == Some(Coordinator)
    ensures Advised(s, Returned(r)).courseCandidates == r.courses
    ensures Planned(s, Returned(p)).nextAgent == Some(HumanInput)
    ensures Planned(s, Returned(p)).requiresHumanInput
    ensures Planned(s, Returned(p)).learningPlan == Some(p.plan)
  {
  }

  /**
   * The planner's request for approval does not survive the coordinator it hands back to:
   * a fresh decision that names an agent without asking for input replaces both flags.
   */
  lemma PlanApprovalRequestIsReplaced(s: AgentState, p: PlanResult, d: Decision)
    requires !s.isComplete && s.loopCount + 1 <= CoordinatorLoopLimit
    requires DetectTopicSwitch(s) == None
    requires d.nextAgent in {Coordinator, CourseAdvisor, LearningPlanner} && !d.requiresHumanInput
    ensures Planned(s, Returned(p)).requiresHumanInput && Planned(s, Returned(p)).nextAgent == Some(HumanInput)
    ensures var c := Coordinated(Planned(s, Returned(p)), Returned(d));
      && !c.requiresHumanInput && c.nextAgent == Some(d.nextAgent) && !c.isComplete
      && c.loopCount == s.loopCount + 1
  {
    var planned := s.(learningPlan := Some(p.plan)).Say(AssistantMessage(p.response, LearningPlanner));
    var summarized := SubtaskSummarized(planned, LearningPlanCreation,
      SubtaskResult(milestones := Some(p.plan.milestones), estimatedDuration := Some(p.plan.estimatedDuration)));
    DetectTopicSwitchIgnoresReplies(s.(learningPlan := Some(p.plan)), AssistantMessage(p.response, LearningPlanner));
    DetectTopicSwitchIgnoresReplies(planned, AssistantMessage(SubtaskSummary(LearningPlanCreation,
      SubtaskResult(milestones := Some(p.plan.milestones), estimatedDuration := Some(p.plan.estimatedDuration))), SystemRole));
    var t := Planned(s, Returned(p));
    assert TransitionMessage(LearningPlanner, HumanInput).None?;
    assert t.messages == summarized.messages;
    var counted := t.(loopCount := t.loopCount + 1);
    assert DetectTopicSwitch(counted) == None by {
      assert counted.messages == summarized.messages;
    }
    assert Coordinated(t, Returned(d)) == CoordinatorRound(counted, None, Returned(d));
  }

  /**
   * A coordinator call that fails after the planner keeps its request for approval: every
   * error path asks for input again, and the draft plan is left in place.
   */
  lemma FailedRoundKeepsApprovalRequest(s: AgentState, p: PlanResult, call: AgentCall<Decision>)
    requires !s.isComplete && s.loopCount + 1 <= CoordinatorLoopLimit
    requires DetectTopicSwitch(s) == None
    requires !call.Returned?
    ensures var c := Coordinated(Planned(s, Returned(p)), call);
      && c.requiresHumanInput && !c.isComplete && c.learningPlan == Some(p.plan)
      && c.loopCount == (if call.AgentMissing? then s.loopCount else s.loopCount + 1)
  {
    var planned := s.(learningPlan := Some(p.plan)).Say(AssistantMessage(p.response, LearningPlanner));
    var summarized := SubtaskSummarized(planned, LearningPlanCreation,
      SubtaskResult(milestones := Some(p.plan.milestones), estimatedDuration := Some(p.plan.estimatedDuration)));
    var t := Planned(s, Returned(p));
    assert TransitionMessage(LearningPlanner, HumanInput).None?;
    assert t.messages == summarized.messages;
    if call.Raised? {
      DetectTopicSwitchIgnoresReplies(s.(learningPlan := Some(p.plan)), AssistantMessage(p.response, LearningPlanner));
      DetectTopicSwitchIgnoresReplies(planned, AssistantMessage(SubtaskSummary(LearningPlanCreation,
        SubtaskResult(milestones := Some(p.plan.milestones), estimatedDuration := Some(p.plan.estimatedDuration))), SystemRole));
      var counted := t.(loopCount := t.loopCount + 1);
      assert DetectTopicSwitch(counted) == None by {
        assert counted.messages == summarized.messages;
      }
      assert Coordinated(t, call) == Responded(counted, call);
    }
  }

  /** `end_node` completes the conversation and never leaves it without a goodbye. */
  lemma EndNodeCompletes(s: AgentState)
    ensures Ended(s).isComplete && Ended(s).nextAgent.None?
    ensures SaidGoodbye(s.messages) ==> Ended(s).messages == s.messages
    ensures !SaidGoodbye(s.messages) ==> Ended(s).messages == s.messages + [AssistantMessage(FarewellText, SystemRole)]
  {
  }

  /**
   * Without feedback the node leaves the flags as they are, and calling it again adds
   * nothing: the prompt is posted at most once.
   */
  lemma RepeatedPromptAddsNothing(s: AgentState)
    requires NoFeedback(s)
    ensures var r := HumanInputHandled(s);
      && r.requiresHumanInput == s.requiresHumanInput && r.nextAgent == s.nextAgent && r.humanFeedback == s.humanFeedback
      && |r.messages| <= |s.messages| + 1
      && HumanInputHandled(r) == r
  {
    var r := Prompted(s);
    assert PromptFor(r) == PromptFor(s);
    assert r.messages != [] && r.messages[|r.messages| - 1].content == PromptFor(s);
  }

  /**
   * Feedback is recorded as the user's message, followed by exactly one reply, and then the
   * request is cleared and the coordinator takes over.
   */
  lemma FeedbackHandsBackToCoordinator(s: AgentState)
    requires !NoFeedback(s)
    ensures var r := HumanInputHandled(s);
      && !r.requiresHumanInput && r.humanFeedback.None? && r.nextAgent == Some(Coordinator)
      && |r.messages| == |s.messages| + 2
      && r.messages[..|s.messages| + 1] == s.messages + [Message(UserRole, s.humanFeedback.value, None)]
      && r.loopCount == s.loopCount && r.courseCandidates == s.courseCandidates
  {
    var said := s.Say(Message(UserRole, s.humanFeedback.value, None));
    var reacted := Reacted(said, Strip(Lower(s.humanFeedback.value)));
    ReactionAppendsOne(said, Strip(Lower(s.humanFeedback.value)));
    assert TransitionMessage(HumanInput, Coordinator).None?;
    assert HumanInputHandled(s).messages == reacted.messages;
    assert reacted.messages[..|s.messages| + 1] == said.messages;
  }

  /** Each reaction to feedback appends exactly one reply and keeps the count and the candidates. */
  lemma ReactionAppendsOne(said: AgentState, key: string)
    ensures var r := Reacted(said, key);
      && |r.messages| == |said.messages| + 1 && r.messages[..|said.messages|] == said.messages
      && r.loopCount == said.loopCount && r.courseCandidates == said.courseCandidates
      && (WellFormed(said) ==> WellFormed(r))
  {
    if AwaitingPlanApproval(said) {
      PlanFeedbackKeepsShape(said, key);
    } else if AwaitingCourseFeedback(said) {
      CourseFeedbackKeepsShape(said, key);
    } else if WellFormed(said) {
      assert AssistantRole in Roles;
      SayKeepsWellFormed(said, AssistantMessage(ThanksText, SystemRole));
    }
  }

  /**
   * On a draft plan the approval keywords are looked for first: any feedback containing one
   * approves the plan, even if it also asks for a revision.
   */
  lemma ApprovalTakesPrecedence(s: AgentState)
    requires !NoFeedback(s) && AwaitingPlanApproval(s)
    requires ContainsAny(Strip(Lower(s.humanFeedback.value)), ApproveKeywords)
    ensures var r := HumanInputHandled(s);
      && r.learningPlan == Some(s.learningPlan.value.(status := Approved))
      && r.currentTask == s.currentTask
  {
  }

  /**
   * A consequence of that order: "我不同意" ("I do not agree") contains "同意" and so
   * approves a draft plan.
   */
  lemma DisagreementApprovesDraft(s: AgentState)
    requires AwaitingPlanApproval(s) && s.humanFeedback == Some("我不同意")
    ensures HumanInputHandled(s).learningPlan.value.status == Approved
  {
    var feedback := "我不同意";
    assert Lower(feedback) == feedback;
    assert TrimStart(feedback) == feedback;
    assert Strip(feedback) == feedback;
    assert feedback[2..4] == "同意";
    OccursAtContains(feedback, "同意", 2);
    assert ApproveKeywords[0] == "同意";
    ApprovalTakesPrecedence(s);
  }

  /** On recommended courses, asking for more wins over being satisfied. */
  lemma MoreTakesPrecedence(s: AgentState)
    requires !NoFeedback(s) && !AwaitingPlanApproval(s) && AwaitingCourseFeedback(s)
    requires ContainsAny(Strip(Lower(s.humanFeedback.value)), MoreKeywords)
    ensures HumanInputHandled(s).currentTask == Some(FindMoreTask)
  {
  }
}
