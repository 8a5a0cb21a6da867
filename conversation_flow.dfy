/**
 * Conversation flow control: the topic stack, the context snapshot of a conversation, the
 * transition and summary messages, topic switching, and the consistency and health checks.
 */
module ConversationFlow {
  import opened Wrappers
  import opened Text
  import opened Json
  import opened State
  import opened Helpers

  /** One saved topic of a `ConversationContext`; the timestamp is not modelled. */
  datatype TopicRecord = TopicRecord(topic: string, context: map<string, Json>)

  /** One completed subtask of a `ConversationContext`; the timestamp is not modelled. */
  datatype SubtaskRecord = SubtaskRecord(subtask: string, result: map<string, Json>)

  /** A stand-alone record of topics (a stack) and completed subtasks (a log). */
  class ConversationContext {
    var topicStack: seq<TopicRecord>
    var subtaskHistory: seq<SubtaskRecord>

    constructor ()
      ensures topicStack == [] && subtaskHistory == []
    {
      topicStack := [];
      subtaskHistory := [];
    }

    /** `push_topic`: the topic becomes the top of the stack. */
    method PushTopic(topic: string, context: map<string, Json>)
      modifies this
      ensures topicStack == old(topicStack) + [TopicRecord(topic, context)]
      ensures subtaskHistory == old(subtaskHistory)
    {
      topicStack := topicStack + [TopicRecord(topic, context)];
    }

    /** `pop_topic`: removes and returns the top of the stack, or `None` when it is empty. */
    method PopTopic() returns (top: Option<TopicRecord>)
      modifies this
      ensures old(topicStack) == [] ==> top.None? && topicStack == []
      ensures old(topicStack) != [] ==>
        top == Some(old(topicStack)[|old(topicStack)| - 1]) && topicStack == old(topicStack)[..|old(topicStack)| - 1]
      ensures subtaskHistory == old(subtaskHistory)
    {
      if topicStack == [] {
        return None;
      }
      top := Some(topicStack[|topicStack| - 1]);
      topicStack := topicStack[..|topicStack| - 1];
    }

    /** `get_current_topic`: the top of the stack, which stays in place. */
    method GetCurrentTopic() returns (top: Option<TopicRecord>)
      ensures top.None? <==> topicStack == []
      ensures top.Some? ==> top.value == topicStack[|topicStack| - 1]
    {
      if topicStack == [] {
        return None;
      }
      return Some(topicStack[|topicStack| - 1]);
    }

    /** `record_subtask`: the subtask is logged after the earlier ones. */
    method RecordSubtask(subtask: string, result: map<string, Json>)
      modifies this
      ensures subtaskHistory == old(subtaskHistory) + [SubtaskRecord(subtask, result)]
      ensures topicStack == old(topicStack)
    {
      subtaskHistory := subtaskHistory + [SubtaskRecord(subtask, result)];
    }

    /** `get_subtask_history`: the log as a value, unaffected by later recording. */
    method GetSubtaskHistory() returns (history: seq<SubtaskRecord>)
      ensures history == subtaskHistory
    {
      history := subtaskHistory;
    }
  }

  /** A stack of topics returns them in reverse order of pushing. */
  method PushPopRoundTrip(ctx: ConversationContext, first: string, second: string, c: map<string, Json>)
    returns (a: Option<TopicRecord>, b: Option<TopicRecord>)
    modifies ctx
    ensures a == Some(TopicRecord(second, c)) && b == Some(TopicRecord(first, c))
    ensures ctx.topicStack == old(ctx.topicStack) && ctx.subtaskHistory == old(ctx.subtaskHistory)
  {
    ctx.PushTopic(first, c);
    ctx.PushTopic(second, c);
    a := ctx.PopTopic();
    b := ctx.PopTopic();
  }

  // ---------------------------------------------------------------------------------------
  // Transitions between agents

  const FindingCoursesText := "让我为您查找相关课程..."
  const MakingPlanText := "让我为您制定学习计划..."

  /** The message announcing a hand-over from one agent to another, if that hand-over has one. */
  function TransitionMessage(fromAgent: string, toAgent: string): (r: Option<string>)
    ensures r.Some? <==> fromAgent == Coordinator && toAgent in {CourseAdvisor, LearningPlanner}
    ensures r.Some? ==> r.value != ""
  {
    if fromAgent == Coordinator && toAgent == CourseAdvisor then Some(FindingCoursesText)
    else if fromAgent == Coordinator && toAgent == LearningPlanner then Some(MakingPlanText)
    else None
  }

  /** The state after `maintain_context_on_transition`. */
  function Transitioned(s: AgentState, fromAgent: string, toAgent: string): AgentState
  {
    match TransitionMessage(fromAgent, toAgent)
    case Some(text) => s.Say(AssistantMessage(text, SystemRole))
    case None => s
  }

  /** `maintain_context_on_transition`: at most one announcing message, nothing else changes. */
  method MaintainContextOnTransition(st: SharedState, fromAgent: string, toAgent: string)
    modifies st
    ensures st.Value() == Transitioned(old(st.Value()), fromAgent, toAgent)
  {
    var message := TransitionMessage(fromAgent, toAgent);
    if message.Some? {
      st.AddMessage(AssistantRole, message.value, Some(SystemRole));
    }
  }

  // ---------------------------------------------------------------------------------------
  // The context snapshot

  const PlanExecution := "plan_execution"
  const PlanReview := "plan_review"
  const CourseSelection := "course_selection"
  const GoalClarification := "goal_clarification"
  const InitialInquiry := "initial_inquiry"

  /** The phase of a conversation, judged by what it has produced so far. */
  function PhaseOf(s: AgentState): string
  {
    if s.learningPlan.Some? && s.learningPlan.value.status == Approved then PlanExecution
    else if s.learningPlan.Some? then PlanReview
    else if s.courseCandidates != [] then CourseSelection
    else if s.userProfile.learningGoals != [] then GoalClarification
    else InitialInquiry
  }

  /** Each phase holds in exactly the situation its precedence level describes. */
  lemma PhaseClassification(s: AgentState)
    ensures PhaseOf(s) in {PlanExecution, PlanReview, CourseSelection, GoalClarification, InitialInquiry}
    ensures PhaseOf(s) == PlanExecution <==> s.learningPlan.Some? && s.learningPlan.value.status == Approved
    ensures PhaseOf(s) == PlanReview <==> s.learningPlan.Some? && s.learningPlan.value.status != Approved
    ensures PhaseOf(s) == CourseSelection <==> s.learningPlan.None? && s.courseCandidates != []
    ensures PhaseOf(s) == GoalClarification <==>
      s.learningPlan.None? && s.courseCandidates == [] && s.userProfile.learningGoals != []
    ensures PhaseOf(s) == InitialInquiry <==>
      s.learningPlan.None? && s.courseCandidates == [] && s.userProfile.learningGoals == []
  {
  }

  /** A message as the snapshot keeps it: its content cut to 100 characters. */
  function Abridged(m: Message): Message
  {
    Message(m.role, Prefix(m.content, 100), m.agent)
  }

  /** `extract_conversation_context`: the phase and a summary of the last five messages. */
  function ExtractConversationContext(s: AgentState): (c: Context)
    ensures c.phase == PhaseOf(s)
    ensures |c.recentMessages| == if |s.messages| > 5 then 5 else |s.messages|
    ensures forall i :: 0 <= i < |c.recentMessages| ==>
      var m := s.messages[|s.messages| - |c.recentMessages| + i];
      c.recentMessages[i].role == m.role && c.recentMessages[i].agent == m.agent &&
      c.recentMessages[i].content <= m.content && |c.recentMessages[i].content| <= 100 &&
      (|m.content| <= 100 ==> c.recentMessages[i].content == m.content)
    ensures c.hasCourses <==> c.numCourses > 0
    ensures c.numCourses == |s.courseCandidates| && c.userGoals == s.userProfile.learningGoals
    ensures c.hasPlan <==> s.learningPlan.Some?
    ensures c.planStatus == if s.learningPlan.Some? then Some(s.learningPlan.value.status) else None
    ensures c.currentTask == s.currentTask
  {
    var recent := if |s.messages| > 5 then s.messages[|s.messages| - 5..] else s.messages;
    Context(
      phase := PhaseOf(s),
      recentMessages := seq(|recent|, i requires 0 <= i < |recent| => Abridged(recent[i])),
      userGoals := s.userProfile.learningGoals,
      hasCourses := |s.courseCandidates| > 0,
      numCourses := |s.courseCandidates|,
      hasPlan := s.learningPlan.Some?,
      planStatus := if s.learningPlan.Some? then Some(s.learningPlan.value.status) else None,
      currentTask := s.currentTask)
  }

  // ---------------------------------------------------------------------------------------
  // Consistency and health

  /** The urls of the candidate courses. */
  function CandidateUrls(s: AgentState): set<string>
  {
    set c | c in s.courseCandidates :: c.url
  }

  /** The issue one plan course raises: its url is set but names no candidate. */
  function CourseIssue(c: Course, urls: set<string>): seq<string>
  {
    if c.url != "" && c.url !in urls then ["Learning plan references course not in candidates: " + c.title] else []
  }

  /** The issues the plan's courses raise, in plan order. */
  function PlanCourseIssues(courses: seq<Course>, urls: set<string>): seq<string>
    decreases |courses|
  {
    if courses == [] then []
    else PlanCourseIssues(courses[..|courses| - 1], urls) + CourseIssue(courses[|courses| - 1], urls)
  }

  /** Every issue `ensure_context_consistency` reports, in the order it reports them. */
  function ConsistencyIssues(s: AgentState): seq<string>
  {
    var planIssues := if s.learningPlan.Some? then PlanCourseIssues(s.learningPlan.value.recommendedCourses, CandidateUrls(s)) else [];
    var humanIssue := if s.requiresHumanInput && s.nextAgent != Some(HumanInput)
      then ["requires_human_input is True but next_agent is " + Show(s.nextAgent)] else [];
    var completeIssue := if s.isComplete && s.nextAgent !in {None, Some(End)}
      then ["is_complete is True but next_agent is " + Show(s.nextAgent)] else [];
    planIssues + humanIssue + completeIssue
  }

  /** The three consistency rules, stated directly. */
  predicate Consistent(s: AgentState)
  {
    && (s.learningPlan.Some? ==>
          forall i :: 0 <= i < |s.learningPlan.value.recommendedCourses| ==>
            var c := s.learningPlan.value.recommendedCourses[i];
            c.url == "" || exists j :: 0 <= j < |s.courseCandidates| && s.courseCandidates[j].url == c.url)
    && (s.requiresHumanInput ==> s.nextAgent == Some(HumanInput))
    && (s.isComplete ==> s.nextAgent.None? || s.nextAgent == Some(End))
  }

  lemma {:induction false} PlanCourseIssuesEmpty(courses: seq<Course>, urls: set<string>)
    ensures PlanCourseIssues(courses, urls) == [] <==>
      forall i :: 0 <= i < |courses| ==> courses[i].url == "" || courses[i].url in urls
    decreases |courses|
  {
    if courses != [] {
      PlanCourseIssuesEmpty(courses[..|courses| - 1], urls);
    }
  }

  /** No issue is reported exactly when the state satisfies the three rules. */
  lemma ConsistencyIssuesEmptyIffConsistent(s: AgentState)
    ensures ConsistencyIssues(s) == [] <==> Consistent(s)
  {
    if s.learningPlan.Some? {
      var courses := s.learningPlan.value.recommendedCourses;
      PlanCourseIssuesEmpty(courses, CandidateUrls(s));
      forall i | 0 <= i < |courses|
        ensures courses[i].url in CandidateUrls(s) <==>
          exists j :: 0 <= j < |s.courseCandidates| && s.courseCandidates[j].url == courses[i].url
      {
        if courses[i].url in CandidateUrls(s) {
          var c :| c in s.courseCandidates && c.url == courses[i].url;
          var j :| 0 <= j < |s.courseCandidates| && s.courseCandidates[j] == c;
        }
      }
    }
  }

  /**
   * `ensure_context_consistency`: walks the plan's courses collecting issues, then checks the
   * two flag rules; reports the issues joined by "; ".
   */
  method EnsureContextConsistency(s: AgentState) returns (isConsistent: bool, issue: Option<string>)
    ensures isConsistent <==> Consistent(s)
    ensures isConsistent ==> issue.None?
    ensures !isConsistent ==> issue == Some(Join(ConsistencyIssues(s), "; "))
  {
    var issues: seq<string> := [];
    if s.learningPlan.Some? {
      var courses := s.learningPlan.value.recommendedCourses;
      var urls := CandidateUrls(s);
      var i := 0;
      while i < |courses|
        invariant 0 <= i <= |courses|
        invariant issues == PlanCourseIssues(courses[..i], urls)
      {
        assert courses[..i + 1][..i] == courses[..i];
        if courses[i].url != "" && courses[i].url !in urls {
          issues := issues + ["Learning plan references course not in candidates: " + courses[i].title];
        }
        i := i + 1;
      }
      assert courses[..i] == courses;
    }
    assert issues == if s.learningPlan.Some? then PlanCourseIssues(s.learningPlan.value.recommendedCourses, CandidateUrls(s)) else [];
    if s.requiresHumanInput && s.nextAgent != Some(HumanInput) {
      issues := issues + ["requires_human_input is True but next_agent is " + Show(s.nextAgent)];
    }
    if s.isComplete && s.nextAgent != None && s.nextAgent != Some(End) {
      issues := issues + ["is_complete is True but next_agent is " + Show(s.nextAgent)];
    }
    assert issues == ConsistencyIssues(s);
    ConsistencyIssuesEmptyIffConsistent(s);
    if issues != [] {
      return false, Some(Join(issues, "; "));
    }
    return true, None;
  }

  datatype Health = Healthy | Warning | Unhealthy

  /** The result of `check_conversation_health`. */
  datatype HealthReport = HealthReport(
    health: Health, issues: seq<string>, warnings: seq<string>, loopCount: int, messageCount: nat)

  /** The conversation has run more than 10 messages without producing courses or a plan. */
  predicate Stalled(s: AgentState)
  {
    |s.messages| > 10 && s.courseCandidates == [] && s.learningPlan.None?
  }

  /** The conversation has run more than 3 messages without recording a goal. */
  predicate GoalsMissing(s: AgentState)
  {
    |s.messages| > 3 && s.userProfile.learningGoals == []
  }

  const HighLoopPrefix := "High loop count: "
  const LoopExceededPrefix := "Loop count exceeded limit: "
  const NoProgressText := "No progress: no courses or plan after 10+ messages"
  const GoalsMissingText := "User goals not captured after 3+ messages"
  const InconsistencyPrefix := "Context inconsistency: "

  /**
   * `check_conversation_health`: one issue past 10 rounds and one for an inconsistency, one
   * warning each past 8 rounds, for a stall and for missing goals, and the overall verdict.
   */
  function CheckConversationHealth(s: AgentState): (r: HealthReport)
    ensures r.health == Unhealthy <==> s.loopCount > 10 || !Consistent(s)
    ensures r.health == Warning <==>
      s.loopCount <= 10 && Consistent(s) && (s.loopCount > 8 || Stalled(s) || GoalsMissing(s))
    ensures r.health == Healthy <==> s.loopCount <= 8 && Consistent(s) && !Stalled(s) && !GoalsMissing(s)
    ensures |r.issues| == (if s.loopCount > 10 then 1 else 0) + (if Consistent(s) then 0 else 1)
    ensures s.loopCount > 10 ==> r.issues[0] == LoopExceededPrefix + IntToString(s.loopCount)
    ensures !Consistent(s) ==>
      r.issues[|r.issues| - 1] == InconsistencyPrefix + Join(ConsistencyIssues(s), "; ")
    ensures |r.warnings| ==
      (if s.loopCount > 8 then 1 else 0) + (if Stalled(s) then 1 else 0) + (if GoalsMissing(s) then 1 else 0)
    ensures s.loopCount > 8 ==> r.warnings[0] == HighLoopPrefix + IntToString(s.loopCount)
    ensures Stalled(s) ==> r.warnings[if s.loopCount > 8 then 1 else 0] == NoProgressText
    ensures GoalsMissing(s) ==> r.warnings[|r.warnings| - 1] == GoalsMissingText
    ensures r.loopCount == s.loopCount && r.messageCount == |s.messages|
  {
    ConsistencyIssuesEmptyIffConsistent(s);
    var issues := ConsistencyIssues(s);
    var loopWarning := if s.loopCount > 8 then [HighLoopPrefix + IntToString(s.loopCount)] else [];
    var loopIssue := if s.loopCount > 10 then [LoopExceededPrefix + IntToString(s.loopCount)] else [];
    var stallWarning := if Stalled(s) then [NoProgressText] else [];
    var goalWarning := if GoalsMissing(s) then [GoalsMissingText] else [];
    var consistencyIssue := if issues != [] then [InconsistencyPrefix + Join(issues, "; ")] else [];
    var allIssues := loopIssue + consistencyIssue;
    var allWarnings := loopWarning + stallWarning + goalWarning;
    HealthReport(
      if allIssues != [] then Unhealthy else if allWarnings != [] then Warning else Healthy,
      allIssues, allWarnings, s.loopCount, |s.messages|)
  }

  // ---------------------------------------------------------------------------------------
  // Topic switching

  const SwitchKeywords: seq<string> :=
    ["换个话题", "另外", "还有", "对了", "顺便问一下", "我想问", "我还想", "by the way", "also", "another question"]
  const ReturnKeywords: seq<string> := ["回到", "之前", "刚才", "前面", "earlier", "previous", "back to"]

  datatype TopicShift = NewTopic | PreviousTopic

  /**
   * `detect_topic_switch`: reads the user's most recent message, lower-cased; switching
   * keywords are looked for before returning ones.
   */
  function DetectTopicSwitch(s: AgentState): (r: Option<TopicShift>)
    ensures LastUserContent(s.messages).None? ==> r.None?
    ensures r == Some(NewTopic) <==>
      LastUserContent(s.messages).Some? && ContainsAny(Lower(LastUserContent(s.messages).value), SwitchKeywords)
    ensures r == Some(PreviousTopic) <==>
      LastUserContent(s.messages).Some? && !ContainsAny(Lower(LastUserContent(s.messages).value), SwitchKeywords) &&
      ContainsAny(Lower(LastUserContent(s.messages).value), ReturnKeywords)
  {
    match LastUserContent(s.messages)
    case None => None
    case Some(content) =>
      var text := Lower(content);
      if ContainsAny(text, SwitchKeywords) then Some(NewTopic)
      else if ContainsAny(text, ReturnKeywords) then Some(PreviousTopic)
      else None
  }

  /** Only the user's last message matters: replies by the assistant or the system change nothing. */
  lemma DetectTopicSwitchIgnoresReplies(s: AgentState, m: Message)
    requires m.role != UserRole
    ensures DetectTopicSwitch(s.Say(m)) == DetectTopicSwitch(s)
  {
    var msgs := s.messages + [m];
    assert msgs[..|msgs| - 1] == s.messages;
  }

  /** A new user message decides the outcome alone, whatever came before it. */
  lemma DetectTopicSwitchReadsLatestUserMessage(s: AgentState, t: AgentState, content: string, agent: Option<string>)
    ensures DetectTopicSwitch(s.Say(Message(UserRole, content, agent))) ==
            DetectTopicSwitch(t.Say(Message(UserRole, content, agent)))
  {
  }

  const TopicSwitchText := "好的，我明白了。让我们来讨论这个新话题。"
  const NoPreviousTopicText := "我们还没有讨论过其他话题。您想讨论什么呢？"

  /** The state after `handle_topic_switch`. */
  function TopicSwitched(s: AgentState): AgentState
  {
    var saved := s.Stack() + [ExtractConversationContext(s)];
    s.(userProfile := s.userProfile.(conversationStack := Some(saved)))
     .Say(AssistantMessage(TopicSwitchText, SystemRole))
     .(currentTask := None, nextAgent := Some(Coordinator))
  }

  /**
   * `handle_topic_switch`: saves a snapshot of the current context on the topic stack
   * (creating the stack if needed), acknowledges, and hands the new topic to the coordinator.
   */
  method HandleTopicSwitch(st: SharedState, newTopic: string)
    modifies st
    ensures st.Value() == TopicSwitched(old(st.Value()))
  {
    var current := ExtractConversationContext(st.Value());
    var stack := if st.userProfile.conversationStack.None? then [] else st.userProfile.conversationStack.value;
    st.userProfile := st.userProfile.(conversationStack := Some(stack + [current]));
    st.AddMessage(AssistantRole, TopicSwitchText, Some(SystemRole));
    st.currentTask := None;
    st.nextAgent := Some(Coordinator);
  }

  /** How the return message names a saved phase. */
  function PhaseLabel(phase: string): string
  {
    if phase == PlanExecution then "学习计划执行"
    else if phase == PlanReview then "学习计划审核"
    else if phase == CourseSelection then "课程选择"
    else if phase == GoalClarification then "目标明确"
    else if phase == InitialInquiry then "初始咨询"
    else "之前的话题"
  }

  /** The message announcing the return to a saved phase. */
  function ReturnText(phase: string): string
  {
    "好的，让我们回到" + PhaseLabel(phase) + "。"
  }

  /** The state after `return_to_previous_topic`. */
  function ReturnedToPrevious(s: AgentState): AgentState
  {
    var stack := s.Stack();
    if stack == [] then s.Say(AssistantMessage(NoPreviousTopicText, SystemRole))
    else
      var previous := stack[|stack| - 1];
      s.(userProfile := s.userProfile.(conversationStack := Some(stack[..|stack| - 1])))
       .Say(AssistantMessage(ReturnText(previous.phase), SystemRole))
       .(currentTask := if HasText(previous.currentTask) then previous.currentTask else s.currentTask,
         nextAgent := Some(Coordinator))
  }

  /**
   * `return_to_previous_topic`: pops the most recent snapshot, announces its phase, restores
   * its task when it had one, and hands over to the coordinator; with nothing saved it only
   * says so.
   */
  method ReturnToPreviousTopic(st: SharedState)
    modifies st
    ensures st.Value() == ReturnedToPrevious(old(st.Value()))
  {
    var stack := if st.userProfile.conversationStack.None? then [] else st.userProfile.conversationStack.value;
    if stack == [] {
      st.AddMessage(AssistantRole, NoPreviousTopicText, Some(SystemRole));
      return;
    }
    var previous := stack[|stack| - 1];
    st.userProfile := st.userProfile.(conversationStack := Some(stack[..|stack| - 1]));
    st.AddMessage(AssistantRole, ReturnText(previous.phase), Some(SystemRole));
    if HasText(previous.currentTask) {
      st.currentTask := previous.currentTask;
    }
    st.nextAgent := Some(Coordinator);
  }

  /**
   * Switching topics and then returning restores the stack as it was, brings back the task
   * (when it was set), and names the phase the conversation was in.
   */
  lemma SwitchThenReturnRestores(s: AgentState)
    ensures var r := ReturnedToPrevious(TopicSwitched(s));
      && r.Stack() == s.Stack()
      && r.userProfile.conversationStack == Some(s.Stack())
      && r.messages == s.messages + [AssistantMessage(TopicSwitchText, SystemRole), AssistantMessage(ReturnText(PhaseOf(s)), SystemRole)]
      && r.currentTask == (if HasText(s.currentTask) then s.currentTask else None)
      && r.nextAgent == Some(Coordinator)
      && r.courseCandidates == s.courseCandidates && r.learningPlan == s.learningPlan
      && r.loopCount == s.loopCount
  {
    var saved := s.Stack() + [ExtractConversationContext(s)];
    assert saved[..|saved| - 1] == s.Stack();
  }

  /** Returning with nothing saved adds one message and changes nothing else. */
  lemma ReturnWithoutSavedTopic(s: AgentState)
    requires s.Stack() == []
    ensures ReturnedToPrevious(s) == s.Say(AssistantMessage(NoPreviousTopicText, SystemRole))
  {
  }

  // ---------------------------------------------------------------------------------------
  // Subtask summaries

  /** The fields of a subtask result the summaries read; an absent field takes its default. */
  datatype SubtaskResult = SubtaskResult(
    numCourses: Option<int> := None,
    milestones: Option<seq<Json>> := None,
    estimatedDuration: Option<string> := None,
    status: Option<string> := None,
    feedbackType: Option<string> := None)

  const CourseSearch := "course_search"
  const LearningPlanCreation := "learning_plan_creation"
  const PlanApproval := "plan_approval"
  const CourseRecommendationFeedback := "course_recommendation_feedback"

  const PlanConfirmedText := "✓ 学习计划已确认。\n接下来我会继续协助您执行这个计划。"
  const PlanFeedbackText := "✓ 已收到您的反馈。\n让我根据您的建议调整计划。"
  const SatisfiedText := "✓ 很高兴您对推荐满意。\n如果需要制定学习计划或有其他问题，请告诉我。"
  const MoreCoursesText := "✓ 收到，让我为您寻找更多课程。"
  const AdjustRecommendationText := "✓ 已收到您的反馈。\n让我根据您的需求调整推荐。"

  /** The summary a completed subtask gets; subtasks without their own wording get a generic one. */
  function SubtaskSummary(name: string, result: SubtaskResult): string
  {
    if name == CourseSearch then
      "✓ 课程搜索完成：找到了 " + IntToString(result.numCourses.GetOr(0)) + " 门相关课程。\n您可以查看上述推荐，或告诉我您的反馈。"
    else if name == LearningPlanCreation then
      "✓ 学习计划制定完成：包含 " + NatToString(|result.milestones.GetOr([])|) + " 个里程碑，预计学习时长 "
        + result.estimatedDuration.GetOr("未知") + "。\n请查看上述计划并告诉我您的意见。"
    else if name == PlanApproval then
      if result.status == Some(Approved) then PlanConfirmedText else PlanFeedbackText
    else if name == CourseRecommendationFeedback then
      if result.feedbackType == Some("satisfied") then SatisfiedText
      else if result.feedbackType == Some("more") then MoreCoursesText
      else AdjustRecommendationText
    else "✓ " + name + " 已完成。"
  }

  /** Every summary is a check-marked line; a subtask without its own wording is named in it. */
  lemma SubtaskSummaryShape(name: string, result: SubtaskResult)
    ensures SubtaskSummary(name, result)[..2] == "✓ "
    ensures name !in {CourseSearch, LearningPlanCreation, PlanApproval, CourseRecommendationFeedback} ==>
      Contains(SubtaskSummary(name, result), name)
  {
    var r := SubtaskSummary(name, result);
    if name !in {CourseSearch, LearningPlanCreation, PlanApproval, CourseRecommendationFeedback} {
      assert r[2..2 + |name|] == name;
      OccursAtContains(r, name, 2);
    }
  }

  /** The state after `summarize_subtask_completion`. */
  function SubtaskSummarized(s: AgentState, name: string, result: SubtaskResult): AgentState
  {
    s.Say(AssistantMessage(SubtaskSummary(name, result), SystemRole))
  }

  /** `summarize_subtask_completion`: exactly one summary message, nothing else changes. */
  method SummarizeSubtaskCompletion(st: SharedState, name: string, result: SubtaskResult)
    modifies st
    ensures st.Value() == SubtaskSummarized(old(st.Value()), name, result)
  {
    st.AddMessage(AssistantRole, SubtaskSummary(name, result), Some(SystemRole));
  }
}
