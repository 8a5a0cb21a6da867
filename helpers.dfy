/**
 * Creating, validating, updating and routing the shared state: the state is a `SharedState`
 * object whose fields the helpers update in place, and `Value()` is its current value.
 */
module Helpers {
  import opened Wrappers
  import opened Text
  import opened State

  /**
   * A fresh conversation. An identifier the caller leaves out is replaced by a generated
   * one, which the model receives as `newConversationId` / `newUserId`.
   */
  function CreateInitialState(
    conversationId: Option<string>, userId: Option<string>,
    newConversationId: string, newUserId: string): AgentState
  {
    AgentState(
      messages := [],
      conversationId := conversationId.GetOr(newConversationId),
      userProfile := UserProfile(userId.GetOr(newUserId), None, None, [], None, map[], None),
      currentTask := None,
      nextAgent := None,
      courseCandidates := [],
      learningPlan := None,
      requiresHumanInput := false,
      humanFeedback := None,
      loopCount := 0,
      isComplete := false)
  }

  /** The errors `validate_state` reports. */
  const EmptyConversationId := "conversation_id must be a non-empty string"
  const InvalidSkillLevel := "skill_level must be one of ['beginner', 'intermediate', 'advanced']"
  const InvalidPlanStatus := "learning_plan.status must be one of ['draft', 'approved', 'in_progress']"
  const NegativeLoopCount := "loop_count must be non-negative"
  const InvalidNextAgent := "next_agent must be one of ['coordinator', 'course_advisor', 'learning_planner', 'human_input', 'end']"

  /** The error for the message at index `i`. */
  function InvalidRoleError(i: nat): string
  {
    "Message at index " + NatToString(i) + " has invalid role"
  }

  /** What a well-formed state satisfies, stated field by field. */
  predicate WellFormed(s: AgentState)
  {
    && s.conversationId != ""
    && (forall i :: 0 <= i < |s.messages| ==> s.messages[i].role in Roles)
    && (s.userProfile.skillLevel.Some? ==> s.userProfile.skillLevel.value in SkillLevels)
    && (s.learningPlan.Some? ==> s.learningPlan.value.status in PlanStatuses)
    && s.loopCount >= 0
    && (s.nextAgent.Some? ==> s.nextAgent.value in AgentNames)
  }

  /** The index of the first message whose role is not one of the three roles, or `|msgs|`. */
  function FirstInvalidRole(msgs: seq<Message>): (r: nat)
    ensures r <= |msgs|
    ensures r < |msgs| ==> msgs[r].role !in Roles
    ensures forall j :: 0 <= j < r ==> msgs[j].role in Roles
  {
    if msgs == [] then 0
    else if msgs[0].role !in Roles then 0
    else 1 + FirstInvalidRole(msgs[1..])
  }

  /**
   * The error `validate_state` reports: the first check that fails, in the order the
   * checks are made, or `None` for a valid state.
   */
  function Validation(s: AgentState): (r: Option<string>)
    ensures r.None? <==> WellFormed(s)
  {
    var bad := FirstInvalidRole(s.messages);
    if s.conversationId == "" then Some(EmptyConversationId)
    else if bad < |s.messages| then Some(InvalidRoleError(bad))
    else if s.userProfile.skillLevel.Some? && s.userProfile.skillLevel.value !in SkillLevels then
      Some(InvalidSkillLevel)
    else if s.learningPlan.Some? && s.learningPlan.value.status !in PlanStatuses then
      Some(InvalidPlanStatus)
    else if s.loopCount < 0 then Some(NegativeLoopCount)
    else if s.nextAgent.Some? && s.nextAgent.value !in AgentNames then
      Some(InvalidNextAgent)
    else None
  }

  /** `validate_state`: checks the messages one by one and stops at the first failure. */
  method ValidateState(s: AgentState) returns (isValid: bool, error: Option<string>)
    ensures error == Validation(s)
    ensures isValid <==> WellFormed(s)
  {
    if s.conversationId == "" {
      return false, Some(EmptyConversationId);
    }
    var i := 0;
    while i < |s.messages|
      invariant 0 <= i <= |s.messages|
      invariant forall j :: 0 <= j < i ==> s.messages[j].role in Roles
    {
      if s.messages[i].role !in Roles {
        assert FirstInvalidRole(s.messages) == i;
        return false, Some(InvalidRoleError(i));
      }
      i := i + 1;
    }
    assert FirstInvalidRole(s.messages) == |s.messages|;
    var profile := s.userProfile;
    if profile.skillLevel.Some? && profile.skillLevel.value !in SkillLevels {
      return false, Some(InvalidSkillLevel);
    }
    if s.learningPlan.Some? && s.learningPlan.value.status !in PlanStatuses {
      return false, Some(InvalidPlanStatus);
    }
    if s.loopCount < 0 {
      return false, Some(NegativeLoopCount);
    }
    if s.nextAgent.Some? && s.nextAgent.value !in AgentNames {
      return false, Some(InvalidNextAgent);
    }
    return true, None;
  }

  /**
   * A fresh state starts with nothing gathered, no routing request and no saved topics, keeps
   * the identifiers it is given, and passes validation whenever its conversation identifier is
   * non-empty.
   */
  lemma InitialStateIsValid(conversationId: Option<string>, userId: Option<string>, newConversationId: string, newUserId: string)
    ensures var s := CreateInitialState(conversationId, userId, newConversationId, newUserId);
      && s.messages == [] && s.courseCandidates == [] && s.learningPlan.None? && s.currentTask.None?
      && s.nextAgent.None? && s.loopCount == 0 && !s.requiresHumanInput && !s.isComplete
      && s.userProfile.preferences == map[] && s.userProfile.learningGoals == [] && s.Stack() == []
      && (conversationId.Some? ==> s.conversationId == conversationId.value)
      && (userId.Some? ==> s.userProfile.userId == userId.value)
      && (Validation(s) == None <==> s.conversationId != "")
  {
  }

  /**
   * `route_next`: the node the graph visits after the coordinator. The loop guard wins over
   * everything, completion over a pending human-input request, and the request over the
   * coordinator's choice; an unknown or missing choice ends the conversation.
   */
  function RouteNext(s: AgentState, maxLoopCount: int): (r: string)
    ensures r in AgentNames
    ensures s.loopCount > maxLoopCount || s.isComplete ==> r == End
    ensures r == HumanInput <==>
      s.loopCount <= maxLoopCount && !s.isComplete && (s.requiresHumanInput || s.nextAgent == Some(HumanInput))
    ensures r in {Coordinator, CourseAdvisor, LearningPlanner} ==>
      s.loopCount <= maxLoopCount && !s.isComplete && !s.requiresHumanInput && s.nextAgent == Some(r)
    ensures r == End && s.loopCount <= maxLoopCount && !s.isComplete ==>
      !s.requiresHumanInput && (s.nextAgent.None? || s.nextAgent == Some(End) || s.nextAgent.value !in AgentNames)
  {
    if s.loopCount > maxLoopCount then End
    else if s.isComplete then End
    else if s.requiresHumanInput then HumanInput
    else if s.nextAgent.Some? && s.nextAgent.value in AgentNames then s.nextAgent.value
    else End
  }

  /** The conversation state, updated in place by the helpers, the nodes and the error handlers. */
  class SharedState {
    var messages: seq<Message>
    var conversationId: string
    var userProfile: UserProfile
    var currentTask: Option<string>
    var nextAgent: Option<string>
    var courseCandidates: seq<Course>
    var learningPlan: Option<LearningPlan>
    var requiresHumanInput: bool
    var humanFeedback: Option<string>
    var loopCount: int
    var isComplete: bool

    /** The state's current value. */
    function Value(): AgentState
      reads this
    {
      AgentState(messages, conversationId, userProfile, currentTask, nextAgent, courseCandidates,
                 learningPlan, requiresHumanInput, humanFeedback, loopCount, isComplete)
    }

    constructor (s: AgentState)
      ensures Value() == s
    {
      messages := s.messages;
      conversationId := s.conversationId;
      userProfile := s.userProfile;
      currentTask := s.currentTask;
      nextAgent := s.nextAgent;
      courseCandidates := s.courseCandidates;
      learningPlan := s.learningPlan;
      requiresHumanInput := s.requiresHumanInput;
      humanFeedback := s.humanFeedback;
      loopCount := s.loopCount;
      isComplete := s.isComplete;
    }

    /** Replace the whole value (the nodes compute the new value of a step, then store it). */
    method Set(s: AgentState)
      modifies this
      ensures Value() == s
    {
      messages, conversationId, userProfile, currentTask, nextAgent := s.messages, s.conversationId, s.userProfile, s.currentTask, s.nextAgent;
      courseCandidates, learningPlan, requiresHumanInput := s.courseCandidates, s.learningPlan, s.requiresHumanInput;
      humanFeedback, loopCount, isComplete := s.humanFeedback, s.loopCount, s.isComplete;
    }

    /** `add_message`: one message at the end of the history, nothing else changes. */
    method AddMessage(role: string, content: string, agent: Option<string>)
      modifies this
      ensures Value() == old(Value()).(messages := old(messages) + [Message(role, content, agent)])
    {
      messages := messages + [Message(role, content, agent)];
    }

    /** `increment_loop_count`. */
    method IncrementLoopCount()
      modifies this
      ensures Value() == old(Value()).(loopCount := old(loopCount) + 1)
    {
      loopCount := loopCount + 1;
    }

    /** `reset_loop_count`. */
    method ResetLoopCount()
      modifies this
      ensures Value() == old(Value()).(loopCount := 0)
    {
      loopCount := 0;
    }

    /** `mark_complete`: afterwards `route_next` ends the conversation. */
    method MarkComplete()
      modifies this
      ensures Value() == old(Value()).(isComplete := true, nextAgent := Some(End))
      ensures forall max :: RouteNext(Value(), max) == End
    {
      isComplete := true;
      nextAgent := Some(End);
    }

    /** `request_human_input`: afterwards `route_next` asks the user, unless the loop guard fires. */
    method RequestHumanInput()
      modifies this
      ensures Value() == old(Value()).(requiresHumanInput := true, nextAgent := Some(HumanInput))
      ensures forall max :: max >= loopCount && !isComplete ==> RouteNext(Value(), max) == HumanInput
    {
      requiresHumanInput := true;
      nextAgent := Some(HumanInput);
    }

    /** `clear_human_input_request`. */
    method ClearHumanInputRequest()
      modifies this
      ensures Value() == old(Value()).(requiresHumanInput := false, humanFeedback := None)
    {
      requiresHumanInput := false;
      humanFeedback := None;
    }
  }

  /** The helpers keep a well-formed state well-formed (adding a message with a known role). */
  lemma HelpersPreserveWellFormed(s: AgentState, role: string, content: string, agent: Option<string>)
    requires WellFormed(s)
    ensures role in Roles ==> WellFormed(s.(messages := s.messages + [Message(role, content, agent)]))
    ensures WellFormed(s.(loopCount := s.loopCount + 1))
    ensures WellFormed(s.(loopCount := 0))
    ensures WellFormed(s.(isComplete := true, nextAgent := Some(End)))
    ensures WellFormed(s.(requiresHumanInput := true, nextAgent := Some(HumanInput)))
    ensures WellFormed(s.(requiresHumanInput := false, humanFeedback := None))
  {
  }
}
