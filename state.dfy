/** The shared state the agents read and write, and the values it is made of. */
module State {
  import opened Wrappers
  import opened Json

  const UserRole := "user"
  const AssistantRole := "assistant"
  const SystemRole := "system"
  /** The roles a message may have. */
  const Roles: set<string> := {UserRole, AssistantRole, SystemRole}

  const Coordinator := "coordinator"
  const CourseAdvisor := "course_advisor"
  const LearningPlanner := "learning_planner"
  const HumanInput := "human_input"
  const End := "end"
  /** The names `next_agent` may hold. */
  const AgentNames: set<string> := {Coordinator, CourseAdvisor, LearningPlanner, HumanInput, End}

  /** The skill levels a profile may record. */
  const SkillLevels: set<string> := {"beginner", "intermediate", "advanced"}

  const Draft := "draft"
  const Approved := "approved"
  const InProgress := "in_progress"
  /** The states of a learning plan. */
  const PlanStatuses: set<string> := {Draft, Approved, InProgress}

  /** One entry of the conversation; the timestamp is not modelled. */
  datatype Message = Message(role: string, content: string, agent: Option<string>)

  /** Python truthiness of an optional string: present and non-empty. */
  predicate HasText(o: Option<string>)
  {
    o.Some? && o.value != ""
  }

  /**
   * The content of the most recent message whose role is "user", or `None` when the user
   * has not spoken.
   */
  function LastUserContent(msgs: seq<Message>): (r: Option<string>)
    ensures r.None? <==> forall i :: 0 <= i < |msgs| ==> msgs[i].role != UserRole
    ensures r.Some? ==> exists i :: 0 <= i < |msgs| && msgs[i].role == UserRole && msgs[i].content == r.value &&
                                    forall j :: i < j < |msgs| ==> msgs[j].role != UserRole
    decreases |msgs|
  {
    if msgs == [] then None
    else if msgs[|msgs| - 1].role == UserRole then Some(msgs[|msgs| - 1].content)
    else LastUserContent(msgs[..|msgs| - 1])
  }

  /**
   * What an agent is asked to work on: the current task when it is non-empty, otherwise the
   * user's latest message, otherwise `fallback`.
   */
  function UserRequest(s: AgentState, fallback: string): (r: string)
    ensures HasText(s.currentTask) ==> r == s.currentTask.value
    ensures !HasText(s.currentTask) && LastUserContent(s.messages).Some? ==> r == LastUserContent(s.messages).value
    ensures !HasText(s.currentTask) && (forall i :: 0 <= i < |s.messages| ==> s.messages[i].role != UserRole) ==>
      r == fallback
  {
    if HasText(s.currentTask) then s.currentTask.value else LastUserContent(s.messages).GetOr(fallback)
  }

  /** A message the system itself writes on behalf of `agent`. */
  function AssistantMessage(content: string, agent: string): Message
  {
    Message(AssistantRole, content, Some(agent))
  }

  /** `str(x)` of an optional string: `None` prints as "None". */
  function Show(o: Option<string>): string
  {
    match o
    case Some(v) => v
    case None => "None"
  }

  /** A course found by a search tool; `rating` is kept as the text it prints as. */
  datatype Course = Course(
    title: string,
    url: string,
    description: string,
    difficulty: string,
    duration: Option<string>,
    rating: Option<string>,
    source: string)

  /** A web search hit as the search client reports it. */
  datatype WebResult = WebResult(title: string, url: string, snippet: string, source: string)

  /**
   * The course-search tool of the browser client, as seen by its callers: the courses found
   * for a query, or the type name of the exception it raised.
   */
  type GeektimeSearch = string -> Result<seq<Course>, string>

  /**
   * The web-search client: the results for a query and a result cap, or the type name of the
   * exception it raised.
   */
  type WebSearch = (string, nat) -> Result<seq<WebResult>, string>

  /** A learning plan; milestones stay decoded JSON, `created_at` is not modelled. */
  datatype LearningPlan = LearningPlan(
    goal: string,
    milestones: seq<Json>,
    recommendedCourses: seq<Course>,
    estimatedDuration: string,
    status: string)

  /**
   * The snapshot of a conversation that a topic switch saves: its phase, the (truncated)
   * recent messages, and what the conversation had gathered so far.
   */
  datatype Context = Context(
    phase: string,
    recentMessages: seq<Message>,
    userGoals: seq<string>,
    hasCourses: bool,
    numCourses: nat,
    hasPlan: bool,
    planStatus: Option<string>,
    currentTask: Option<string>)

  /**
   * The user profile. Its preference dictionary holds opaque settings, except for the
   * reserved key `conversation_stack`, which is kept apart as the stack of saved contexts.
   */
  datatype UserProfile = UserProfile(
    userId: string,
    background: Option<string>,
    skillLevel: Option<string>,
    learningGoals: seq<string>,
    timeAvailability: Option<string>,
    preferences: map<string, string>,
    conversationStack: Option<seq<Context>>)

  /** The state every node of the conversation graph receives and returns. */
  datatype AgentState = AgentState(
    messages: seq<Message>,
    conversationId: string,
    userProfile: UserProfile,
    currentTask: Option<string>,
    nextAgent: Option<string>,
    courseCandidates: seq<Course>,
    learningPlan: Option<LearningPlan>,
    requiresHumanInput: bool,
    humanFeedback: Option<string>,
    loopCount: int,
    isComplete: bool)
  {
    /** The state with one more message at the end of the history. */
    function Say(m: Message): AgentState
    {
      this.(messages := messages + [m])
    }

    /** The saved-topic stack, empty when the key was never created. */
    function Stack(): seq<Context>
    {
      userProfile.conversationStack.GetOr([])
    }
  }
}
