# study_agent conversation orchestration, in Dafny

This project models the conversation-orchestration core of study_agent. study_agent is a
multi-agent study assistant. A coordinator agent routes each user turn to one of three
places: a course advisor, a learning planner, or a human-input step. All of them read and
update one shared `AgentState`. The model covers the following parts.

- **State record** (`State`): messages, user profile, course candidates, learning plan,
  routing flags and loop counter.
- **State helpers** (`Helpers`):
  - the initial state and the ordered validator;
  - the router `route_next`, with its strict precedence of loop limit, completion, human
    input, a valid next agent, and end;
  - the in-place mutators of a `SharedState` object.
- **Conversation flow** (`ConversationFlow`): the topic stack kept in the user's preferences,
  phase classification, topic-switch detection, transition and subtask-summary messages, the
  consistency and health checks, and the stand-alone `ConversationContext` stack.
- **Error policy** (`ErrorHandler`): one message per handler, a rebuilt state after a state
  error, and the recoverability and retry predicates over the exception's type name.
- **Graph nodes** (`Nodes`): entry, coordinator, course advisor, learning planner, human input
  and end. Each is a method on the shared state, proved against a function of the old state.
- **Compiled graph** (`Builder`): the node and edge table, the configured loop limit, and what
  running the graph means.
  - With the coordinator's agent present, every run leaves through the end node within 23
    node executions, whatever the configured limit.
  - Without that agent, a run only ever asks the user.
- **Tool manager** (`ToolManagement`): the per-tool availability flags, which stay off once
  cleared until `reset_tool_availability` turns them back on; the fallback from the course site to web search; and `ToolExecutionResult`.
- **Agent-side parsing and formatting** (`CoordinatorAgent`, `CourseAdvisorAgent`,
  `LearningPlannerAgent`, `Json`): brace extraction, required fields, the normalisation of an
  unknown agent, the tool loop that skips failures, the query cap, and the numbered list
  formatters.

The language model, the tools and `json.loads` enter the model as parameters:

- a model reply is a `Result<string, string>`, where the error is the exception's type name;
- a tool is a function from its query to a result;
- the decoder is an uninterpreted function from text to an optional JSON object.

An agent call seen from a node is an `AgentCall`: a missing agent, a value, or a raised error.

`builder.py` gives the learning planner an unconditional edge back to the coordinator node,
not to the human-input node and not to the coordinator's router. The planner node sets
`requires_human_input` and `next_agent` to ask the user to approve the draft plan, but the
coordinator node runs next and overwrites both with its fresh decision before `route_next`
reads them. The request for approval therefore survives only when the coordinator round asks
for input again. That happens when its model's decision asks for input, or when the round fails
and an error handler sets `requires_human_input` again. A returned decision that names an agent
without asking replaces the request (`Builder.PlannerEdgeBypassesApproval`). A raised error or
a missing agent keeps it, and the draft plan then still waits for approval
(`Builder.FailedCoordinatorKeepsApproval`).

## Model

| member | source | states |
|---|---|---|
| Helpers.InitialStateIsValid | src/graph/helpers.py:15-69 | the initial state has no messages, candidates, plan, task or next agent; its loop count is 0, both flags are off and preferences are empty; it keeps the given identifiers; and validation accepts it exactly when the conversation id is non-empty |
| Helpers.FirstInvalidRole | src/graph/helpers.py:108-114 | the index of the first message whose role is not user, assistant or system (or the length); every earlier message has a valid role |
| Helpers.Validation | src/graph/helpers.py:71-209 | the ordered validator finds no error exactly when the state is well-formed |
| Helpers.ValidateState | src/graph/helpers.py:71-209 | the loop reports the first failing check, and success exactly for a well-formed state |
| Helpers.RouteNext | src/graph/helpers.py:309-371 | the result is one of the five node names; it is end past the loop limit or when complete; it is human_input exactly when the limit and completion do not fire and input is requested; a specialist is returned only when it is the valid next agent; otherwise end |
| Helpers.SharedState.constructor | src/graph/state.py:86-124 | the object holds exactly the given state |
| Helpers.SharedState.Set | src/graph/state.py:86-124 | the object afterwards holds the given state |
| Helpers.SharedState.AddMessage | src/graph/helpers.py:211-239 | exactly one message is appended at the end; every other field is unchanged |
| Helpers.SharedState.IncrementLoopCount | src/graph/helpers.py:241-252 | the loop count grows by exactly one and nothing else changes |
| Helpers.SharedState.ResetLoopCount | src/graph/helpers.py:254-265 | the loop count becomes 0 and nothing else changes |
| Helpers.SharedState.MarkComplete | src/graph/helpers.py:267-279 | exactly `is_complete` and `next_agent` change; the router then answers end for every limit |
| Helpers.SharedState.RequestHumanInput | src/graph/helpers.py:281-293 | exactly the flag and `next_agent` change; within the limit and while not complete, the router then answers human_input |
| Helpers.SharedState.ClearHumanInputRequest | src/graph/helpers.py:295-307 | exactly the flag and the pending feedback are cleared |
| Helpers.HelpersPreserveWellFormed | src/graph/helpers.py:211-307 | every mutator keeps a well-formed state well-formed; `add_message` does so for a valid role |
| ErrorHandler.LlmErrorText | src/utils/error_handler.py:48-57 | the apology is chosen by type-name substring, in the order Connection, Timeout, API, then default; both directions of each case |
| ErrorHandler.HandleLlmError | src/utils/error_handler.py:34-78 | the state becomes the old one with one system apology appended and human input requested |
| ErrorHandler.ToolErrorTextNamesTool | src/utils/error_handler.py:99-110 | the tool-failure notice contains the tool's name |
| ErrorHandler.HandleToolError | src/utils/error_handler.py:80-119 | one notice is appended and the human-input flag is unchanged |
| ErrorHandler.HandleStateError | src/utils/error_handler.py:121-182 | a fresh state object is returned, holding the state rebuilt from the stored conversation id: "unknown" when missing, a generated id when stored as None, the stored text otherwise |
| ErrorHandler.StateErrorResets | src/utils/error_handler.py:135-181 | the rebuilt state's conversation id is "unknown" when the entry is missing, the newly generated id when it is stored as None (create_initial_state generates one), and the stored text otherwise; its only message is the reset notice; it is otherwise initial; it is well-formed unless its id is empty |
| ErrorHandler.HandleRoutingError | src/utils/error_handler.py:184-224 | one clarification from the coordinator is appended and human input is requested |
| ErrorHandler.HandleGenericError | src/utils/error_handler.py:226-265 | one apology is appended and human input is requested |
| ErrorHandler.HandleVllmServiceFailure | src/utils/error_handler.py:328-359 | one service-down notice is appended and human input is requested |
| ErrorHandler.HandlersAppendOneMessage | src/utils/error_handler.py:34-265 | each in-place handler appends exactly one assistant message, keeps the earlier history, id, loop count, next agent and task, and sets the human-input flag except the tool handler, which keeps it |
| ErrorHandler.RecoverableIffConnectionOrTimeout | src/utils/error_handler.py:267-283 | an error is recoverable exactly when its type name contains "Connection" or "Timeout" |
| ErrorHandler.RecoverableMatchesApology | src/utils/error_handler.py:48-57 | recoverable errors are exactly those that get the connection or timeout apology |
| ErrorHandler.ShouldRetry | src/utils/error_handler.py:285-303 | a retry is advised exactly when attempts remain and the error is recoverable |
| ConversationFlow.ConversationContext.constructor | src/graph/conversation_flow.py:33-36 | both the topic stack and the subtask log start empty |
| ConversationFlow.ConversationContext.PushTopic | src/graph/conversation_flow.py:38-51 | the topic becomes the new top of the stack; the subtask log is unchanged |
| ConversationFlow.ConversationContext.PopTopic | src/graph/conversation_flow.py:53-64 | an empty stack yields nothing and stays empty; otherwise the top is returned and removed |
| ConversationFlow.ConversationContext.GetCurrentTopic | src/graph/conversation_flow.py:66-75 | the top of the stack, without removing it; nothing exactly when the stack is empty |
| ConversationFlow.ConversationContext.RecordSubtask | src/graph/conversation_flow.py:77-90 | the subtask is appended to the log; the stack is unchanged |
| ConversationFlow.ConversationContext.GetSubtaskHistory | src/graph/conversation_flow.py:92-99 | the log's entries in order |
| ConversationFlow.PushPopRoundTrip | src/graph/conversation_flow.py:38-64 | two pushes followed by two pops return the topics in reverse order and restore the object |
| ConversationFlow.TransitionMessage | src/graph/conversation_flow.py:134-155 | a transition note exists exactly for coordinator to course_advisor and coordinator to learning_planner |
| ConversationFlow.MaintainContextOnTransition | src/graph/conversation_flow.py:102-165 | the state gains that note, if any, and nothing else |
| ConversationFlow.PhaseClassification | src/graph/conversation_flow.py:194-214 | the five-way phase precedence of approved plan, other plan, candidates, goals, and none, each as an if-and-only-if |
| ConversationFlow.ExtractConversationContext | src/graph/conversation_flow.py:167-226 | the snapshot holds the phase, at most the last 5 messages each cut to 100 characters, the course count and flags, goals, plan status and task |
| ConversationFlow.PlanCourseIssuesEmpty | src/graph/conversation_flow.py:316-324 | no plan-course issue is reported exactly when every plan course URL is among the candidates |
| ConversationFlow.ConsistencyIssuesEmptyIffConsistent | src/graph/conversation_flow.py:316-344 | the issue list is empty exactly when all three consistency rules hold |
| ConversationFlow.EnsureContextConsistency | src/graph/conversation_flow.py:298-350 | it returns true and no issue exactly for a consistent state, else the "; "-joined issues |
| ConversationFlow.CheckConversationHealth | src/graph/conversation_flow.py:684-746 | unhealthy exactly past 10 rounds or when inconsistent; warning exactly for the warning thresholds otherwise; healthy otherwise; one issue past 10 rounds (naming the count) followed by one for an inconsistency (carrying the joined consistency issues), and nothing else; one warning past 8 rounds (naming the count), then the no-progress warning for a stall, then the missing-goals warning, and nothing else |
| ConversationFlow.DetectTopicSwitch | src/graph/conversation_flow.py:352-411 | no user message gives none; switch keywords win over return keywords, each as an if-and-only-if on the lowered last user message |
| ConversationFlow.DetectTopicSwitchIgnoresReplies | src/graph/conversation_flow.py:365-372 | appending a non-user message does not change the detection |
| ConversationFlow.DetectTopicSwitchReadsLatestUserMessage | src/graph/conversation_flow.py:365-372 | after a user message is appended, only that message decides |
| ConversationFlow.HandleTopicSwitch | src/graph/conversation_flow.py:413-464 | the state becomes the switched state: one snapshot pushed, one message, task cleared, coordinator next |
| ConversationFlow.ReturnToPreviousTopic | src/graph/conversation_flow.py:466-533 | the state becomes the returned state: the top snapshot popped, one phase-labelled message, the task restored when truthy |
| ConversationFlow.SwitchThenReturnRestores | src/graph/conversation_flow.py:413-533 | a switch followed by a return restores the stack and the task, and sends the run to the coordinator |
| ConversationFlow.ReturnWithoutSavedTopic | src/graph/conversation_flow.py:489-498 | with no saved topic, only a notice is appended |
| ConversationFlow.SubtaskSummaryShape | src/graph/conversation_flow.py:564-620 | every summary starts with the check mark; an unknown subtask gets the generic text naming it |
| ConversationFlow.SummarizeSubtaskCompletion | src/graph/conversation_flow.py:535-625 | exactly one summary message is appended and nothing else changes |
| Json.ObjectText | src/agents/coordinator.py:190-197 | no text exactly when "{" or "}" is missing; otherwise the span from the first "{" to the last "}", empty when they are out of order |
| Json.DecodeObject | src/agents/coordinator.py:190-197 | "No JSON found" exactly when a brace is missing; success only on a decoded non-empty span |
| CoordinatorAgent.ParseDecision | src/agents/coordinator.py:174-227 | missing braces give "No JSON found"; decoding failures surface as such; missing fields raise ValueError; an unknown agent becomes human_input with input requested; defaults for the flag and response |
| CoordinatorAgent.AnalyzeAndRoute | src/agents/coordinator.py:229-284 | a model error propagates; any parse failure yields the fixed human_input decision; otherwise the parsed decision, always with a routable agent |
| CoordinatorAgent.ExtractUserInput | src/agents/coordinator.py:129-144 | the content of the last user message, or the placeholder when there is none |
| CoordinatorAgent.FormatConversationHistory | src/agents/coordinator.py:99-127 | a placeholder for no messages, else one line per message of the last `max_messages`, in order |
| CoordinatorAgent.HistoryLinesBounded | src/agents/coordinator.py:110-127 | the history has at most `max_messages` lines, one per message |
| CourseAdvisorAgent.ExtractUserRequest | src/agents/course_advisor.py:161-180 | the task if truthy, else the last user message, else "课程推荐" |
| CourseAdvisorAgent.DefaultTools | src/agents/course_advisor.py:230-243 | exactly two tools: the course search with the request, and web search with the request plus " 学习资源" |
| CourseAdvisorAgent.SelectTools | src/agents/course_advisor.py:182-228 | never empty; the defaults for a model error, missing JSON or an empty or malformed tool list; otherwise the listed tools |
| CourseAdvisorAgent.Contribution | src/agents/course_advisor.py:258-279 | an empty query contributes nothing; only non-tool errors escape |
| CourseAdvisorAgent.SearchedAppend | src/agents/course_advisor.py:258-279 | the search over two tool lists is the first's results followed by the second's |
| CourseAdvisorAgent.SearchedOkIff | src/agents/course_advisor.py:258-279 | the search succeeds exactly when no tool raises a non-tool error |
| CourseAdvisorAgent.SearchCourses | src/agents/course_advisor.py:245-282 | the loop computes the skipping, concatenating search |
| CourseAdvisorAgent.FormatCourses | src/agents/course_advisor.py:284-308 | a placeholder for no courses, else the numbered blocks joined |
| CourseAdvisorAgent.FormatWebResources | src/agents/course_advisor.py:310-332 | a placeholder for no resources, else the numbered blocks joined |
| CourseAdvisorAgent.FormattedListsNameEveryItem | src/agents/course_advisor.py:294-332 | every course and resource title and URL appears in the formatted text |
| CourseAdvisorAgent.RecommendCourses | src/agents/course_advisor.py:334-389 | the searched courses and resources with the reply, or the error that escaped the search or the final call |
| LearningPlannerAgent.ExtractUserRequest | src/agents/learning_planner.py:177-196 | the task if truthy, else the last user message, else "制定学习计划" |
| LearningPlannerAgent.QueryEntries | src/agents/learning_planner.py:241-251 | a list gives its entries; a string gives its characters, as slicing and iterating it do; anything else fails |
| LearningPlannerAgent.SearchQueries | src/agents/learning_planner.py:212-239 | the two default queries for a model error or undecodable reply; otherwise the listed queries |
| LearningPlannerAgent.Capped | src/agents/learning_planner.py:243 | at most 3 queries, a prefix of the list, all of them when there are few enough |
| LearningPlannerAgent.GatheredOkIff | src/agents/learning_planner.py:241-251 | gathering succeeds exactly when no query raises a non-search error |
| LearningPlannerAgent.SkippedQueryAddsNothing | src/agents/learning_planner.py:243-250 | a query whose search fails is skipped without effect |
| LearningPlannerAgent.SearchLearningResources | src/agents/learning_planner.py:198-253 | the loop gathers over the first 3 queries |
| LearningPlannerAgent.GatheredErrorSticks | src/agents/learning_planner.py:241-251 | an error that escapes a prefix of the queries is the error of the whole search |
| LearningPlannerAgent.FormatCourses | src/agents/learning_planner.py:255-277 | a placeholder for no courses, else the numbered blocks joined |
| LearningPlannerAgent.FormatLearningResources | src/agents/learning_planner.py:279-300 | a placeholder for no resources, else the numbered blocks joined |
| LearningPlannerAgent.FormattedListsNameEveryItem | src/agents/learning_planner.py:255-300 | every course and resource title appears in the formatted text |
| LearningPlannerAgent.ParseLearningPlan | src/agents/learning_planner.py:302-352 | "No JSON found" exactly without braces; missing goal, milestones or duration is an error; a parsed plan is a draft recommending the state's candidates |
| LearningPlannerAgent.UserMessage | src/agents/learning_planner.py:401-410 | the reply's summary when there is one, else the whole reply |
| LearningPlannerAgent.CreateLearningPlan | src/agents/learning_planner.py:354-420 | the plan with its resources and message, or the error of the query step, the search, the model call, or ValueError for a reply that is not a plan |
| Nodes.EntryNode | src/graph/nodes.py:601-623 | exactly `next_agent` becomes coordinator and the loop count 0 |
| Nodes.EndNode | src/graph/nodes.py:625-652 | the state becomes the ended state |
| Nodes.EndNodeCompletes | src/graph/nodes.py:640-650 | complete, no next agent, and a farewell appended unless the last message already says goodbye |
| Nodes.FollowRound | src/graph/nodes.py:143-186 | the state becomes the round's outcome after the topic check and the decision |
| Nodes.CoordinatorNode | src/graph/nodes.py:91-207 | the state becomes the coordinated state |
| Nodes.CoordinatorLoopAccounting | src/graph/nodes.py:114-141 | each round is counted exactly once; past 10 the conversation is completed with one limit message and the router ends it; without the agent nothing is counted and the user is asked |
| Nodes.PreviousTopicSkipsAgent | src/graph/nodes.py:146-154 | a return to the previous topic is served without regard to the agent's answer |
| Nodes.CoordinatorAppliesDecision | src/graph/nodes.py:171-186 | the decision's agent, task and flag are copied, and its reply is appended when non-empty |
| Nodes.CourseAdvisorNode | src/graph/nodes.py:209-301 | the state becomes the advised state |
| Nodes.LearningPlannerNode | src/graph/nodes.py:303-397 | the state becomes the planned state |
| Nodes.PlanApprovalRequestIsReplaced | src/graph/nodes.py:170-177 | after the planner asks for approval, a coordinator decision that names an agent without asking for input clears the request and routes to that agent, counting the round |
| Nodes.FailedRoundKeepsApprovalRequest | src/graph/nodes.py:114-206 | after the planner, a coordinator round whose call raises or whose agent is missing asks for input again, keeps the plan and does not complete; it counts the round unless the agent is missing |
| Nodes.SpecialistsHandBack | src/graph/nodes.py:257-376 | the advisor replaces the candidates and hands back to the coordinator; the planner stores the plan and asks the user |
| Nodes.PromptForFeedback | src/graph/nodes.py:431-472 | the state becomes the prompted state |
| Nodes.ReactToPlanFeedback | src/graph/nodes.py:488-531 | the state becomes the plan-feedback outcome |
| Nodes.ReactToCourseFeedback | src/graph/nodes.py:532-571 | the state becomes the course-feedback outcome |
| Nodes.HumanInputNode | src/graph/nodes.py:399-599 | the state becomes the human-input outcome |
| Nodes.RepeatedPromptAddsNothing | src/graph/nodes.py:434-472 | without feedback the flags are kept, at most one prompt is added, and a second call changes nothing |
| Nodes.FeedbackHandsBackToCoordinator | src/graph/nodes.py:477-598 | feedback is recorded as a user message and one reply follows; the request is cleared and the coordinator is next |
| Nodes.ApprovalTakesPrecedence | src/graph/nodes.py:488-491 | on a draft plan, feedback containing an approval keyword approves the plan |
| Nodes.DisagreementApprovesDraft | src/graph/nodes.py:488-502 | "我不同意" approves the draft, because "同意" is looked for first |
| Nodes.MoreTakesPrecedence | src/graph/nodes.py:532-538 | on candidates, feedback asking for more sets the find-more task |
| Nodes.HumanInputKeepsCompletion | src/graph/nodes.py:399-599 | the human-input node never completes the conversation |
| Nodes.SayKeepsWellFormed | src/graph/helpers.py:108-114 | a message with a valid role keeps a state well-formed |
| Nodes.SwitchKeepsShape | src/graph/conversation_flow.py:413-464 | a topic switch only appends to the history and keeps the loop count and well-formedness |
| Nodes.ReturnKeepsShape | src/graph/conversation_flow.py:466-533 | a return to the previous topic only appends to the history and keeps the loop count and well-formedness |
| Nodes.DecidedKeepsShape | src/graph/nodes.py:176-179 | applying a decision keeps the history and count, and keeps well-formedness for a named agent |
| Nodes.RespondedKeepsShape | src/graph/nodes.py:171-207 | the agent's answer or error handling keeps the history and well-formedness |
| Nodes.CoordinatorRoundKeepsShape | src/graph/nodes.py:143-207 | a whole round keeps the history and well-formedness |
| Nodes.CoordinatorKeepsHistoryAndShape | src/graph/nodes.py:91-207 | the coordinator never drops messages and keeps well-formedness |
| Nodes.AdvisorKeepsHistoryAndShape | src/graph/nodes.py:209-301 | the advisor keeps the history and loop count, and well-formedness |
| Nodes.PlannerKeepsHistoryAndShape | src/graph/nodes.py:303-397 | the planner keeps the history and loop count, and well-formedness for a plan with a known status |
| Nodes.PlanFeedbackKeepsShape | src/graph/nodes.py:488-531 | plan feedback keeps the history, loop count and well-formedness |
| Nodes.CourseFeedbackKeepsShape | src/graph/nodes.py:532-571 | course feedback keeps the history, loop count and well-formedness |
| Nodes.HumanInputKeepsHistoryAndShape | src/graph/nodes.py:399-599 | the human-input node keeps the history, loop count and well-formedness |
| Nodes.EntryAndEndKeepShape | src/graph/nodes.py:601-652 | entry and end keep well-formedness; end keeps the history and count |
| Builder.NodeNamed | src/graph/builder.py:118-124 | each of the five router results maps to the node of the same name, and nothing else maps |
| Builder.MaxLoopCountFromConfig | src/graph/builder.py:156-180 | the configured loop limit, or 10 |
| Builder.Successor | src/graph/builder.py:108-137 | end leads out; entry and the three specialists lead to the coordinator; the coordinator leads to the node the router names |
| Builder.EdgesCountRounds | src/graph/builder.py:115-137 | the edge table sends every non-coordinator node back, never returns to entry, and ends a completed conversation |
| Builder.NodesCountRounds | src/graph/nodes.py:91-652 | with the coordinator's agent present, the coordinator counts each round, stops past its limit, and the other nodes keep the count |
| Builder.CountedRunFinishes | src/graph/builder.py:108-137 | in any graph that counts rounds this way, a run from the coordinator leaves within its budget of steps |
| Builder.RunAlwaysFinishes | src/graph/builder.py:85-137 | started at the entry with the coordinator's agent present, every run leaves through end within 23 node executions, whatever the configured limit |
| Builder.PlannerEdgeBypassesApproval | src/graph/builder.py:130-131 | the planner's state would be routed to human input, yet its edge leads to the coordinator node, whose fresh decision replaces the request; the router then follows that decision |
| Builder.FailedCoordinatorKeepsApproval | src/graph/nodes.py:114-206 | after the planner hands a draft plan to the coordinator, a failed coordinator round routes the run to human input with the draft still awaiting approval |
| Builder.NodesAskForever | src/graph/nodes.py:114-121 | without the coordinator's agent, the coordinator only asks the user and nothing counts the rounds |
| Builder.AskingRunNeverFinishes | src/graph/builder.py:115-134 | in any graph where the coordinator and human input only hand over to each other, a run never leaves |
| Builder.RunWithoutCoordinatorNeverFinishes | src/graph/nodes.py:114-121 | without the coordinator's agent, a run from the coordinator never leaves the graph |
| ToolManagement.AvailabilityOf | src/tools/tool_manager.py:111-114 | exactly the two flags, each on exactly when its client exists |
| ToolManagement.ConvertedCourses | src/tools/tool_manager.py:397-424 | same length and order, each result converted field by field |
| ToolManagement.FallbackCourseSearch | src/tools/tool_manager.py:180-231 | tagged as the fallback; succeeds exactly when web search is usable and succeeds, with the converted courses; marks the fallback as used exactly when it was tried |
| ToolManagement.CourseSearch | src/tools/tool_manager.py:118-178 | only the course-site flag changes, and it is cleared exactly by a failed primary attempt; a primary success is exactly a success without fallback; fallback only when allowed; success exactly without error |
| ToolManagement.NoFallbackIgnoresWeb | src/tools/tool_manager.py:152-178 | without fallback, web search plays no part |
| ToolManagement.FailedPrimaryIsSkipped | src/tools/tool_manager.py:152-178 | after a primary failure the next search does not try it again |
| ToolManagement.SingleToolResult | src/tools/tool_manager.py:233-361 | a flag-checked single call: success exactly when usable and the call succeeds; otherwise the unavailable message or the client's error |
| ToolManagement.ToolErrorInStateNotice | src/tools/tool_manager.py:426-449 | a success leaves the state unchanged; a failure appends a notice naming the tool |
| ToolManagement.ToolManager.constructor | src/tools/tool_manager.py:82-116 | the clients as given and one flag per client, on exactly when the client exists |
| ToolManagement.ToolManager.SearchCourses | src/tools/tool_manager.py:118-178 | the result and the new flags are those of the course search on the old flags |
| ToolManagement.ToolManager.SearchCoursesFallback | src/tools/tool_manager.py:180-231 | the fallback search's result; the flags are unchanged |
| ToolManagement.ToolManager.GetCourseDetails | src/tools/tool_manager.py:233-271 | checks its flag first, reports the details or the error, and changes no flag |
| ToolManagement.ToolManager.SearchWeb | src/tools/tool_manager.py:273-316 | checks its flag first, reports the results or the error, and changes no flag |
| ToolManagement.ToolManager.SearchLearningResources | src/tools/tool_manager.py:318-361 | checks its flag first, reports the resources or the error, and changes no flag |
| ToolManagement.ToolManager.ConvertSearchToCourses | src/tools/tool_manager.py:397-424 | the loop converts every result in order, with difficulty "intermediate", source "web_search" and no duration or rating |
| ToolManagement.ToolManager.HandleToolErrorInState | src/tools/tool_manager.py:426-449 | the state is unchanged on success, else handled as that tool's error |
| ToolManagement.ToolManager.GetToolStatus | src/tools/tool_manager.py:451-461 | exactly the two flags, under their names |
| ToolManagement.ToolManager.ResetToolAvailability | src/tools/tool_manager.py:463-468 | each flag is on again exactly when its client exists |
| ToolManagement.ResetRestoresPrimary | src/tools/tool_manager.py:463-468 | after a reset the course site is tried again whenever its client exists |

## Left out

- Timestamps (`datetime.now()` in messages, topic snapshots, subtask records, plans and tool results) are not modelled; they come from the clock.
- Conversation and user ids generated by `uuid4` are parameters of `CreateInitialState`.
- Text.LowerChar: `str.lower` is modelled on ASCII letters and on U+212A KELVIN SIGN, which lowers to "k"; every other character is left as it is. Python also lowers U+0130 to "i" followed by a combining dot. No keyword has an "i" at its end or followed by that mark, so that mapping changes no keyword test. Python's remaining case mappings turn non-ASCII letters into non-ASCII letters, and no keyword contains a cased non-ASCII letter, so they change no keyword test either. The lowered text is used only for keyword tests.
- CoordinatorAgent.ParseDecision: a present `current_task` or `response` that is not a string becomes absent, and `requires_human_input` is stored as its Python truthiness. The source stores the raw JSON values in the state, whose fields are typed as optional strings and a boolean here. The router reads the flag only for its truthiness, so routing agrees. A non-string truthy `response` such as 5 is appended as a message by the source and dropped by the model.
- LearningPlannerAgent.ParseLearningPlan: a non-string `goal` or `estimated_duration` becomes "", and non-list `milestones` become the empty list; the source stores the raw values in the plan.
- LearningPlannerAgent.UserMessage: a `summary` that is present but not a string gives the whole reply; the source returns the raw value (`null` gives `None`).
- CourseAdvisorAgent.SelectTools: a listed tool's `query` that is not a string is read as the empty query, so the search loop skips it. The source skips only falsy values; it passes a truthy non-string query such as 5 to the course-site or web-search client as it is, and what that client does with it is not part of this model.
- LearningPlannerAgent.QueryEntries: a non-string entry of a `queries` list becomes the empty query and is searched. The source passes the raw value to the web-search client. Whether that client raises for it depends on the client's code, which is not part of this model.
- Helpers.Validation: the checks that a field is present and of the right Python type cannot fail for a typed record and are not modelled; the value checks (roles, skill level, plan status, loop count, next agent) are.
- JSON values are an abstract `Json` datatype; `json.loads` is an uninterpreted decoder, so what a reply decodes to is a parameter.
- A course's rating is kept as text; floating point is out of scope.
- The LangGraph runtime is modelled only as the edge table and a run with a step budget (`Run`'s fuel); its recursion limit, checkpointing and streaming are not.
- Persistence (`persist_state_to_database`, `load_state_from_database`, `update_user_profile_in_state`, `save_learning_plan_from_state`) is SQLite I/O and is not part of this model.
- The language-model client, the course-site client and the web-search client are parameters; their prompts and network behaviour are not modelled.
- `_execute_with_retry`'s tenacity retry: each tool call is a single outcome, because the clients are deterministic functions here and a retry would return the same answer.
- `build_context_summary_for_agent` and `create_conversation_summary` are text builders for prompts and are not modelled.
- ErrorHandler.HandleStateError: the branch that builds a minimal state by hand when rebuilding itself fails is not modelled, because building the initial state cannot fail here. A stored `conversation_id` of a type other than a string or `None` cannot be expressed in the typed state and is not modelled.
- Tool clients raising exception types other than the tool error types are modelled as an error escaping the agent's loop, by type name.
- `log_error_metrics` and all logging are output only.
- A tool client whose creation fails at start-up is an absent client (`None`).
- A node whose agent was never initialised gets the `AgentMissing` outcome instead of reading module globals.
- ToolManagement.ToolManager.SearchCoursesFallback: the primary error is only logged by the source and does not appear in the contract.
- `initialize_agents`, the asyncio bridging in the nodes and the interactive command line are glue around the modelled calls.
