/**
 * The compiled conversation graph: its nodes, its edge table (a fixed edge everywhere except
 * after the coordinator, where `route_next` chooses), and what running it means.
 */
module Builder {
  import opened Wrappers
  import opened State
  import opened Helpers
  import Nodes
  import ErrorHandler
  import ConversationFlow

  /** The graph's six nodes. */
  datatype Node = EntryNode | CoordinatorNode | CourseAdvisorNode | LearningPlannerNode | HumanInputNode | EndNode

  /** The name each node is registered under. */
  function NameOf(n: Node): string
  {
    match n
    case EntryNode => "entry"
    case CoordinatorNode => Coordinator
    case CourseAdvisorNode => CourseAdvisor
    case LearningPlannerNode => LearningPlanner
    case HumanInputNode => HumanInput
    case EndNode => End
  }

  /**
   * The node a conditional edge leads to for a router result: each of the five results maps
   * to the node of the same name.
   */
  function NodeNamed(name: string): (r: Option<Node>)
    ensures r.Some? ==> NameOf(r.value) == name
    ensures r.Some? <==> name in AgentNames
  {
    if name == Coordinator then Some(CoordinatorNode)
    else if name == CourseAdvisor then Some(CourseAdvisorNode)
    else if name == LearningPlanner then Some(LearningPlannerNode)
    else if name == HumanInput then Some(HumanInputNode)
    else if name == End then Some(EndNode)
    else None
  }

  /** Execution starts at the entry node. */
  const EntryPoint := EntryNode

  /** The loop limit used when the configuration does not set one. */
  const DefaultMaxLoopCount := 10

  /** `create_graph_with_config`: the configured loop limit, or the default. */
  function MaxLoopCountFromConfig(configured: Option<int>): (r: int)
    ensures configured.Some? ==> r == configured.value
    ensures configured.None? ==> r == DefaultMaxLoopCount
  {
    configured.GetOr(DefaultMaxLoopCount)
  }

  /**
   * The edge table: entry and the three specialists lead to the coordinator, the
   * coordinator's successor is the node `route_next` names, and end leads out of the graph.
   */
  function Successor(n: Node, s: AgentState, maxLoopCount: int): (r: Option<Node>)
    ensures r.None? <==> n == EndNode
    ensures n != CoordinatorNode && n != EndNode ==> r == Some(CoordinatorNode)
    ensures n == CoordinatorNode ==> r.Some? && NameOf(r.value) == RouteNext(s, maxLoopCount)
  {
    match n
    case CoordinatorNode => NodeNamed(RouteNext(s, maxLoopCount))
    case EndNode => None
    case _ => Some(CoordinatorNode)
  }

  /** What the agents do at one step of a run. */
  datatype Outcomes = Outcomes(
    decision: Nodes.AgentCall<Nodes.Decision>,
    recommendation: Nodes.AgentCall<Nodes.Recommendation>,
    plan: Nodes.AgentCall<Nodes.PlanResult>)

  /** One node's execution. */
  function Execute(n: Node, s: AgentState, o: Outcomes): AgentState
  {
    match n
    case EntryNode => Nodes.Entered(s)
    case CoordinatorNode => Nodes.Coordinated(s, o.decision)
    case CourseAdvisorNode => Nodes.Advised(s, o.recommendation)
    case LearningPlannerNode => Nodes.Planned(s, o.plan)
    case HumanInputNode => Nodes.HumanInputHandled(s)
    case EndNode => Nodes.Ended(s)
  }

  /** A node execution at step `k` of a run: what the node makes of the state. */
  type Executor = (Node, AgentState, nat) -> AgentState

  /** The graph's edges: where a node's result leads, or out of the graph. */
  type Edges = (Node, AgentState) -> Option<Node>

  /**
   * Running a graph from node `n` for at most `fuel` node executions: the final state when
   * the run leaves the graph in time.
   */
  function RunWith(exec: Executor, edges: Edges, n: Node, s: AgentState, step: nat, fuel: nat): Option<AgentState>
    decreases fuel
  {
    if fuel == 0 then None
    else
      var t := exec(n, s, step);
      match edges(n, t)
      case None => Some(t)
      case Some(m) => RunWith(exec, edges, m, t, step + 1, fuel - 1)
  }

  /** The compiled graph's node executions, the agents behaving at step `k` as `env(k)` says. */
  function ExecutorOf(env: nat -> Outcomes): Executor
  {
    (n: Node, s: AgentState, k: nat) => Execute(n, s, env(k))
  }

  /** The compiled graph's edge table under a loop limit. */
  function EdgesOf(maxLoopCount: int): Edges
  {
    (n: Node, t: AgentState) => Successor(n, t, maxLoopCount)
  }

  /** Running the compiled graph (`graph.invoke`) from node `n`. */
  function Run(n: Node, s: AgentState, env: nat -> Outcomes, step: nat, maxLoopCount: int, fuel: nat): Option<AgentState>
  {
    RunWith(ExecutorOf(env), EdgesOf(maxLoopCount), n, s, step, fuel)
  }

  /** The coordinator's agent is initialised at every step. */
  ghost predicate CoordinatorAgentPresent(env: nat -> Outcomes)
  {
    forall k: nat :: !env(k).decision.AgentMissing?
  }

  /** Specialist nodes: the three that always hand back to the coordinator. */
  predicate IsSpecialist(n: Node)
  {
    n == CourseAdvisorNode || n == LearningPlannerNode || n == HumanInputNode
  }

  /**
   * What makes a run finish: every node but the coordinator and the end node leads to the
   * coordinator, the end node leads out, the specialists keep the loop count, and the
   * coordinator adds one to it and leads to the end node once its round passes its limit.
   */
  ghost predicate CountsRounds(exec: Executor, edges: Edges)
  {
    && (forall n: Node, t: AgentState :: n != CoordinatorNode && n != EndNode ==> edges(n, t) == Some(CoordinatorNode))
    && (forall t: AgentState :: edges(EndNode, t).None?)
    && (forall t: AgentState :: edges(CoordinatorNode, t) != Some(EntryNode))
    && (forall s: AgentState, k: nat :: exec(CoordinatorNode, s, k).loopCount == s.loopCount + 1)
    && (forall s: AgentState, k: nat :: exec(CoordinatorNode, s, k).loopCount > Nodes.CoordinatorLoopLimit ==>
          edges(CoordinatorNode, exec(CoordinatorNode, s, k)) == Some(EndNode))
    && (forall n: Node, s: AgentState, k: nat :: IsSpecialist(n) ==> exec(n, s, k).loopCount == s.loopCount)
  }

  /** The node executions a run from the coordinator may still need, by the loop count. */
  function CoordinatorBudget(loopCount: int): nat
  {
    if loopCount >= Nodes.CoordinatorLoopLimit then 2 else 22 - 2 * loopCount
  }

  /** In a graph that counts its rounds, a run from the coordinator leaves within the budget. */
  lemma {:induction false} CountedRunFinishes(exec: Executor, edges: Edges, s: AgentState, step: nat, fuel: nat)
    requires CountsRounds(exec, edges)
    requires fuel >= CoordinatorBudget(s.loopCount)
    ensures RunWith(exec, edges, CoordinatorNode, s, step, fuel).Some?
    decreases Nodes.CoordinatorLoopLimit - s.loopCount
  {
    var t := exec(CoordinatorNode, s, step);
    assert t.loopCount == s.loopCount + 1;
    assert t.loopCount > Nodes.CoordinatorLoopLimit ==> edges(CoordinatorNode, t) == Some(EndNode);
    match edges(CoordinatorNode, t)
    case None =>
    case Some(m) =>
      assert RunWith(exec, edges, CoordinatorNode, s, step, fuel) == RunWith(exec, edges, m, t, step + 1, fuel - 1);
      if m == EndNode {
        assert edges(EndNode, exec(EndNode, t, step + 1)).None?;
      } else if m == CoordinatorNode {
        CountedRunFinishes(exec, edges, t, step + 1, fuel - 1);
      } else {
        assert IsSpecialist(m);
        var u := exec(m, t, step + 1);
        assert edges(m, u) == Some(CoordinatorNode);
        assert RunWith(exec, edges, m, t, step + 1, fuel - 1) == RunWith(exec, edges, CoordinatorNode, u, step + 2, fuel - 2);
        CountedRunFinishes(exec, edges, u, step + 2, fuel - 2);
      }
  }

  /** The edge table leads as a counting graph's must. */
  lemma EdgesCountRounds(maxLoopCount: int)
    ensures forall n: Node, t: AgentState :: n != CoordinatorNode && n != EndNode ==> EdgesOf(maxLoopCount)(n, t) == Some(CoordinatorNode)
    ensures forall t: AgentState :: EdgesOf(maxLoopCount)(EndNode, t).None?
    ensures forall t: AgentState :: EdgesOf(maxLoopCount)(CoordinatorNode, t) != Some(EntryNode)
  {
  }

  /**
   * With its agent present, the coordinator counts each round and ends the conversation past
   * its limit, and the specialists keep the count.
   */
  lemma NodesCountRounds(env: nat -> Outcomes, maxLoopCount: int)
    requires CoordinatorAgentPresent(env)
    ensures forall s: AgentState, k: nat :: ExecutorOf(env)(CoordinatorNode, s, k).loopCount == s.loopCount + 1
    ensures forall s: AgentState, k: nat :: ExecutorOf(env)(CoordinatorNode, s, k).loopCount > Nodes.CoordinatorLoopLimit ==>
      EdgesOf(maxLoopCount)(CoordinatorNode, ExecutorOf(env)(CoordinatorNode, s, k)) == Some(EndNode)
    ensures forall n: Node, s: AgentState, k: nat :: IsSpecialist(n) ==> ExecutorOf(env)(n, s, k).loopCount == s.loopCount
  {
    forall s: AgentState, k: nat
      ensures ExecutorOf(env)(CoordinatorNode, s, k).loopCount == s.loopCount + 1
      ensures ExecutorOf(env)(CoordinatorNode, s, k).loopCount > Nodes.CoordinatorLoopLimit ==>
        EdgesOf(maxLoopCount)(CoordinatorNode, ExecutorOf(env)(CoordinatorNode, s, k)) == Some(EndNode)
    {
      assert !env(k).decision.AgentMissing?;
      Nodes.CoordinatorLoopAccounting(s, env(k).decision, maxLoopCount);
    }
    forall n: Node, s: AgentState, k: nat | IsSpecialist(n)
      ensures ExecutorOf(env)(n, s, k).loopCount == s.loopCount
    {
      Nodes.AdvisorKeepsHistoryAndShape(s, env(k).recommendation);
      Nodes.PlannerKeepsHistoryAndShape(s, env(k).plan);
      Nodes.HumanInputKeepsHistoryAndShape(s);
    }
  }

  /**
   * A conversation turn always ends: started at the entry node with the coordinator's agent
   * present, the graph leaves through the end node within 23 node executions, whatever the
   * configured loop limit.
   */
  lemma RunAlwaysFinishes(s: AgentState, env: nat -> Outcomes, maxLoopCount: int)
    requires CoordinatorAgentPresent(env)
    ensures Run(EntryPoint, s, env, 0, maxLoopCount, 23).Some?
  {
    var exec, edges := ExecutorOf(env), EdgesOf(maxLoopCount);
    EdgesCountRounds(maxLoopCount);
    NodesCountRounds(env, maxLoopCount);
    var t := exec(EntryNode, s, 0);
    assert edges(EntryNode, t) == Some(CoordinatorNode);
    assert RunWith(exec, edges, EntryNode, s, 0, 23) == RunWith(exec, edges, CoordinatorNode, t, 1, 22);
    CountedRunFinishes(exec, edges, t, 1, 22);
  }

  /**
   * What keeps a run going: within the loop limit and not complete, the coordinator leads to
   * the human-input node, which hands back to it, and neither of them counts a round or
   * completes the conversation.
   */
  ghost predicate AsksForever(exec: Executor, edges: Edges, maxLoopCount: int)
  {
    && (forall t: AgentState :: edges(HumanInputNode, t) == Some(CoordinatorNode))
    && (forall s: AgentState, k: nat :: s.loopCount <= maxLoopCount && !s.isComplete ==>
          var t := exec(CoordinatorNode, s, k);
          t.loopCount == s.loopCount && !t.isComplete && edges(CoordinatorNode, t) == Some(HumanInputNode))
    && (forall s: AgentState, k: nat :: s.loopCount <= maxLoopCount && !s.isComplete ==>
          var t := exec(HumanInputNode, s, k);
          t.loopCount == s.loopCount && !t.isComplete)
  }

  /** In such a graph a run from the coordinator never leaves. */
  lemma {:induction false} AskingRunNeverFinishes(
    exec: Executor, edges: Edges, maxLoopCount: int, s: AgentState, step: nat, fuel: nat)
    requires AsksForever(exec, edges, maxLoopCount)
    requires s.loopCount <= maxLoopCount && !s.isComplete
    ensures RunWith(exec, edges, CoordinatorNode, s, step, fuel).None?
    decreases fuel
  {
    if fuel > 0 {
      var t := exec(CoordinatorNode, s, step);
      assert edges(CoordinatorNode, t) == Some(HumanInputNode);
      if fuel > 1 {
        var u := exec(HumanInputNode, t, step + 1);
        assert edges(HumanInputNode, u) == Some(CoordinatorNode);
        AskingRunNeverFinishes(exec, edges, maxLoopCount, u, step + 2, fuel - 2);
      }
    }
  }

  /**
   * The learning planner's edge leads to the coordinator node, not to its router: the router
   * would send the planner's state to human input, but the coordinator first replaces the
   * request with its fresh decision, and the router then follows that decision.
   */
  lemma PlannerEdgeBypassesApproval(s: AgentState, p: Nodes.PlanResult, d: Nodes.Decision, maxLoopCount: int)
    requires !s.isComplete && s.loopCount + 1 <= Nodes.CoordinatorLoopLimit && s.loopCount + 1 <= maxLoopCount
    requires ConversationFlow.DetectTopicSwitch(s) == None
    requires d.nextAgent in {Coordinator, CourseAdvisor, LearningPlanner} && !d.requiresHumanInput
    ensures var t := Nodes.Planned(s, Nodes.Returned(p));
      && RouteNext(t, maxLoopCount) == HumanInput
      && Successor(LearningPlannerNode, t, maxLoopCount) == Some(CoordinatorNode)
      && RouteNext(Nodes.Coordinated(t, Nodes.Returned(d)), maxLoopCount) == d.nextAgent
  {
    Nodes.PlanApprovalRequestIsReplaced(s, p, d);
  }

  /**
   * The planner's request for approval survives a failed coordinator round: whether the call
   * raised or the agent is missing, the router sends the run to human input, where the plan
   * is still a draft waiting for approval.
   */
  lemma FailedCoordinatorKeepsApproval(s: AgentState, p: Nodes.PlanResult, call: Nodes.AgentCall<Nodes.Decision>, maxLoopCount: int)
    requires !s.isComplete && s.loopCount + 1 <= Nodes.CoordinatorLoopLimit && s.loopCount + 1 <= maxLoopCount
    requires ConversationFlow.DetectTopicSwitch(s) == None
    requires p.plan.status == Draft
    requires !call.Returned?
    ensures var c := Nodes.Coordinated(Nodes.Planned(s, Nodes.Returned(p)), call);
      && RouteNext(c, maxLoopCount) == HumanInput
      && Nodes.AwaitingPlanApproval(c)
  {
    Nodes.FailedRoundKeepsApprovalRequest(s, p, call);
  }

  /** Without the coordinator's agent, the compiled graph only ever asks the user. */
  lemma NodesAskForever(env: nat -> Outcomes, maxLoopCount: int)
    requires forall k: nat :: env(k).decision.AgentMissing?
    ensures AsksForever(ExecutorOf(env), EdgesOf(maxLoopCount), maxLoopCount)
  {
    forall s: AgentState, k: nat | s.loopCount <= maxLoopCount && !s.isComplete
      ensures var t := ExecutorOf(env)(CoordinatorNode, s, k);
        t.loopCount == s.loopCount && !t.isComplete && EdgesOf(maxLoopCount)(CoordinatorNode, t) == Some(HumanInputNode)
    {
      assert env(k).decision.AgentMissing?;
      assert ExecutorOf(env)(CoordinatorNode, s, k) == ErrorHandler.GenericErrorHandled(s);
    }
    forall s: AgentState, k: nat | s.loopCount <= maxLoopCount && !s.isComplete
      ensures var t := ExecutorOf(env)(HumanInputNode, s, k); t.loopCount == s.loopCount && !t.isComplete
    {
      Nodes.HumanInputKeepsHistoryAndShape(s);
      Nodes.HumanInputKeepsCompletion(s);
    }
  }

  /**
   * Without the coordinator's agent nothing counts the rounds: the coordinator asks the user,
   * the human-input node hands back, and the run never leaves the graph.
   */
  lemma RunWithoutCoordinatorNeverFinishes(
    s: AgentState, env: nat -> Outcomes, step: nat, maxLoopCount: int, fuel: nat)
    requires forall k: nat :: env(k).decision.AgentMissing?
    requires s.loopCount <= maxLoopCount && !s.isComplete
    ensures Run(CoordinatorNode, s, env, step, maxLoopCount, fuel).None?
  {
    NodesAskForever(env, maxLoopCount);
    AskingRunNeverFinishes(ExecutorOf(env), EdgesOf(maxLoopCount), maxLoopCount, s, step, fuel);
  }
}
