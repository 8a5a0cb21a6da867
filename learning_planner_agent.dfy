/**
 * The learning planner agent's deterministic parts: what it is asked, the capped resource
 * search that survives web-search failures, the prompt formatting, and reading the plan
 * out of the model's reply.
 */
module LearningPlannerAgent {
  import opened Wrappers
  import opened Text
  import opened Json
  import opened State
  import opened ErrorHandler

  const DefaultRequest := "制定学习计划"

  /** `_extract_user_request`: the current task, else the latest user message, else a default. */
  function ExtractUserRequest(s: AgentState): (r: string)
    ensures HasText(s.currentTask) ==> r == s.currentTask.value
    ensures !HasText(s.currentTask) && (forall i :: 0 <= i < |s.messages| ==> s.messages[i].role != UserRole) ==>
      r == DefaultRequest
  {
    UserRequest(s, DefaultRequest)
  }

  // ---------------------------------------------------------------------------------------
  // Resource search

  const PathSuffix := " 学习路径"
  const PracticeSuffix := " 最佳实践"

  /** At most this many queries are searched. */
  const MaxQueries := 3
  /** The number of web results asked for per query. */
  const ResultsPerQuery := 3

  /** The learning goals as the prompts show them, comma separated. */
  function GoalsText(s: AgentState): string
  {
    Join(s.userProfile.learningGoals, ", ")
  }

  /**
   * The `queries` value after `[:3]`-style slicing: a list keeps its entries (a non-string
   * entry becomes an empty query), a string is sliced into its characters, and any other
   * value makes the slice raise `TypeError`.
   */
  function QueryEntries(j: Json): (r: Result<seq<string>, string>)
    ensures r.Err? <==> !(j.JList? || j.JStr?)
    ensures j.JList? ==> r.Ok? && |r.value| == |j.items|
    ensures j.JStr? ==> r.Ok? && |r.value| == |j.s| && forall i :: 0 <= i < |j.s| ==> r.value[i] == [j.s[i]]
  {
    match j
    case JList(items) => Ok(seq(|items|, i requires 0 <= i < |items| => if items[i].JStr? then items[i].s else ""))
    case JStr(text) => Ok(seq(|text|, i requires 0 <= i < |text| => [text[i]]))
    case _ => Err("TypeError")
  }

  /**
   * The search queries of `_search_learning_resources`: those the model proposed, a single
   * learning-path query when it proposed none, and the learning-path and best-practice
   * queries when the reply has no decodable object or the call failed.
   */
  function SearchQueries(reply: Result<string, string>, decode: Decoder, goals: string): (r: Result<seq<string>, string>)
    ensures reply.Err? ==> r == Ok([goals + PathSuffix, goals + PracticeSuffix])
    ensures reply.Ok? && DecodeObject(reply.value, decode).Err? ==> r == Ok([goals + PathSuffix, goals + PracticeSuffix])
    ensures reply.Ok? && DecodeObject(reply.value, decode).Ok? ==>
      var fields := DecodeObject(reply.value, decode).value;
      && ("queries" !in fields ==> r == Ok([goals + PathSuffix]))
      && ("queries" in fields ==> r == QueryEntries(fields["queries"]))
  {
    var defaults := [goals + PathSuffix, goals + PracticeSuffix];
    match reply
    case Err(_) => Ok(defaults)
    case Ok(text) =>
      match DecodeObject(text, decode)
      case Err(_) => Ok(defaults)
      case Ok(fields) => if "queries" in fields then QueryEntries(fields["queries"]) else Ok([goals + PathSuffix])
  }

  /** The queries actually searched: the first three. */
  function Capped(queries: seq<string>): (r: seq<string>)
    ensures |r| <= MaxQueries && r <= queries
    ensures |queries| <= MaxQueries ==> r == queries
  {
    if |queries| <= MaxQueries then queries else queries[..MaxQueries]
  }

  /**
   * The reference meaning of the search loop: each query's results in order, a web-search
   * error skipping that query, and any other exception ending the search.
   */
  function Gathered(queries: seq<string>, web: WebSearch): Result<seq<WebResult>, string>
    decreases |queries|
  {
    if queries == [] then Ok([])
    else
      match Gathered(queries[..|queries| - 1], web)
      case Err(e) => Err(e)
      case Ok(found) =>
        match web(queries[|queries| - 1], ResultsPerQuery)
        case Ok(hits) => Ok(found + hits)
        case Err(e) => if e in WebSearchErrors then Ok(found) else Err(e)
  }

  /** The search succeeds exactly when every failing query failed with a web-search error. */
  lemma {:induction false} GatheredOkIff(queries: seq<string>, web: WebSearch)
    ensures Gathered(queries, web).Ok? <==>
      forall i :: 0 <= i < |queries| ==> web(queries[i], ResultsPerQuery).Ok? || web(queries[i], ResultsPerQuery).error in WebSearchErrors
    decreases |queries|
  {
    if queries != [] {
      var init := queries[..|queries| - 1];
      GatheredOkIff(init, web);
      assert forall i :: 0 <= i < |init| ==> init[i] == queries[i];
    }
  }

  /** A query whose search fails with a web-search error adds nothing and stops nothing. */
  lemma SkippedQueryAddsNothing(queries: seq<string>, q: string, web: WebSearch)
    requires web(q, ResultsPerQuery).Err? && web(q, ResultsPerQuery).error in WebSearchErrors
    ensures Gathered(queries + [q], web) == Gathered(queries, web)
  {
    assert (queries + [q])[..|queries + [q]| - 1] == queries;
  }

  /** The loop of `_search_learning_resources` over the first three queries. */
  method SearchLearningResources(queries: seq<string>, web: WebSearch) returns (result: Result<seq<WebResult>, string>)
    ensures result == Gathered(Capped(queries), web)
  {
    var capped := Capped(queries);
    var resources: seq<WebResult> := [];
    var i := 0;
    while i < |capped|
      invariant 0 <= i <= |capped|
      invariant Gathered(capped[..i], web) == Ok(resources)
    {
      assert capped[..i + 1][..i] == capped[..i];
      var outcome := web(capped[i], ResultsPerQuery);
      if outcome.Ok? {
        resources := resources + outcome.value;
      } else if outcome.error !in WebSearchErrors {
        GatheredErrorSticks(capped, i + 1, web);
        return Err(outcome.error);
      }
      i := i + 1;
    }
    assert capped[..i] == capped;
    return Ok(resources);
  }

  /** Once the search has failed on a prefix, it fails the same way on the whole list. */
  lemma {:induction false} GatheredErrorSticks(queries: seq<string>, n: nat, web: WebSearch)
    requires n <= |queries| && Gathered(queries[..n], web).Err?
    ensures Gathered(queries, web) == Gathered(queries[..n], web)
    decreases |queries| - n
  {
    if n < |queries| {
      assert queries[..n + 1][..n] == queries[..n];
      GatheredErrorSticks(queries, n + 1, web);
    } else {
      assert queries[..n] == queries;
    }
  }

  // ---------------------------------------------------------------------------------------
  // Formatting for the planning prompt

  const NoCourses := "（暂无推荐课程）"
  const NoResources := "（暂无参考资料）"
  const BlockSeparator := "\n\n"

  /** One numbered course block: title, difficulty, duration and description. */
  function CourseBlock(n: nat, c: Course): string
  {
    NatToString(n) + ". " + c.title
      + "\n   - 难度：" + c.difficulty
      + "\n   - 时长：" + Show(c.duration)
      + "\n   - 描述：" + c.description
  }

  /** One numbered resource block: title, source and snippet. */
  function ResourceBlock(n: nat, w: WebResult): string
  {
    NatToString(n) + ". " + w.title
      + "\n   - 来源：" + w.source
      + "\n   - 描述：" + w.snippet
  }

  /** `_format_courses`: a placeholder, or the numbered blocks separated by blank lines. */
  method FormatCourses(courses: seq<Course>) returns (text: string)
    ensures courses == [] ==> text == NoCourses
    ensures courses != [] ==> text == Join(Rendered(courses, CourseBlock), BlockSeparator)
  {
    if courses == [] {
      return NoCourses;
    }
    text := RenderJoin(courses, CourseBlock, BlockSeparator);
  }

  /** `_format_learning_resources`: a placeholder, or the numbered blocks separated by blank lines. */
  method FormatLearningResources(resources: seq<WebResult>) returns (text: string)
    ensures resources == [] ==> text == NoResources
    ensures resources != [] ==> text == Join(Rendered(resources, ResourceBlock), BlockSeparator)
  {
    if resources == [] {
      return NoResources;
    }
    text := RenderJoin(resources, ResourceBlock, BlockSeparator);
  }

  /** Every course title and every resource title reaches the planning prompt. */
  lemma FormattedListsNameEveryItem(courses: seq<Course>, resources: seq<WebResult>)
    ensures forall i :: 0 <= i < |courses| ==>
      Contains(Join(Rendered(courses, CourseBlock), BlockSeparator), courses[i].title)
    ensures forall i :: 0 <= i < |resources| ==>
      Contains(Join(Rendered(resources, ResourceBlock), BlockSeparator), resources[i].title)
  {
    forall i | 0 <= i < |courses|
      ensures Contains(Join(Rendered(courses, CourseBlock), BlockSeparator), courses[i].title)
    {
      var c := courses[i];
      var head := NatToString(i + 1) + ". ";
      var block := CourseBlock(i + 1, c);
      ContainsInfix(head, c.title, block[|head + c.title|..]);
      assert head + c.title + block[|head + c.title|..] == block;
      RenderedJoinContains(courses, CourseBlock, BlockSeparator, i, c.title);
    }
    forall i | 0 <= i < |resources|
      ensures Contains(Join(Rendered(resources, ResourceBlock), BlockSeparator), resources[i].title)
    {
      var w := resources[i];
      var head := NatToString(i + 1) + ". ";
      var block := ResourceBlock(i + 1, w);
      ContainsInfix(head, w.title, block[|head + w.title|..]);
      assert head + w.title + block[|head + w.title|..] == block;
      RenderedJoinContains(resources, ResourceBlock, BlockSeparator, i, w.title);
    }
  }

  // ---------------------------------------------------------------------------------------
  // Reading the plan

  /**
   * `_parse_learning_plan`: decode the object in the reply, require `goal`, `milestones` and
   * `estimated_duration` in that order, and build a draft plan recommending the state's
   * course candidates.
   */
  function ParseLearningPlan(response: string, decode: Decoder, candidates: seq<Course>): (r: Result<LearningPlan, ParseError>)
    ensures r == Err(Undecodable(NoJsonFound)) <==> '{' !in response || '}' !in response
    ensures DecodeObject(response, decode).Err? <==> r.Err? && r.error.Undecodable?
    ensures r.Ok? ==> r.value.status == Draft && r.value.recommendedCourses == candidates
    ensures DecodeObject(response, decode).Ok? ==>
      var fields := DecodeObject(response, decode).value;
      && (r == Err(MissingField("goal")) <==> "goal" !in fields)
      && (r == Err(MissingField("milestones")) <==> "goal" in fields && "milestones" !in fields)
      && (r == Err(MissingField("estimated_duration")) <==>
            "goal" in fields && "milestones" in fields && "estimated_duration" !in fields)
      && (r.Ok? <==> "goal" in fields && "milestones" in fields && "estimated_duration" in fields)
      && (r.Ok? && fields["goal"].JStr? ==> r.value.goal == fields["goal"].s)
      && (r.Ok? && fields["milestones"].JList? ==> r.value.milestones == fields["milestones"].items)
      && (r.Ok? && fields["estimated_duration"].JStr? ==> r.value.estimatedDuration == fields["estimated_duration"].s)
  {
    match DecodeObject(response, decode)
    case Err(e) => Err(Undecodable(e))
    case Ok(fields) =>
      if "goal" !in fields then Err(MissingField("goal"))
      else if "milestones" !in fields then Err(MissingField("milestones"))
      else if "estimated_duration" !in fields then Err(MissingField("estimated_duration"))
      else
        var goal := fields["goal"];
        var milestones := fields["milestones"];
        var duration := fields["estimated_duration"];
        Ok(LearningPlan(
          goal := if goal.JStr? then goal.s else "",
          milestones := if milestones.JList? then milestones.items else [],
          recommendedCourses := candidates,
          estimatedDuration := if duration.JStr? then duration.s else "",
          status := Draft))
  }

  /** What `create_learning_plan` returns: the plan, the resources found and the user-facing text. */
  datatype PlanResult = PlanResult(plan: LearningPlan, resources: seq<WebResult>, response: string)

  /** The text shown to the user: the object's `summary` when it has a string one, else the reply. */
  function UserMessage(response: string, decode: Decoder): (r: string)
    ensures DecodeObject(response, decode).Err? ==> r == response
    ensures DecodeObject(response, decode).Ok? && "summary" !in DecodeObject(response, decode).value ==> r == response
    ensures
      && DecodeObject(response, decode).Ok? && "summary" in DecodeObject(response, decode).value
      && DecodeObject(response, decode).value["summary"].JStr?
      ==> r == DecodeObject(response, decode).value["summary"].s
  {
    match DecodeObject(response, decode)
    case Ok(fields) =>
      if "summary" in fields && fields["summary"].JStr? then fields["summary"].s else response
    case Err(_) => response
  }

  /**
   * `create_learning_plan` given the query reply, the web search and the planning reply: the
   * parsed plan with its resources and message, or the type name of the exception raised
   * (the search's, the model call's, or `ValueError` for a reply that is not a plan).
   */
  function CreateLearningPlan(
    s: AgentState, queryReply: Result<string, string>, decode: Decoder, web: WebSearch,
    reply: Result<string, string>): (r: Result<PlanResult, string>)
    ensures var queries := SearchQueries(queryReply, decode, GoalsText(s));
      && (queries.Err? ==> r == Err(queries.error))
      && (queries.Ok? && Gathered(Capped(queries.value), web).Err? ==> r == Err(Gathered(Capped(queries.value), web).error))
      && (queries.Ok? && Gathered(Capped(queries.value), web).Ok? ==>
            && (reply.Err? ==> r == Err(reply.error))
            && (reply.Ok? && ParseLearningPlan(reply.value, decode, s.courseCandidates).Err? ==> r == Err("ValueError"))
            && (r.Ok? ==>
                  reply.Ok? &&
                  r.value == PlanResult(ParseLearningPlan(reply.value, decode, s.courseCandidates).value,
                                        Gathered(Capped(queries.value), web).value,
                                        UserMessage(reply.value, decode))))
  {
    match SearchQueries(queryReply, decode, GoalsText(s))
    case Err(e) => Err(e)
    case Ok(queries) =>
      match Gathered(Capped(queries), web)
      case Err(e) => Err(e)
      case Ok(resources) =>
        match reply
        case Err(e) => Err(e)
        case Ok(text) =>
          match ParseLearningPlan(text, decode, s.courseCandidates)
          case Err(_) => Err("ValueError")
          case Ok(plan) => Ok(PlanResult(plan, resources, UserMessage(text, decode)))
  }

}
