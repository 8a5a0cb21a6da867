/**
 * The course advisor agent's deterministic parts: what it is asked, which search tools it
 * runs, the search loop that survives tool failures, and how results are shown to the model.
 */
module CourseAdvisorAgent {
  import opened Wrappers
  import opened Text
  import opened Json
  import opened State
  import opened ErrorHandler

  const DefaultRequest := "课程推荐"

  /** `_extract_user_request`: the current task, else the latest user message, else a default. */
  function ExtractUserRequest(s: AgentState): (r: string)
    ensures HasText(s.currentTask) ==> r == s.currentTask.value
    ensures !HasText(s.currentTask) && (forall i :: 0 <= i < |s.messages| ==> s.messages[i].role != UserRole) ==>
      r == DefaultRequest
  {
    UserRequest(s, DefaultRequest)
  }

  // ---------------------------------------------------------------------------------------
  // Tool selection

  const SearchGeektime := "search_geektime"
  const WebSearchTool := "web_search"
  const ResourcesSuffix := " 学习资源"

  /**
   * One selected tool: its name (absent when the model gave a non-string) and its query
   * (empty when missing, in which case the tool is skipped).
   */
  datatype ToolRequest = ToolRequest(name: Option<string>, query: string)

  /** `_get_default_tools`: the course search with the request, then a web search for resources. */
  function DefaultTools(request: string): (r: seq<ToolRequest>)
    ensures |r| == 2
    ensures r[0].name == Some(SearchGeektime) && r[0].query == request
    ensures r[1].name == Some(WebSearchTool) && r[1].query == request + ResourcesSuffix
  {
    [ToolRequest(Some(SearchGeektime), request), ToolRequest(Some(WebSearchTool), request + ResourcesSuffix)]
  }

  /**
   * The `tools` value is one the code accepts: a non-empty list whose entries are all objects
   * naming a tool. Anything else makes it fall back to the defaults (an empty or missing
   * list explicitly, the rest through the exception the name listing raises).
   */
  predicate UsableToolList(fields: map<string, Json>)
  {
    && "tools" in fields
    && fields["tools"].JList?
    && fields["tools"].items != []
    && forall j :: 0 <= j < |fields["tools"].items| ==>
         fields["tools"].items[j].JObject? && "name" in fields["tools"].items[j].fields
  }

  /** A listed tool entry as the search loop reads it: `tool.get("name")`, `tool.get("query", "")`. */
  function ToolEntry(entry: Json): ToolRequest
    requires entry.JObject?
  {
    var query := Lookup(entry.fields, "query").GetOr(JStr(""));
    ToolRequest(AsOptionalString(Lookup(entry.fields, "name").GetOr(JNull)), if query.JStr? then query.s else "")
  }

  /**
   * `_select_tools` given the model's reply (or the exception type of a failed call): the
   * listed tools when the reply holds a usable list, the defaults in every other case.
   */
  function SelectTools(reply: Result<string, string>, decode: Decoder, request: string): (r: seq<ToolRequest>)
    ensures r != []
    ensures reply.Err? ==> r == DefaultTools(request)
    ensures reply.Ok? && DecodeObject(reply.value, decode).Err? ==> r == DefaultTools(request)
    ensures reply.Ok? && DecodeObject(reply.value, decode).Ok? ==>
      var fields := DecodeObject(reply.value, decode).value;
      && (!UsableToolList(fields) ==> r == DefaultTools(request))
      && (UsableToolList(fields) ==>
            |r| == |fields["tools"].items| &&
            forall j :: 0 <= j < |r| ==> r[j] == ToolEntry(fields["tools"].items[j]))
  {
    match reply
    case Err(_) => DefaultTools(request)
    case Ok(text) =>
      match DecodeObject(text, decode)
      case Err(_) => DefaultTools(request)
      case Ok(fields) =>
        if UsableToolList(fields) then
          var items := fields["tools"].items;
          seq(|items|, j requires 0 <= j < |items| && items[j].JObject? => ToolEntry(items[j]))
        else DefaultTools(request)
  }

  // ---------------------------------------------------------------------------------------
  // The search loop

  /** Courses and web resources collected so far. */
  datatype Found = Found(courses: seq<Course>, resources: seq<WebResult>)
  {
    function Plus(other: Found): Found
    {
      Found(courses + other.courses, resources + other.resources)
    }
  }

  const Nothing := Found([], [])

  /** The number of web results the advisor asks for per query. */
  const WebResultsPerQuery := 5

  /** The exceptions the search loop catches and skips. */
  predicate IsToolError(errorType: string)
  {
    errorType in McpErrors || errorType in WebSearchErrors
  }

  /**
   * What one tool adds: nothing for an empty query, an unknown name or a caught tool error;
   * the results of the search otherwise; any other exception escapes.
   */
  function Contribution(t: ToolRequest, geektime: GeektimeSearch, web: WebSearch): (r: Result<Found, string>)
    ensures r.Err? ==> !IsToolError(r.error)
    ensures t.query == "" ==> r == Ok(Nothing)
  {
    if t.query == "" then Ok(Nothing)
    else if t.name == Some(SearchGeektime) then
      match geektime(t.query)
      case Ok(cs) => Ok(Found(cs, []))
      case Err(e) => if IsToolError(e) then Ok(Nothing) else Err(e)
    else if t.name == Some(WebSearchTool) then
      match web(t.query, WebResultsPerQuery)
      case Ok(rs) => Ok(Found([], rs))
      case Err(e) => if IsToolError(e) then Ok(Nothing) else Err(e)
    else Ok(Nothing)
  }

  /** Sequencing of two search stages: the first escaping exception wins, results concatenate. */
  function Then(first: Result<Found, string>, second: Result<Found, string>): Result<Found, string>
  {
    match first
    case Err(e) => Err(e)
    case Ok(x) =>
      match second
      case Err(e) => Err(e)
      case Ok(y) => Ok(x.Plus(y))
  }

  /** The reference meaning of `_search_courses`: the tools' contributions in order. */
  function Searched(tools: seq<ToolRequest>, geektime: GeektimeSearch, web: WebSearch): Result<Found, string>
    decreases |tools|
  {
    if tools == [] then Ok(Nothing)
    else Then(Searched(tools[..|tools| - 1], geektime, web), Contribution(tools[|tools| - 1], geektime, web))
  }

  /** Searching two lists one after the other is searching their concatenation. */
  lemma {:induction false} SearchedAppend(a: seq<ToolRequest>, b: seq<ToolRequest>, geektime: GeektimeSearch, web: WebSearch)
    ensures Searched(a + b, geektime, web) == Then(Searched(a, geektime, web), Searched(b, geektime, web))
    decreases |b|
  {
    if b == [] {
      assert a + b == a;
      match Searched(a, geektime, web)
      case Err(_) =>
      case Ok(x) => assert x.Plus(Nothing) == x;
    } else {
      var last := b[|b| - 1];
      assert (a + b)[..|a + b| - 1] == a + b[..|b| - 1];
      SearchedAppend(a, b[..|b| - 1], geektime, web);
      match Searched(a, geektime, web)
      case Err(_) =>
      case Ok(x) =>
        match Searched(b[..|b| - 1], geektime, web)
        case Err(_) =>
        case Ok(y) =>
          match Contribution(last, geektime, web)
          case Err(_) =>
          case Ok(z) => assert x.Plus(y).Plus(z) == x.Plus(y.Plus(z));
    }
  }

  /** The search fails exactly when some tool raises an exception the loop does not catch. */
  lemma {:induction false} SearchedOkIff(tools: seq<ToolRequest>, geektime: GeektimeSearch, web: WebSearch)
    ensures Searched(tools, geektime, web).Ok? <==>
      forall i :: 0 <= i < |tools| ==> Contribution(tools[i], geektime, web).Ok?
    decreases |tools|
  {
    if tools != [] {
      var init := tools[..|tools| - 1];
      SearchedOkIff(init, geektime, web);
      assert forall i :: 0 <= i < |init| ==> init[i] == tools[i];
    }
  }

  /**
   * `_search_courses`: run each tool in order, skipping empty queries, unknown names and
   * caught tool errors; an uncaught exception ends the search.
   */
  method SearchCourses(tools: seq<ToolRequest>, geektime: GeektimeSearch, web: WebSearch) returns (result: Result<Found, string>)
    ensures result == Searched(tools, geektime, web)
  {
    var courses: seq<Course> := [];
    var resources: seq<WebResult> := [];
    var i := 0;
    while i < |tools|
      invariant 0 <= i <= |tools|
      invariant Searched(tools[..i], geektime, web) == Ok(Found(courses, resources))
    {
      var tool := tools[i];
      assert tools[..i + 1][..i] == tools[..i];
      assert courses + [] == courses && resources + [] == resources;
      if tool.query != "" {
        if tool.name == Some(SearchGeektime) {
          var outcome := geektime(tool.query);
          if outcome.Ok? {
            courses := courses + outcome.value;
            assert resources + [] == resources;
          } else if !IsToolError(outcome.error) {
            SearchedAppend(tools[..i + 1], tools[i + 1..], geektime, web);
            assert tools[..i + 1] + tools[i + 1..] == tools;
            return Err(outcome.error);
          }
        } else if tool.name == Some(WebSearchTool) {
          var outcome := web(tool.query, WebResultsPerQuery);
          if outcome.Ok? {
            resources := resources + outcome.value;
            assert courses + [] == courses;
          } else if !IsToolError(outcome.error) {
            SearchedAppend(tools[..i + 1], tools[i + 1..], geektime, web);
            assert tools[..i + 1] + tools[i + 1..] == tools;
            return Err(outcome.error);
          }
        }
      }
      i := i + 1;
    }
    assert tools[..i] == tools;
    return Ok(Found(courses, resources));
  }

  // ---------------------------------------------------------------------------------------
  // Formatting for the recommendation prompt

  const NoCourses := "（暂无可用课程）"
  const NoResources := "（暂无补充资源）"
  const BlockSeparator := "\n\n"

  /** One numbered course block: title, difficulty, duration, rating, description and link. */
  function CourseBlock(n: nat, c: Course): string
  {
    NatToString(n) + ". " + c.title
      + "\n   - 难度：" + c.difficulty
      + "\n   - 时长：" + Show(c.duration)
      + "\n   - 评分：" + Show(c.rating)
      + "\n   - 描述：" + c.description
      + "\n   - 链接：" + c.url
  }

  /** One numbered web-resource block: title, source, snippet and link. */
  function ResourceBlock(n: nat, w: WebResult): string
  {
    NatToString(n) + ". " + w.title
      + "\n   - 来源：" + w.source
      + "\n   - 描述：" + w.snippet
      + "\n   - 链接：" + w.url
  }

  /** `_format_courses`: a placeholder, or the numbered blocks separated by blank lines. */
  method FormatCourses(courses: seq<Course>) returns (text: string)
    ensures courses == [] ==> text == NoCourses
    ensures courses != [] ==> text == Join(Rendered(courses, CourseBlock), BlockSeparator)
  {
    if courses == [] {
      return NoCourses;
    }
    text := RenderJoin(courses, CourseBlock, BlockSeparator);
  }

  /** `_format_web_resources`: a placeholder, or the numbered blocks separated by blank lines. */
  method FormatWebResources(resources: seq<WebResult>) returns (text: string)
    ensures resources == [] ==> text == NoResources
    ensures resources != [] ==> text == Join(Rendered(resources, ResourceBlock), BlockSeparator)
  {
    if resources == [] {
      return NoResources;
    }
    text := RenderJoin(resources, ResourceBlock, BlockSeparator);
  }

  /** Every course's title and link, and every resource's title and link, reach the prompt. */
  lemma FormattedListsNameEveryItem(courses: seq<Course>, resources: seq<WebResult>)
    ensures forall i :: 0 <= i < |courses| ==>
      Contains(Join(Rendered(courses, CourseBlock), BlockSeparator), courses[i].title) &&
      Contains(Join(Rendered(courses, CourseBlock), BlockSeparator), courses[i].url)
    ensures forall i :: 0 <= i < |resources| ==>
      Contains(Join(Rendered(resources, ResourceBlock), BlockSeparator), resources[i].title) &&
      Contains(Join(Rendered(resources, ResourceBlock), BlockSeparator), resources[i].url)
  {
    forall i | 0 <= i < |courses|
      ensures Contains(Join(Rendered(courses, CourseBlock), BlockSeparator), courses[i].title)
      ensures Contains(Join(Rendered(courses, CourseBlock), BlockSeparator), courses[i].url)
    {
      var c := courses[i];
      var head := NatToString(i + 1) + ". ";
      var block := CourseBlock(i + 1, c);
      ContainsInfix(head, c.title, block[|head + c.title|..]);
      assert head + c.title + block[|head + c.title|..] == block;
      RenderedJoinContains(courses, CourseBlock, BlockSeparator, i, c.title);
      ContainsInfix(block[..|block| - |c.url|], c.url, "");
      assert block[..|block| - |c.url|] + c.url + "" == block;
      RenderedJoinContains(courses, CourseBlock, BlockSeparator, i, c.url);
    }
    forall i | 0 <= i < |resources|
      ensures Contains(Join(Rendered(resources, ResourceBlock), BlockSeparator), resources[i].title)
      ensures Contains(Join(Rendered(resources, ResourceBlock), BlockSeparator), resources[i].url)
    {
      var w := resources[i];
      var head := NatToString(i + 1) + ". ";
      var block := ResourceBlock(i + 1, w);
      ContainsInfix(head, w.title, block[|head + w.title|..]);
      assert head + w.title + block[|head + w.title|..] == block;
      RenderedJoinContains(resources, ResourceBlock, BlockSeparator, i, w.title);
      ContainsInfix(block[..|block| - |w.url|], w.url, "");
      assert block[..|block| - |w.url|] + w.url + "" == block;
      RenderedJoinContains(resources, ResourceBlock, BlockSeparator, i, w.url);
    }
  }

  // ---------------------------------------------------------------------------------------
  // The agent's result

  /** What `recommend_courses` returns: the courses, the web resources and the model's reply. */
  datatype Recommendation = Recommendation(courses: seq<Course>, webResources: seq<WebResult>, response: string)

  /**
   * `recommend_courses` given the tool-selection reply, the search tools and the final reply:
   * the search results with the reply, or the exception that escaped the search or the final
   * model call. A failed tool-selection call only means the default tools are used.
   */
  function RecommendCourses(
    s: AgentState, selectionReply: Result<string, string>, decode: Decoder,
    geektime: GeektimeSearch, web: WebSearch, reply: Result<string, string>): (r: Result<Recommendation, string>)
    ensures var searched := Searched(SelectTools(selectionReply, decode, ExtractUserRequest(s)), geektime, web);
      && (r.Err? <==> searched.Err? || reply.Err?)
      && (searched.Err? ==> r == Err(searched.error))
      && (searched.Ok? && reply.Err? ==> r == Err(reply.error))
      && (r.Ok? ==> r.value == Recommendation(searched.value.courses, searched.value.resources, reply.value))
  {
    match Searched(SelectTools(selectionReply, decode, ExtractUserRequest(s)), geektime, web)
    case Err(e) => Err(e)
    case Ok(found) =>
      match reply
      case Err(e) => Err(e)
      case Ok(text) => Ok(Recommendation(found.courses, found.resources, text))
  }
}
