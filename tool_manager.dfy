/**
 * The tool manager: the browser client (primary course search) and the web-search client
 * (fallback), an availability flag per tool that a failed primary search switches off, and
 * the results every tool call reports.
 */
module ToolManagement {
  import opened Wrappers
  import opened Text
  import opened State
  import opened Helpers
  import ErrorHandler

  /** The two managed tools, the keys of the availability table. */
  datatype ToolType = McpPlaywrightTool | WebSearchTool

  /**
   * The browser client's operations, as seen by the manager: the courses found for a query
   * and the details of one course, or the type name of the exception raised.
   */
  datatype McpClient = McpClient(
    searchGeektimeCourses: string -> Result<seq<Course>, string>,
    courseDetails: string -> Result<Course, string>)

  /**
   * The web-search client's operations: a search with an optional result cap and a search
   * for learning resources at an optional skill level.
   */
  datatype WebClient = WebClient(
    search: (string, Option<nat>) -> Result<seq<WebResult>, string>,
    learningResources: (string, Option<string>) -> Result<seq<WebResult>, string>)

  /**
   * The error a result carries: an exception a client raised (by its type name), or the
   * plain exception the manager raises itself when a tool cannot be used.
   */
  datatype ToolError = ClientError(typeName: string) | NotAvailable(message: string)

  /** What a tool call produced. */
  datatype ToolData = NoData | CourseList(courses: seq<Course>) | CourseDetails(course: Course) | WebResults(results: seq<WebResult>)

  /** `ToolExecutionResult`; its creation time is not modelled. */
  datatype ToolExecutionResult = ToolExecutionResult(
    success: bool,
    data: ToolData := NoData,
    error: Option<ToolError> := None,
    fallbackUsed: bool := false,
    toolName: string := "")

  const PrimaryToolName := "MCP Playwright"
  const WebToolName := "Web Search"
  const FallbackToolName := "Web Search (fallback)"
  const NoFallbackEnabledMessage := "MCP Playwright not available and fallback disabled"
  const NoFallbackToolMessage := "No fallback tool available"
  const PrimaryUnavailableMessage := "MCP Playwright not available"
  const WebUnavailableMessage := "Web search not available"

  /** What the fallback appends to a course query. */
  const FallbackQuerySuffix := " 在线课程"

  /** The difficulty and source every course converted from a web hit gets. */
  const ConvertedDifficulty := "intermediate"
  const ConvertedSource := "web_search"

  /** The availability table holds a flag for both tools. */
  predicate Tracked(availability: map<ToolType, bool>)
  {
    McpPlaywrightTool in availability && WebSearchTool in availability
  }

  /** The flags as the manager sets them: a tool is available exactly when its client exists. */
  function AvailabilityOf(mcp: Option<McpClient>, web: Option<WebClient>): (r: map<ToolType, bool>)
    ensures Tracked(r) && r.Keys == {McpPlaywrightTool, WebSearchTool}
    ensures r[McpPlaywrightTool] <==> mcp.Some?
    ensures r[WebSearchTool] <==> web.Some?
  {
    map[McpPlaywrightTool := mcp.Some?, WebSearchTool := web.Some?]
  }

  /** The course a web hit becomes. */
  function CourseFromResult(w: WebResult): Course
  {
    Course(w.title, w.url, w.snippet, ConvertedDifficulty, None, None, ConvertedSource)
  }

  /** `_convert_search_to_courses`: one course per hit, in order. */
  function ConvertedCourses(results: seq<WebResult>): (r: seq<Course>)
    ensures |r| == |results|
    ensures forall i :: 0 <= i < |results| ==> r[i] == CourseFromResult(results[i])
  {
    seq(|results|, i requires 0 <= i < |results| => CourseFromResult(results[i]))
  }

  /** A tool can be used when its client exists and its flag is set. */
  predicate Usable<C>(client: Option<C>, flag: bool)
  {
    client.Some? && flag
  }

  /**
   * `_search_courses_fallback`: without a usable web client it fails at once, without using
   * the fallback; otherwise it searches the web for the query with the course suffix and
   * reports the converted hits, or the error, with the fallback marked as used.
   */
  function FallbackCourseSearch(web: Option<WebClient>, availability: map<ToolType, bool>, query: string): (r: ToolExecutionResult)
    requires Tracked(availability)
    ensures r.toolName == FallbackToolName
    ensures r.success <==> Usable(web, availability[WebSearchTool]) && web.value.search(query + FallbackQuerySuffix, None).Ok?
    ensures r.success ==> r.error.None? && r.data == CourseList(ConvertedCourses(web.value.search(query + FallbackQuerySuffix, None).value))
    ensures !r.success ==> r.error.Some? && r.data == NoData
    ensures r.fallbackUsed <==> Usable(web, availability[WebSearchTool])
  {
    if !Usable(web, availability[WebSearchTool]) then
      ToolExecutionResult(false, error := Some(NotAvailable(NoFallbackToolMessage)), toolName := FallbackToolName)
    else
      match web.value.search(query + FallbackQuerySuffix, None)
      case Ok(results) =>
        ToolExecutionResult(true, CourseList(ConvertedCourses(results)), fallbackUsed := true, toolName := FallbackToolName)
      case Err(e) =>
        ToolExecutionResult(false, error := Some(ClientError(e)), fallbackUsed := true, toolName := FallbackToolName)
  }

  /**
   * `search_courses`: the result and the availability table afterwards. The primary is tried
   * only when usable; a primary failure switches its flag off and then falls back or fails;
   * an unusable primary falls back at once or fails without calling any tool.
   */
  function CourseSearch(
    mcp: Option<McpClient>, web: Option<WebClient>, availability: map<ToolType, bool>, query: string, useFallback: bool)
    : (r: (ToolExecutionResult, map<ToolType, bool>))
    requires Tracked(availability)
    ensures r.1.Keys == availability.Keys && r.1[WebSearchTool] == availability[WebSearchTool]
    ensures r.1[McpPlaywrightTool] <==>
      availability[McpPlaywrightTool] && !(mcp.Some? && mcp.value.searchGeektimeCourses(query).Err?)
    ensures r.0.success && !r.0.fallbackUsed <==>
      Usable(mcp, availability[McpPlaywrightTool]) && mcp.value.searchGeektimeCourses(query).Ok?
    ensures r.0.success && !r.0.fallbackUsed ==>
      r.0.toolName == PrimaryToolName && r.0.data == CourseList(mcp.value.searchGeektimeCourses(query).value)
    ensures r.0.fallbackUsed ==> useFallback
    ensures r.0.success <==> r.0.error.None?
    ensures !useFallback ==> r.0.toolName == PrimaryToolName
  {
    if Usable(mcp, availability[McpPlaywrightTool]) then
      match mcp.value.searchGeektimeCourses(query)
      case Ok(courses) =>
        (ToolExecutionResult(true, CourseList(courses), toolName := PrimaryToolName), availability)
      case Err(e) =>
        var after := availability[McpPlaywrightTool := false];
        if useFallback then (FallbackCourseSearch(web, after, query), after)
        else (ToolExecutionResult(false, error := Some(ClientError(e)), toolName := PrimaryToolName), after)
    else if useFallback then
      (FallbackCourseSearch(web, availability, query), availability)
    else
      (ToolExecutionResult(false, error := Some(NotAvailable(NoFallbackEnabledMessage)), toolName := PrimaryToolName), availability)
  }

  /** With the fallback disabled, a course search never consults the web client. */
  lemma NoFallbackIgnoresWeb(
    mcp: Option<McpClient>, web1: Option<WebClient>, web2: Option<WebClient>, availability: map<ToolType, bool>, query: string)
    requires Tracked(availability)
    ensures CourseSearch(mcp, web1, availability, query, false) == CourseSearch(mcp, web2, availability, query, false)
  {
  }

  /**
   * Once a primary search has failed, later course searches skip the browser client until the
   * flags are reset: what they report no longer depends on that client.
   */
  lemma FailedPrimaryIsSkipped(
    mcp: Option<McpClient>, other: Option<McpClient>, web: Option<WebClient>, availability: map<ToolType, bool>,
    query: string, useFallback: bool, nextQuery: string, nextUseFallback: bool)
    requires Tracked(availability)
    requires Usable(mcp, availability[McpPlaywrightTool]) && mcp.value.searchGeektimeCourses(query).Err?
    ensures var after := CourseSearch(mcp, web, availability, query, useFallback).1;
      Tracked(after) && !after[McpPlaywrightTool] &&
      CourseSearch(mcp, web, after, nextQuery, nextUseFallback) == CourseSearch(other, web, after, nextQuery, nextUseFallback)
  {
    var after := CourseSearch(mcp, web, availability, query, useFallback).1;
    assert !after[McpPlaywrightTool];
    assert !Usable(other, after[McpPlaywrightTool]);
  }

  /**
   * A tool that needs one client: when that client is unusable it fails with the manager's
   * own message; otherwise it reports the client's data, or the client's error.
   */
  function SingleToolResult<T>(usable: bool, outcome: Result<T, string>, data: T -> ToolData, unavailable: string, toolName: string)
    : (r: ToolExecutionResult)
    ensures r.toolName == toolName && !r.fallbackUsed
    ensures r.success <==> usable && outcome.Ok?
    ensures r.success ==> r.error.None? && r.data == data(outcome.value)
    ensures !usable ==> r.error == Some(NotAvailable(unavailable))
    ensures usable && outcome.Err? ==> r.error == Some(ClientError(outcome.error))
  {
    if !usable then ToolExecutionResult(false, error := Some(NotAvailable(unavailable)), toolName := toolName)
    else
      match outcome
      case Ok(v) => ToolExecutionResult(true, data(v), toolName := toolName)
      case Err(e) => ToolExecutionResult(false, error := Some(ClientError(e)), toolName := toolName)
  }

  /** The state after `handle_tool_error_in_state`. */
  function ToolErrorInStateHandled(s: AgentState, result: ToolExecutionResult): AgentState
  {
    if result.success then s else ErrorHandler.ToolErrorHandled(s, result.toolName)
  }

  /**
   * A successful result leaves the state alone; a failed one adds exactly one system notice,
   * naming the tool the result reports, and changes nothing else.
   */
  lemma ToolErrorInStateNotice(s: AgentState, result: ToolExecutionResult)
    ensures result.success ==> ToolErrorInStateHandled(s, result) == s
    ensures !result.success ==>
      var t := ToolErrorInStateHandled(s, result);
      && |t.messages| == |s.messages| + 1 && t.messages[..|s.messages|] == s.messages
      && t.messages[|s.messages|].role == AssistantRole && t.messages[|s.messages|].agent == Some(SystemRole)
      && Contains(t.messages[|s.messages|].content, result.toolName)
      && t.(messages := s.messages) == s
  {
    if !result.success {
      ErrorHandler.ToolErrorTextNamesTool(result.toolName);
    }
  }

  /** `ToolManager`: the two clients, fixed at creation, and the availability table it updates. */
  class ToolManager {
    const mcpClient: Option<McpClient>
    const webSearchClient: Option<WebClient>
    var toolAvailability: map<ToolType, bool>

    /** The table always holds both flags. */
    predicate Valid()
      reads this
    {
      Tracked(toolAvailability)
    }

    /**
     * A manager over the clients that were enabled and could be created (`None` for a client
     * that is disabled in the configuration or whose creation raised).
     */
    constructor (mcpClient: Option<McpClient>, webSearchClient: Option<WebClient>)
      ensures Valid()
      ensures this.mcpClient == mcpClient && this.webSearchClient == webSearchClient
      ensures toolAvailability == AvailabilityOf(mcpClient, webSearchClient)
    {
      this.mcpClient := mcpClient;
      this.webSearchClient := webSearchClient;
      toolAvailability := AvailabilityOf(mcpClient, webSearchClient);
    }

    /** `search_courses`, with the fallback on by default. */
    method SearchCourses(query: string, useFallback: bool := true) returns (result: ToolExecutionResult)
      requires Valid()
      modifies this
      ensures Valid()
      ensures (result, toolAvailability) == CourseSearch(mcpClient, webSearchClient, old(toolAvailability), query, useFallback)
    {
      if mcpClient.Some? && toolAvailability[McpPlaywrightTool] {
        var outcome := mcpClient.value.searchGeektimeCourses(query);
        if outcome.Ok? {
          return ToolExecutionResult(true, CourseList(outcome.value), toolName := PrimaryToolName);
        }
        toolAvailability := toolAvailability[McpPlaywrightTool := false];
        if useFallback {
          result := SearchCoursesFallback(query, Some(ClientError(outcome.error)));
        } else {
          result := ToolExecutionResult(false, error := Some(ClientError(outcome.error)), toolName := PrimaryToolName);
        }
      } else if useFallback {
        result := SearchCoursesFallback(query, None);
      } else {
        result := ToolExecutionResult(false, error := Some(NotAvailable(NoFallbackEnabledMessage)), toolName := PrimaryToolName);
      }
    }

    /** `_search_courses_fallback`; the primary's error is only logged. */
    method SearchCoursesFallback(query: string, primaryError: Option<ToolError>) returns (result: ToolExecutionResult)
      requires Valid()
      ensures result == FallbackCourseSearch(webSearchClient, toolAvailability, query)
    {
      if webSearchClient.None? || !toolAvailability[WebSearchTool] {
        return ToolExecutionResult(false, error := Some(NotAvailable(NoFallbackToolMessage)), toolName := FallbackToolName);
      }
      var outcome := webSearchClient.value.search(query + FallbackQuerySuffix, None);
      if outcome.Ok? {
        var courses := ConvertSearchToCourses(outcome.value);
        result := ToolExecutionResult(true, CourseList(courses), fallbackUsed := true, toolName := FallbackToolName);
      } else {
        result := ToolExecutionResult(false, error := Some(ClientError(outcome.error)), fallbackUsed := true, toolName := FallbackToolName);
      }
    }

    /** `get_course_details`: the browser client's details of one course. */
    method GetCourseDetails(url: string) returns (result: ToolExecutionResult)
      requires Valid()
      ensures result.toolName == PrimaryToolName && !result.fallbackUsed
      ensures result.success <==> Usable(mcpClient, toolAvailability[McpPlaywrightTool]) && mcpClient.value.courseDetails(url).Ok?
      ensures result.success ==> result.error.None? && result.data == CourseDetails(mcpClient.value.courseDetails(url).value)
      ensures !Usable(mcpClient, toolAvailability[McpPlaywrightTool]) ==> result.error == Some(NotAvailable(PrimaryUnavailableMessage))
      ensures Usable(mcpClient, toolAvailability[McpPlaywrightTool]) && mcpClient.value.courseDetails(url).Err? ==>
        result.error == Some(ClientError(mcpClient.value.courseDetails(url).error))
    {
      var usable := mcpClient.Some? && toolAvailability[McpPlaywrightTool];
      var outcome := if usable then mcpClient.value.courseDetails(url) else Err("");
      result := SingleToolResult(usable, outcome, (c: Course) => CourseDetails(c), PrimaryUnavailableMessage, PrimaryToolName);
    }

    /** `search_web`: the web client's hits for a query and an optional cap. */
    method SearchWeb(query: string, maxResults: Option<nat> := None) returns (result: ToolExecutionResult)
      requires Valid()
      ensures result.toolName == WebToolName && !result.fallbackUsed
      ensures result.success <==> Usable(webSearchClient, toolAvailability[WebSearchTool]) && webSearchClient.value.search(query, maxResults).Ok?
      ensures result.success ==> result.error.None? && result.data == WebResults(webSearchClient.value.search(query, maxResults).value)
      ensures !Usable(webSearchClient, toolAvailability[WebSearchTool]) ==> result.error == Some(NotAvailable(WebUnavailableMessage))
      ensures Usable(webSearchClient, toolAvailability[WebSearchTool]) && webSearchClient.value.search(query, maxResults).Err? ==>
        result.error == Some(ClientError(webSearchClient.value.search(query, maxResults).error))
    {
      var usable := webSearchClient.Some? && toolAvailability[WebSearchTool];
      var outcome := if usable then webSearchClient.value.search(query, maxResults) else Err("");
      result := SingleToolResult(usable, outcome, (w: seq<WebResult>) => WebResults(w), WebUnavailableMessage, WebToolName);
    }

    /** `search_learning_resources`: the web client's learning resources for a topic. */
    method SearchLearningResources(topic: string, skillLevel: Option<string> := None) returns (result: ToolExecutionResult)
      requires Valid()
      ensures result.toolName == WebToolName && !result.fallbackUsed
      ensures result.success <==>
        Usable(webSearchClient, toolAvailability[WebSearchTool]) && webSearchClient.value.learningResources(topic, skillLevel).Ok?
      ensures result.success ==>
        result.error.None? && result.data == WebResults(webSearchClient.value.learningResources(topic, skillLevel).value)
      ensures !Usable(webSearchClient, toolAvailability[WebSearchTool]) ==> result.error == Some(NotAvailable(WebUnavailableMessage))
      ensures Usable(webSearchClient, toolAvailability[WebSearchTool]) && webSearchClient.value.learningResources(topic, skillLevel).Err? ==>
        result.error == Some(ClientError(webSearchClient.value.learningResources(topic, skillLevel).error))
    {
      var usable := webSearchClient.Some? && toolAvailability[WebSearchTool];
      var outcome := if usable then webSearchClient.value.learningResources(topic, skillLevel) else Err("");
      result := SingleToolResult(usable, outcome, (w: seq<WebResult>) => WebResults(w), WebUnavailableMessage, WebToolName);
    }

    /**
     * `_convert_search_to_courses`: one course per hit, in order, keeping title and url, the
     * snippet as description, at intermediate difficulty from the web search, with neither
     * duration nor rating.
     */
    method ConvertSearchToCourses(searchResults: seq<WebResult>) returns (courses: seq<Course>)
      ensures courses == ConvertedCourses(searchResults)
      ensures |courses| == |searchResults|
      ensures forall i :: 0 <= i < |courses| ==>
        && courses[i].title == searchResults[i].title && courses[i].url == searchResults[i].url
        && courses[i].description == searchResults[i].snippet
        && courses[i].difficulty == ConvertedDifficulty && courses[i].source == ConvertedSource
        && courses[i].duration.None? && courses[i].rating.None?
    {
      courses := [];
      for i := 0 to |searchResults|
        invariant |courses| == i
        invariant forall j :: 0 <= j < i ==> courses[j] == CourseFromResult(searchResults[j])
      {
        var result := searchResults[i];
        var course := Course(result.title, result.url, result.snippet, ConvertedDifficulty, None, None, ConvertedSource);
        courses := courses + [course];
      }
    }

    /** `handle_tool_error_in_state`: a failed result adds the tool notice to the conversation. */
    method HandleToolErrorInState(result: ToolExecutionResult, st: SharedState)
      modifies st
      ensures st.Value() == ToolErrorInStateHandled(old(st.Value()), result)
    {
      if !result.success {
        ErrorHandler.HandleToolError(result.toolName, st);
      }
    }

    /** `get_tool_status`: exactly the two flags, under the tools' names. */
    method GetToolStatus() returns (status: map<string, bool>)
      requires Valid()
      ensures status.Keys == {"mcp_playwright", "web_search"}
      ensures status["mcp_playwright"] == toolAvailability[McpPlaywrightTool]
      ensures status["web_search"] == toolAvailability[WebSearchTool]
    {
      status := map["mcp_playwright" := toolAvailability[McpPlaywrightTool], "web_search" := toolAvailability[WebSearchTool]];
    }

    /** `reset_tool_availability`: each flag again says whether its client exists. */
    method ResetToolAvailability()
      requires Valid()
      modifies this
      ensures Valid()
      ensures toolAvailability == AvailabilityOf(mcpClient, webSearchClient)
    {
      toolAvailability := toolAvailability[McpPlaywrightTool := mcpClient.Some?][WebSearchTool := webSearchClient.Some?];
      forall t: ToolType | t in toolAvailability
        ensures t == McpPlaywrightTool || t == WebSearchTool
      {
        match t
        case McpPlaywrightTool =>
        case WebSearchTool =>
      }
      assert toolAvailability.Keys == {McpPlaywrightTool, WebSearchTool};
    }
  }

  /**
   * Resetting undoes what failed searches switched off: after a reset the table is the one the
   * manager started with, so the primary is tried again exactly when its client exists.
   */
  lemma ResetRestoresPrimary(mcp: Option<McpClient>, web: Option<WebClient>, query: string, useFallback: bool)
    ensures var reset := AvailabilityOf(mcp, web);
      var r := CourseSearch(mcp, web, reset, query, useFallback).0;
      (r.success && !r.fallbackUsed) <==> mcp.Some? && mcp.value.searchGeektimeCourses(query).Ok?
  {
  }
}
