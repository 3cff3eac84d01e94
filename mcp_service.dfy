/** The state-keeping part of `MCPService.swift`: the tool names and requests, the
    history of contexts the server sends back (at most ten, oldest dropped first),
    the unwrapping of a tool's result and the view model's copy of the history.
    The decoded server reply of a tool call is an input. */
module MCPService {
  import opened Wrappers

  // ---------------------------------------------------------------------------
  // Tools and requests

  datatype MCPTool = GetUserData | UpdateUserProfile | SearchItems | AnalyzeData | GenerateReport

  /** The tool's `rawValue`, the name sent to the server; the tool is recovered
      from it, so distinct tools have distinct names. */
  function RawValue(tool: MCPTool): (r: string)
    ensures ToolNamed(r) == Some(tool)
  {
    match tool
    case GetUserData => "get_user_data"
    case UpdateUserProfile => "update_user_profile"
    case SearchItems => "search_items"
    case AnalyzeData => "analyze_data"
    case GenerateReport => "generate_report"
  }

  /** `MCPTool(rawValue:)`: the tool with this name, if any. */
  function ToolNamed(name: string): Option<MCPTool>
  {
    if name == "get_user_data" then Some(GetUserData)
    else if name == "update_user_profile" then Some(UpdateUserProfile)
    else if name == "search_items" then Some(SearchItems)
    else if name == "analyze_data" then Some(AnalyzeData)
    else if name == "generate_report" then Some(GenerateReport)
    else None
  }

  /** Every name a tool is recovered from is that tool's name. */
  lemma ToolNamedIsRawValue(name: string)
    requires ToolNamed(name).Some?
    ensures RawValue(ToolNamed(name).value) == name
  {
  }

  /** `MCPRequest`: the tool travels by name. */
  datatype MCPRequest = MCPRequest(tool: string, parameters: map<string, string>, context: Option<string>)

  /** `MCPRequest.init(tool:parameters:context:)`: stores the tool's name and the
      other two arguments as given. */
  function NewRequest(tool: MCPTool, parameters: map<string, string>, context: Option<string>): (r: MCPRequest)
    ensures ToolNamed(r.tool) == Some(tool)
    ensures r.parameters == parameters && r.context == context
  {
    MCPRequest(RawValue(tool), parameters, context)
  }

  /** `MCPResponse`, as decoded from the server's reply. */
  datatype MCPResponse = MCPResponse(success: bool, data: Option<string>, error: Option<string>, context: Option<string>)

  /** `MCPServiceError`. */
  datatype MCPServiceError = InvalidURL | InvalidResponse | ExecutionFailed(message: string) | AuthenticationFailed

  const UnknownError: string := "Unknown error"

  // ---------------------------------------------------------------------------
  // The context history

  const HistoryLimit: nat := 10

  /** The history after a reply with context `context`: the context is appended and,
      when that makes more than ten entries, the oldest one is dropped. */
  function RecordContext(history: seq<string>, context: Option<string>): (r: seq<string>)
    ensures context.None? ==> r == history
    ensures context.Some? ==>
              && |r| == (if |history| < HistoryLimit then |history| + 1 else |history|)
              && r[|r| - 1] == context.value
              && r == (history + [context.value])[|history| + 1 - |r|..]
    ensures |history| <= HistoryLimit ==> |r| <= HistoryLimit
  {
    match context
    case None => history
    case Some(c) =>
      var appended := history + [c];
      if |appended| > HistoryLimit then appended[1..] else appended
  }

  /** The history after the replies with contexts `contexts`, one after another. */
  function Replay(history: seq<string>, contexts: seq<Option<string>>): seq<string>
  {
    if contexts == [] then history
    else RecordContext(Replay(history, contexts[..|contexts| - 1]), contexts[|contexts| - 1])
  }

  /** The contexts that were present, in order. */
  function Present(contexts: seq<Option<string>>): seq<string>
  {
    if contexts == [] then []
    else
      var rest := Present(contexts[..|contexts| - 1]);
      match contexts[|contexts| - 1]
      case None => rest
      case Some(c) => rest + [c]
  }

  /** The last `n` elements, or all of them when there are fewer. */
  function LastN(s: seq<string>, n: nat): (r: seq<string>)
    ensures |r| == if |s| <= n then |s| else n
  {
    if |s| <= n then s else s[|s| - n..]
  }

  /** Starting empty, the history always holds the ten most recent contexts the
      server sent, oldest first: a sliding window over the replies. */
  lemma {:induction false} HistoryIsSlidingWindow(contexts: seq<Option<string>>)
    ensures Replay([], contexts) == LastN(Present(contexts), HistoryLimit)
  {
    if contexts != [] {
      var prefix := contexts[..|contexts| - 1];
      HistoryIsSlidingWindow(prefix);
      var p := Present(prefix);
      var window := LastN(p, HistoryLimit);
      match contexts[|contexts| - 1]
      case None =>
      case Some(c) =>
        assert Present(contexts) == p + [c];
        if |p| >= HistoryLimit {
          assert (window + [c])[1..] == (p + [c])[|p| + 1 - HistoryLimit..];
        }
    }
  }

  /** No sequence of replies grows a history of at most ten entries beyond ten. */
  lemma {:induction false} ReplayStaysBounded(history: seq<string>, contexts: seq<Option<string>>)
    requires |history| <= HistoryLimit
    ensures |Replay(history, contexts)| <= HistoryLimit
  {
    if contexts != [] {
      ReplayStaysBounded(history, contexts[..|contexts| - 1]);
    }
  }

  // ---------------------------------------------------------------------------
  // Unwrapping a tool's result

  /** The `guard response.success, let data = response.data` of the wrappers that
      return data: the data when the call succeeded and carried some, otherwise
      `executionFailed` with the server's error text or `Unknown error`. */
  function DataOrFailure(response: MCPResponse): (r: Result<string, MCPServiceError>)
    ensures r.Success? <==> response.success && response.data.Some?
    ensures r.Success? ==> r.value == response.data.value
    ensures r.Failure? ==> r.error.ExecutionFailed?
    ensures r.Failure? && response.error.Some? ==> r.error.message == response.error.value
    ensures r.Failure? && response.error.None? ==> r.error.message == UnknownError
  {
    if response.success && response.data.Some? then Success(response.data.value)
    else Failure(ExecutionFailed(response.error.GetOr(UnknownError)))
  }

  /** A wrapper's result: the call's own error, or the unwrapped response. */
  function WrapperResult(reply: Result<MCPResponse, MCPServiceError>): (r: Result<string, MCPServiceError>)
    ensures r.Success? <==> reply.Success? && reply.value.success && reply.value.data.Some?
    ensures r.Success? ==> r.value == reply.value.data.value
    ensures reply.Failure? ==> r == Failure(reply.error)
    ensures reply.Success? && r.Failure? ==> r.error.ExecutionFailed?
  {
    match reply
    case Failure(e) => Failure(e)
    case Success(response) => DataOrFailure(response)
  }

  // ---------------------------------------------------------------------------
  // The service

  /** `MCPService`: the context history is the state it keeps. */
  class MCPService {
    var contextHistory: seq<string>

    constructor ()
      ensures contextHistory == []
    {
      contextHistory := [];
    }

    /** `executeTool(_:parameters:context:)`: the request it sends and the outcome of
        the call, `reply`, which stands for the server's decoded answer or the
        transport error. A decoded answer's context is recorded in the history. */
    method ExecuteTool(tool: MCPTool, parameters: map<string, string>, context: Option<string>,
                       reply: Result<MCPResponse, MCPServiceError>)
      returns (request: MCPRequest, result: Result<MCPResponse, MCPServiceError>)
      modifies this
      ensures request == NewRequest(tool, parameters, context)
      ensures result == reply
      ensures contextHistory == if reply.Success? then RecordContext(old(contextHistory), reply.value.context)
                                else old(contextHistory)
    {
      request := NewRequest(tool, parameters, context);
      if reply.Failure? {
        return request, reply;
      }
      var response := reply.value;
      if response.context.Some? {
        contextHistory := contextHistory + [response.context.value];
        if |contextHistory| > HistoryLimit {
          contextHistory := contextHistory[1..];
        }
      }
      result := Success(response);
    }

    /** `getUserData(userId:)` */
    method GetUserData(userId: string, reply: Result<MCPResponse, MCPServiceError>)
      returns (request: MCPRequest, result: Result<string, MCPServiceError>)
      modifies this
      ensures request == NewRequest(MCPTool.GetUserData, map["user_id" := userId], None)
      ensures result == WrapperResult(reply)
      ensures contextHistory == if reply.Success? then RecordContext(old(contextHistory), reply.value.context)
                                else old(contextHistory)
    {
      var response;
      request, response := ExecuteTool(MCPTool.GetUserData, map["user_id" := userId], None, reply);
      result := Unwrapped(response);
    }

    /** `updateUserProfile(userId:profile:)`: the response's success flag, as is. */
    method UpdateUserProfile(userId: string, profile: string, reply: Result<MCPResponse, MCPServiceError>)
      returns (request: MCPRequest, result: Result<bool, MCPServiceError>)
      modifies this
      ensures request == NewRequest(MCPTool.UpdateUserProfile, map["user_id" := userId, "profile" := profile], None)
      ensures result == match reply case Failure(e) => Failure(e) case Success(response) => Success(response.success)
      ensures contextHistory == if reply.Success? then RecordContext(old(contextHistory), reply.value.context)
                                else old(contextHistory)
    {
      var response;
      request, response := ExecuteTool(MCPTool.UpdateUserProfile, map["user_id" := userId, "profile" := profile], None, reply);
      match response
      case Failure(e) => result := Failure(e);
      case Success(r) => result := Success(r.success);
    }

    /** `searchItems(query:)` */
    method SearchItems(query: string, reply: Result<MCPResponse, MCPServiceError>)
      returns (request: MCPRequest, result: Result<string, MCPServiceError>)
      modifies this
      ensures request == NewRequest(MCPTool.SearchItems, map["query" := query], None)
      ensures result == WrapperResult(reply)
      ensures contextHistory == if reply.Success? then RecordContext(old(contextHistory), reply.value.context)
                                else old(contextHistory)
    {
      var response;
      request, response := ExecuteTool(MCPTool.SearchItems, map["query" := query], None, reply);
      result := Unwrapped(response);
    }

    /** `analyzeData(data:analysisType:)` */
    method AnalyzeData(data: string, analysisType: string, reply: Result<MCPResponse, MCPServiceError>)
      returns (request: MCPRequest, result: Result<string, MCPServiceError>)
      modifies this
      ensures request == NewRequest(MCPTool.AnalyzeData, map["data" := data, "analysis_type" := analysisType], None)
      ensures result == WrapperResult(reply)
      ensures contextHistory == if reply.Success? then RecordContext(old(contextHistory), reply.value.context)
                                else old(contextHistory)
    {
      var response;
      request, response := ExecuteTool(MCPTool.AnalyzeData, map["data" := data, "analysis_type" := analysisType], None, reply);
      result := Unwrapped(response);
    }

    /** `generateReport(reportType:parameters:)` */
    method GenerateReport(reportType: string, parameters: string, reply: Result<MCPResponse, MCPServiceError>)
      returns (request: MCPRequest, result: Result<string, MCPServiceError>)
      modifies this
      ensures request == NewRequest(MCPTool.GenerateReport, map["report_type" := reportType, "parameters" := parameters], None)
      ensures result == WrapperResult(reply)
      ensures contextHistory == if reply.Success? then RecordContext(old(contextHistory), reply.value.context)
                                else old(contextHistory)
    {
      var response;
      request, response := ExecuteTool(MCPTool.GenerateReport, map["report_type" := reportType, "parameters" := parameters], None, reply);
      result := Unwrapped(response);
    }

    /** `getContextHistory()`: the history, which stays as it is. */
    method GetContextHistory() returns (history: seq<string>)
      ensures history == contextHistory
    {
      history := contextHistory;
    }

    /** `clearContextHistory()` */
    method ClearContextHistory()
      modifies this
      ensures contextHistory == []
    {
      contextHistory := [];
    }
  }

  /** The guard of the data-returning wrappers, applied to the outcome of the call. */
  method Unwrapped(response: Result<MCPResponse, MCPServiceError>) returns (result: Result<string, MCPServiceError>)
    ensures result == WrapperResult(response)
  {
    if response.Failure? {
      return Failure(response.error);
    }
    var r := response.value;
    if r.success && r.data.Some? {
      result := Success(r.data.value);
    } else {
      result := Failure(ExecutionFailed(r.error.GetOr(UnknownError)));
    }
  }

  /** `MCPViewModel`: holds a published copy of its service's history. */
  class MCPViewModel {
    var contextHistory: seq<string>
    const service: MCPService

    constructor ()
      ensures fresh(service)
      ensures contextHistory == [] && service.contextHistory == []
    {
      contextHistory := [];
      service := new MCPService();
    }

    /** `updateContextHistory()`: copies the service's history. */
    method UpdateContextHistory()
      modifies this
      ensures contextHistory == service.contextHistory
    {
      contextHistory := service.GetContextHistory();
    }

    /** `clearContextHistory()`: empties the service's history and the copy. */
    method ClearContextHistory()
      modifies this, service
      ensures service.contextHistory == [] && contextHistory == []
    {
      service.ClearContextHistory();
      contextHistory := [];
    }
  }
}
