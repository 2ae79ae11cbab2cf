/**
 * The MCP endpoint: a JSON-RPC 2.0 dispatcher for protocol version
 * 2025-03-26. A request is classified once (`Classify`) and then turned
 * into a reply; the server object keeps the `initialized` flag and the
 * client information sent by `initialize`.
 *
 * `MCPError` is declared as a plain dataclass, not an exception, so the
 * code as written cannot raise or catch it: every handler failure becomes
 * a `TypeError` that escapes `process_request` and turns the whole body
 * into one internal error. `RenderAsWritten` and `BodyReplyAsWritten`
 * model that; `Render` and `BodyReply` model the evident intent, an
 * exception class, and are what the server uses.
 */
module Mcp {
  import opened PyValues

  const McpVersion := "2025-03-26"

  const ParseError := -32700
  const InvalidRequest := -32600
  const MethodNotFound := -32601
  const InternalError := -32603
  const InvalidVersion := -32000
  const ToolExecutionError := -32002
  const ResourceNotFound := -32003

  const ToolNames := ["search_contracts", "vector_search_contracts", "get_contract_details"]
  const ResourceUris := ["contracts://all", "contracts://search"]
  const PromptNames := ["analyze_contract", "compare_contracts"]

  /** `create_error_response(request_id, code, message, data)`. */
  function ErrorResponse(id: Value, code: int, message: string, data: Value): (r: Value)
    ensures r.Dict? && Keys(r.members) == ["jsonrpc", "id", "error"]
    ensures Lookup(r.members, "jsonrpc") == Str("2.0") && Lookup(r.members, "id") == id
    ensures var e := Lookup(r.members, "error");
      e.Dict? && Lookup(e.members, "code") == Int(code) && Lookup(e.members, "message") == Str(message)
      && (HasKey(e.members, "data") <==> data != Null)
      && Lookup(e.members, "data") == data
  {
    var error := ErrorMembers(code, message, data);
    var r := Dict([("jsonrpc", Str("2.0")), ("id", id), ("error", Dict(error))]);
    assert Keys(r.members) == ["jsonrpc", "id", "error"];
    LookupAt(r.members, "jsonrpc", 0);
    LookupAt(r.members, "id", 1);
    LookupAt(r.members, "error", 2);
    r
  }

  /** The `error` object: code, message, and the data only when there is some. */
  function ErrorMembers(code: int, message: string, data: Value): (error: seq<(string, Value)>)
    ensures Lookup(error, "code") == Int(code) && Lookup(error, "message") == Str(message)
    ensures HasKey(error, "data") <==> data != Null
    ensures Lookup(error, "data") == data
  {
    var error := [("code", Int(code)), ("message", Str(message))] + (if data != Null then [("data", data)] else []);
    assert HasKey(error, "data") ==> data != Null by {
      if data == Null {
        assert forall k | 0 <= k < |error| :: error[k].0 != "data";
      }
    }
    assert data != Null ==> error[2].0 == "data";
    LookupAt(error, "code", 0);
    LookupAt(error, "message", 1);
    assert Lookup(error, "data") == data by {
      if data != Null {
        LookupAt(error, "data", 2);
      } else {
        LookupMissing(error, "data");
      }
    }
    error
  }

  /** `{"jsonrpc": "2.0", "id": request_id, "result": result}`. */
  function SuccessResponse(id: Value, result: Value): (r: Value)
    ensures r.Dict? && Keys(r.members) == ["jsonrpc", "id", "result"]
    ensures Lookup(r.members, "jsonrpc") == Str("2.0") && Lookup(r.members, "id") == id
      && Lookup(r.members, "result") == result
  {
    var r := Dict([("jsonrpc", Str("2.0")), ("id", id), ("result", result)]);
    assert Keys(r.members) == ["jsonrpc", "id", "result"];
    LookupAt(r.members, "jsonrpc", 0);
    LookupAt(r.members, "id", 1);
    LookupAt(r.members, "result", 2);
    r
  }

  /** A reply carries a result exactly when it is a success. */
  predicate IsSuccess(v: Value)
  {
    v.Dict? && HasKey(v.members, "result")
  }

  lemma ErrorIsNoSuccess(id: Value, code: int, message: string, data: Value)
    ensures !IsSuccess(ErrorResponse(id, code, message, data))
  {
    var r := ErrorResponse(id, code, message, data);
    HasKeyInKeys(r.members, "result");
    assert "result" !in ["jsonrpc", "id", "error"];
  }

  // ---- handlers ----

  /** What a handler does: return a result, raise `MCPError(code, message)`, or raise another exception. */
  datatype Handled = Done(result: Value) | Fails(code: int, message: string) | Crash(message: string)

  /** An external tool or prompt builder: its output, or the text of the exception it raised. */
  datatype Ran = Ran(output: Value) | Threw(message: string)

  /**
   * What the handlers call and the server's fixed catalogues: the three
   * tools (vector store and Dgraph searches), the two prompt builders, the
   * `asdict` renderings of the tool, resource and prompt lists, and the two
   * resource documents.
   */
  datatype Services = Services(
    tool: (string, Value) -> Ran, prompt: (string, Value) -> Ran,
    tools: Value, resources: Value, prompts: Value, allContracts: Value, searchInterface: Value)

  /** The server's state: the `initialized` flag and the stored `clientInfo`. */
  datatype ServerState = ServerState(initialized: bool, clientInfo: Value)

  /** What a request does to the server's state. */
  datatype Effect = Keep | MarkInitialized | SetClientInfo(info: Value)

  function Apply(st: ServerState, e: Effect): (st': ServerState)
    ensures e.Keep? ==> st' == st
  {
    match e
    case Keep => st
    case MarkInitialized => st.(initialized := true)
    case SetClientInfo(info) => st.(clientInfo := info)
  }

  /** Python's name for the type of a value, as an `AttributeError` message shows it. */
  function TypeName(v: Value): string
  {
    match v
    case Null => "NoneType"
    case Bool(_) => "bool"
    case Int(_) => "int"
    case Float(_) => "float"
    case Str(_) => "str"
    case List(_) => "list"
    case Dict(_) => "dict"
  }

  /** The exception `.get` raises on a value that is not a dict. */
  function NoGet(v: Value): Handled
  {
    Crash("'" + TypeName(v) + "' object has no attribute 'get'")
  }

  /** `params or {}`. */
  function AsParams(params: Value): (p: Value)
    ensures !Truthy(params) ==> p == Dict([])
    ensures Truthy(params) ==> p == params
  {
    if Truthy(params) then params else Dict([])
  }

  const InitializeResult := Dict([
    ("protocolVersion", Str(McpVersion)),
    ("capabilities", Dict([
      ("tools", Dict([("listChanged", Bool(true))])),
      ("resources", Dict([("subscribe", Bool(true)), ("listChanged", Bool(true))])),
      ("prompts", Dict([("listChanged", Bool(true))])),
      ("logging", Dict([]))])),
    ("serverInfo", Dict([
      ("name", Str("Smart Contract Discovery MCP Server")),
      ("version", Str("1.0.0")),
      ("description", Str("MCP server for searching and analyzing smart contracts"))]))])

  /** `handle_initialize(params)`: succeeds only for the supported protocol version. */
  function Initialize(params: Value): (h: Handled)
    ensures h.Done? <==> params.Dict? && Lookup(params.members, "protocolVersion") == Str(McpVersion)
    ensures h.Done? ==> h.result.Dict? && Lookup(h.result.members, "protocolVersion") == Str(McpVersion)
    ensures params.Dict? && !h.Done? ==> h.Fails? && h.code == InvalidVersion
  {
    match params
    case Dict(ms) =>
      var version := Lookup(ms, "protocolVersion");
      if version != Str(McpVersion) then
        Fails(InvalidVersion, "Unsupported protocol version: " + PyStr(version) + ". Expected: " + McpVersion)
      else
        LookupAt(InitializeResult.members, "protocolVersion", 0);
        Done(InitializeResult)
    case _ => NoGet(params)
  }

  /** `handle_tools_call(params)`: only the three tools can succeed; every failure is rewrapped. */
  function ToolsCall(s: Services, params: Value): (h: Handled)
    ensures h.Done? ==> (params.Dict? && Lookup(params.members, "name").Str?
      && Lookup(params.members, "name").s in ToolNames)
    ensures params.Dict? && !h.Done? ==> h.Fails? && h.code == ToolExecutionError
  {
    match params
    case Dict(ms) =>
      var name := Lookup(ms, "name");
      var arguments := LookupOr(ms, "arguments", Dict([]));
      if name.Str? && name.s in ToolNames then
        match s.tool(name.s, arguments)
        case Ran(output) => Done(output)
        case Threw(message) => Fails(ToolExecutionError, "Tool execution failed: " + message)
      else
        Fails(ToolExecutionError, "Tool execution failed: Unknown tool: " + PyStr(name))
    case _ => NoGet(params)
  }

  /** `handle_resources_read(params)`: the two fixed documents, anything else is not found. */
  function ResourcesRead(s: Services, params: Value): (h: Handled)
    ensures h.Done? <==> (params.Dict? && Lookup(params.members, "uri").Str?
      && Lookup(params.members, "uri").s in ResourceUris)
    ensures params.Dict? && !h.Done? ==> h.Fails? && h.code == ResourceNotFound
  {
    match params
    case Dict(ms) =>
      var uri := Lookup(ms, "uri");
      if uri == Str("contracts://all") then Done(s.allContracts)
      else if uri == Str("contracts://search") then Done(s.searchInterface)
      else Fails(ResourceNotFound, "Resource not found: " + PyStr(uri))
    case _ => NoGet(params)
  }

  /** `handle_prompts_get(params)`: only the two prompts can succeed. */
  function PromptsGet(s: Services, params: Value): (h: Handled)
    ensures h.Done? ==> (params.Dict? && Lookup(params.members, "name").Str?
      && Lookup(params.members, "name").s in PromptNames)
    ensures params.Dict? && !(Lookup(params.members, "name").Str? && Lookup(params.members, "name").s in PromptNames)
      ==> h.Fails? && h.code == MethodNotFound
  {
    match params
    case Dict(ms) =>
      var name := Lookup(ms, "name");
      var arguments := LookupOr(ms, "arguments", Dict([]));
      if name.Str? && name.s in PromptNames then
        match s.prompt(name.s, arguments)
        case Ran(output) => Done(output)
        case Threw(message) => Crash(message)
      else
        Fails(MethodNotFound, "Unknown prompt: " + PyStr(name))
    case _ => NoGet(params)
  }

  const Methods := ["initialize", "tools/list", "tools/call", "resources/list", "resources/read", "prompts/list", "prompts/get"]

  /** The handler chain of `process_request` for a request that has an id; None for an unknown name. */
  function Dispatch(s: Services, name: Value, params: Value): (d: Option<(Handled, Effect)>)
    ensures d.Some? <==> name.Str? && name.s in Methods
    ensures d.Some? && !(name == Str("initialize") && d.value.0.Done?) ==> d.value.1 == Keep
    ensures d.Some? ==> !d.value.1.MarkInitialized?
  {
    if name == Str("initialize") then
      var p := AsParams(params);
      var h := Initialize(p);
      Some((h, if h.Done? then SetClientInfo(LookupOr(p.members, "clientInfo", Dict([]))) else Keep))
    else if name == Str("tools/list") then Some((Done(Dict([("tools", s.tools)])), Keep))
    else if name == Str("tools/call") then Some((ToolsCall(s, AsParams(params)), Keep))
    else if name == Str("resources/list") then Some((Done(Dict([("resources", s.resources)])), Keep))
    else if name == Str("resources/read") then Some((ResourcesRead(s, AsParams(params)), Keep))
    else if name == Str("prompts/list") then Some((Done(Dict([("prompts", s.prompts)])), Keep))
    else if name == Str("prompts/get") then Some((PromptsGet(s, AsParams(params)), Keep))
    else None
  }

  // ---- process_request ----

  /** How `process_request` treats one message. */
  datatype Step =
    | NotAnObject
    | BadVersion(id: Value)
    | Notice(effect: Effect)
    | UnknownMethod(id: Value, name: Value)
    | Called(id: Value, outcome: Handled, effect: Effect)

  /** A request without an id (or with a null id) naming `initialized`. */
  predicate InitializedNotice(req: Value)
  {
    req.Dict? && Lookup(req.members, "jsonrpc") == Str("2.0") && Lookup(req.members, "id") == Null
    && Lookup(req.members, "method") == Str("initialized")
  }

  function Classify(s: Services, req: Value): (step: Step)
    ensures step.NotAnObject? <==> !req.Dict?
    ensures req.Dict? && Lookup(req.members, "jsonrpc") != Str("2.0") ==> step == BadVersion(Lookup(req.members, "id"))
    ensures step.Notice? <==> req.Dict? && Lookup(req.members, "jsonrpc") == Str("2.0") && Lookup(req.members, "id") == Null
    ensures EffectOf(step) == MarkInitialized <==> InitializedNotice(req)
    ensures step.UnknownMethod? || step.Called? ==> step.id == Lookup(req.members, "id") && step.id != Null
    ensures step.UnknownMethod? ==> !(Lookup(req.members, "method").Str? && Lookup(req.members, "method").s in Methods)
  {
    match req
    case Dict(ms) =>
      if Lookup(ms, "jsonrpc") != Str("2.0") then BadVersion(Lookup(ms, "id"))
      else
        var name := Lookup(ms, "method");
        var params := Lookup(ms, "params");
        var id := Lookup(ms, "id");
        if id == Null then Notice(if name == Str("initialized") then MarkInitialized else Keep)
        else (match Dispatch(s, name, params)
          case None => UnknownMethod(id, name)
          case Some((h, e)) => Called(id, h, e))
    case _ => NotAnObject
  }

  function EffectOf(step: Step): Effect
  {
    match step
    case Notice(e) => e
    case Called(_, _, e) => e
    case _ => Keep
  }

  /** The result of `process_request`: a reply, None for a notification, or an exception. */
  datatype Processed = Reply(response: Value) | Silent | Raises

  /**
   * The reply with `MCPError` an exception: a handler's MCP error keeps
   * its code, any other exception becomes -32603 with its text, both
   * carrying the request's id. A message that is not an object makes the
   * error path itself call `.get` and raise.
   */
  function Render(step: Step): (p: Processed)
    ensures p.Raises? <==> step.NotAnObject?
    ensures p.Silent? <==> step.Notice?
    ensures p.Reply? && IsSuccess(p.response) ==> step.Called? && step.outcome.Done?
  {
    match step
    case NotAnObject => Raises
    case BadVersion(id) =>
      ErrorIsNoSuccess(id, InvalidRequest, "Invalid JSON-RPC version", Null);
      Reply(ErrorResponse(id, InvalidRequest, "Invalid JSON-RPC version", Null))
    case Notice(_) => Silent
    case UnknownMethod(id, name) =>
      ErrorIsNoSuccess(id, MethodNotFound, "Method not found: " + PyStr(name), Null);
      Reply(ErrorResponse(id, MethodNotFound, "Method not found: " + PyStr(name), Null))
    case Called(id, Done(result), _) => Reply(SuccessResponse(id, result))
    case Called(id, Fails(code, message), _) =>
      ErrorIsNoSuccess(id, code, message, Null);
      Reply(ErrorResponse(id, code, message, Null))
    case Called(id, Crash(message), _) =>
      ErrorIsNoSuccess(id, InternalError, message, Null);
      Reply(ErrorResponse(id, InternalError, message, Null))
  }

  /**
   * The reply as written: raising the `MCPError` dataclass is a
   * `TypeError`, and so is matching any exception against `except
   * MCPError`, so every handler failure escapes `process_request`.
   */
  function RenderAsWritten(step: Step): (p: Processed)
    ensures p.Raises? <==> step.NotAnObject? || (step.Called? && !step.outcome.Done?)
  {
    match step
    case Called(_, Fails(_, _), _) => Raises
    case Called(_, Crash(_), _) => Raises
    case _ => Render(step)
  }

  function Process(s: Services, req: Value): Processed
  {
    Render(Classify(s, req))
  }

  /** A version other than "2.0" gets -32600 carrying the request's id. */
  lemma BadVersionIsInvalidRequest(s: Services, req: Value)
    requires req.Dict? && Lookup(req.members, "jsonrpc") != Str("2.0")
    ensures Process(s, req).Reply?
    ensures var r := Process(s, req).response;
      Lookup(r.members, "id") == Lookup(req.members, "id")
      && Lookup(Lookup(r.members, "error").members, "code") == Int(InvalidRequest)
  {
  }

  /** A request with an id and an unknown method gets -32601 carrying that id. */
  lemma UnknownMethodIsNotFound(s: Services, req: Value)
    requires req.Dict? && Lookup(req.members, "jsonrpc") == Str("2.0") && Lookup(req.members, "id") != Null
    requires !(Lookup(req.members, "method").Str? && Lookup(req.members, "method").s in Methods)
    ensures Process(s, req).Reply?
    ensures var r := Process(s, req).response;
      Lookup(r.members, "id") == Lookup(req.members, "id")
      && Lookup(Lookup(r.members, "error").members, "code") == Int(MethodNotFound)
  {
  }

  /** A success has exactly the three keys, and carries the request's id. */
  lemma SuccessShape(s: Services, req: Value)
    requires Process(s, req).Reply? && IsSuccess(Process(s, req).response)
    ensures var r := Process(s, req).response;
      r.Dict? && Keys(r.members) == ["jsonrpc", "id", "result"]
      && Lookup(r.members, "id") == Lookup(req.members, "id") && Lookup(r.members, "id") != Null
  {
  }

  /** A successful `initialize` means the client asked for protocol version 2025-03-26, and the result says so. */
  lemma InitializeNeedsVersion(s: Services, req: Value)
    requires req.Dict? && Lookup(req.members, "method") == Str("initialize")
    requires Process(s, req).Reply? && IsSuccess(Process(s, req).response)
    ensures var p := AsParams(Lookup(req.members, "params"));
      p.Dict? && Lookup(p.members, "protocolVersion") == Str(McpVersion)
    ensures var r := Lookup(Process(s, req).response.members, "result");
      r.Dict? && Lookup(r.members, "protocolVersion") == Str(McpVersion)
  {
  }

  /** An unknown tool, resource or prompt name never yields a success. */
  lemma UnknownNamesFail(s: Services, req: Value)
    requires req.Dict? && Process(s, req).Reply? && IsSuccess(Process(s, req).response)
    ensures var m := Lookup(req.members, "method");
      var p := AsParams(Lookup(req.members, "params"));
      (m == Str("tools/call") ==> Lookup(p.members, "name").Str? && Lookup(p.members, "name").s in ToolNames)
      && (m == Str("resources/read") ==> Lookup(p.members, "uri").Str? && Lookup(p.members, "uri").s in ResourceUris)
      && (m == Str("prompts/get") ==> Lookup(p.members, "name").Str? && Lookup(p.members, "name").s in PromptNames)
  {
    var step := Classify(s, req);
    assert step.Called? && step.outcome.Done?;
    var m := Lookup(req.members, "method");
    assert Dispatch(s, m, Lookup(req.members, "params")) == Some((step.outcome, step.effect));
    DispatchedNames(s, m, Lookup(req.members, "params"));
  }

  /** Dispatching to a tool, resource or prompt succeeds only for a name the server lists. */
  lemma DispatchedNames(s: Services, m: Value, params: Value)
    ensures var d := Dispatch(s, m, params); var p := AsParams(params);
      d.Some? && d.value.0.Done? ==>
        (m == Str("tools/call") ==> Lookup(p.members, "name").Str? && Lookup(p.members, "name").s in ToolNames)
        && (m == Str("resources/read") ==> Lookup(p.members, "uri").Str? && Lookup(p.members, "uri").s in ResourceUris)
        && (m == Str("prompts/get") ==> Lookup(p.members, "name").Str? && Lookup(p.members, "name").s in PromptNames)
  {
  }

  // ---- mcp_handler ----

  /** What `process_request` gives for each message of a batch. */
  function Outcomes(s: Services, items: seq<Value>): (ps: seq<Processed>)
    ensures |ps| == |items| && forall i | 0 <= i < |items| :: ps[i] == Process(s, items[i])
  {
    seq(|items|, i requires 0 <= i < |items| => Process(s, items[i]))
  }

  /** How `process_request` treats each message of a batch. */
  function Steps(s: Services, items: seq<Value>): (steps: seq<Step>)
    ensures |steps| == |items| && forall i | 0 <= i < |items| :: steps[i] == Classify(s, items[i])
  {
    seq(|items|, i requires 0 <= i < |items| => Classify(s, items[i]))
  }

  /** The batch loop: replies in order, notifications dropped; None once a message raises. */
  function Collect(ps: seq<Processed>): (rs: Option<seq<Value>>)
    ensures rs.Some? ==> |rs.value| <= |ps|
    decreases |ps|
  {
    if |ps| == 0 then Some([])
    else
      match Collect(ps[..|ps| - 1])
      case None => None
      case Some(prev) =>
        match ps[|ps| - 1]
        case Raises => None
        case Silent => Some(prev)
        case Reply(r) => Some(prev + [r])
  }

  function Replies(s: Services, items: seq<Value>): Option<seq<Value>>
  {
    Collect(Outcomes(s, items))
  }

  /** The single error that answers a body whose processing raised. */
  const InternalErrorReply := ErrorResponse(Null, InternalError, "Internal error", Null)

  /** `mcp_handler`: the body is None where it is not valid JSON. */
  function BodyReply(s: Services, body: Option<Value>): Value
  {
    match body
    case None => ErrorResponse(Null, ParseError, "Parse error", Null)
    case Some(req) =>
      if req.List? then
        match Replies(s, req.items)
        case None => InternalErrorReply
        case Some(rs) => List(rs)
      else
        match Process(s, req)
        case Raises => InternalErrorReply
        case Silent => Null
        case Reply(r) => r
  }

  /** Some message of the batch is not an object, so processing stopped there. */
  predicate Halted(steps: seq<Step>)
  {
    exists j | 0 <= j < |steps| :: steps[j].NotAnObject?
  }

  /** The server state after a batch: the effects of the messages before the first one that raises. */
  function Effects(st: ServerState, steps: seq<Step>): ServerState
    decreases |steps|
  {
    if |steps| == 0 then st
    else
      var init := steps[..|steps| - 1];
      var prev := Effects(st, init);
      if Halted(init) then prev else Apply(prev, EffectOf(steps[|steps| - 1]))
  }

  function BodyState(s: Services, st: ServerState, body: Option<Value>): ServerState
  {
    match body
    case None => st
    case Some(req) =>
      if req.List? then Effects(st, Steps(s, req.items)) else Apply(st, EffectOf(Classify(s, req)))
  }

  /** Collecting a batch split anywhere gives the replies of the two parts, in order. */
  lemma {:induction false} CollectConcat(a: seq<Processed>, b: seq<Processed>)
    ensures Collect(a + b) ==
      if Collect(a).None? || Collect(b).None? then None else Some(Collect(a).value + Collect(b).value)
    decreases |b|
  {
    if |b| == 0 {
      assert a + b == a;
      if Collect(a).Some? {
        assert Collect(a).value + [] == Collect(a).value;
      }
    } else {
      var b' := b[..|b| - 1];
      var last := b[|b| - 1];
      assert (a + b)[..|a + b| - 1] == a + b';
      assert (a + b)[|a + b| - 1] == last;
      CollectConcat(a, b');
      if Collect(a).Some? && Collect(b').Some? && last.Reply? {
        assert Collect(a).value + (Collect(b').value + [last.response])
          == (Collect(a).value + Collect(b').value) + [last.response];
      }
    }
  }

  /** The replies to a batch split anywhere are the replies to the two parts, in order. */
  lemma RepliesConcat(s: Services, a: seq<Value>, b: seq<Value>)
    ensures Replies(s, a + b) ==
      if Replies(s, a).None? || Replies(s, b).None? then None else Some(Replies(s, a).value + Replies(s, b).value)
  {
    var pa, pb, pab := Outcomes(s, a), Outcomes(s, b), Outcomes(s, a + b);
    assert pab == pa + pb by {
      forall i | 0 <= i < |a + b| ensures pab[i] == (pa + pb)[i] {
        if i < |a| {
          assert (a + b)[i] == a[i];
        } else {
          assert (a + b)[i] == b[i - |a|];
        }
      }
    }
    CollectConcat(Outcomes(s, a), Outcomes(s, b));
  }

  lemma {:induction false} CollectFails(ps: seq<Processed>)
    ensures Collect(ps).None? <==> exists i | 0 <= i < |ps| :: ps[i].Raises?
    decreases |ps|
  {
    if |ps| > 0 {
      var init := ps[..|ps| - 1];
      CollectFails(init);
      if exists i | 0 <= i < |init| :: init[i].Raises? {
        var i :| 0 <= i < |init| && init[i].Raises?;
        assert ps[i] == init[i];
      }
      if exists i | 0 <= i < |ps| :: ps[i].Raises? {
        var i :| 0 <= i < |ps| && ps[i].Raises?;
        if i < |init| {
          assert init[i] == ps[i];
        }
      }
    }
  }

  /** A batch fails as a whole exactly when one of its messages is not an object. */
  lemma RepliesFail(s: Services, items: seq<Value>)
    ensures Replies(s, items).None? <==> exists i | 0 <= i < |items| :: !items[i].Dict?
  {
    var ps := Outcomes(s, items);
    CollectFails(ps);
    assert forall i | 0 <= i < |items| :: ps[i].Raises? <==> !items[i].Dict?;
  }

  lemma {:induction false} CollectAnswers(ps: seq<Processed>, k: nat)
    requires Collect(ps).Some? && k < |Collect(ps).value|
    ensures exists i | 0 <= i < |ps| :: ps[i] == Reply(Collect(ps).value[k])
    decreases |ps|
  {
    var init := ps[..|ps| - 1];
    var prev := Collect(init).value;
    if k < |prev| {
      CollectAnswers(init, k);
      var i :| 0 <= i < |init| && init[i] == Reply(prev[k]);
      assert ps[i] == init[i];
    } else {
      assert ps[|ps| - 1] == Reply(Collect(ps).value[k]);
    }
  }

  /** Every reply in a batch answers one of its requests. */
  lemma RepliesAnswerRequests(s: Services, items: seq<Value>, k: nat)
    requires Replies(s, items).Some? && k < |Replies(s, items).value|
    ensures exists i | 0 <= i < |items| :: Process(s, items[i]) == Reply(Replies(s, items).value[k])
  {
    CollectAnswers(Outcomes(s, items), k);
  }

  lemma {:induction false} CollectSilent(ps: seq<Processed>)
    requires forall i | 0 <= i < |ps| :: ps[i].Silent?
    ensures Collect(ps) == Some([])
    decreases |ps|
  {
    if |ps| > 0 {
      var init := ps[..|ps| - 1];
      assert forall i | 0 <= i < |init| :: init[i] == ps[i];
      CollectSilent(init);
    }
  }

  /** A batch of notifications alone gets an empty list. */
  lemma NotificationsOnly(s: Services, items: seq<Value>)
    requires forall i | 0 <= i < |items| :: Process(s, items[i]).Silent?
    ensures Replies(s, items) == Some([])
  {
    CollectSilent(Outcomes(s, items));
  }

  lemma {:induction false} EffectsFlag(st: ServerState, steps: seq<Step>)
    requires !Halted(steps)
    ensures Effects(st, steps).initialized <==>
      st.initialized || exists i | 0 <= i < |steps| :: EffectOf(steps[i]) == MarkInitialized
    decreases |steps|
  {
    if |steps| > 0 {
      var init := steps[..|steps| - 1];
      assert !Halted(init) by {
        forall j | 0 <= j < |init| ensures !init[j].NotAnObject? {
          assert init[j] == steps[j];
        }
      }
      EffectsFlag(st, init);
      if exists i | 0 <= i < |init| :: EffectOf(init[i]) == MarkInitialized {
        var i :| 0 <= i < |init| && EffectOf(init[i]) == MarkInitialized;
        assert steps[i] == init[i];
      }
      if exists i | 0 <= i < |steps| :: EffectOf(steps[i]) == MarkInitialized {
        var i :| 0 <= i < |steps| && EffectOf(steps[i]) == MarkInitialized;
        if i < |init| {
          assert init[i] == steps[i];
        }
      }
    }
  }

  /**
   * Only the `initialized` notification sets the flag, and nothing clears
   * it: after a batch that does not fail, the flag is set exactly when it
   * was set before or one of its messages was that notification.
   */
  lemma InitializedFlag(s: Services, st: ServerState, items: seq<Value>)
    requires forall i | 0 <= i < |items| :: items[i].Dict?
    ensures Effects(st, Steps(s, items)).initialized <==>
      st.initialized || exists i | 0 <= i < |items| :: InitializedNotice(items[i])
  {
    var steps := Steps(s, items);
    EffectsFlag(st, steps);
    assert forall i | 0 <= i < |items| :: EffectOf(steps[i]) == MarkInitialized <==> InitializedNotice(items[i]);
  }

  /** One more message that does not raise adds its reply, if any. */
  lemma CollectStep(ps: seq<Processed>, i: nat)
    requires i < |ps| && Collect(ps[..i]).Some? && !ps[i].Raises?
    ensures Collect(ps[..i + 1]) ==
      Some(Collect(ps[..i]).value + if ps[i].Reply? then [ps[i].response] else [])
  {
    assert ps[..i + 1][..i] == ps[..i];
    assert Collect(ps[..i]).value + [] == Collect(ps[..i]).value;
  }

  /** One more message that is an object applies its effect, and processing goes on. */
  lemma RunningStep(st: ServerState, steps: seq<Step>, i: nat)
    requires i < |steps| && !Halted(steps[..i]) && !steps[i].NotAnObject?
    ensures !Halted(steps[..i + 1])
    ensures Effects(st, steps[..i + 1]) == Apply(Effects(st, steps[..i]), EffectOf(steps[i]))
  {
    assert steps[..i + 1][..i] == steps[..i];
    assert forall j | 0 <= j < i :: steps[..i][j] == steps[j];
    assert forall j | 0 <= j < i + 1 :: steps[..i + 1][j] == steps[j];
  }

  /** A message that is not an object stops processing and changes nothing. */
  lemma HaltedStep(st: ServerState, steps: seq<Step>, i: nat)
    requires i < |steps| && !Halted(steps[..i]) && steps[i].NotAnObject?
    ensures Halted(steps[..i + 1])
    ensures Effects(st, steps[..i + 1]) == Effects(st, steps[..i])
  {
    assert steps[..i + 1][..i] == steps[..i];
    assert steps[..i + 1][i] == steps[i];
  }

  /** Once processing has stopped, later messages do not change the state. */
  lemma {:induction false} EffectsStop(st: ServerState, steps: seq<Step>, n: nat)
    requires n <= |steps| && Halted(steps[..n])
    ensures Effects(st, steps) == Effects(st, steps[..n])
    decreases |steps| - n
  {
    if n < |steps| {
      var m := steps[..n + 1];
      assert m[..n] == steps[..n];
      assert Halted(m) by {
        var j :| 0 <= j < n && steps[..n][j].NotAnObject?;
        assert m[j] == steps[..n][j];
      }
      EffectsStop(st, steps, n + 1);
    } else {
      assert steps[..n] == steps;
    }
  }

  // ---- the code as written ----

  function ProcessAsWritten(s: Services, req: Value): Processed
  {
    RenderAsWritten(Classify(s, req))
  }

  function RepliesAsWritten(s: Services, items: seq<Value>): Option<seq<Value>>
  {
    Collect(seq(|items|, i requires 0 <= i < |items| => ProcessAsWritten(s, items[i])))
  }

  function BodyReplyAsWritten(s: Services, body: Option<Value>): Value
  {
    match body
    case None => ErrorResponse(Null, ParseError, "Parse error", Null)
    case Some(req) =>
      if req.List? then
        match RepliesAsWritten(s, req.items)
        case None => InternalErrorReply
        case Some(rs) => List(rs)
      else
        match ProcessAsWritten(s, req)
        case Raises => InternalErrorReply
        case Silent => Null
        case Reply(r) => r
  }

  /** The two agree wherever no handler fails. */
  lemma AsWrittenAgreesWithoutFailures(s: Services, req: Value)
    requires !(Classify(s, req).Called? && !Classify(s, req).outcome.Done?)
    ensures ProcessAsWritten(s, req) == Process(s, req)
  {
  }

  /** `initialize` with another protocol version fails with -32000 and changes nothing. */
  lemma VersionRejected(s: Services, req: Value)
    requires req.Dict? && Lookup(req.members, "jsonrpc") == Str("2.0") && Lookup(req.members, "id") != Null
    requires Lookup(req.members, "method") == Str("initialize")
    requires var p := Lookup(req.members, "params");
      p.Dict? && |p.members| > 0 && Lookup(p.members, "protocolVersion") != Str(McpVersion)
    ensures var version := Lookup(Lookup(req.members, "params").members, "protocolVersion");
      Classify(s, req) == Called(Lookup(req.members, "id"), Fails(InvalidVersion,
        "Unsupported protocol version: " + PyStr(version) + ". Expected: " + McpVersion), Keep)
  {
  }

  /** An `initialize` request for an older protocol version. */
  const OldVersionRequest := Dict([("jsonrpc", Str("2.0")), ("id", Int(1)), ("method", Str("initialize")),
    ("params", Dict([("protocolVersion", Str("2024-11-05"))]))])

  const OldVersionMessage := "Unsupported protocol version: " + "2024-11-05" + ". Expected: " + McpVersion

  lemma OldVersionClassified(s: Services)
    ensures Classify(s, OldVersionRequest) == Called(Int(1), Fails(InvalidVersion, OldVersionMessage), Keep)
  {
    OldVersionFields();
    VersionRejected(s, OldVersionRequest);
  }

  /** The fields `initialize` reads from `OldVersionRequest`. */
  lemma OldVersionFields()
    ensures var m := OldVersionRequest.members;
      Lookup(m, "jsonrpc") == Str("2.0") && Lookup(m, "id") == Int(1) && Lookup(m, "method") == Str("initialize")
      && Lookup(m, "params") == Dict([("protocolVersion", Str("2024-11-05"))])
    ensures Lookup([("protocolVersion", Str("2024-11-05"))], "protocolVersion") == Str("2024-11-05")
    ensures Str("2024-11-05") != Str(McpVersion)
  {
    var req := OldVersionRequest;
    LookupAt(req.members, "jsonrpc", 0);
    LookupAt(req.members, "id", 1);
    LookupAt(req.members, "method", 2);
    LookupAt(req.members, "params", 3);
    LookupAt([("protocolVersion", Str("2024-11-05"))], "protocolVersion", 0);
  }

  /**
   * `initialize` with an unsupported version, as written, answers the
   * internal error with a null id instead of -32000 with the request's id.
   */
  lemma UnsupportedVersionAsWritten(s: Services)
    ensures BodyReplyAsWritten(s, Some(OldVersionRequest)) == InternalErrorReply
    ensures BodyReply(s, Some(OldVersionRequest)) == ErrorResponse(Int(1), InvalidVersion, OldVersionMessage, Null)
  {
    OldVersionClassified(s);
    FailureLosesIdAsWritten(s, OldVersionRequest);
  }

  /**
   * As written, a single request whose handler raises `MCPError` is
   * answered with the internal error and a null id; with an exception
   * class it gets the handler's code and message and keeps its id.
   */
  lemma FailureLosesIdAsWritten(s: Services, req: Value)
    requires Classify(s, req).Called? && Classify(s, req).outcome.Fails? && !req.List?
    ensures BodyReplyAsWritten(s, Some(req)) == InternalErrorReply
    ensures var step := Classify(s, req);
      BodyReply(s, Some(req)) == ErrorResponse(step.id, step.outcome.code, step.outcome.message, Null)
  {
    var step := Classify(s, req);
    assert ProcessAsWritten(s, req) == RenderAsWritten(step) == Raises;
    assert Process(s, req) == Render(step)
      == Reply(ErrorResponse(step.id, step.outcome.code, step.outcome.message, Null));
  }

  /** As written, one failing request in a batch loses the replies of all the others. */
  lemma FailureLosesBatchAsWritten(s: Services, items: seq<Value>, i: nat)
    requires i < |items| && Classify(s, items[i]).Called? && !Classify(s, items[i]).outcome.Done?
    ensures BodyReplyAsWritten(s, Some(List(items))) == InternalErrorReply
    ensures BodyReply(s, Some(List(items))) != InternalErrorReply
      <==> forall j | 0 <= j < |items| :: items[j].Dict?
  {
    RepliesAsWrittenFail(s, items, i);
    RepliesFail(s, items);
    if Replies(s, items).Some? {
      assert BodyReply(s, Some(List(items))).List?;
    }
  }

  lemma RepliesAsWrittenFail(s: Services, items: seq<Value>, i: nat)
    requires i < |items| && ProcessAsWritten(s, items[i]).Raises?
    ensures RepliesAsWritten(s, items).None?
  {
    var ps := seq(|items|, i requires 0 <= i < |items| => ProcessAsWritten(s, items[i]));
    assert ps[i].Raises?;
    CollectFails(ps);
  }

  // ---- the server object ----

  class Server {
    var initialized: bool
    var clientInfo: Value
    const services: Services

    /** `MCPServer()`: not initialized and no client information. */
    constructor (services: Services)
      ensures !initialized && clientInfo == Null && this.services == services
    {
      this.services := services;
      initialized := false;
      clientInfo := Null;
    }

    function State(): ServerState
      reads this
    {
      ServerState(initialized, clientInfo)
    }

    /** `handle_initialize`: on success the client information is stored; the flag is left alone. */
    method HandleInitialize(params: Value) returns (h: Handled)
      modifies this
      ensures h == Initialize(params)
      ensures initialized == old(initialized)
      ensures clientInfo == if h.Done? then LookupOr(params.members, "clientInfo", Dict([])) else old(clientInfo)
    {
      h := Initialize(params);
      if h.Done? {
        clientInfo := LookupOr(params.members, "clientInfo", Dict([]));
      }
    }

    /** `handle_initialized`. */
    method HandleInitialized()
      modifies this
      ensures initialized && clientInfo == old(clientInfo)
    {
      initialized := true;
    }

    /** `process_request` against this server. */
    method ProcessRequest(req: Value) returns (p: Processed)
      modifies this
      ensures p == Process(services, req)
      ensures State() == Apply(old(State()), EffectOf(Classify(services, req)))
    {
      var step := Classify(services, req);
      match step {
        case Notice(MarkInitialized) =>
          HandleInitialized();
        case Called(_, _, SetClientInfo(_)) =>
          var h := HandleInitialize(AsParams(Lookup(req.members, "params")));
        case _ =>
      }
      p := Render(step);
    }

    /** The batch loop of `mcp_handler`: messages in order until one raises. */
    method HandleBatch(items: seq<Value>) returns (replies: Option<seq<Value>>)
      modifies this
      ensures replies == Replies(services, items)
      ensures State() == Effects(old(State()), Steps(services, items))
    {
      ghost var ps := Outcomes(services, items);
      ghost var steps := Steps(services, items);
      var responses := [];
      for i := 0 to |items|
        invariant Collect(ps[..i]) == Some(responses)
        invariant !Halted(steps[..i])
        invariant State() == Effects(old(State()), steps[..i])
      {
        var p := ProcessRequest(items[i]);
        if p.Raises? {
          assert ps[i].Raises?;
          CollectFails(ps);
          HaltedStep(old(State()), steps, i);
          EffectsStop(old(State()), steps, i + 1);
          return None;
        }
        assert ps[i] == p;
        CollectStep(ps, i);
        RunningStep(old(State()), steps, i);
        responses := responses + if p.Reply? then [p.response] else [];
      }
      assert ps[..|items|] == ps;
      assert steps[..|items|] == steps;
      replies := Some(responses);
    }

    /** `mcp_handler`: one message, or a batch. */
    method HandleBody(body: Option<Value>) returns (reply: Value)
      modifies this
      ensures reply == BodyReply(services, body)
      ensures State() == BodyState(services, old(State()), body)
    {
      match body {
        case None =>
          reply := ErrorResponse(Null, ParseError, "Parse error", Null);
        case Some(req) =>
          if req.List? {
            var replies := HandleBatch(req.items);
            reply := if replies.Some? then List(replies.value) else InternalErrorReply;
          } else {
            var p := ProcessRequest(req);
            match p {
              case Raises => reply := InternalErrorReply;
              case Silent => reply := Null;
              case Reply(r) => reply := r;
            }
          }
      }
    }
  }
}
