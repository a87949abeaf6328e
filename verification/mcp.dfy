/** The JSON-RPC envelope handled on the `/mcp` route (server.py, mcp_endpoint).

    Requests and responses are records, not JSON text. `Dispatch` is the
    response the endpoint gives; `Serve` is the whole handler, which also
    threads the warehouse connection holder through the read that the chat
    tool performs. */
module Mcp {
  import opened Opt
  import opened Connection
  import opened HiveMind

  /** A request id as the client sent it: a number, a string, a boolean, or an
      explicit null. The server echoes whatever it finds. */
  datatype RequestId = NumId(n: int) | StrId(s: string) | BoolId(b: bool) | NullId

  /** `params.arguments`: only the `message` field is ever read. */
  datatype Arguments = Arguments(message: Option<string>)

  /** `params`: the tool name and its arguments, each possibly absent. */
  datatype Params = Params(name: Option<string>, arguments: Option<Arguments>)

  /** The request envelope; every field may be absent. */
  datatype Request = Request(methodName: Option<string>, params: Option<Params>, id: Option<RequestId>)

  /** A tool's input schema: its JSON type, the type of each property, and
      the properties a caller must supply. */
  datatype Schema = Schema(kind: string, properties: map<string, string>, required: seq<string>)

  datatype ToolDescriptor = ToolDescriptor(name: string, description: string, inputSchema: Schema)

  /** The object the chat tool serialises into its text block. */
  datatype ChatReply = ChatReply(response: string)

  /** One content block of a tool-call result: its `type` and its payload. */
  datatype Content = Content(kind: string, reply: ChatReply)

  datatype Payload = ToolList(tools: seq<ToolDescriptor>) | CallResult(content: seq<Content>)

  datatype Body = Result(payload: Payload) | Error(code: int, message: string)

  datatype Response = Response(jsonrpc: string, id: RequestId, body: Body)

  /** The whole handler's effect: the response, and the connection holder after it. */
  datatype Served<H> = Served(response: Response, holder: Option<H>)

  const JsonRpcVersion := "2.0"
  const ListMethod := "tools/list"
  const CallMethod := "tools/call"
  const ChatTool := "copilot_chat"

  /** "Method not found", section 5.1 of the JSON-RPC 2.0 specification. */
  const MethodNotFound := -32601
  const NotFoundMessage := "Not found"

  const ChatPrefix := "Copilot (Sovereign Mind) received: "
  const ChatSuffix := ". Note: Full Azure OpenAI integration pending."

  /** The one tool the server lists. */
  const ChatToolDescriptor := ToolDescriptor(
    ChatTool,
    "Chat with MS Copilot (Sovereign Mind)",
    Schema("object", map["message" := "string"], ["message"]))

  /** The defaults the endpoint applies to absent fields. */
  function MethodOf(req: Request): string {
    req.methodName.GetOr("")
  }

  function IdOf(req: Request): RequestId {
    req.id.GetOr(NumId(1))
  }

  function ToolOf(req: Request): string {
    match req.params
    case None => ""
    case Some(p) => p.name.GetOr("")
  }

  function MessageOf(req: Request): string {
    match req.params
    case None => ""
    case Some(p) =>
      match p.arguments
      case None => ""
      case Some(a) => a.message.GetOr("")
  }

  /** A request the endpoint answers with a result rather than an error. */
  predicate Answered(req: Request) {
    MethodOf(req) == ListMethod || (MethodOf(req) == CallMethod && ToolOf(req) == ChatTool)
  }

  /** The chat tool's reply text: the message, framed by a fixed notice. */
  function ChatResponse(message: string): (text: string)
    ensures |text| == |ChatPrefix| + |message| + |ChatSuffix|
    ensures text[..|ChatPrefix|] == ChatPrefix
    ensures text[|ChatPrefix|..|ChatPrefix| + |message|] == message
    ensures text[|ChatPrefix| + |message|..] == ChatSuffix
  {
    ChatPrefix + message + ChatSuffix
  }

  /** Reads the message back out of a chat reply text, if it has the frame. */
  function EchoedMessage(text: string): Option<string> {
    if |text| >= |ChatPrefix| + |ChatSuffix|
       && text[..|ChatPrefix|] == ChatPrefix
       && text[|text| - |ChatSuffix|..] == ChatSuffix
    then Some(text[|ChatPrefix|..|text| - |ChatSuffix|])
    else None
  }

  function ListResult(id: RequestId): Response {
    Response(JsonRpcVersion, id, Result(ToolList([ChatToolDescriptor])))
  }

  function ChatResult(id: RequestId, message: string): Response {
    Response(JsonRpcVersion, id, Result(CallResult([Content("text", ChatReply(ChatResponse(message)))])))
  }

  function NotFound(id: RequestId): Response {
    Response(JsonRpcVersion, id, Error(MethodNotFound, NotFoundMessage))
  }

  /** The endpoint's response to a request. */
  function Dispatch(req: Request): (r: Response)
    ensures r.jsonrpc == JsonRpcVersion && r.id == IdOf(req)
    ensures r.body.Result? <==> Answered(req)
    ensures r.body.Error? ==> r.body.code == MethodNotFound && r.body.message == NotFoundMessage
  {
    var id := IdOf(req);
    var name := MethodOf(req);
    if name == ListMethod then ListResult(id)
    else if name == CallMethod && ToolOf(req) == ChatTool then ChatResult(id, MessageOf(req))
    else NotFound(id)
  }

  /** The whole handler. The chat tool first reads recent warehouse rows, which
      may create the connection; the rows themselves are never used. */
  function Serve<H>(holder: Option<H>, req: Request, attempt: ConnectOutcome<H>, fetch: QueryOutcome): (s: Served<H>)
    ensures s.response.id == IdOf(req)
  {
    var id := IdOf(req);
    var name := MethodOf(req);
    if name == ListMethod then Served(ListResult(id), holder)
    else if name == CallMethod && ToolOf(req) == ChatTool then
      var hive := QueryHiveMind(holder, attempt, fetch);
      Served(ChatResult(id, MessageOf(req)), hive.holder)
    else Served(NotFound(id), holder)
  }

  /** An empty request takes every default and is answered "not found", id 1. */
  lemma EmptyRequestNotFound()
    ensures Dispatch(Request(None, None, None)) == Response("2.0", NumId(1), Error(-32601, "Not found"))
  {
  }

  /** An explicit null id is echoed as null, not replaced by the default. */
  lemma NullIdIsEchoed(req: Request)
    requires req.id == Some(NullId)
    ensures Dispatch(req).id == NullId
  {
  }

  /** Listing returns exactly one tool, `copilot_chat`, whose object schema
      has one string property `message` and requires it. */
  lemma ListsOneTool(req: Request)
    requires MethodOf(req) == "tools/list"
    ensures Dispatch(req).body.Result?
    ensures Dispatch(req).body.payload.ToolList?
    ensures |Dispatch(req).body.payload.tools| == 1
    ensures Dispatch(req).body.payload.tools[0].name == "copilot_chat"
    ensures Dispatch(req).body.payload.tools[0].inputSchema.kind == "object"
    ensures Dispatch(req).body.payload.tools[0].inputSchema.properties == map["message" := "string"]
    ensures Dispatch(req).body.payload.tools[0].inputSchema.required == ["message"]
  {
  }

  /** A chat call answers with one text block whose reply frames the message,
      an absent message counting as "". */
  lemma ChatEchoesMessage(req: Request)
    requires MethodOf(req) == "tools/call" && ToolOf(req) == "copilot_chat"
    ensures Dispatch(req).body.Result?
    ensures Dispatch(req).body.payload.CallResult?
    ensures |Dispatch(req).body.payload.content| == 1
    ensures Dispatch(req).body.payload.content[0].kind == "text"
    ensures EchoedMessage(Dispatch(req).body.payload.content[0].reply.response) == Some(MessageOf(req))
  {
  }

  /** A chat call without a message gets the bare frame. */
  lemma MissingMessageIsEmpty(req: Request)
    requires MethodOf(req) == "tools/call" && ToolOf(req) == "copilot_chat"
    requires req.params.value.arguments.None? || req.params.value.arguments.value.message.None?
    ensures Dispatch(req).body.payload.content[0].reply.response
         == ChatPrefix + ChatSuffix
  {
  }

  /** Any method other than listing or calling is "not found". */
  lemma UnknownMethodNotFound(req: Request)
    requires MethodOf(req) != "tools/list" && MethodOf(req) != "tools/call"
    ensures Dispatch(req) == Response("2.0", IdOf(req), Error(-32601, "Not found"))
  {
  }

  /** Calling any tool but `copilot_chat`, a missing name included, falls
      through to the same "not found" error. */
  lemma UnknownToolNotFound(req: Request)
    requires MethodOf(req) == "tools/call" && ToolOf(req) != "copilot_chat"
    ensures Dispatch(req) == Response("2.0", IdOf(req), Error(-32601, "Not found"))
  {
  }

  /** The reply frame can be read back: the message is recovered exactly. */
  lemma EchoRoundTrip(message: string)
    ensures EchoedMessage(ChatResponse(message)) == Some(message)
  {
  }

  /** A text that reads back as some message is exactly that message's reply. */
  lemma EchoedMessageSound(text: string, message: string)
    requires EchoedMessage(text) == Some(message)
    ensures ChatResponse(message) == text
  {
  }

  /** Distinct messages get distinct replies. */
  lemma ChatResponseInjective(m1: string, m2: string)
    requires ChatResponse(m1) == ChatResponse(m2)
    ensures m1 == m2
  {
  }

  /** The response never depends on the warehouse: whatever the holder, the
      connect outcome or the query outcome, the handler answers as `Dispatch`. */
  lemma ResponseIgnoresWarehouse<H>(holder: Option<H>, req: Request, attempt: ConnectOutcome<H>, fetch: QueryOutcome)
    ensures Serve(holder, req, attempt, fetch).response == Dispatch(req)
  {
  }

  /** Only a chat call touches the connection holder, and it does so as one
      call of the lazy accessor; every other request leaves it as it was. */
  lemma HolderEffect<H>(holder: Option<H>, req: Request, attempt: ConnectOutcome<H>, fetch: QueryOutcome)
    ensures Serve(holder, req, attempt, fetch).holder
         == if MethodOf(req) == "tools/call" && ToolOf(req) == "copilot_chat"
            then GetConnection(holder, attempt) else holder
  {
  }
}
