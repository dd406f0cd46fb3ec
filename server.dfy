/**
 * The tool server: the fixed catalogue it lists, and the tool-call handler
 * that checks the arguments, routes the call to the connector, fills in the
 * defaults and turns the result or any failure into one text item.
 */
module Server {
  import opened Wrappers
  import opened PyRuntime
  import opened Llm

  /** One entry of a tool's input schema. */
  datatype Property = Property(
    kind: string,
    description: Option<string>,
    default: Option<Value>,
    allowed: Option<seq<string>>,
    minimum: Option<Value>,
    maximum: Option<Value>)

  /** A JSON schema of kind "object"; the properties keep their declared order. */
  datatype InputSchema = InputSchema(kind: string, properties: seq<(string, Property)>, required: seq<string>)

  datatype Tool = Tool(name: string, description: string, inputSchema: InputSchema)

  /** One item of a tool-call reply. */
  datatype TextContent = TextContent(kind: string, text: string)

  /** What a tool call returns to the host, with the effects it caused. */
  datatype Reply = Reply(contents: seq<TextContent>, effects: seq<Effect>)

  /** The server `serve` builds: its name and the connector every call goes through. */
  datatype OpenAiServer = OpenAiServer(name: string, connector: Connector)

  /** A tool call whose arguments have been looked up and defaulted. */
  datatype Call =
    | AskText(query: Value, model: Value, temperature: Value, maxTokens: Value)
    | AskVision(query: Value, imagePath: Value, model: Value, temperature: Value, maxTokens: Value)

  function Serve(apiKey: string): (s: OpenAiServer)
    ensures s.connector.apiKey == apiKey
  {
    OpenAiServer("openai-server", Connector(apiKey))
  }

  function Described(description: string): Property
  {
    Property("string", Some(description), None, None, None, None)
  }

  function Ranged(kind: string, default: Value, minimum: Value, maximum: Value): Property
  {
    Property(kind, None, Some(default), None, Some(minimum), Some(maximum))
  }

  /** `handle_list_tools`: the catalogue, the same on every call. */
  function ListTools(): seq<Tool>
  {
    [ Tool("ask-openai", "Ask my assistant models a direct question",
        InputSchema("object",
          [ ("query", Described("Ask assistant")),
            ("model", Property("string", None, Some(Str("gpt-4")), Some(["gpt-4", "gpt-3.5-turbo"]), None, None)),
            ("temperature", Ranged("number", Num(0.7), Int(0), Int(2))),
            ("max_tokens", Ranged("integer", Int(500), Int(1), Int(4000))) ],
          ["query"])),
      Tool("ask-openai-vision", "Ask my vision-capable models about an image",
        InputSchema("object",
          [ ("query", Described("Question about the image")),
            ("image_path", Described("Path to the image file")),
            ("model", Property("string", None, Some(Str("gpt-4o")), Some(["gpt-4o", "gpt-4o-mini"]), None, None)),
            ("temperature", Ranged("number", Num(0.7), Int(0), Int(2))),
            ("max_tokens", Ranged("integer", Int(500), Int(1), Int(4000))) ],
          ["query", "image_path"])) ]
  }

  // ---------------------------------------------------------------------------
  // Reading the catalogue

  function FindTool(tools: seq<Tool>, name: string): Option<Tool>
  {
    if |tools| == 0 then None
    else if tools[0].name == name then Some(tools[0])
    else FindTool(tools[1..], name)
  }

  function FindProperty(properties: seq<(string, Property)>, key: string): Option<Property>
  {
    if |properties| == 0 then None
    else if properties[0].0 == key then Some(properties[0].1)
    else FindProperty(properties[1..], key)
  }

  /** The catalogue entry of a tool name, if it lists one. */
  function Declared(name: string): Option<Tool>
  {
    FindTool(ListTools(), name)
  }

  /** The keys the catalogue marks as required for a tool, in declared order. */
  function RequiredOf(name: string): seq<string>
  {
    match Declared(name)
    case None => []
    case Some(t) => t.inputSchema.required
  }

  /** Whether the catalogue declares `key` as a property of the tool. */
  predicate DeclaresKey(name: string, key: string)
  {
    Declared(name).Some? && FindProperty(Declared(name).value.inputSchema.properties, key).Some?
  }

  /** The default the catalogue declares for `key` of a tool, if any. */
  function SchemaDefault(name: string, key: string): Option<Value>
  {
    if DeclaresKey(name, key) then FindProperty(Declared(name).value.inputSchema.properties, key).value.default
    else None
  }

  /** The first of `keys` that `args` lacks. */
  function FirstMissing(keys: seq<string>, args: Args): Option<string>
  {
    if |keys| == 0 then None
    else if keys[0] !in args then Some(keys[0])
    else FirstMissing(keys[1..], args)
  }

  // ---------------------------------------------------------------------------
  // The tool-call handler

  /**
   * The checks of `handle_tool_call` up to the backend call, in the order the
   * handler makes them: arguments present, then the tool name, then the
   * required keys looked up with `[]` (query before image_path), then the
   * optional keys read with `.get` and the handler's own defaults.
   */
  function Resolve(name: string, arguments: Option<Args>): (r: Result<Call, Error>)
    ensures IsFalsy(arguments) ==> r == Failure(ValueError("No arguments provided"))
    ensures !IsFalsy(arguments) && name != "ask-openai" && name != "ask-openai-vision" ==>
      r == Failure(ValueError("Unknown tool: " + name))
    ensures r.Success? ==> ToolName(r.value) == name
  {
    if IsFalsy(arguments) then Failure(ValueError("No arguments provided"))
    else
      var args := arguments.value;
      if name == "ask-openai" then
        match Subscript(args, "query")
        case Failure(e) => Failure(e)
        case Success(query) =>
          Success(AskText(query, GetOr(args, "model", Str("gpt-4")), GetOr(args, "temperature", Num(0.7)),
                          GetOr(args, "max_tokens", Int(500))))
      else if name == "ask-openai-vision" then
        match Subscript(args, "query")
        case Failure(e) => Failure(e)
        case Success(query) =>
          match Subscript(args, "image_path")
          case Failure(e) => Failure(e)
          case Success(imagePath) =>
            Success(AskVision(query, imagePath, GetOr(args, "model", Str("gpt-4o")), GetOr(args, "temperature", Num(0.7)),
                              GetOr(args, "max_tokens", Int(500))))
      else Failure(ValueError("Unknown tool: " + name))
  }

  /** The name of the tool a resolved call was made for. */
  function ToolName(call: Call): string
  {
    match call
    case AskText(_, _, _, _) => "ask-openai"
    case AskVision(_, _, _, _, _) => "ask-openai-vision"
  }

  /** The value a resolved call carries for an argument name, if it carries one. */
  function ArgumentFor(call: Call, key: string): Option<Value>
  {
    if key == "query" then Some(call.query)
    else if key == "image_path" && call.AskVision? then Some(call.imagePath)
    else if key == "model" then Some(call.model)
    else if key == "temperature" then Some(call.temperature)
    else if key == "max_tokens" then Some(call.maxTokens)
    else None
  }

  /** The connector operation a resolved call is routed to. */
  function Perform(s: OpenAiServer, w: World, call: Call): Attempt<Option<string>>
  {
    match call
    case AskText(q, m, t, k) =>
      AskOpenai(s.connector, w, q, model := m, temperature := t, maxTokens := k)
    case AskVision(q, p, m, t, k) =>
      AskOpenaiVision(s.connector, w, q, p, model := m, temperature := t, maxTokens := k)
  }

  /** The label put in front of a successful answer. */
  function Label(call: Call): string
  {
    match call
    case AskText(_, _, _, _) => "OpenAI Response:\n"
    case AskVision(_, _, _, _, _) => "OpenAI Vision Response:\n"
  }

  /** The body of the handler's `try`: the labelled answer, or the exception it raises. */
  function TryBody(s: OpenAiServer, w: World, name: string, arguments: Option<Args>): (a: Attempt<string>)
    ensures Resolve(name, arguments).Failure? ==> a == Attempt(Failure(Resolve(name, arguments).error), [])
  {
    match Resolve(name, arguments)
    case Failure(e) => Attempt(Failure(e), [])
    case Success(call) =>
      var a := Perform(s, w, call);
      match a.result
      case Success(r) => Attempt(Success(Label(call) + Format(r)), a.effects)
      case Failure(e) => Attempt(Failure(e), a.effects)
  }

  /** The text of the one reply item: the labelled answer, or the exception's text after `Error: `. */
  function ReplyText(r: Result<string, Error>): string
  {
    match r
    case Success(t) => t
    case Failure(e) => "Error: " + Describe(e)
  }

  /**
   * `handle_tool_call`: every call yields exactly one text item. Missing or
   * empty arguments are refused before the name is looked at, an unknown
   * name is refused next, and neither reaches the file system or the backend.
   */
  function HandleToolCall(s: OpenAiServer, w: World, name: string, arguments: Option<Args>): (reply: Reply)
    ensures |reply.contents| == 1 && reply.contents[0].kind == "text"
    ensures IsFalsy(arguments) ==>
      reply.contents[0].text == "Error: " + "No arguments provided" && reply.effects == []
    ensures !IsFalsy(arguments) && name != "ask-openai" && name != "ask-openai-vision" ==>
      reply.contents[0].text == "Error: " + ("Unknown tool: " + name) && reply.effects == []
    ensures Resolve(name, arguments).Failure? ==>
      reply.contents[0].text == "Error: " + Describe(Resolve(name, arguments).error) && reply.effects == []
  {
    var a := TryBody(s, w, name, arguments);
    Reply([TextContent("text", ReplyText(a.result))], a.effects)
  }

  /** The host's only way to tell a failed call: the reply text starts with `Error: `. */
  predicate IsErrorText(text: string)
  {
    "Error: " <= text
  }
}
