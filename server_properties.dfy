/**
 * What the tool server promises across calls: the catalogue's shape, how the
 * handler's checks agree with what the catalogue declares, how arguments and
 * defaults reach the connector, and how the reply text encodes the outcome.
 */
module ServerProperties {
  import opened Wrappers
  import opened PyRuntime
  import opened Llm
  import opened Server

  /** The catalogue lists exactly two tools, text first and vision second, both with object schemas. */
  lemma CatalogueListsTwoTools()
    ensures |ListTools()| == 2
    ensures ListTools()[0].name == "ask-openai" && ListTools()[1].name == "ask-openai-vision"
    ensures forall t :: t in ListTools() ==> t.inputSchema.kind == "object"
  {
  }

  /**
   * The text tool requires only `query`, the vision tool `query` and then
   * `image_path`; a name the catalogue does not list requires nothing; every
   * required key is a declared property, and none of them has a default.
   */
  lemma RequiredKeysDeclared()
    ensures RequiredOf("ask-openai") == ["query"]
    ensures RequiredOf("ask-openai-vision") == ["query", "image_path"]
    ensures forall name, k :: k in RequiredOf(name) ==> DeclaresKey(name, k) && SchemaDefault(name, k) == None
  {
    forall name, k | k in RequiredOf(name)
      ensures DeclaresKey(name, k) && SchemaDefault(name, k) == None
    {
      CatalogueLookup(name);
    }
  }

  /** The defaults the catalogue advertises for the optional keys of each tool. */
  lemma SchemaDefaults()
    ensures SchemaDefault("ask-openai", "model") == Some(Str("gpt-4"))
    ensures SchemaDefault("ask-openai-vision", "model") == Some(Str("gpt-4o"))
    ensures forall name | name == "ask-openai" || name == "ask-openai-vision" ::
      SchemaDefault(name, "temperature") == Some(Num(0.7)) && SchemaDefault(name, "max_tokens") == Some(Int(500))
  {
  }

  /** A name is in the catalogue exactly when it is one of the two tools. */
  lemma CatalogueLookup(name: string)
    ensures Declared(name).Some? <==> name == "ask-openai" || name == "ask-openai-vision"
    ensures Declared(name).Some? ==> Declared(name).value.name == name
    ensures name == "ask-openai" ==> Declared(name) == Some(ListTools()[0])
    ensures name == "ask-openai-vision" ==> Declared(name) == Some(ListTools()[1])
  {
    var tools := ListTools();
    assert tools[0].name == "ask-openai" && tools[1..][0].name == "ask-openai-vision";
    assert FindTool(tools[1..], name) == if name == "ask-openai-vision" then Some(tools[1]) else FindTool(tools[1..][1..], name);
    assert |tools[1..][1..]| == 0;
  }

  /**
   * The handler gets as far as the backend exactly when the arguments are
   * non-empty, the name is in the catalogue and every key the catalogue
   * marks as required is present.
   */
  lemma ResolveSucceedsIff(name: string, arguments: Option<Args>)
    ensures Resolve(name, arguments).Success? <==>
      && !IsFalsy(arguments)
      && Declared(name).Some?
      && forall k :: k in RequiredOf(name) ==> k in arguments.value
  {
    CatalogueLookup(name);
    RequiredKeysDeclared();
  }

  /**
   * When the handler refuses a known tool's arguments, it names the first
   * required key, in the catalogue's order, that is missing: for the vision
   * tool `query` is reported before `image_path`.
   */
  lemma MissingRequiredKey(s: OpenAiServer, w: World, name: string, args: Args)
    requires args != map[] && Declared(name).Some?
    requires FirstMissing(RequiredOf(name), args).Some?
    ensures var k := FirstMissing(RequiredOf(name), args).value;
      && Resolve(name, Some(args)) == Failure(KeyError(k))
      && HandleToolCall(s, w, name, Some(args)).contents[0].text == "Error: " + ("'" + k + "'")
      && HandleToolCall(s, w, name, Some(args)).effects == []
  {
    CatalogueLookup(name);
    RequiredKeysDeclared();
    var required := RequiredOf(name);
    if "query" in args {
      assert FirstMissing(required, args) == FirstMissing(required[1..], args);
    }
  }

  /**
   * A resolved call carries, for every key the tool declares, the caller's
   * value when the key is present (whatever it is: out of range, outside the
   * enum, null) and the catalogue's default only when it is absent; keys the
   * tool does not declare are ignored.
   */
  lemma ResolvedArguments(name: string, args: Args, call: Call)
    requires Resolve(name, Some(args)) == Success(call)
    ensures ToolName(call) == name
    ensures forall key :: DeclaresKey(name, key) ==>
      ArgumentFor(call, key) == if key in args then Some(args[key]) else SchemaDefault(name, key)
    ensures forall key :: !DeclaresKey(name, key) ==> ArgumentFor(call, key) == None
  {
    CatalogueLookup(name);
    forall key ensures DeclaresKey(name, key) ==>
      ArgumentFor(call, key) == if key in args then Some(args[key]) else SchemaDefault(name, key)
    {
      KeyLookup(name, key);
    }
    forall key ensures !DeclaresKey(name, key) ==> ArgumentFor(call, key) == None
    {
      KeyLookup(name, key);
    }
  }

  /** The keys each tool declares, and the defaults behind them. */
  lemma KeyLookup(name: string, key: string)
    requires name == "ask-openai" || name == "ask-openai-vision"
    ensures DeclaresKey(name, key) <==>
      key == "query" || key == "model" || key == "temperature" || key == "max_tokens"
      || (key == "image_path" && name == "ask-openai-vision")
    ensures key == "query" || key == "image_path" ==> SchemaDefault(name, key) == None
    ensures key == "model" ==> SchemaDefault(name, key) == Some(Str(if name == "ask-openai" then "gpt-4" else "gpt-4o"))
    ensures key == "temperature" ==> SchemaDefault(name, key) == Some(Num(0.7))
    ensures key == "max_tokens" ==> SchemaDefault(name, key) == Some(Int(500))
  {
    CatalogueLookup(name);
    var ps := Declared(name).value.inputSchema.properties;
    var i := if name == "ask-openai" then 0 else 1;
    if key == "query" {
      FindPropertyAt(ps, key, 0);
    } else if key == "image_path" && name == "ask-openai-vision" {
      FindPropertyAt(ps, key, 1);
    } else if key == "model" {
      FindPropertyAt(ps, key, i + 1);
    } else if key == "temperature" {
      FindPropertyAt(ps, key, i + 2);
    } else if key == "max_tokens" {
      FindPropertyAt(ps, key, i + 3);
    } else {
      FindPropertyAbsent(ps, key);
    }
  }

  /** Lookup in a property list finds the first entry with the key. */
  lemma {:induction false} FindPropertyAt(ps: seq<(string, Property)>, key: string, i: nat)
    requires i < |ps| && ps[i].0 == key
    requires forall j :: 0 <= j < i ==> ps[j].0 != key
    ensures FindProperty(ps, key) == Some(ps[i].1)
  {
    if i > 0 {
      FindPropertyAt(ps[1..], key, i - 1);
    }
  }

  /** Lookup in a property list finds nothing when no entry has the key. */
  lemma {:induction false} FindPropertyAbsent(ps: seq<(string, Property)>, key: string)
    requires forall j :: 0 <= j < |ps| ==> ps[j].0 != key
    ensures FindProperty(ps, key) == None
  {
    if |ps| > 0 {
      FindPropertyAbsent(ps[1..], key);
    }
  }

  /**
   * A resolved call is routed by name to the matching connector operation
   * with the resolved values; the reply has that operation's effects, and
   * its one text is the tool's label and the answer, or `Error: ` and the
   * text of the failure the connector raised.
   */
  lemma AnswerReply(s: OpenAiServer, w: World, name: string, arguments: Option<Args>)
    requires Resolve(name, arguments).Success?
    ensures var call := Resolve(name, arguments).value;
      var a := if name == "ask-openai"
        then AskOpenai(s.connector, w, call.query, call.model, call.temperature, call.maxTokens)
        else AskOpenaiVision(s.connector, w, call.query, call.imagePath, call.model, call.temperature, call.maxTokens);
      var reply := HandleToolCall(s, w, name, arguments);
      && reply.effects == a.effects
      && reply.contents[0].text == match a.result
        case Success(r) => (if name == "ask-openai" then "OpenAI Response:\n" else "OpenAI Vision Response:\n") + Format(r)
        case Failure(e) => "Error: " + Describe(e)
  {
  }

  /** A successful reply's text never starts with `Error: `, whatever the answer is. */
  lemma LabelIsNotErrorText(call: Call, answer: string)
    ensures !IsErrorText(Label(call) + answer)
  {
    var t := Label(call) + answer;
    assert t[0] == 'O';
  }

  /**
   * The reply text starts with `Error: ` exactly when the handler's `try`
   * raised: the host can tell the outcome from the text alone.
   */
  lemma {:induction false} ErrorPrefixIffFailure(s: OpenAiServer, w: World, name: string, arguments: Option<Args>)
    ensures IsErrorText(HandleToolCall(s, w, name, arguments).contents[0].text)
      <==> TryBody(s, w, name, arguments).result.Failure?
  {
    match Resolve(name, arguments)
    case Failure(_) =>
    case Success(call) =>
      var a := Perform(s, w, call);
      if a.result.Success? {
        LabelIsNotErrorText(call, Format(a.result.value));
      }
  }

  /**
   * Effects of one call: at most a file open and then a request. A file is
   * opened only by the vision tool and only first; a request, when sent, is
   * the last effect; a refused call causes none.
   */
  lemma EffectsOfACall(s: OpenAiServer, w: World, name: string, arguments: Option<Args>)
    ensures var eff := HandleToolCall(s, w, name, arguments).effects;
      && |eff| <= 2
      && (eff != [] ==> Resolve(name, arguments).Success?)
      && (forall i :: 0 <= i < |eff| && eff[i].Opened? ==> i == 0 && name == "ask-openai-vision")
      && (forall i :: 0 <= i < |eff| && eff[i].Sent? ==> i == |eff| - 1)
  {
  }

  /** Every request a server sends goes out with the API key it was built with. */
  lemma RequestsCarryServeKey(apiKey: string, w: World, name: string, arguments: Option<Args>)
    ensures forall e :: e in HandleToolCall(Serve(apiKey), w, name, arguments).effects && e.Sent? ==> e.apiKey == apiKey
  {
  }

  /**
   * Given only the required keys, the handler calls the connector exactly as
   * the connector's own parameter defaults would: the three sets of defaults
   * (catalogue, handler, connector signature) agree.
   */
  lemma DefaultsMatchConnector(s: OpenAiServer, w: World, query: Value, imagePath: Value)
    ensures Resolve("ask-openai", Some(map["query" := query])).Success?
    ensures Perform(s, w, Resolve("ask-openai", Some(map["query" := query])).value)
      == AskOpenai(s.connector, w, query)
    ensures Resolve("ask-openai-vision", Some(map["query" := query, "image_path" := imagePath])).Success?
    ensures Perform(s, w, Resolve("ask-openai-vision", Some(map["query" := query, "image_path" := imagePath])).value)
      == AskOpenaiVision(s.connector, w, query, imagePath)
  {
    assert "query" in map["query" := query];
    assert "query" in map["query" := query, "image_path" := imagePath];
  }

  /**
   * When the image cannot be read, the reply is `Error: ` and the read's
   * failure text, and nothing but the open was attempted.
   */
  lemma UnreadableImageReply(s: OpenAiServer, w: World, args: Args)
    requires "query" in args && "image_path" in args
    requires w.open(args["image_path"]).ReadFailed?
    ensures var reply := HandleToolCall(s, w, "ask-openai-vision", Some(args));
      && reply.contents[0].text == "Error: " + Describe(w.open(args["image_path"]).error)
      && reply.effects == [Opened(args["image_path"])]
  {
  }

  /** A world whose file system fails every read and whose endpoint answers `answer` to every request. */
  function StubWorld(answer: string, readError: Error): World
  {
    World(_ => ReadFailed(readError), (_, _) => Responded(Completion([Choice(Some(answer))])), _ => "")
  }

  /** Asking the text tool "2+2?" of an endpoint that answers "4" replies with the labelled answer. */
  lemma TextQueryScenario(apiKey: string)
    ensures HandleToolCall(Serve(apiKey), StubWorld("4", Raised("unused")), "ask-openai",
                           Some(map["query" := Str("2+2?")])).contents[0].text
      == "OpenAI Response:\n" + "4"
  {
    assert "query" in map["query" := Str("2+2?")];
  }

  /** An unknown name with an empty argument map is refused for the arguments, not for the name. */
  lemma EmptyArgumentsBeatUnknownName(s: OpenAiServer, w: World)
    ensures HandleToolCall(s, w, "bogus", Some(map[])).contents[0].text == "Error: " + "No arguments provided"
    ensures HandleToolCall(s, w, "bogus", Some(map["query" := Str("x")])).contents[0].text
      == "Error: " + ("Unknown tool: " + "bogus")
  {
    assert "query" in map["query" := Str("x")];
  }

  /** A vision question about a file that cannot be read replies with the read's failure. */
  lemma MissingImageScenario(apiKey: string, notFound: Error)
    ensures var reply := HandleToolCall(Serve(apiKey), StubWorld("unused", notFound), "ask-openai-vision",
                                        Some(map["query" := Str("what is this?"), "image_path" := Str("/missing.jpg")]));
      && reply.contents[0].text == "Error: " + Describe(notFound)
      && reply.effects == [Opened(Str("/missing.jpg"))]
  {
    var args := map["query" := Str("what is this?"), "image_path" := Str("/missing.jpg")];
    UnreadableImageReply(Serve(apiKey), StubWorld("unused", notFound), args);
  }
}
