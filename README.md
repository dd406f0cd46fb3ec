# mcp-server-openai: the tool catalogue and the tool-call handler

This is a Dafny model of the core of an MCP server that lets a host agent ask
OpenAI models questions. The server offers two tools: `ask-openai` for a text
question and `ask-openai-vision` for a question about an image file. The model
covers three things:

- the catalogue `handle_list_tools` returns;
- the handler `handle_tool_call`: its argument check, routing by tool name,
  strict lookup of required keys, defaults for optional keys, and the single
  text item it always replies with;
- the two connector operations `LLMConnector.ask_openai` and
  `LLMConnector.ask_openai_vision`: the requests they build, the file read
  that comes before the vision request, and how the endpoint's answer or
  failure becomes their result.

Everything is pure. The outside world is a parameter of type `World`. It holds
three total functions:

- how opening and reading a path in binary mode turns out;
- how the chat-completions endpoint answers a request sent with an API key;
- what base64 encoding makes of some bytes.

Every operation that can reach the file system or the endpoint returns its
result together with the effects it caused, in order: `Opened(path)` for an
attempted open (recorded even when the open raises) and `Sent(apiKey, request)`
for a request. This is how the model states which operations never reach the
backend, what exactly is sent, and that the read comes before the request.
A Python exception is a value of `Error`. Its `try`/`except` is a `Result`,
and "re-raised unchanged" means the same `Error` value is returned.

Files:

- `wrappers.dfy`: `Option` and `Result`.
- `py_runtime.dfy`: JSON-shaped argument values and the exceptions the core
  raises. It also models `d[k]`, `d.get(k, default)`, `not d`, `str(e)` and
  how an f-string renders an optional string.
- `llm.dfy`: the connector (`llm.py`).
- `server.dfy`: the catalogue and the handler (`server.py`).
- `server_properties.dfy`: lemmas that hold across calls, and three concrete
  scenarios.

Two points of the handler's behaviour are easy to miss:

- The code tests for missing or empty arguments before it looks at the tool
  name. So an unknown name with `{}` replies `Error: No arguments provided`,
  not `Error: Unknown tool: ...` (`EmptyArgumentsBeatUnknownName`).
- The declared enum and range constraints are never enforced. A present value
  is forwarded as it is.

## Model

| member | source | states |
|---|---|---|
| `Server.HandleToolCall` | src/mcp_server_openai/server.py:55-83 | Every call replies with exactly one item of kind `text`. Missing or empty arguments give `Error: No arguments provided` whatever the name. Non-empty arguments with an unknown name give `Error: Unknown tool: <name>`. Any refusal before the backend gives `Error: ` and the refusal's text. In all these cases there are no effects: no file is opened and no request is sent. |
| `Server.Resolve` | src/mcp_server_openai/server.py:58-80 | The empty-arguments test comes first, then the unknown-name test. A resolved call belongs to the tool it was named for. |
| `Server.TryBody` | src/mcp_server_openai/server.py:57-80 | A call refused before routing raises that refusal and causes no effects. |
| `Server.Serve` | src/mcp_server_openai/server.py:17-19 | The server's connector holds the API key it was given. |
| `Server.ListTools` | src/mcp_server_openai/server.py:21-53 | `handle_list_tools`. No contract of its own; see `CatalogueListsTwoTools`, `RequiredKeysDeclared`, `SchemaDefaults`, `CatalogueLookup` and `KeyLookup`. |
| `Server.Perform` | src/mcp_server_openai/server.py:62-77 | The routing of a resolved call to `ask_openai` or `ask_openai_vision` with keyword arguments. No contract of its own; see `AnswerReply` and `DefaultsMatchConnector`. |
| `Server.Label` | src/mcp_server_openai/server.py:68-78 | The two success labels. No contract of its own; see `LabelIsNotErrorText` and `AnswerReply`. |
| `Server.ReplyText` | src/mcp_server_openai/server.py:68-83 | The text of the one reply item: the labelled answer, or `Error: ` and the exception's text. No contract of its own; see `ErrorPrefixIffFailure` and `AnswerReply`. |
| `ServerProperties.CatalogueListsTwoTools` | src/mcp_server_openai/server.py:21-53 | The catalogue lists exactly two tools, `ask-openai` then `ask-openai-vision`, each with an object schema. |
| `ServerProperties.RequiredKeysDeclared` | src/mcp_server_openai/server.py:29-50 | `ask-openai` requires `["query"]` and `ask-openai-vision` requires `["query", "image_path"]`, in that order. For any name, a required key is a declared property and has no default. |
| `ServerProperties.SchemaDefaults` | src/mcp_server_openai/server.py:31-48 | The catalogue's defaults: model `gpt-4` for text and `gpt-4o` for vision, temperature 0.7 and max_tokens 500 for both. |
| `ServerProperties.CatalogueLookup` | src/mcp_server_openai/server.py:23-53 | A name is in the catalogue exactly when it is one of the two tool names. Looking it up finds the entry with that name. |
| `ServerProperties.KeyLookup` | src/mcp_server_openai/server.py:29-49 | The keys each tool declares: `query`, `model`, `temperature`, `max_tokens`, plus `image_path` for vision only. Also the default behind each key. |
| `ServerProperties.ResolveSucceedsIff` | src/mcp_server_openai/server.py:58-80 | The handler reaches the backend if and only if three things hold: the arguments are non-empty, the name is in the catalogue, and every key the catalogue marks as required is present. |
| `ServerProperties.MissingRequiredKey` | src/mcp_server_openai/server.py:61-83 | When required keys are missing, the handler raises `KeyError` for the first missing one in declared order (`query` before `image_path`). The reply is `Error: '<key>'` and causes no effects. |
| `ServerProperties.ResolvedArguments` | src/mcp_server_openai/server.py:61-77 | For every key the tool declares, the resolved call carries the caller's value when the key is present, even a null or out-of-range one. It carries the catalogue's default only when the key is absent. Undeclared keys are ignored. |
| `ServerProperties.AnswerReply` | src/mcp_server_openai/server.py:61-83 | A resolved call goes to `ask_openai` or `ask_openai_vision` according to its name, with the resolved values. The reply has that operation's effects. Its text is `OpenAI Response:\n` or `OpenAI Vision Response:\n` followed by the answer, or `Error: ` followed by the raised failure's text. |
| `ServerProperties.LabelIsNotErrorText` | src/mcp_server_openai/server.py:68-78 | No success label followed by any answer starts with `Error: `. |
| `ServerProperties.ErrorPrefixIffFailure` | src/mcp_server_openai/server.py:57-83 | The reply text starts with `Error: ` if and only if the handler's `try` raised. |
| `ServerProperties.EffectsOfACall` | src/mcp_server_openai/server.py:56-83 | A call causes at most two effects, and none when it is refused. Only the vision tool opens a file, and the open comes first. A request, when one is sent, is the last effect. |
| `ServerProperties.RequestsCarryServeKey` | src/mcp_server_openai/server.py:17-19 | Every request a server sends carries the API key `serve` was given. |
| `ServerProperties.DefaultsMatchConnector` | src/mcp_server_openai/server.py:61-77 | With only the required keys, the handler calls the connector exactly as the connector's own parameter defaults (llm.py lines 11 and 27) would. Together with `ResolvedArguments`, this shows that the catalogue, the handler and the connector agree on the defaults. |
| `ServerProperties.UnreadableImageReply` | src/mcp_server_openai/server.py:70-83 | Vision with an unreadable image replies `Error: ` followed by the read failure's text. The only effect is the open. |
| `ServerProperties.TextQueryScenario` | src/mcp_server_openai/server.py:61-68 | Asking `2+2?` of an endpoint that answers `4` replies `OpenAI Response:\n4`. |
| `ServerProperties.EmptyArgumentsBeatUnknownName` | src/mcp_server_openai/server.py:58-80 | `bogus` with `{}` replies `Error: No arguments provided`. `bogus` with a non-empty map replies `Error: Unknown tool: bogus`. |
| `ServerProperties.MissingImageScenario` | src/mcp_server_openai/server.py:70-83 | A vision question about `/missing.jpg` whose read fails replies with the read's failure. The only effect is opening `/missing.jpg`. |
| `Llm.ImageDataUrl` | src/mcp_server_openai/llm.py:44 | The image URL always starts with `data:image/jpeg;base64,`, whatever the image is. The encoded payload is exactly what follows that prefix. |
| `Llm.TextMessages` | src/mcp_server_openai/llm.py:14-17 | The text message list. No contract of its own; see `TextRequestSent`. |
| `Llm.VisionMessages` | src/mcp_server_openai/llm.py:35-49 | The vision message list with its two-part user content. No contract of its own; see `VisionRequestSent`. |
| `Llm.Send` | src/mcp_server_openai/llm.py:13-22 | The one client call of either operation, recorded as a `Sent` effect, with the answer read out. No contract of its own; see `TextRequestSent` and `VisionRequestSent` (through `ReadsAnswer`). |
| `Llm.FirstChoiceContent` | src/mcp_server_openai/llm.py:22 | `response.choices[0].message.content`, or the call's failure unchanged, or `IndexError` on an empty choice list. No contract of its own; see `TextRequestSent` and `VisionRequestSent` (through `ReadsAnswer`). |
| `PyRuntime.IsFalsy` | src/mcp_server_openai/server.py:58 | `not arguments`: true for `None` and for `{}`. No contract of its own; see `Server.HandleToolCall` and `ResolveSucceedsIff`. |
| `PyRuntime.Subscript` | src/mcp_server_openai/server.py:72-73 | `arguments[key]`: the value, or `KeyError(key)`. No contract of its own; see `MissingRequiredKey` and `ResolvedArguments`. |
| `PyRuntime.GetOr` | src/mcp_server_openai/server.py:74-76 | `arguments.get(key, default)`: the present value, even a null one, else the default. No contract of its own; see `ResolvedArguments`. |
| `PyRuntime.Describe` | src/mcp_server_openai/server.py:83 | `str(e)` of the core's exceptions. No contract of its own; see `MissingRequiredKey`; its limits are under "Left out". |
| `PyRuntime.Format` | src/mcp_server_openai/server.py:68 | The f-string rendering of an optional answer, `None` when there is none. No contract of its own; see `AnswerReply`. |
| `Llm.AskOpenai` | src/mcp_server_openai/llm.py:11-25 | `LLMConnector.ask_openai`, with the same parameter defaults. No contract of its own; see `TextRequestSent` and `DefaultsMatchConnector`. |
| `Llm.AskOpenaiVision` | src/mcp_server_openai/llm.py:27-62 | `LLMConnector.ask_openai_vision`, with the same parameter defaults. No contract of its own; see `VisionReadsFirst`, `VisionRequestSent` and `DefaultsMatchConnector`. |
| `Llm.TextRequestSent` | src/mcp_server_openai/llm.py:11-25 | A text question sends exactly one request, with the server's key. The request has two messages: system `You are a helpful assistant.`, then user with the query unchanged. Model, temperature and max_tokens are forwarded unchanged. The result is the first choice's content. An endpoint failure is re-raised unchanged, and an empty choice list raises `IndexError`. |
| `Llm.VisionReadsFirst` | src/mcp_server_openai/llm.py:27-33 | The vision operation opens the image path before anything else. If the read fails, its error is the result unchanged and no request is sent. If the read succeeds, exactly one request follows. |
| `Llm.VisionRequestSent` | src/mcp_server_openai/llm.py:34-62 | After a successful read, the request has two messages. The first is system `You are a helpful assistant that can analyze images.`. The second is a user message of exactly two parts: the query text, then the data URL `data:image/jpeg;base64,` followed by the encoded bytes. The parameters are forwarded unchanged, and the answer or failure is read as for text. |

## Left out

- `main` and the whole bootstrap are not modelled: option parsing, the stdio transport, `server.run`, the `KeyboardInterrupt` handling and the exit code. These are I/O over libraries outside the core.
- Logging (`logging.basicConfig` and the `logger` calls) is not modelled. It has no effect on any result.
- The real file read, the real base64 encoder and the OpenAI client are parameters of `World`. Base64 itself is not modelled.
- `async`/`await` is not modelled. Each call is independent and shares no mutable state, so each one is a single function application.
- Temperature is a float. It is kept as a real number, and the model only passes it along, as the code does.
- `Describe`'s text for a `KeyError` is the key in single quotes. This matches Python's `repr` only for keys without quotes or backslashes, which is true of the two keys the handler looks up. Exceptions from the file system and the client carry whatever text they carry, as `Raised(message)`.
- The framework's own checking of `TextContent` and `Tool` objects is not modelled. Neither are the catalogue's `description` strings beyond carrying them.
- Repeating a call with the same world gives the same reply: no state builds up across calls, failed or not. The model gets this for free, because every operation is a function, so no lemma states it.
