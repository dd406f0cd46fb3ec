/**
 * The backend connector: the two requests it builds for the chat-completions
 * endpoint, the file read that precedes the vision request, and how the
 * endpoint's answer (or failure) becomes the connector's result.
 *
 * The file system, the base64 encoder and the remote endpoint are outside the
 * model; a `World` stands for all three. Every function here returns the
 * effects it caused, in order, next to its result, so that which file was
 * opened and which request was sent can be stated.
 */
module Llm {
  import opened Wrappers
  import opened PyRuntime

  type Bytes = seq<bv8>

  /** One element of a multi-part user content. */
  datatype Part =
    | TextPart(text: Value)
    | ImageUrlPart(url: string)

  /** The content of a chat message: one value, or a list of parts. */
  datatype Content =
    | Plain(value: Value)
    | Parts(parts: seq<Part>)

  datatype Message = Message(role: string, content: Content)

  /** The keyword arguments of one `chat.completions.create` call. */
  datatype ChatRequest = ChatRequest(messages: seq<Message>, model: Value, temperature: Value, maxTokens: Value)

  /** The part of the endpoint's answer the connector reads: each choice's `message.content`. */
  datatype Choice = Choice(content: Option<string>)
  datatype Completion = Completion(choices: seq<Choice>)

  /** What the remote call does: answer, or raise. */
  datatype CallOutcome =
    | Responded(completion: Completion)
    | CallFailed(error: Error)

  /** What opening and reading a file in binary mode does: give its bytes, or raise. */
  datatype ReadOutcome =
    | Read(data: Bytes)
    | ReadFailed(error: Error)

  /**
   * The environment: how the file system answers an `open(path, "rb")` and
   * read, how the endpoint answers a request sent with a given API key, and
   * what base64 encoding (decoded as UTF-8) makes of some bytes.
   */
  datatype World = World(
    open: Value -> ReadOutcome,
    complete: (string, ChatRequest) -> CallOutcome,
    b64: Bytes -> string)

  /** An effect on the world, in the order it happens; `Opened` is an attempted open, recorded even when it raises. */
  datatype Effect =
    | Opened(path: Value)
    | Sent(apiKey: string, request: ChatRequest)

  /** A result together with the effects caused on the way to it. */
  datatype Attempt<+T> = Attempt(result: Result<T, Error>, effects: seq<Effect>)

  /** `LLMConnector`: its client is built once from the API key and never replaced. */
  datatype Connector = Connector(apiKey: string)

  const TextSystemPrompt: string := "You are a helpful assistant."
  const VisionSystemPrompt: string := "You are a helpful assistant that can analyze images."
  const ImageUrlPrefix: string := "data:image/jpeg;base64,"

  /** The message list of a text question: the fixed system message, then the query. */
  function TextMessages(query: Value): seq<Message>
  {
    [Message("system", Plain(Str(TextSystemPrompt))), Message("user", Plain(query))]
  }

  /**
   * The URL of the inline image: always labelled JPEG, whatever the bytes
   * are, and the encoded payload can be read back from behind the label.
   */
  function ImageDataUrl(encoded: string): (url: string)
    ensures ImageUrlPrefix <= url
    ensures url[|ImageUrlPrefix|..] == encoded
  {
    ImageUrlPrefix + encoded
  }

  /** The message list of a question about an image: system message, then text part and image part. */
  function VisionMessages(query: Value, encoded: string): seq<Message>
  {
    [ Message("system", Plain(Str(VisionSystemPrompt))),
      Message("user", Parts([TextPart(query), ImageUrlPart(ImageDataUrl(encoded))])) ]
  }

  /** `response.choices[0].message.content`, where indexing an empty list raises. */
  function FirstChoiceContent(o: CallOutcome): Result<Option<string>, Error>
  {
    match o
    case CallFailed(e) => Failure(e)
    case Responded(c) =>
      if |c.choices| == 0 then Failure(IndexError("list index out of range"))
      else Success(c.choices[0].content)
  }

  /** Sends one request through the connector's client and reads the answer. */
  function Send(c: Connector, w: World, request: ChatRequest): Attempt<Option<string>>
  {
    Attempt(FirstChoiceContent(w.complete(c.apiKey, request)), [Sent(c.apiKey, request)])
  }

  /**
   * `LLMConnector.ask_openai`. A failure is logged and re-raised as it is,
   * which in the model means it is returned unchanged.
   */
  function AskOpenai(c: Connector, w: World, query: Value,
                     model: Value := Str("gpt-4"), temperature: Value := Num(0.7), maxTokens: Value := Int(500))
    : Attempt<Option<string>>
  {
    Send(c, w, ChatRequest(TextMessages(query), model, temperature, maxTokens))
  }

  /**
   * `LLMConnector.ask_openai_vision`: reads the image first; only when that
   * succeeds is the request built and sent.
   */
  function AskOpenaiVision(c: Connector, w: World, query: Value, imagePath: Value,
                           model: Value := Str("gpt-4o"), temperature: Value := Num(0.7), maxTokens: Value := Int(500))
    : Attempt<Option<string>>
  {
    match w.open(imagePath)
    case ReadFailed(e) => Attempt(Failure(e), [Opened(imagePath)])
    case Read(data) =>
      var sent := Send(c, w, ChatRequest(VisionMessages(query, w.b64(data)), model, temperature, maxTokens));
      Attempt(sent.result, [Opened(imagePath)] + sent.effects)
  }

  /**
   * The reference wording, case by case, of "the result is the first
   * choice's content, or the failure re-raised unchanged", for either
   * request; `FirstChoiceContent` is the code that computes it.
   */
  ghost predicate ReadsAnswer(o: CallOutcome, result: Result<Option<string>, Error>)
  {
    match o
    case CallFailed(e) => result == Failure(e)
    case Responded(c) =>
      if |c.choices| == 0 then result == Failure(IndexError("list index out of range"))
      else result == Success(c.choices[0].content)
  }

  /**
   * A text question sends exactly one request: two messages, the system
   * prompt and then the query as it was given, with model, temperature and
   * token bound forwarded unchanged; its result is the first choice's content
   * or the endpoint's failure, re-raised unchanged.
   */
  lemma TextRequestSent(c: Connector, w: World, query: Value, model: Value, temperature: Value, maxTokens: Value)
    ensures var a := AskOpenai(c, w, query, model, temperature, maxTokens);
      && |a.effects| == 1 && a.effects[0].Sent? && a.effects[0].apiKey == c.apiKey
      && var r := a.effects[0].request;
      && |r.messages| == 2
      && r.messages[0] == Message("system", Plain(Str("You are a helpful assistant.")))
      && r.messages[1] == Message("user", Plain(query))
      && r.model == model && r.temperature == temperature && r.maxTokens == maxTokens
      && ReadsAnswer(w.complete(c.apiKey, r), a.result)
  {
  }

  /**
   * A question about an image opens the file before anything else; if the
   * read fails, its error is the result, unchanged, and no request is sent.
   */
  lemma VisionReadsFirst(c: Connector, w: World, query: Value, imagePath: Value, model: Value, temperature: Value, maxTokens: Value)
    ensures var a := AskOpenaiVision(c, w, query, imagePath, model, temperature, maxTokens);
      && 1 <= |a.effects| && a.effects[0] == Opened(imagePath)
      && (w.open(imagePath).ReadFailed? ==> a.result == Failure(w.open(imagePath).error) && |a.effects| == 1)
      && (w.open(imagePath).Read? ==> |a.effects| == 2 && a.effects[1].Sent?)
  {
  }

  /**
   * Once the file is read, the vision request is sent with the system prompt
   * for images and a user message of exactly two parts, the query's text and
   * then the JPEG data URL of the encoded bytes; model, temperature and
   * token bound are forwarded unchanged and the answer is read as for text.
   */
  lemma VisionRequestSent(c: Connector, w: World, query: Value, imagePath: Value, model: Value, temperature: Value, maxTokens: Value)
    requires w.open(imagePath).Read?
    ensures var a := AskOpenaiVision(c, w, query, imagePath, model, temperature, maxTokens);
      && |a.effects| == 2 && a.effects[1].Sent? && a.effects[1].apiKey == c.apiKey
      && var r := a.effects[1].request;
      && |r.messages| == 2
      && r.messages[0] == Message("system", Plain(Str("You are a helpful assistant that can analyze images.")))
      && r.messages[1].role == "user" && r.messages[1].content.Parts?
      && var parts := r.messages[1].content.parts;
      && |parts| == 2
      && parts[0] == TextPart(query)
      && parts[1].ImageUrlPart?
      && parts[1].url == "data:image/jpeg;base64," + w.b64(w.open(imagePath).data)
      && r.model == model && r.temperature == temperature && r.maxTokens == maxTokens
      && ReadsAnswer(w.complete(c.apiKey, r), a.result)
  {
  }
}
