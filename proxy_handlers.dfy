/** The request path of `POST /chat/completions` and `POST /completions`:
    translation of the request into the provider call, the provider call
    itself (an abstract capability), the mapping of failures to HTTP errors in
    the order of the `except` arms, and the relay of a streamed reply as
    server-sent-event frames. */
module ProxyHandlers {
  import opened PyText
  import opened Http
  import opened ProxyConfig
  import opened ProxyRouter
  import opened ProxyAuth
  import JsonText

  // ---------------------------------------------------------------- requests

  /** A float temperature, carried through untouched as its literal text. */
  datatype Temperature = Temperature(literal: string)

  datatype ChatMessage = ChatMessage(role: string, content: string, name: Option<string>)

  /** Defaults applied by request validation: temperature 0.7, no token limit,
      no streaming; a client may still send `null` for each optional field. */
  datatype ChatCompletionRequest = ChatCompletionRequest(
    model: string,
    messages: seq<ChatMessage>,
    temperature: Option<Temperature>,
    maxTokens: Option<int>,
    stream: Option<bool>)

  datatype CompletionRequest = CompletionRequest(
    model: string,
    prompt: string,
    temperature: Option<Temperature>,
    maxTokens: Option<int>)

  /** A message as forwarded upstream: only role and content. */
  datatype ForwardedMessage = ForwardedMessage(role: string, content: string)

  /** The keyword arguments of `client.chat.completions.create`. */
  datatype ChatArgs = ChatArgs(
    model: string,
    messages: seq<ForwardedMessage>,
    temperature: Option<Temperature>,
    maxTokens: Option<int>,
    stream: Option<bool>)

  /** The keyword arguments of `client.completions.create`. */
  datatype CompletionArgs = CompletionArgs(
    model: string,
    prompt: string,
    temperature: Option<Temperature>,
    maxTokens: Option<int>)

  /** The list comprehension that keeps role and content of every message. */
  function ProjectMessages(ms: seq<ChatMessage>): (r: seq<ForwardedMessage>)
    ensures |r| == |ms|
    ensures forall i :: 0 <= i < |ms| ==> r[i].role == ms[i].role && r[i].content == ms[i].content
  {
    if |ms| == 0 then []
    else [ForwardedMessage(ms[0].role, ms[0].content)] + ProjectMessages(ms[1..])
  }

  /** Two message lists agree on every role and content, in order. */
  ghost predicate SameRolesAndContents(a: seq<ChatMessage>, b: seq<ChatMessage>) {
    |a| == |b| && forall i :: 0 <= i < |a| ==> a[i].role == b[i].role && a[i].content == b[i].content
  }

  /** The projection forgets the optional names and nothing else. */
  lemma ProjectionForgetsOnlyNames(a: seq<ChatMessage>, b: seq<ChatMessage>)
    ensures ProjectMessages(a) == ProjectMessages(b) <==> SameRolesAndContents(a, b)
  {
    if SameRolesAndContents(a, b) {
      assert forall i :: 0 <= i < |a| ==> ProjectMessages(a)[i] == ProjectMessages(b)[i];
    }
    if ProjectMessages(a) == ProjectMessages(b) {
      assert |a| == |ProjectMessages(a)| == |b|;
      forall i | 0 <= i < |a| ensures a[i].role == b[i].role && a[i].content == b[i].content {
        assert ProjectMessages(a)[i] == ProjectMessages(b)[i];
      }
    }
  }

  /** The arguments of `client.chat.completions.create`: model, temperature,
      token limit and stream flag as requested, each message reduced to its
      role and content. */
  function TranslateChat(req: ChatCompletionRequest): (r: ChatArgs)
    ensures r.model == req.model && r.temperature == req.temperature
    ensures r.maxTokens == req.maxTokens && r.stream == req.stream
    ensures |r.messages| == |req.messages|
    ensures forall i :: 0 <= i < |req.messages| ==>
      r.messages[i] == ForwardedMessage(req.messages[i].role, req.messages[i].content)
  {
    ChatArgs(req.model, ProjectMessages(req.messages), req.temperature, req.maxTokens, req.stream)
  }

  /** Translation loses exactly the message names: two requests give the same
      provider call iff they agree on model, temperature, token limit, stream
      flag, and on the role and content of every message in order. */
  lemma TranslateChatFaithful(r1: ChatCompletionRequest, r2: ChatCompletionRequest)
    ensures TranslateChat(r1) == TranslateChat(r2) <==>
      (r1.model == r2.model && r1.temperature == r2.temperature && r1.maxTokens == r2.maxTokens
       && r1.stream == r2.stream && SameRolesAndContents(r1.messages, r2.messages))
  {
    ProjectionForgetsOnlyNames(r1.messages, r2.messages);
  }

  /** The arguments of `client.completions.create`: the request's fields. */
  function TranslateCompletion(req: CompletionRequest): (r: CompletionArgs)
    ensures r.model == req.model && r.prompt == req.prompt
    ensures r.temperature == req.temperature && r.maxTokens == req.maxTokens
  {
    CompletionArgs(req.model, req.prompt, req.temperature, req.maxTokens)
  }

  /** The completion call is the request itself, field for field. */
  lemma TranslateCompletionFaithful(r1: CompletionRequest, r2: CompletionRequest)
    ensures TranslateCompletion(r1) == TranslateCompletion(r2) <==> r1 == r2
  {
  }

  // ---------------------------------------------------------------- failures

  /** The subclasses of the SDK's `APIError` that the handlers name. */
  datatype ApiErrorKind = RateLimited | AuthenticationFailed | OtherApiError

  /** What a handler's `try` block can raise. `statusCode` is the `status_code`
      attribute (`None` when the error has none, as connection errors). */
  datatype Failure =
    | ApiError(kind: ApiErrorKind, statusCode: Option<int>, message: string)
    | RouterRejected(exc: HttpException)
    | OtherException(message: string)

  /** The classes named in the `except` arms. */
  datatype ExceptionClass = RateLimitErrorClass | AuthenticationErrorClass | APIErrorClass

  /** `isinstance(f, cls)`; rate-limit and authentication errors are also API
      errors, an `HTTPException` is none of these. */
  predicate IsInstance(f: Failure, cls: ExceptionClass) {
    match cls
    case RateLimitErrorClass => f.ApiError? && f.kind == RateLimited
    case AuthenticationErrorClass => f.ApiError? && f.kind == AuthenticationFailed
    case APIErrorClass => f.ApiError?
  }

  /** `str(e)`. */
  function FailureText(f: Failure): string {
    match f
    case ApiError(_, _, message) => message
    case RouterRejected(exc) => ExceptionText(exc)
    case OtherException(message) => message
  }

  const RateLimitDetail: string := "Upstream rate limit exceeded"
  const UpstreamAuthDetail: string := "Upstream authentication failed"

  /** `getattr(e, "status_code", 502) or 502`. */
  function StatusOr502(code: Option<int>): (s: int)
    ensures s != 0
    ensures code.Some? && code.value != 0 ==> s == code.value
    ensures code.None? || code.value == 0 ==> s == 502
  {
    if code.Some? && code.value != 0 then code.value else 502
  }

  /** The `except` chain, tried in order. */
  function MapFailure(f: Failure): (e: HttpException)
    ensures e.status != 0
    ensures IsInstance(f, RateLimitErrorClass) ==> e == HttpException(429, RateLimitDetail)
    ensures IsInstance(f, AuthenticationErrorClass) ==> e == HttpException(401, UpstreamAuthDetail)
    ensures f.ApiError? && f.kind == OtherApiError ==>
      e.detail == f.message && (e.status == 502 <==> f.statusCode.None? || f.statusCode.value in {0, 502})
    ensures f.ApiError? && f.kind == OtherApiError && f.statusCode.Some? && f.statusCode.value != 0 ==>
      e.status == f.statusCode.value
    ensures !f.ApiError? ==> e == HttpException(500, FailureText(f))
  {
    if IsInstance(f, RateLimitErrorClass) then HttpException(429, RateLimitDetail)
    else if IsInstance(f, AuthenticationErrorClass) then HttpException(401, UpstreamAuthDetail)
    else if IsInstance(f, APIErrorClass) then HttpException(StatusOr502(f.statusCode), FailureText(f))
    else HttpException(500, FailureText(f))
  }

  /** A rate-limit error is also an API error carrying 429, yet the earlier arm
      decides its detail. */
  lemma RateLimitArmComesFirst(code: Option<int>, message: string)
    requires message != RateLimitDetail
    ensures MapFailure(ApiError(RateLimited, code, message)) == HttpException(429, RateLimitDetail)
    ensures MapFailure(ApiError(RateLimited, code, message)) != HttpException(StatusOr502(code), message)
  {
  }

  /** The router's own 400 is raised inside the `try` and caught by the generic
      arm, so the caller sees a 500 whose detail is the exception's text. */
  lemma NoProviderSurfacesAs500()
    ensures MapFailure(RouterRejected(HttpException(400, NoProvidersDetail)))
      == HttpException(500, "400: " + NoProvidersDetail)
  {
    assert IntToString(400) == "400" by {
      assert NatToString(400) == NatToString(40) + ['0'];
      assert NatToString(40) == NatToString(4) + ['0'];
    }
  }

  // -------------------------------------------------------------- streaming

  /** One streamed chunk, known to the relay only through the text of its
      `model_dump_json()`. */
  datatype Chunk = Chunk(json: string)

  datatype StreamEnd = Finished | Raised(failure: Failure)

  /** What iterating the upstream stream yields: some chunks, then either the
      end of the stream or an exception. */
  datatype ChunkStream = ChunkStream(chunks: seq<Chunk>, end: StreamEnd)

  const DoneFrame: string := "data: [DONE]\n\n"

  function DataFrame(c: Chunk): string {
    "data: " + c.json + "\n\n"
  }

  /** The in-band report of a failure after the stream has started. */
  function ErrorFrame(f: Failure): string {
    "data: " + JsonText.ErrorObject(FailureText(f)) + "\n\n"
  }

  function DataFrames(cs: seq<Chunk>): (r: seq<string>)
    ensures |r| == |cs|
    ensures forall i :: 0 <= i < |cs| ==> r[i] == DataFrame(cs[i])
  {
    if |cs| == 0 then [] else DataFrames(cs[..|cs| - 1]) + [DataFrame(cs[|cs| - 1])]
  }

  /** The frames `generate` yields for a stream. */
  function RelayFrames(s: ChunkStream): (r: seq<string>)
    ensures |r| == |s.chunks| + 1
    ensures forall i :: 0 <= i < |s.chunks| ==> r[i] == DataFrame(s.chunks[i])
    ensures s.end.Finished? ==> r[|s.chunks|] == DoneFrame
    ensures s.end.Raised? ==> r[|s.chunks|] == ErrorFrame(s.end.failure)
  {
    DataFrames(s.chunks) + [if s.end.Finished? then DoneFrame else ErrorFrame(s.end.failure)]
  }

  /** `generate`: forward every chunk as one frame, in order, then one `[DONE]`
      frame, or one error frame if the iteration raised. */
  method Generate(s: ChunkStream) returns (frames: seq<string>)
    ensures frames == RelayFrames(s)
    ensures |frames| == |s.chunks| + 1
    ensures forall i :: 0 <= i < |s.chunks| ==> frames[i] == DataFrame(s.chunks[i])
    ensures frames[|s.chunks|] == if s.end.Finished? then DoneFrame else ErrorFrame(s.end.failure)
  {
    frames := [];
    var i := 0;
    while i < |s.chunks|
      invariant 0 <= i <= |s.chunks|
      invariant frames == DataFrames(s.chunks[..i])
    {
      assert s.chunks[..i + 1][..i] == s.chunks[..i];
      frames := frames + [DataFrame(s.chunks[i])];
      i := i + 1;
    }
    assert s.chunks[..i] == s.chunks;
    match s.end
    case Finished =>
      frames := frames + [DoneFrame];
    case Raised(f) =>
      frames := frames + [ErrorFrame(f)];
  }

  lemma ErrorFrameIsNotDone(f: Failure)
    ensures ErrorFrame(f) != DoneFrame
  {
    assert ErrorFrame(f)[6] == '{' && DoneFrame[6] == '[';
  }

  /** A chunk's serialisation is a JSON object, so its frame is never `[DONE]`. */
  predicate IsJsonObjectText(s: string) {
    |s| > 0 && s[0] == '{'
  }

  /** Exactly one terminal frame: a stream that completes has `[DONE]` as its
      last frame and nowhere else; a stream that raises has
      no `[DONE]` frame at all and ends with the error frame. The data frames
      keep the chunks' order. */
  lemma RelayTerminatesOnce(s: ChunkStream)
    requires forall i :: 0 <= i < |s.chunks| ==> IsJsonObjectText(s.chunks[i].json)
    ensures var frames := RelayFrames(s);
      && frames[..|s.chunks|] == DataFrames(s.chunks)
      && (forall i :: 0 <= i < |s.chunks| ==> frames[i] != DoneFrame)
      && (s.end.Finished? ==> frames[|s.chunks|] == DoneFrame)
      && (s.end.Raised? ==> DoneFrame !in frames && frames[|s.chunks|] == ErrorFrame(s.end.failure))
  {
    var frames := RelayFrames(s);
    forall i | 0 <= i < |s.chunks| ensures frames[i] != DoneFrame {
      assert frames[i] == DataFrame(s.chunks[i]);
      assert frames[i][6] == '{';
    }
    assert frames[..|s.chunks|] == DataFrames(s.chunks);
    if s.end.Raised? {
      ErrorFrameIsNotDone(s.end.failure);
    }
  }

  /** Every frame the relay emits for an upstream failure is one server-sent
      event: the error document has no line break of its own. */
  lemma ErrorFrameIsOneEvent(f: Failure)
    ensures var frame := ErrorFrame(f);
      StartsWith(frame, "data: {\"error\": \"") && EndsWith(frame, "\"}\n\n")
      && forall i :: 0 <= i < |frame| - 2 ==> frame[i] != '\n'
  {
    var doc := JsonText.ErrorObject(FailureText(f));
    var frame := ErrorFrame(f);
    assert frame == "data: " + doc + "\n\n";
    forall i | 0 <= i < |frame| - 2 ensures frame[i] != '\n' {
      if i >= 6 {
        assert frame[i] == doc[i - 6];
      }
    }
  }

  lemma DataFramesPrefix(chunks: seq<Chunk>, k: nat)
    requires k <= |chunks|
    ensures DataFrames(chunks[..k]) == DataFrames(chunks)[..k]
  {
    var prefix := chunks[..k];
    var mine, all := DataFrames(prefix), DataFrames(chunks);
    forall i | 0 <= i < k ensures mine[i] == all[..k][i] {
      assert prefix[i] == chunks[i];
    }
    assert mine == all[..k];
  }

  /** A failure after `k` chunks leaves exactly those `k` frames, in order,
      followed by one error frame. */
  lemma FailureAfterPrefix(chunks: seq<Chunk>, k: nat, f: Failure)
    requires k <= |chunks|
    ensures RelayFrames(ChunkStream(chunks[..k], Raised(f)))
      == DataFrames(chunks)[..k] + [ErrorFrame(f)]
  {
    DataFramesPrefix(chunks, k);
  }

  // -------------------------------------------------------------- endpoints

  /** The provider capability: what each SDK call returns or raises for a
      client and its arguments. A call with `stream=True` answers with a chunk
      stream, any other call with the serialised response object. */
  datatype Upstream = Upstream(
    chat: (Client, ChatArgs) -> Result<string, Failure>,
    chatStream: (Client, ChatArgs) -> Result<ChunkStream, Failure>,
    complete: (Client, CompletionArgs) -> Result<string, Failure>)

  /** The call a handler made to the provider capability. */
  datatype Dispatch<A> = Dispatch(client: Client, args: A)

  /** A handler's reply together with the provider call it made, if any
      (each request reaches the provider at most once). */
  datatype Handled<A> = Handled(call: Option<Dispatch<A>>, response: Response)

  /** Python truthiness of the optional stream flag. */
  predicate StreamRequested(stream: Option<bool>) {
    stream == Some(true)
  }

  /** `chat_completion` after authentication. */
  function ChatCompletion(p: Providers, req: ChatCompletionRequest, upstream: Upstream): (h: Handled<ChatArgs>)
    ensures h.call.Some? <==> p.openai.Some? || p.azure.Some?
    ensures h.call.Some? ==>
      GetClient(req.model, p) == Ok(h.call.value.client) && h.call.value.args == TranslateChat(req)
    ensures h.call.None? ==> h.response == ErrorResponse(500, "400: " + NoProvidersDetail)
    ensures h.response.EventStream? ==> StreamRequested(req.stream)
    ensures h.response.JsonResponse? ==> !StreamRequested(req.stream)
  {
    match GetClient(req.model, p)
    case Err(e) =>
      NoProviderSurfacesAs500();
      Handled(None, Raise(MapFailure(RouterRejected(e))))
    case Ok(client) =>
      var args := TranslateChat(req);
      var call := Some(Dispatch(client, args));
      if StreamRequested(args.stream) then
        match upstream.chatStream(client, args)
        case Err(f) => Handled(call, Raise(MapFailure(f)))
        case Ok(s) => Handled(call, EventStream(RelayFrames(s)))
      else
        match upstream.chat(client, args)
        case Err(f) => Handled(call, Raise(MapFailure(f)))
        case Ok(body) => Handled(call, JsonResponse(body))
  }

  /** `completion` after authentication. */
  function Completion(p: Providers, req: CompletionRequest, upstream: Upstream): (h: Handled<CompletionArgs>)
    ensures h.call.Some? <==> p.openai.Some? || p.azure.Some?
    ensures h.call.Some? ==>
      GetClient(req.model, p) == Ok(h.call.value.client) && h.call.value.args == TranslateCompletion(req)
    ensures h.call.None? ==> h.response == ErrorResponse(500, "400: " + NoProvidersDetail)
    ensures !h.response.EventStream?
    ensures h.call.Some? && upstream.complete(h.call.value.client, h.call.value.args).Err? ==>
      h.response == Raise(MapFailure(upstream.complete(h.call.value.client, h.call.value.args).error))
    ensures h.call.Some? && upstream.complete(h.call.value.client, h.call.value.args).Ok? ==>
      h.response == JsonResponse(upstream.complete(h.call.value.client, h.call.value.args).value)
  {
    match GetClient(req.model, p)
    case Err(e) =>
      NoProviderSurfacesAs500();
      Handled(None, Raise(MapFailure(RouterRejected(e))))
    case Ok(client) =>
      var args := TranslateCompletion(req);
      match upstream.complete(client, args)
      case Err(f) => Handled(Some(Dispatch(client, args)), Raise(MapFailure(f)))
      case Ok(body) => Handled(Some(Dispatch(client, args)), JsonResponse(body))
  }

  /** A failure of the initial call is mapped by the `except` chain; a stream
      that opens is relayed frame by frame with status 200. */
  lemma ChatOutcomes(p: Providers, req: ChatCompletionRequest, upstream: Upstream)
    requires p.openai.Some? || p.azure.Some?
    ensures var h := ChatCompletion(p, req, upstream);
      var d := h.call.value;
      && (StreamRequested(req.stream) && upstream.chatStream(d.client, d.args).Err? ==>
            h.response == Raise(MapFailure(upstream.chatStream(d.client, d.args).error)))
      && (StreamRequested(req.stream) && upstream.chatStream(d.client, d.args).Ok? ==>
            h.response == EventStream(RelayFrames(upstream.chatStream(d.client, d.args).value)))
      && (!StreamRequested(req.stream) && upstream.chat(d.client, d.args).Err? ==>
            h.response == Raise(MapFailure(upstream.chat(d.client, d.args).error)))
      && (!StreamRequested(req.stream) && upstream.chat(d.client, d.args).Ok? ==>
            h.response == JsonResponse(upstream.chat(d.client, d.args).value))
  {
  }

  /** An upstream rate limit on a non-streaming call is a 429. */
  lemma RateLimitedChatIs429(p: Providers, req: ChatCompletionRequest, upstream: Upstream)
    requires p.openai.Some? || p.azure.Some?
    requires !StreamRequested(req.stream)
    requires forall c, a ::
      (upstream.chat(c, a).Err? && upstream.chat(c, a).error.ApiError?
       && upstream.chat(c, a).error.kind == RateLimited)
    ensures Status(ChatCompletion(p, req, upstream).response) == 429
    ensures ChatCompletion(p, req, upstream).response.detail == RateLimitDetail
  {
    var d := ChatCompletion(p, req, upstream).call.value;
    assert upstream.chat(d.client, d.args).Err?;
  }

  /** The endpoints with the master-key dependency in front: a rejected
      credential is answered with 401 and no provider is called. */
  function AuthorizedChat(header: Option<string>, cfg: Config, p: Providers, req: ChatCompletionRequest, upstream: Upstream)
    : (h: Handled<ChatArgs>)
    ensures Authenticate(header, cfg.masterKey).Err? ==>
      h.call.None? && Status(h.response) == 401
    ensures Authenticate(header, cfg.masterKey).Ok? ==> h == ChatCompletion(p, req, upstream)
  {
    match Authenticate(header, cfg.masterKey)
    case Err(e) => Handled(None, Raise(e))
    case Ok(_) => ChatCompletion(p, req, upstream)
  }

  function AuthorizedCompletion(header: Option<string>, cfg: Config, p: Providers, req: CompletionRequest, upstream: Upstream)
    : (h: Handled<CompletionArgs>)
    ensures Authenticate(header, cfg.masterKey).Err? ==>
      h.call.None? && Status(h.response) == 401
    ensures Authenticate(header, cfg.masterKey).Ok? ==> h == Completion(p, req, upstream)
  {
    match Authenticate(header, cfg.masterKey)
    case Err(e) => Handled(None, Raise(e))
    case Ok(_) => Completion(p, req, upstream)
  }
}
