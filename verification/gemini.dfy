/**
 * The model adapter: one entry point that routes a prompt to Gemini (through
 * the Google SDK) or to LLaMA/Mistral (through OpenRouter's chat-completions
 * endpoint), turns every failure into reply text, a referee prompt over
 * several answers, and image generation with one fallback model.
 *
 * The SDK and the HTTP endpoint are not called: what they answer is a
 * parameter (`SdkReply`, `HttpReply`, `ImageReply`), and what would be sent is
 * returned as a `Request`, so that "no request is made" can be stated.
 */
module Gemini {
  import opened Wrappers
  import opened Text
  import opened Types

  const SdkModel := "gemini-2.5-flash"
  const CompletionsUrl := "https://openrouter.ai/api/v1/chat/completions"
  const OpenRouterTemperature: real := 0.7
  const OpenRouterMaxTokens: nat := 2000
  const NoResponse := "No response generated."
  const KeyMissingMarker := "API Key not found"
  const GeminiKeyMissing := "Gemini " + KeyMissingMarker + ". Please add VITE_GEMINI_API_KEY to your environment variables."
  const OpenRouterKeyMissing := "OpenRouter " + KeyMissingMarker + ". Please add VITE_OPENROUTER_API_KEY to your environment variables."
  const OpenRouterFailed := "Failed to generate response from OpenRouter"
  const WarningPrefix := "\U{26A0}\U{FE0F} "
  const ErrorPrefix := "I encountered an error: "
  const TryAgain := "Please try again."

  /** The two API keys read from the environment; an empty string is an unset key. */
  datatype Config = Config(geminiKey: string, openRouterKey: string)

  /** The OpenRouter model id of each model that is served through OpenRouter. */
  function OpenRouterModel(m: ModelType): (r: Option<string>)
    ensures r.Some? <==> m != Gemini
  {
    match m
    case Gemini => None
    case Llama => Some("meta-llama/llama-3.1-70b-instruct")
    case Mistral => Some("mistralai/mistral-large")
  }

  const GeminiInstruction := "You are Gemini, a helpful AI assistant. When files are attached, analyze them thoroughly."
  const LlamaInstruction := "You are LLaMA 3.1, a helpful and efficient AI assistant created by Meta. Answer with clarity and precision."
  const MistralInstruction := "You are Mistral Large, a concise and precise AI assistant. Answer with accuracy and efficiency."

  function DefaultInstruction(m: ModelType): string {
    match m
    case Gemini => GeminiInstruction
    case Llama => LlamaInstruction
    case Mistral => MistralInstruction
  }

  /** `systemInstruction || <the model's default>`. */
  function Instruction(m: ModelType, given: Option<string>): string {
    Or(given, DefaultInstruction(m))
  }

  datatype Part = TextPart(text: string) | InlineData(mimeType: string, data: string)

  datatype ChatMessage = ChatMessage(role: string, content: string)

  datatype Request =
    | SdkRequest(model: string, contents: seq<Part>, systemInstruction: string)
    | OpenRouterRequest(url: string, authorization: string, model: string,
                        messages: seq<ChatMessage>, temperature: real, maxTokens: nat)

  /** What the SDK does with one request: throws an error with a message, or answers text ("" for none). */
  datatype SdkReply = SdkThrew(message: string) | SdkAnswered(text: string)

  /**
   * What `fetch` does with one OpenRouter request: throws, answers with a
   * non-OK status (and the body's `error.message`, "" when absent), or answers
   * OK with the first choice's content ("" when absent).
   */
  datatype HttpReply = FetchThrew(message: string) | HttpRejected(status: nat, message: string) | HttpAnswered(content: string)

  /** What each transport would answer to this call; a call uses one of them. */
  datatype Backends = Backends(sdk: SdkReply, http: HttpReply)

  /** The request a call would send (if any) and what the call returns or throws. */
  datatype Call = Call(sent: Option<Request>, result: Result<string, string>)

  /** The inline parts of the attached files: one per file whose `base64` is set, in file order. */
  function InlineParts(files: seq<UploadedFile>): seq<Part> {
    if files == [] then []
    else FileParts(files[0]) + InlineParts(files[1..])
  }

  function FileParts(f: UploadedFile): seq<Part> {
    if Truthy(f.base64) then [InlineData(f.mimeType, f.base64.value)] else []
  }

  lemma {:induction false} InlinePartsAppend(a: seq<UploadedFile>, b: seq<UploadedFile>)
    ensures InlineParts(a + b) == InlineParts(a) + InlineParts(b)
    decreases |a|
  {
    if a == [] {
      assert a + b == b;
    } else {
      assert (a + b)[1..] == a[1..] + b;
      InlinePartsAppend(a[1..], b);
    }
  }

  /** The Gemini contents: the prompt's text part first, then the files' inline parts. */
  function GeminiContents(prompt: string, files: seq<UploadedFile>): (r: seq<Part>)
    ensures 1 <= |r| <= |files| + 1
    ensures r[0] == TextPart(prompt)
    ensures forall k :: 1 <= k < |r| ==> r[k].InlineData? && r[k].data != ""
  {
    InlinePartsShape(files);
    [TextPart(prompt)] + InlineParts(files)
  }

  lemma {:induction false} InlinePartsShape(files: seq<UploadedFile>)
    ensures |InlineParts(files)| <= |files|
    ensures forall k :: 0 <= k < |InlineParts(files)| ==> InlineParts(files)[k].InlineData? && InlineParts(files)[k].data != ""
  {
    if files != [] {
      InlinePartsShape(files[1..]);
    }
  }

  /** The OpenRouter message list: a system message first exactly when an instruction is given, then the user's prompt. */
  function OpenRouterMessages(prompt: string, instruction: Option<string>): (r: seq<ChatMessage>)
    ensures |r| == if Truthy(instruction) then 2 else 1
    ensures r[|r| - 1] == ChatMessage("user", prompt)
    ensures Truthy(instruction) ==> r[0] == ChatMessage("system", instruction.value)
  {
    (if Truthy(instruction) then [ChatMessage("system", instruction.value)] else []) + [ChatMessage("user", prompt)]
  }

  /** The message an OpenRouter call throws for a reply that is not an answer. */
  function HttpErrorMessage(reply: HttpReply): string
    requires !reply.HttpAnswered?
  {
    match reply
    case FetchThrew(msg) => if msg == "" then OpenRouterFailed else msg
    case HttpRejected(status, msg) => if msg == "" then "OpenRouter API error: " + NatToString(status) else msg
  }

  /**
   * `callOpenRouter`: a missing key or an unmapped model fails before any
   * request; otherwise one request is sent and the reply decides the result.
   */
  function CallOpenRouter(cfg: Config, prompt: string, m: ModelType, instruction: Option<string>, reply: HttpReply): (c: Call)
    ensures c.sent.None? <==> cfg.openRouterKey == "" || m == Gemini
    ensures c.sent.None? ==> c.result.Failure?
    ensures c.sent.Some? ==> c.sent.value == OpenRouterRequest(CompletionsUrl, "Bearer " + cfg.openRouterKey,
                                 OpenRouterModel(m).value, OpenRouterMessages(prompt, instruction),
                                 OpenRouterTemperature, OpenRouterMaxTokens)
    ensures c.result.Failure? ==> c.result.error != ""
    ensures c.result.Success? ==> c.result.value != ""
  {
    if cfg.openRouterKey == "" then Call(None, Failure(OpenRouterKeyMissing))
    else if OpenRouterModel(m).None? then Call(None, Failure("No OpenRouter model mapped for " + ModelTag(m)))
    else
      var req := OpenRouterRequest(CompletionsUrl, "Bearer " + cfg.openRouterKey, OpenRouterModel(m).value,
                                   OpenRouterMessages(prompt, instruction), OpenRouterTemperature, OpenRouterMaxTokens);
      match reply
      case HttpAnswered(content) => Call(Some(req), Success(if content == "" then NoResponse else content))
      case _ => Call(Some(req), Failure(HttpErrorMessage(reply)))
  }

  /** The body of `generateResponse`'s `try`: route by model, build the request, read the reply. */
  function Respond(cfg: Config, prompt: string, m: ModelType, files: seq<UploadedFile>,
                   instruction: Option<string>, env: Backends): Call
  {
    match m
    case Gemini =>
      if cfg.geminiKey == "" then Call(None, Failure(GeminiKeyMissing))
      else
        var req := SdkRequest(SdkModel, GeminiContents(prompt, files), Instruction(Gemini, instruction));
        (match env.sdk
         case SdkThrew(msg) => Call(Some(req), Failure(msg))
         case SdkAnswered(t) => Call(Some(req), Success(if t == "" then NoResponse else t)))
    case _ => CallOpenRouter(cfg, prompt, m, Some(Instruction(m, instruction)), env.http)
  }

  /** The `catch` of `generateResponse`: every failure becomes reply text. */
  function ReplyText(r: Result<string, string>): string {
    match r
    case Success(t) => t
    case Failure(msg) =>
      if Contains(msg, KeyMissingMarker) then WarningPrefix + msg
      else ErrorPrefix + (if msg == "" then TryAgain else msg)
  }

  /** The `contents` array of a Gemini request, built by pushing one inline part per file that carries data. */
  method BuildContents(prompt: string, files: seq<UploadedFile>) returns (contents: seq<Part>)
    ensures contents == GeminiContents(prompt, files)
  {
    contents := [TextPart(prompt)];
    var i := 0;
    while i < |files|
      invariant 0 <= i <= |files|
      invariant contents == [TextPart(prompt)] + InlineParts(files[..i])
    {
      InlinePartsAppend(files[..i], [files[i]]);
      assert files[..i + 1] == files[..i] + [files[i]];
      assert InlineParts([files[i]]) == FileParts(files[i]) by {
        assert [files[i]][1..] == [];
      }
      if Truthy(files[i].base64) {
        contents := contents + [InlineData(files[i].mimeType, files[i].base64.value)];
      }
      i := i + 1;
    }
    assert files[..i] == files;
  }

  /**
   * `generateResponse`: never throws; whatever fails becomes the reply text.
   */
  method GenerateResponse(cfg: Config, prompt: string, m: ModelType, files: seq<UploadedFile>,
                          instruction: Option<string>, env: Backends)
    returns (sent: Option<Request>, text: string)
    ensures sent == Respond(cfg, prompt, m, files, instruction, env).sent
    ensures text == ReplyText(Respond(cfg, prompt, m, files, instruction, env).result)
  {
    if m == Gemini {
      if cfg.geminiKey == "" {
        sent, text := None, ReplyText(Failure(GeminiKeyMissing));
        return;
      }
      var contents := BuildContents(prompt, files);
      sent := Some(SdkRequest(SdkModel, contents, Instruction(Gemini, instruction)));
      match env.sdk {
        case SdkThrew(msg) =>
          text := ReplyText(Failure(msg));
        case SdkAnswered(t) =>
          text := if t == "" then NoResponse else t;
      }
    } else {
      var call := CallOpenRouter(cfg, prompt, m, Some(Instruction(m, instruction)), env.http);
      sent, text := call.sent, ReplyText(call.result);
    }
  }

  /** Each model is routed to its own transport and model id; a missing key means no request at all. */
  lemma RespondRouting(cfg: Config, prompt: string, m: ModelType, files: seq<UploadedFile>,
                       instruction: Option<string>, env: Backends)
    ensures var c := Respond(cfg, prompt, m, files, instruction, env);
      && (c.sent.None? <==> (if m == Gemini then cfg.geminiKey == "" else cfg.openRouterKey == ""))
      && (m == Gemini && c.sent.Some? ==> c.sent.value.SdkRequest? && c.sent.value.model == "gemini-2.5-flash")
      && (m == Llama && c.sent.Some? ==>
            c.sent.value.OpenRouterRequest? && c.sent.value.model == "meta-llama/llama-3.1-70b-instruct")
      && (m == Mistral && c.sent.Some? ==>
            c.sent.value.OpenRouterRequest? && c.sent.value.model == "mistralai/mistral-large")
  {
  }

  /**
   * Without an instruction every model gets its own default one; for the
   * OpenRouter models it becomes the system message, which therefore always
   * comes first.
   */
  lemma DefaultInstructionUsed(cfg: Config, prompt: string, m: ModelType, files: seq<UploadedFile>,
                               instruction: Option<string>, env: Backends)
    requires !Truthy(instruction)
    ensures var c := Respond(cfg, prompt, m, files, instruction, env);
      && (c.sent.Some? && c.sent.value.SdkRequest? ==> c.sent.value.systemInstruction == DefaultInstruction(m))
      && (c.sent.Some? && c.sent.value.OpenRouterRequest? ==>
            c.sent.value.messages == [ChatMessage("system", DefaultInstruction(m)), ChatMessage("user", prompt)])
  {
  }

  /** A missing key is reported as a warning line, and nothing is sent. */
  lemma {:induction false} MissingKeyWarns(cfg: Config, prompt: string, m: ModelType, files: seq<UploadedFile>,
                                           instruction: Option<string>, env: Backends)
    requires if m == Gemini then cfg.geminiKey == "" else cfg.openRouterKey == ""
    ensures var c := Respond(cfg, prompt, m, files, instruction, env);
      && c.sent.None?
      && ReplyText(c.result) == WarningPrefix + (if m == Gemini then GeminiKeyMissing else OpenRouterKeyMissing)
  {
    ContainsAt("Gemini ", KeyMissingMarker, ". Please add VITE_GEMINI_API_KEY to your environment variables.");
    ContainsAt("OpenRouter ", KeyMissingMarker, ". Please add VITE_OPENROUTER_API_KEY to your environment variables.");
  }

  lemma ContainsAt(a: string, p: string, b: string)
    ensures Contains(a + p + b, p)
  {
    var s := a + p + b;
    assert s[|a|..][..|p|] == p;
  }

  /**
   * The reply text is never empty, an answer is passed through unchanged, and
   * a failure becomes a warning or an error line: a failing model yields text,
   * never an exception.
   */
  lemma ReplyTextShape(cfg: Config, prompt: string, m: ModelType, files: seq<UploadedFile>,
                       instruction: Option<string>, env: Backends)
    ensures var c := Respond(cfg, prompt, m, files, instruction, env);
      && ReplyText(c.result) != ""
      && (c.result.Success? ==> ReplyText(c.result) == c.result.value)
      && (c.result.Failure? ==>
            StartsWith(ReplyText(c.result), WarningPrefix) || StartsWith(ReplyText(c.result), ErrorPrefix))
  {
    var c := Respond(cfg, prompt, m, files, instruction, env);
    if c.result.Failure? {
      var msg := c.result.error;
      if Contains(msg, KeyMissingMarker) {
        assert (WarningPrefix + msg)[..|WarningPrefix|] == WarningPrefix;
      } else {
        var tail := if msg == "" then TryAgain else msg;
        assert (ErrorPrefix + tail)[..|ErrorPrefix|] == ErrorPrefix;
      }
    }
  }

  /** An answer with text reaches the caller verbatim; an empty answer becomes "No response generated.". */
  lemma AnswerPassesThrough(cfg: Config, prompt: string, m: ModelType, files: seq<UploadedFile>,
                            instruction: Option<string>, env: Backends)
    requires if m == Gemini then cfg.geminiKey != "" && env.sdk.SdkAnswered? else cfg.openRouterKey != "" && env.http.HttpAnswered?
    ensures var answer := if m == Gemini then env.sdk.text else env.http.content;
      ReplyText(Respond(cfg, prompt, m, files, instruction, env).result) == (if answer == "" then NoResponse else answer)
  {
  }

  /** An HTTP error without a message is reported with its status code. */
  lemma StatusReported(cfg: Config, prompt: string, m: ModelType, files: seq<UploadedFile>,
                       instruction: Option<string>, status: nat, sdk: SdkReply)
    requires m != Gemini && cfg.openRouterKey != ""
    ensures Respond(cfg, prompt, m, files, instruction, Backends(sdk, HttpRejected(status, ""))).result
            == Failure("OpenRouter API error: " + NatToString(status))
  {
  }

  // ---- Referee ----

  const RefereeNoKey := "Referee unavailable (No API Key)."
  const RefereeOffline := "Referee system offline."
  const RefereeEmpty := "Could not generate analysis."

  /** One answer as the referee prompt lists it: `[model]: text`. */
  function ResponseBlock(r: AgentResponse): string {
    "[" + ModelTag(r.model) + "]: " + r.text
  }

  function ResponseBlocks(rs: seq<AgentResponse>): (r: seq<string>)
    ensures |r| == |rs| && forall i :: 0 <= i < |rs| ==> r[i] == ResponseBlock(rs[i])
  {
    seq(|rs|, i requires 0 <= i < |rs| => ResponseBlock(rs[i]))
  }

  function RefereeHead(query: string): string {
    "\n    Analyze the following responses to the user query: \"" + query + "\"\n    \n    Responses:\n    "
  }

  const RefereeTail := "\n    \n    Task:\n    1. Select the best response based on accuracy, completeness, and clarity.\n    2. Explain why it is the best in 1-2 sentences.\n    3. Point out one improvement for the other responses.\n    \n    Keep it brief and constructive.\n  "

  function RefereePrompt(query: string, rs: seq<AgentResponse>): string {
    RefereeHead(query) + Join(ResponseBlocks(rs), "\n\n") + RefereeTail
  }

  /** Where the block of the `i`-th answer starts in the referee prompt. */
  function BlockOffset(query: string, rs: seq<AgentResponse>, i: nat): nat
    requires i < |rs|
  {
    |RefereeHead(query)| + JoinOffset(ResponseBlocks(rs), "\n\n", i)
  }

  /** The prompt lists every answer as `[model]: text`, in input order, separated by a blank line. */
  lemma {:induction false} RefereePromptListsAnswers(query: string, rs: seq<AgentResponse>, i: nat)
    requires i < |rs|
    ensures var p := RefereePrompt(query, rs); var o := BlockOffset(query, rs, i);
      o + |ResponseBlock(rs[i])| <= |p| && p[o..o + |ResponseBlock(rs[i])|] == ResponseBlock(rs[i])
  {
    var blocks := ResponseBlocks(rs);
    JoinedPartAt(RefereeHead(query), blocks, "\n\n", RefereeTail, i);
    assert blocks[i] == ResponseBlock(rs[i]);
  }

  /** A part of a join framed by a head and a tail, addressed in the whole text. */
  lemma JoinedPartAt(head: string, parts: seq<string>, sep: string, tail: string, i: nat)
    requires i < |parts|
    ensures var o := |head| + JoinOffset(parts, sep, i);
      o + |parts[i]| <= |head + Join(parts, sep) + tail|
      && (head + Join(parts, sep) + tail)[o..o + |parts[i]|] == parts[i]
  {
    var o := JoinOffset(parts, sep, i);
    JoinPlacesParts(parts, sep, i);
    SliceOfMiddle(head, Join(parts, sep), tail, o, o + |parts[i]|);
  }

  /** Consecutive answers are separated by one blank line, and nothing else. */
  lemma {:induction false} RefereePromptSeparatesAnswers(query: string, rs: seq<AgentResponse>, i: nat)
    requires i + 1 < |rs|
    ensures var p := RefereePrompt(query, rs); var e := BlockOffset(query, rs, i) + |ResponseBlock(rs[i])|;
      e + 2 <= |p| && p[e..e + 2] == "\n\n" && e + 2 == BlockOffset(query, rs, i + 1)
  {
    var blocks := ResponseBlocks(rs);
    JoinedSeparatorAt(RefereeHead(query), blocks, "\n\n", RefereeTail, i);
    assert blocks[i] == ResponseBlock(rs[i]);
  }

  /** The separator after a part of a join framed by a head and a tail, addressed in the whole text. */
  lemma JoinedSeparatorAt(head: string, parts: seq<string>, sep: string, tail: string, i: nat)
    requires i + 1 < |parts|
    ensures var e := |head| + JoinOffset(parts, sep, i) + |parts[i]|;
      e + |sep| <= |head + Join(parts, sep) + tail|
      && (head + Join(parts, sep) + tail)[e..e + |sep|] == sep
      && e + |sep| == |head| + JoinOffset(parts, sep, i + 1)
  {
    JoinPlacesParts(parts, sep, i);
    JoinSeparator(parts, sep, i);
    var e := JoinOffset(parts, sep, i) + |parts[i]|;
    SliceOfMiddle(head, Join(parts, sep), tail, e, e + |sep|);
  }

  /** A slice of the middle piece of `a + b + c`, addressed in the whole. */
  lemma SliceOfMiddle(a: string, b: string, c: string, lo: nat, hi: nat)
    requires lo <= hi <= |b|
    ensures |a| + hi <= |a + b + c|
    ensures (a + b + c)[|a| + lo..|a| + hi] == b[lo..hi]
  {
    assert a + b + c == a + (b + c);
    assert (a + (b + c))[|a|..] == b + c;
    assert (b + c)[lo..hi] == b[lo..hi];
  }

  /** Between two consecutive parts of a join stands the separator. */
  lemma {:induction false} JoinSeparator(parts: seq<string>, sep: string, i: nat)
    requires i + 1 < |parts|
    ensures JoinOffset(parts, sep, i) + |parts[i]| + |sep| <= |Join(parts, sep)|
    ensures var e := JoinOffset(parts, sep, i) + |parts[i]|; Join(parts, sep)[e..e + |sep|] == sep
  {
    if i == 0 {
      assert Join(parts, sep) == parts[0] + sep + Join(parts[1..], sep);
    } else {
      JoinSeparator(parts[1..], sep, i - 1);
      var k := |parts[0]| + |sep|;
      assert Join(parts, sep) == (parts[0] + sep) + Join(parts[1..], sep);
      assert Join(parts, sep)[k..] == Join(parts[1..], sep);
    }
  }

  /** What the referee would send (if anything) and the verdict it returns. */
  datatype Verdict = Verdict(sent: Option<string>, text: string)

  /**
   * `generateRefereeAnalysis`: without a Gemini key nothing is sent; a failed
   * call and an empty answer give fixed inert verdicts; it never throws.
   */
  function RefereeAnalysis(cfg: Config, query: string, rs: seq<AgentResponse>, reply: SdkReply): (v: Verdict)
    ensures v.sent.None? <==> cfg.geminiKey == ""
    ensures v.sent.None? ==> v.text == RefereeNoKey
    ensures v.sent.Some? ==> v.sent.value == RefereePrompt(query, rs)
    ensures v.sent.Some? && reply.SdkThrew? ==> v.text == RefereeOffline
    ensures v.sent.Some? && reply.SdkAnswered? ==> v.text == if reply.text == "" then RefereeEmpty else reply.text
    ensures v.text != ""
  {
    if cfg.geminiKey == "" then Verdict(None, RefereeNoKey)
    else
      var p := RefereePrompt(query, rs);
      match reply
      case SdkThrew(_) => Verdict(Some(p), RefereeOffline)
      case SdkAnswered(t) => Verdict(Some(p), if t == "" then RefereeEmpty else t)
  }

  // ---- Images ----

  const PrimaryImageModel := "gemini-2.5-flash-image"
  const FallbackImageModel := "imagen-3.0-generate-001"
  const DataUrlPrefix := "data:image/jpeg;base64,"
  const ImageKeyMissing := "Gemini API Key not found. Image generation requires VITE_GEMINI_API_KEY."
  const ImageFailed := "Failed to generate image"

  /** One image request (always one 1:1 JPEG). */
  datatype ImageRequest = ImageRequest(model: string, prompt: string)

  /** What one image request does: throws, or answers with the first image's bytes ("" when there is none). */
  datatype ImageReply = ImageThrew(message: string) | ImageReturned(bytes: string)

  /** The data URL for the returned bytes, or none when there are no bytes. */
  function DataUrl(bytes: string): (r: Option<string>)
    ensures r.Some? <==> bytes != ""
    ensures r.Some? ==> StartsWith(r.value, DataUrlPrefix) && r.value[|DataUrlPrefix|..] == bytes
  {
    if bytes == "" then None else Some(DataUrlPrefix + bytes)
  }

  /** The image requests made, in order: none without a key, the fallback only after the primary threw. */
  function ImageAttempts(cfg: Config, prompt: string, primary: ImageReply): (t: seq<ImageRequest>)
    ensures t == [] <==> cfg.geminiKey == ""
    ensures t != [] ==> t[0] == ImageRequest(PrimaryImageModel, prompt)
    ensures |t| <= 2 && (|t| == 2 <==> cfg.geminiKey != "" && primary.ImageThrew?)
    ensures |t| == 2 ==> t[1] == ImageRequest(FallbackImageModel, prompt)
  {
    if cfg.geminiKey == "" then []
    else [ImageRequest(PrimaryImageModel, prompt)]
         + (if primary.ImageThrew? then [ImageRequest(FallbackImageModel, prompt)] else [])
  }

  /**
   * What `generateImage` returns or throws. The fallback's reply matters only
   * when the primary threw; a failure means a missing key or two failed
   * requests; an image is a JPEG data URL of the bytes of the request that answered.
   */
  function ImageResult(cfg: Config, prompt: string, primary: ImageReply, fallback: ImageReply): (r: Result<Option<string>, string>)
    ensures cfg.geminiKey == "" ==> r == Failure(ImageKeyMissing)
    ensures cfg.geminiKey != "" && primary.ImageReturned? ==> r == Success(DataUrl(primary.bytes))
    ensures cfg.geminiKey != "" && primary.ImageThrew? ==>
      r == if fallback.ImageReturned? then Success(DataUrl(fallback.bytes))
           else Failure(if fallback.message == "" then ImageFailed else fallback.message)
    ensures r.Failure? ==> r.error != "" && (cfg.geminiKey == "" || (primary.ImageThrew? && fallback.ImageThrew?))
    ensures r.Success? && r.value.Some? ==>
      StartsWith(r.value.value, DataUrlPrefix)
      && (primary.ImageReturned? || fallback.ImageReturned?)
      && r.value.value[|DataUrlPrefix|..] == (if primary.ImageReturned? then primary.bytes else fallback.bytes)
  {
    if cfg.geminiKey == "" then Failure(ImageKeyMissing)
    else match primary
      case ImageReturned(bytes) => Success(DataUrl(bytes))
      case ImageThrew(_) =>
        match fallback
        case ImageReturned(bytes) => Success(DataUrl(bytes))
        case ImageThrew(msg) => Failure(if msg == "" then ImageFailed else msg)
  }

  /**
   * `generateImage`: the primary model first, the fallback model once if the
   * primary throws; the URL variable starts unset and is assigned only when
   * the answering request returned bytes.
   */
  method GenerateImage(cfg: Config, prompt: string, primary: ImageReply, fallback: ImageReply)
    returns (tried: seq<ImageRequest>, r: Result<Option<string>, string>)
    ensures tried == ImageAttempts(cfg, prompt, primary)
    ensures r == ImageResult(cfg, prompt, primary, fallback)
  {
    if cfg.geminiKey == "" {
      return [], Failure(ImageKeyMissing);
    }
    var imageUrl: Option<string> := None;
    tried := [ImageRequest(PrimaryImageModel, prompt)];
    match primary {
      case ImageReturned(bytes) =>
        if bytes != "" {
          imageUrl := Some(DataUrlPrefix + bytes);
        }
      case ImageThrew(_) =>
        tried := tried + [ImageRequest(FallbackImageModel, prompt)];
        match fallback {
          case ImageThrew(msg) =>
            return tried, Failure(if msg == "" then ImageFailed else msg);
          case ImageReturned(bytes) =>
            if bytes != "" {
              imageUrl := Some(DataUrlPrefix + bytes);
            }
        }
    }
    return tried, Success(imageUrl);
  }
}
