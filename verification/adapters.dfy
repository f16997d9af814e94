/** What the four provider adapters (the files under providers/) have in common: the
    constructor's option handling, the per-request parameter defaulting,
    the request payload, the line splitting of a streamed body, and the
    shape of what a `Complete` call delivers. HTTP and JSON are parameters:
    a client maps a payload to a response body or an error, a decoder maps
    body text to the field an adapter extracts. */
module Adapters {
  import opened Wrappers
  import opened LlmTypes
  import opened Config
  import LlmAgent

  // ---------------------------------------------------------------------------
  // Construction
  // ---------------------------------------------------------------------------

  /** An adapter: its API key and the configuration `GetConfig` returns. */
  datatype Adapter = Adapter(apiKey: string, cfg: ProviderConfig)

  /** Every constructor starts from a base URL and a 30-second timeout. */
  const DefaultTimeout: int := 30 * Second

  function Base(url: string): (c: ProviderConfig)
    ensures c == ZeroConfig.(baseURL := url, timeout := DefaultTimeout)
  {
    ZeroConfig.(baseURL := url, timeout := DefaultTimeout)
  }

  /** `LastOptionWins` for every field at once. */
  lemma LastOptionWinsAll(c: ProviderConfig, opts: seq<ConfigOption>)
    ensures forall f :: Get(ApplyOptions(c, opts), f) == LastSet(opts, f).GetOr(Get(c, f))
    ensures ApplyOptions(c, opts).supportedModels == c.supportedModels
  {
    forall f
      ensures Get(ApplyOptions(c, opts), f) == LastSet(opts, f).GetOr(Get(c, f))
    {
      LastOptionWins(c, opts, f);
    }
    LastOptionWins(c, opts, BaseURLField);
  }

  /** The default model the options leave, `""` when none sets one. */
  function OptionModel(opts: seq<ConfigOption>): string {
    match LastSet(opts, DefaultModelField)
    case Some(StrVal(m)) => m
    case _ => ""
  }

  /** `NewOpenAI`, `NewSonnet` and `NewClaude`: the options run in order
      over the base configuration, then an empty default model becomes
      `model` and the supported models are fixed to `supported`. */
  function Construct(apiKey: string, url: string, opts: seq<ConfigOption>, model: string,
                     supported: seq<string>): (p: Adapter)
    ensures p.apiKey == apiKey
    ensures forall f :: f != DefaultModelField ==> Get(p.cfg, f) == LastSet(opts, f).GetOr(Get(Base(url), f))
    ensures p.cfg.defaultModel == if OptionModel(opts) != "" then OptionModel(opts) else model
    ensures p.cfg.supportedModels == supported
  {
    LastOptionWinsAll(Base(url), opts);
    var cfg := ApplyOptions(Base(url), opts);
    var cfg' := if cfg.defaultModel == "" then cfg.(defaultModel := model) else cfg;
    Adapter(apiKey, cfg'.(supportedModels := supported))
  }

  /** `NewDeepSeek`: only the options over the base configuration; no
      default model and no supported models. */
  function ConstructPlain(apiKey: string, url: string, opts: seq<ConfigOption>): (p: Adapter)
    ensures p.apiKey == apiKey
    ensures forall f :: Get(p.cfg, f) == LastSet(opts, f).GetOr(Get(Base(url), f))
    ensures p.cfg.supportedModels == []
  {
    LastOptionWinsAll(Base(url), opts);
    Adapter(apiKey, ApplyOptions(Base(url), opts))
  }

  // ---------------------------------------------------------------------------
  // Per-request defaulting
  // ---------------------------------------------------------------------------

  /** The parameter defaulting at the top of every adapter's `Complete`:
      each unset field takes the configuration's value, and `MaxTokens`
      falls back to 200 when the configuration has none either. */
  function ApplyDefaults(cfg: ProviderConfig, req: Request): (r: Request)
    ensures r.messages == req.messages && r.stop == req.stop
    ensures req.model != "" ==> r.model == req.model
    ensures req.model == "" ==> r.model == cfg.defaultModel
    ensures req.stream.Some? ==> r.stream == req.stream
    ensures req.stream.None? ==> r.stream == cfg.defaultStream
    ensures !req.temperature.IsZero() ==> r.temperature == req.temperature
    ensures req.temperature.IsZero() ==> r.temperature == cfg.defaultTemperature
    ensures req.maxTokens != 0 ==> r.maxTokens == req.maxTokens
    ensures req.maxTokens == 0 && cfg.defaultMaxTokens != 0 ==> r.maxTokens == cfg.defaultMaxTokens
    ensures req.maxTokens == 0 && cfg.defaultMaxTokens == 0 ==> r.maxTokens == 200
    ensures !req.topP.IsZero() ==> r.topP == req.topP
    ensures req.topP.IsZero() ==> r.topP == cfg.defaultTopP
  {
    var model := if req.model == "" then cfg.defaultModel else req.model;
    var stream := if req.stream.None? && cfg.defaultStream.Some? then cfg.defaultStream else req.stream;
    var temperature := if req.temperature.IsZero() then cfg.defaultTemperature else req.temperature;
    var maxTokens :=
      if req.maxTokens == 0 then (if cfg.defaultMaxTokens == 0 then 200 else cfg.defaultMaxTokens)
      else req.maxTokens;
    var topP := if req.topP.IsZero() then cfg.defaultTopP else req.topP;
    req.(model := model, stream := stream, temperature := temperature, maxTokens := maxTokens, topP := topP)
  }

  /** After defaulting `MaxTokens` is never 0, and defaulting again changes
      nothing. */
  lemma ApplyDefaultsIdempotent(cfg: ProviderConfig, req: Request)
    ensures ApplyDefaults(cfg, req).maxTokens != 0
    ensures ApplyDefaults(cfg, ApplyDefaults(cfg, req)) == ApplyDefaults(cfg, req)
  {
  }

  /** The agent's own `MaxTokens` defaulting before the call is absorbed by
      the adapter's: the provider sees the same request either way. */
  lemma AgentDefaultingAbsorbed(cfg: ProviderConfig, req: Request)
    ensures ApplyDefaults(cfg, LlmAgent.DefaultMaxTokens(cfg, req)) == ApplyDefaults(cfg, req)
  {
  }

  // ---------------------------------------------------------------------------
  // The payload and its transport
  // ---------------------------------------------------------------------------

  /** The request body an adapter sends, as the fields it carries. The
      Sonnet adapter sends `prompt` and `stop` instead of `messages`; the
      others send `messages` and leave `prompt` and `stop` out, which is
      written here as `""` and `[]`. */
  datatype Payload = Payload(
    model: string,
    messages: seq<Message>,
    prompt: string,
    stream: bool,
    temperature: Float,
    maxTokens: int,
    topP: Float,
    stop: seq<string>)

  /** The payload as written: `"stream": *req.Stream` dereferences the
      defaulted flag, which is nil when neither the caller nor the
      configuration set it; `None` is that nil dereference, a panic in the
      adapter's goroutine that ends the process. */
  function PayloadAsWritten(r: Request, msgs: seq<Message>, prompt: string, stop: seq<string>): (p: Option<Payload>)
    ensures p.None? <==> r.stream.None?
    ensures p.Some? ==> p.value.stream == r.stream.value
  {
    match r.stream
    case None => None
    case Some(b) => Some(Payload(r.model, msgs, prompt, b, r.temperature, r.maxTokens, r.topP, stop))
  }

  /** The payload as evidently intended: the flag sent is the streaming
      decision the adapter itself uses to read the reply. */
  function IntendedPayload(r: Request, msgs: seq<Message>, prompt: string, stop: seq<string>): (p: Payload)
    ensures p.stream == StreamValue(r)
    ensures p.model == r.model && p.maxTokens == r.maxTokens
    ensures p.temperature == r.temperature && p.topP == r.topP
    ensures p.messages == msgs && p.prompt == prompt && p.stop == stop
  {
    Payload(r.model, msgs, prompt, StreamValue(r), r.temperature, r.maxTokens, r.topP, stop)
  }

  /** The two payloads agree whenever the written one exists; it fails to
      exist for a configuration without `DefaultStream` and a request
      without `Stream`, e.g. the zero configuration and a request naming
      only a model. */
  lemma NilStreamCrashes(cfg: ProviderConfig, req: Request, msgs: seq<Message>, prompt: string, stop: seq<string>)
    ensures var r := ApplyDefaults(cfg, req);
      && (r.stream.Some? ==> PayloadAsWritten(r, msgs, prompt, stop) == Some(IntendedPayload(r, msgs, prompt, stop)))
      && (cfg.defaultStream.None? && req.stream.None? ==> PayloadAsWritten(r, msgs, prompt, stop).None?)
    ensures PayloadAsWritten(ApplyDefaults(ZeroConfig, Request([], "m", None, Zero, 0, Zero, [])), [], "", []).None?
  {
  }

  /** `json.Marshal` of a payload fails exactly when a float is NaN or
      infinite. */
  predicate PayloadEncodable(p: Payload) {
    p.temperature.Encodable() && p.topP.Encodable()
  }

  /** The error `json.Marshal` returns for an unencodable float. */
  const MarshalError := Backend("json: unsupported value")

  /** The body of an HTTP reply: the bytes read, and the error that ended
      the reading, `None` for a clean end of file. */
  datatype Body = Body(data: string, readErr: Option<Error>)

  /** What an HTTP round trip yields: no reply (a transport error), or a
      status and a body. */
  datatype Exchange = NoReply(err: Error) | Reply(status: int, body: Body)

  /** The HTTP client, as a function of the request body it is handed:
      `Some(p)` is the encoding of `p`, `None` an empty body. */
  type Transport = Option<Payload> -> Exchange

  /** The status check of the OpenAI client (sdk/openai/sdk.go) and of the
      Claude and DeepSeek adapters: anything but 200 OK is an error carrying
      the status and the bytes of the body. */
  function CheckStatus(x: Exchange): (r: Result<Body, Error>)
    ensures x.NoReply? ==> r == Failure(x.err)
    ensures x.Reply? && x.status != 200 ==> r == Failure(HttpStatus(x.status, x.body.data))
    ensures x.Reply? && x.status == 200 ==> r == Success(x.body)
  {
    match x
    case NoReply(e) => Failure(e)
    case Reply(status, body) => if status != 200 then Failure(HttpStatus(status, body.data)) else Success(body)
  }

  /** `ChatCompletion` of the OpenAI client: an encoding failure is returned
      before anything is sent. */
  function SendChecked(t: Transport, p: Payload): (r: Result<Body, Error>)
    ensures !PayloadEncodable(p) ==> r == Failure(MarshalError)
    ensures PayloadEncodable(p) ==> r == CheckStatus(t(Some(p)))
  {
    if PayloadEncodable(p) then CheckStatus(t(Some(p))) else Failure(MarshalError)
  }

  /** The Claude and DeepSeek adapters ignore the encoding error and post
      the empty body `json.Marshal` returned with it. */
  function SendUnchecked(t: Transport, p: Payload): (r: Result<Body, Error>)
    ensures PayloadEncodable(p) ==> r == CheckStatus(t(Some(p)))
    ensures !PayloadEncodable(p) ==> r == CheckStatus(t(None))
  {
    CheckStatus(t(if PayloadEncodable(p) then Some(p) else None))
  }

  // ---------------------------------------------------------------------------
  // Reading a streamed body
  // ---------------------------------------------------------------------------

  /** A line as `ReadBytes('\n')` returns it without error: ending in, and
      containing only one, newline. */
  predicate IsLine(l: string) {
    |l| > 0 && l[|l| - 1] == '\n' && '\n' !in l[..|l| - 1]
  }

  predicate AllLines(ls: seq<string>) {
    forall i :: 0 <= i < |ls| ==> IsLine(ls[i])
  }

  lemma AllLinesAppend(l1: seq<string>, l2: seq<string>)
    requires AllLines(l1) && AllLines(l2)
    ensures AllLines(l1 + l2)
  {
    forall i | 0 <= i < |l1 + l2|
      ensures IsLine((l1 + l2)[i])
    {
      if i >= |l1| {
        assert (l1 + l2)[i] == l2[i - |l1|];
      }
    }
  }

  function Concat(ss: seq<string>): string
    decreases |ss|
  {
    if |ss| == 0 then "" else ss[0] + Concat(ss[1..])
  }

  datatype Split = Split(lines: seq<string>, rest: string)

  /** The split of `[c] + s` from the split `t` of `s`: a newline is a
      line of its own; any other character joins the first line, or the
      tail when there is no line. */
  function ConsSplit(c: char, t: Split): Split {
    if c == '\n' then Split(["\n"] + t.lines, t.rest)
    else if |t.lines| == 0 then Split([], [c] + t.rest)
    else Split([[c] + t.lines[0]] + t.lines[1..], t.rest)
  }

  lemma ConsSplitSplits(c: char, t: Split, s: string)
    requires Concat(t.lines) + t.rest == s && AllLines(t.lines) && '\n' !in t.rest
    ensures var r := ConsSplit(c, t);
      Concat(r.lines) + r.rest == [c] + s && AllLines(r.lines) && '\n' !in r.rest
  {
    var r := ConsSplit(c, t);
    if c == '\n' {
      assert Concat(r.lines) == "\n" + Concat(t.lines) by { assert r.lines[1..] == t.lines; }
    } else if |t.lines| > 0 {
      var first := [c] + t.lines[0];
      assert first[..|first| - 1] == [c] + t.lines[0][..|t.lines[0]| - 1];
      assert r.lines[1..] == t.lines[1..];
      assert Concat(r.lines) == first + Concat(t.lines[1..]);
      assert Concat(t.lines) == t.lines[0] + Concat(t.lines[1..]);
      assert forall i :: 1 <= i < |r.lines| ==> r.lines[i] == t.lines[i];
    }
  }

  /** The successive `ReadBytes('\n')` calls over `s`: the complete lines,
      and the trailing bytes the last call returns together with the end
      of the input, which the adapters drop. */
  function SplitLines(s: string): (r: Split)
    ensures Concat(r.lines) + r.rest == s
    ensures AllLines(r.lines)
    ensures '\n' !in r.rest
    decreases |s|
  {
    if |s| == 0 then Split([], "")
    else
      var t := SplitLines(s[1..]);
      ConsSplitSplits(s[0], t, s[1..]);
      assert [s[0]] + s[1..] == s;
      ConsSplit(s[0], t)
  }

  /** The split is the only one with those properties: a body determines
      its lines. */
  lemma {:induction false} SplitLinesUnique(s: string, lines: seq<string>, rest: string)
    requires Concat(lines) + rest == s
    requires AllLines(lines)
    requires '\n' !in rest
    ensures SplitLines(s) == Split(lines, rest)
    decreases |lines|
  {
    if |lines| == 0 {
      assert rest == s;
      NoNewlineNoLines(s);
    } else {
      var l := lines[0];
      assert Concat(lines) == l + Concat(lines[1..]);
      var s' := Concat(lines[1..]) + rest;
      assert s == l + s';
      SplitLinesUnique(s', lines[1..], rest);
      SplitAfterLine(l, s');
      assert [l] + lines[1..] == lines;
    }
  }

  lemma {:induction false} NoNewlineNoLines(s: string)
    requires '\n' !in s
    ensures SplitLines(s) == Split([], s)
    decreases |s|
  {
    if |s| > 0 {
      NoNewlineNoLines(s[1..]);
      assert [s[0]] + s[1..] == s;
    }
  }

  /** Splitting a line followed by more input yields that line first. */
  lemma {:induction false} SplitAfterLine(l: string, s: string)
    requires IsLine(l)
    ensures SplitLines(l + s) == Split([l] + SplitLines(s).lines, SplitLines(s).rest)
    decreases |l|
  {
    var t := SplitLines((l + s)[1..]);
    assert (l + s)[0] == l[0];
    if |l| == 1 {
      assert (l + s)[1..] == s;
      assert l == "\n";
    } else {
      var l' := l[1..];
      assert l'[..|l'| - 1] == l[1..|l| - 1];
      assert (l + s)[1..] == l' + s;
      SplitAfterLine(l', s);
      assert l[0] != '\n' by {
        assert l[0] == l[..|l| - 1][0];
      }
      assert [l[0]] + l' == l;
    }
  }

  /** One response per complete line, the line's newline kept; a read error
      other than end of file adds exactly one error response. */
  function LineResponses(body: Body): (rs: seq<Response>)
    ensures |rs| == |SplitLines(body.data).lines| + (if body.readErr.Some? then 1 else 0)
    ensures forall i :: 0 <= i < |SplitLines(body.data).lines| ==>
      rs[i] == Response(SplitLines(body.data).lines[i], None)
    ensures body.readErr.Some? ==> rs[|rs| - 1] == Response("", body.readErr)
  {
    Contents(SplitLines(body.data).lines) + ReadFailure(body.readErr)
  }

  function Contents(lines: seq<string>): (rs: seq<Response>)
    ensures |rs| == |lines|
    ensures forall i :: 0 <= i < |lines| ==> rs[i] == Response(lines[i], None)
    decreases |lines|
  {
    if |lines| == 0 then [] else [Response(lines[0], None)] + Contents(lines[1..])
  }

  function ReadFailure(readErr: Option<Error>): seq<Response> {
    if readErr.Some? then [Response("", readErr)] else []
  }

  function ContentOf(rs: seq<Response>): string
    decreases |rs|
  {
    if |rs| == 0 then "" else rs[0].content + ContentOf(rs[1..])
  }

  lemma {:induction false} ContentOfContents(lines: seq<string>)
    ensures ContentOf(Contents(lines)) == Concat(lines)
    decreases |lines|
  {
    if |lines| > 0 {
      ContentOfContents(lines[1..]);
      assert Contents(lines)[1..] == Contents(lines[1..]);
    }
  }

  /** A cleanly ended stream reassembles: the streamed contents followed
      by the dropped partial line are the body. */
  lemma LineResponsesRoundTrip(body: Body)
    requires body.readErr.None?
    ensures ContentOf(LineResponses(body)) + SplitLines(body.data).rest == body.data
  {
    var lines := SplitLines(body.data).lines;
    ContentOfContents(lines);
    assert LineResponses(body) == Contents(lines);
  }


  lemma {:induction false} ConcatAppend(l1: seq<string>, l2: seq<string>)
    ensures Concat(l1 + l2) == Concat(l1) + Concat(l2)
    decreases |l1|
  {
    if |l1| > 0 {
      assert (l1 + l2)[0] == l1[0] && (l1 + l2)[1..] == l1[1..] + l2;
      ConcatAppend(l1[1..], l2);
    } else {
      assert l1 + l2 == l2;
    }
  }

  /** Reading is incremental: a body that ends on a line boundary, followed
      by more data, yields its own lines and then those of the rest. */
  lemma SplitLinesAppend(s1: string, s2: string)
    requires SplitLines(s1).rest == ""
    ensures SplitLines(s1 + s2) == Split(SplitLines(s1).lines + SplitLines(s2).lines, SplitLines(s2).rest)
  {
    var a, b := SplitLines(s1), SplitLines(s2);
    JoinedSplit(s1, s2, a, b);
    SplitLinesUnique(s1 + s2, a.lines + b.lines, b.rest);
  }

  lemma JoinedSplit(s1: string, s2: string, a: Split, b: Split)
    requires Concat(a.lines) + a.rest == s1 && a.rest == "" && AllLines(a.lines)
    requires Concat(b.lines) + b.rest == s2 && AllLines(b.lines)
    ensures Concat(a.lines + b.lines) + b.rest == s1 + s2
    ensures AllLines(a.lines + b.lines)
  {
    ConcatAppend(a.lines, b.lines);
    AllLinesAppend(a.lines, b.lines);
    assert Concat(a.lines) == s1;
  }

  // ---------------------------------------------------------------------------
  // Decoding and delivery
  // ---------------------------------------------------------------------------

  /** How an adapter reads a successful reply. The JSON decoding is a
      parameter: `text` extracts the one text field of the Sonnet
      (`output`), Claude (`completion`) and DeepSeek (`text`) replies;
      `choices` and `chunk` extract the message contents of an OpenAI reply
      and the delta contents of one streamed OpenAI chunk, `None` when the
      chunk does not decode. */
  datatype Decoder =
    | TextDecoder(text: string -> Result<string, Error>)
    | ChatDecoder(choices: string -> Result<seq<string>, Error>, chunk: string -> Option<seq<string>>)

  /** The OpenAI stream marker. */
  const DataPrefix: string := "data: "

  predicate HasDataPrefix(line: string) {
    |line| >= |DataPrefix| && line[..|DataPrefix|] == DataPrefix
  }

  /** Decoding a whole, non-streamed body: one response with the text or
      the decoding error; for OpenAI the first choice only, and nothing at
      all when there is none. */
  function Whole(d: Decoder, data: string): (rs: seq<Response>)
    ensures d.TextDecoder? ==> |rs| == 1
    ensures d.TextDecoder? && d.text(data).Success? ==> rs == [Response(d.text(data).value, None)]
    ensures d.TextDecoder? && d.text(data).Failure? ==> rs == [Response("", Some(d.text(data).error))]
    ensures d.ChatDecoder? ==> |rs| <= 1
    ensures d.ChatDecoder? && d.choices(data).Failure? ==> rs == [Response("", Some(d.choices(data).error))]
    ensures d.ChatDecoder? && d.choices(data).Success? ==>
      (rs == [] <==> d.choices(data).value == []) &&
      (rs != [] ==> rs == [Response(d.choices(data).value[0], None)])
  {
    match d
    case TextDecoder(text) =>
      (match text(data)
       case Success(t) => [Response(t, None)]
       case Failure(e) => [Response("", Some(e))])
    case ChatDecoder(choices, _) =>
      (match choices(data)
       case Failure(e) => [Response("", Some(e))]
       case Success(cs) => if |cs| > 0 then [Response(cs[0], None)] else [])
  }

  /** The responses one complete streamed line yields: for the text
      adapters the line itself, newline included; for OpenAI one response
      per choice of a `data: ` line whose remainder decodes, nothing for any
      other line. */
  function PerLine(d: Decoder, line: string): (rs: seq<Response>)
    ensures d.TextDecoder? ==> rs == [Response(line, None)]
    ensures d.ChatDecoder? && !HasDataPrefix(line) ==> rs == []
    ensures d.ChatDecoder? && HasDataPrefix(line) && d.chunk(line[|DataPrefix|..]).None? ==> rs == []
    ensures d.ChatDecoder? && HasDataPrefix(line) && d.chunk(line[|DataPrefix|..]).Some? ==>
      var cs := d.chunk(line[|DataPrefix|..]).value;
      |rs| == |cs| && forall i :: 0 <= i < |cs| ==> rs[i] == Response(cs[i], None)
    ensures forall i :: 0 <= i < |rs| ==> rs[i].err.None?
  {
    match d
    case TextDecoder(_) => [Response(line, None)]
    case ChatDecoder(_, chunk) =>
      if HasDataPrefix(line) then
        match chunk(line[|DataPrefix|..])
        case Some(cs) => Contents(cs)
        case None => []
      else []
  }

  /** The read loop over the complete lines. */
  function Stream(d: Decoder, lines: seq<string>): (rs: seq<Response>)
    ensures forall i :: 0 <= i < |rs| ==> rs[i].err.None?
    decreases |lines|
  {
    if |lines| == 0 then [] else PerLine(d, lines[0]) + Stream(d, lines[1..])
  }

  lemma {:induction false} StreamAppend(d: Decoder, l1: seq<string>, l2: seq<string>)
    ensures Stream(d, l1 + l2) == Stream(d, l1) + Stream(d, l2)
    decreases |l1|
  {
    if |l1| > 0 {
      assert (l1 + l2)[0] == l1[0] && (l1 + l2)[1..] == l1[1..] + l2;
      StreamAppend(d, l1[1..], l2);
    } else {
      assert l1 + l2 == l2;
    }
  }

  /** A text adapter streams exactly `LineResponses`. */
  lemma {:induction false} StreamText(d: Decoder, lines: seq<string>)
    requires d.TextDecoder?
    ensures Stream(d, lines) == Contents(lines)
    decreases |lines|
  {
    if |lines| > 0 {
      StreamText(d, lines[1..]);
    }
  }

  /** The goroutine of an adapter once the body is obtained or failed: a
      failure is one error response; otherwise the body is decoded whole,
      or line by line followed by the read error if it was not end of file. */
  function Respond(got: Result<Body, Error>, streaming: bool, d: Decoder): (rs: seq<Response>)
    ensures got.Failure? ==> rs == [Response("", Some(got.error))]
    ensures got.Success? && !streaming ==> rs == Whole(d, got.value.data)
    ensures got.Success? && streaming ==>
      rs == Stream(d, SplitLines(got.value.data).lines) + ReadFailure(got.value.readErr)
  {
    match got
    case Failure(e) => [Response("", Some(e))]
    case Success(body) =>
      if !streaming then Whole(d, body.data)
      else Stream(d, SplitLines(body.data).lines) + ReadFailure(body.readErr)
  }

  /** A text adapter's stream is `LineResponses`, so its contents and the
      dropped partial line give back the body when it ends cleanly. */
  lemma TextStreamRoundTrip(d: Decoder, body: Body)
    requires d.TextDecoder?
    ensures Respond(Success(body), true, d) == LineResponses(body)
    ensures body.readErr.None? ==>
      ContentOf(Respond(Success(body), true, d)) + SplitLines(body.data).rest == body.data
  {
    StreamText(d, SplitLines(body.data).lines);
    if body.readErr.None? {
      LineResponsesRoundTrip(body);
    }
  }

  /** Streaming a body that ends on a line boundary and then more data
      delivers the first part's responses, then the second's. */
  lemma StreamIncremental(d: Decoder, s1: string, s2: string, readErr: Option<Error>)
    requires SplitLines(s1).rest == ""
    ensures Respond(Success(Body(s1 + s2, readErr)), true, d)
         == Stream(d, SplitLines(s1).lines) + Respond(Success(Body(s2, readErr)), true, d)
  {
    SplitLinesAppend(s1, s2);
    StreamAppend(d, SplitLines(s1).lines, SplitLines(s2).lines);
  }

  /** A body of one complete line streams what that line yields. */
  lemma OneLineStream(d: Decoder, l: string)
    requires '\n' !in l
    ensures Respond(Success(Body(l + "\n", None)), true, d) == PerLine(d, l + "\n")
  {
    var line := l + "\n";
    assert line[..|line| - 1] == l;
    assert Concat([line]) == line;
    SplitLinesUnique(line, [line], "");
    assert Stream(d, [line]) == PerLine(d, line) + Stream(d, []);
  }

  /** A `data: ` line hands the rest of the line, newline included, to the
      chunk decoder. */
  lemma DataLine(choices: string -> Result<seq<string>, Error>, chunk: string -> Option<seq<string>>, json: string)
    ensures PerLine(ChatDecoder(choices, chunk), DataPrefix + json + "\n")
         == if chunk(json + "\n").Some? then Contents(chunk(json + "\n").value) else []
  {
    var line := DataPrefix + json + "\n";
    assert line[..|DataPrefix|] == DataPrefix && line[|DataPrefix|..] == json + "\n";
  }

  /** An OpenAI stream without a single `data: ` line delivers nothing
      but the read error. */
  lemma {:induction false} OnlyDataLinesCount(d: Decoder, lines: seq<string>)
    requires d.ChatDecoder?
    requires forall i :: 0 <= i < |lines| ==> !HasDataPrefix(lines[i])
    ensures Stream(d, lines) == []
    decreases |lines|
  {
    if |lines| > 0 {
      OnlyDataLinesCount(d, lines[1..]);
    }
  }

  /** What an adapter's `Complete` returns: an error and no channel, or a
      channel that delivers `items` and is then closed. */
  datatype Answer = Refused(err: Error) | Streamed(items: seq<Response>)

  /** The same answer as one attempt's result in the agent. */
  function AsResult(a: Answer): (r: Result<seq<Response>, Error>)
    ensures r.Failure? <==> a.Refused?
    ensures a.Refused? ==> r.error == a.err
    ensures a.Streamed? ==> r.value == a.items
  {
    match a
    case Refused(e) => Failure(e)
    case Streamed(items) => Success(items)
  }

  /** An adapter registered with the agent: the `k`-th provider call gets
      the adapter's answer to the request, with the transport of that call,
      as its result. */
  function AdapterOracle(answer: (Request, nat) -> Answer, latency: nat -> nat): LlmAgent.Oracle {
    (name: string, req: Request, k: nat) => LlmAgent.Attempt(AsResult(answer(req, k)), latency(k))
  }

  /** `tryProvider` retries only on the error `Complete` returns, not on an
      error delivered on the channel: an adapter that returns a channel is
      called once and its channel is the result, while one that refuses
      every call is called the whole budget and fails with its refusal. */
  lemma AdapterAttempts(ms: map<string, LlmAgent.Metrics>, name: string, cfg: ProviderConfig, req: Request,
                        answer: (Request, nat) -> Answer, latency: nat -> nat, k: nat, e: Error)
    ensures var r := LlmAgent.TryProvider(ms, name, cfg, req, AdapterOracle(answer, latency), k);
      && (answer(req, k).Streamed? ==> |r.trace| == 1 && r.result == Success(answer(req, k).items))
      && ((forall j :: answer(req, j) == Refused(e)) ==>
            |r.trace| == LlmAgent.AttemptBudget(cfg) && r.result == Failure(e))
  {
    var o := AdapterOracle(answer, latency);
    var r := LlmAgent.TryProvider(ms, name, cfg, req, o, k);
    var last := k + |r.trace| - 1;
    assert r.trace[|r.trace| - 1] == LlmAgent.Call(name, req);
    assert r.result == AsResult(answer(req, last));
    if answer(req, k).Streamed? {
      LlmAgent.TryProviderStopsAtFirstSuccess(ms, name, cfg, req, o, k);
      assert LlmAgent.CallResult(o, r.trace, k, 0).Success?;
    }
  }

  // ---------------------------------------------------------------------------
  // The Sonnet prompt
  // ---------------------------------------------------------------------------

  /** `concatenateMessages` as a definition: each message's role, `": "`,
      its content and a newline, in order. */
  function Prompt(msgs: seq<Message>): string
    decreases |msgs|
  {
    if |msgs| == 0 then "" else Prompt(msgs[..|msgs| - 1]) + Turn(msgs[|msgs| - 1])
  }

  function Turn(m: Message): string {
    m.role + ": " + m.content + "\n"
  }

  /** `Prompt` distributes over concatenation. */
  lemma {:induction false} PromptAppend(m1: seq<Message>, m2: seq<Message>)
    ensures Prompt(m1 + m2) == Prompt(m1) + Prompt(m2)
    decreases |m2|
  {
    if |m2| == 0 {
      assert m1 + m2 == m1;
    } else {
      var init := m2[..|m2| - 1];
      assert (m1 + m2)[..|m1 + m2| - 1] == m1 + init;
      PromptAppend(m1, init);
    }
  }

  /** The prompt can be read back: when no role or content holds a
      newline, its lines are the messages' turns, one per message, in
      order. */
  lemma {:induction false} PromptLines(msgs: seq<Message>)
    requires forall i :: 0 <= i < |msgs| ==> '\n' !in msgs[i].role + ": " + msgs[i].content
    ensures |SplitLines(Prompt(msgs)).lines| == |msgs|
    ensures SplitLines(Prompt(msgs)).rest == ""
    ensures forall i :: 0 <= i < |msgs| ==> SplitLines(Prompt(msgs)).lines[i] == Turn(msgs[i])
    decreases |msgs|
  {
    if |msgs| > 0 {
      var init, m := msgs[..|msgs| - 1], msgs[|msgs| - 1];
      assert forall i :: 0 <= i < |init| ==> init[i] == msgs[i];
      PromptLines(init);
      var t := Turn(m);
      OneTurn(m);
      SplitLinesAppend(Prompt(init), t);
      var ls := SplitLines(Prompt(msgs)).lines;
      assert ls == SplitLines(Prompt(init)).lines + [t];
      forall i | 0 <= i < |msgs|
        ensures ls[i] == Turn(msgs[i])
      {
        if i < |init| {
          assert ls[i] == SplitLines(Prompt(init)).lines[i];
        }
      }
    }
  }

  /** A single-line turn is one line. */
  lemma OneTurn(m: Message)
    requires '\n' !in m.role + ": " + m.content
    ensures SplitLines(Turn(m)) == Split([Turn(m)], "")
  {
    var t := Turn(m);
    assert t[..|t| - 1] == m.role + ": " + m.content;
    assert Concat([t]) == t;
    SplitLinesUnique(t, [t], "");
  }

  /** `concatenateMessages`: the buffer loop of providers/sonnet.go. */
  method ConcatenateMessages(msgs: seq<Message>) returns (s: string)
    ensures s == Prompt(msgs)
    ensures |msgs| == 0 ==> s == ""
  {
    s := "";
    var i := 0;
    while i < |msgs|
      invariant 0 <= i <= |msgs|
      invariant s == Prompt(msgs[..i])
    {
      assert msgs[..i + 1][..i] == msgs[..i];
      s := s + Turn(msgs[i]);
      i := i + 1;
    }
    assert msgs[..i] == msgs;
  }
}
