/** Provider configuration and the functional options that build it
    (llm.go, `ProviderConfig`, `Option` and the `With*` constructors). */
module Config {
  import opened Wrappers
  import opened LlmTypes

  /** `ProviderConfig`. The logger is represented by the identity of its
      sink; `None` is a nil logger. */
  datatype ProviderConfig = ProviderConfig(
    baseURL: string,
    timeout: int,
    defaultModel: string,
    defaultStream: Option<bool>,
    defaultTemperature: Float,
    defaultMaxTokens: int,
    defaultTopP: Float,
    supportedModels: seq<string>,
    logger: Option<string>,
    retryCount: int)

  /** The Go zero value of `ProviderConfig`. */
  const ZeroConfig := ProviderConfig("", 0, "", None, Zero, 0, Zero, [], None, 0)

  /** One functional option: each writes exactly one field. */
  datatype ConfigOption =
    | WithTimeout(timeout: int)
    | WithBaseURL(url: string)
    | WithDefaultModel(model: string)
    | WithDefaultStream(stream: bool)
    | WithDefaultTemperature(temp: Float)
    | WithDefaultMaxTokens(max: int)
    | WithDefaultTopP(topP: Float)
    | WithLogger(logger: Option<string>)
    | WithRetryCount(count: int)

  /** The fields an option can write, and their values, so that "the last
      option setting a field wins" can be said once for all of them. */
  datatype Field =
    | BaseURLField | TimeoutField | DefaultModelField | DefaultStreamField
    | DefaultTemperatureField | DefaultMaxTokensField | DefaultTopPField
    | LoggerField | RetryCountField

  datatype FieldValue =
    | StrVal(s: string)
    | IntVal(i: int)
    | FlagVal(flag: Option<bool>)
    | FloatVal(f: Float)
    | SinkVal(sink: Option<string>)

  /** Reads one settable field of a configuration. */
  function Get(c: ProviderConfig, f: Field): FieldValue {
    match f
    case BaseURLField => StrVal(c.baseURL)
    case TimeoutField => IntVal(c.timeout)
    case DefaultModelField => StrVal(c.defaultModel)
    case DefaultStreamField => FlagVal(c.defaultStream)
    case DefaultTemperatureField => FloatVal(c.defaultTemperature)
    case DefaultMaxTokensField => IntVal(c.defaultMaxTokens)
    case DefaultTopPField => FloatVal(c.defaultTopP)
    case LoggerField => SinkVal(c.logger)
    case RetryCountField => IntVal(c.retryCount)
  }

  /** The field an option writes. */
  function FieldOf(o: ConfigOption): Field {
    match o
    case WithTimeout(_) => TimeoutField
    case WithBaseURL(_) => BaseURLField
    case WithDefaultModel(_) => DefaultModelField
    case WithDefaultStream(_) => DefaultStreamField
    case WithDefaultTemperature(_) => DefaultTemperatureField
    case WithDefaultMaxTokens(_) => DefaultMaxTokensField
    case WithDefaultTopP(_) => DefaultTopPField
    case WithLogger(_) => LoggerField
    case WithRetryCount(_) => RetryCountField
  }

  /** The value an option writes; `WithDefaultStream(b)` stores a pointer to `b`. */
  function ValueOf(o: ConfigOption): FieldValue {
    match o
    case WithTimeout(t) => IntVal(t)
    case WithBaseURL(u) => StrVal(u)
    case WithDefaultModel(m) => StrVal(m)
    case WithDefaultStream(b) => FlagVal(Some(b))
    case WithDefaultTemperature(t) => FloatVal(t)
    case WithDefaultMaxTokens(n) => IntVal(n)
    case WithDefaultTopP(p) => FloatVal(p)
    case WithLogger(l) => SinkVal(l)
    case WithRetryCount(n) => IntVal(n)
  }

  /** Runs one option on a configuration. */
  function ApplyOption(c: ProviderConfig, o: ConfigOption): (r: ProviderConfig)
    ensures Get(r, FieldOf(o)) == ValueOf(o)
    ensures forall f :: f != FieldOf(o) ==> Get(r, f) == Get(c, f)
    ensures r.supportedModels == c.supportedModels
  {
    match o
    case WithTimeout(t) => c.(timeout := t)
    case WithBaseURL(u) => c.(baseURL := u)
    case WithDefaultModel(m) => c.(defaultModel := m)
    case WithDefaultStream(b) => c.(defaultStream := Some(b))
    case WithDefaultTemperature(t) => c.(defaultTemperature := t)
    case WithDefaultMaxTokens(n) => c.(defaultMaxTokens := n)
    case WithDefaultTopP(p) => c.(defaultTopP := p)
    case WithLogger(l) => c.(logger := l)
    case WithRetryCount(n) => c.(retryCount := n)
  }

  /** Runs the options in order, as the constructors' `for _, opt := range opts` does. */
  function ApplyOptions(c: ProviderConfig, opts: seq<ConfigOption>): ProviderConfig
    decreases |opts|
  {
    if |opts| == 0 then c else ApplyOptions(ApplyOption(c, opts[0]), opts[1..])
  }

  /** The value written to `f` by the LAST option in `opts` that writes it,
      if any does: a later setter overrides every earlier one. */
  function LastSet(opts: seq<ConfigOption>, f: Field): Option<FieldValue>
    decreases |opts|
  {
    if |opts| == 0 then None
    else
      var later := LastSet(opts[1..], f);
      if later.Some? then later
      else if FieldOf(opts[0]) == f then Some(ValueOf(opts[0]))
      else None
  }

  /** `LastSet` names an option of the list that writes `f`, and no later
      option writes `f`. */
  lemma {:induction false} LastSetIsLast(opts: seq<ConfigOption>, f: Field)
    ensures LastSet(opts, f).None? <==> forall i :: 0 <= i < |opts| ==> FieldOf(opts[i]) != f
    ensures LastSet(opts, f).Some? ==>
      exists i :: 0 <= i < |opts| && FieldOf(opts[i]) == f && ValueOf(opts[i]) == LastSet(opts, f).value
        && forall j :: i < j < |opts| ==> FieldOf(opts[j]) != f
    decreases |opts|
  {
    if |opts| > 0 {
      var rest := opts[1..];
      LastSetIsLast(rest, f);
      assert forall i :: 1 <= i < |opts| ==> opts[i] == rest[i - 1];
      if LastSet(rest, f).Some? {
        var i :| 0 <= i < |rest| && FieldOf(rest[i]) == f && ValueOf(rest[i]) == LastSet(rest, f).value
          && forall j :: i < j < |rest| ==> FieldOf(rest[j]) != f;
        assert FieldOf(opts[i + 1]) == f && ValueOf(opts[i + 1]) == LastSet(opts, f).value;
      } else if FieldOf(opts[0]) == f {
        assert forall j :: 0 < j < |opts| ==> FieldOf(opts[j]) != f;
      }
    }
  }

  /** Options are applied in order, so every field ends up holding the value
      of the last option that wrote it, or its starting value if none did. */
  lemma {:induction false} LastOptionWins(c: ProviderConfig, opts: seq<ConfigOption>, f: Field)
    ensures Get(ApplyOptions(c, opts), f) == LastSet(opts, f).GetOr(Get(c, f))
    ensures ApplyOptions(c, opts).supportedModels == c.supportedModels
    decreases |opts|
  {
    if |opts| > 0 {
      LastOptionWins(ApplyOption(c, opts[0]), opts[1..], f);
    }
  }
}
