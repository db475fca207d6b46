/** The provider-neutral vocabulary every decoder emits and every encoder consumes. */
module Llm {

  datatype Option<+T> = None | Some(value: T)

  datatype StopReason = EndTurn | MaxTokens | StopSequence | ToolUse | ContentFilter | Unknown

  datatype Usage = Usage(input: int, output: int, reasoning: int, cacheRead: int, cacheWrite: int)

  const NO_USAGE := Usage(0, 0, 0, 0, 0)

  datatype Block =
    | TextBlock(text: string)
    | ReasoningBlock(thinking: string, signature: string, redacted: string)
    | ToolCallBlock(id: string, name: string, arguments: string)
    | AudioBlock(mediaType: string)
    | SearchBlock(queries: seq<string>)
    | OtherBlock

  datatype ToolDelta = ToolDelta(id: string, name: string, arguments: string)

  datatype StreamError = StreamError(code: string, message: string, retryable: bool)

  /** One canonical stream event. `Option` stands for a pointer field that may be nil. */
  datatype Event =
    | ResponseStart(id: string, model: string)
    | ContentStart(index: int, block: Block)
    | TextDelta(index: int, text: string)
    | AudioDelta(index: int, audio: string, mediaType: string)
    | ReasoningDelta(index: int, thinking: string)
    | ToolCallStart(index: int, block: Block)
    | ToolCallDelta(index: int, delta: Option<ToolDelta>)
    | ContentStop(index: int)
    | UsageReport(usage: Option<Usage>)
    | ResponseStop(reason: StopReason, sequence: string)
    | Failure(error: Option<StreamError>)

  /** The JSON library, of which only totality is used: which texts are objects, which are
      valid, and what re-marshalling a decoded value prints. */
  datatype Json = Json(isObject: string -> bool, isValid: string -> bool, compact: string -> string)

  datatype Role = System | Developer | User | Assistant

  datatype ChatMessage = ChatMessage(role: Role, content: seq<Block>)

  predicate IsPrefix(prefix: string, s: string) {
    |prefix| <= |s| && s[..|prefix|] == prefix
  }

  function OrEmptyObject(arguments: string): string {
    if arguments == "" then "{}" else arguments
  }
}

/** Decimal printing of counters, as used by every generated identifier. */
module Decimal {

  function Digit(n: nat): char
    requires n < 10
  {
    ('0' as int + n) as char
  }

  function Print(n: nat): (s: string)
    ensures |s| > 0
  {
    if n < 10 then [Digit(n)] else Print(n / 10) + [Digit(n % 10)]
  }

  lemma {:induction false} PrintInjective(m: nat, n: nat)
    requires Print(m) == Print(n)
    ensures m == n
  {
    var s, t := Print(m), Print(n);
    assert s[|s| - 1] == t[|t| - 1];
    if m >= 10 && n >= 10 {
      assert Print(m / 10) == s[..|s| - 1] == t[..|t| - 1] == Print(n / 10);
      PrintInjective(m / 10, n / 10);
    }
  }

  /** Identifiers with one prefix are equal only for equal counters. */
  lemma PrefixedInjective(prefix: string, m: nat, n: nat)
    requires prefix + Print(m) == prefix + Print(n)
    ensures m == n
  {
    assert (prefix + Print(m))[|prefix|..] == Print(m);
    assert (prefix + Print(n))[|prefix|..] == Print(n);
    PrintInjective(m, n);
  }
}
