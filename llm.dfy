/**
 * The generation gateway (`call_llm`) and the structured-response extractor
 * (`get_json_response`) shared by the web backend and the command-line script.
 *
 * The language model is an oracle: given every request made so far and the
 * new request, it answers with a text. This covers both a fixed script of
 * canned answers and a pure function of the prompt. `json.loads` and
 * `json.dumps` are parameters of the environment as well.
 */
module Llm {
  import opened Wrappers
  import opened Text
  import opened Json

  /** The fixed persona templates; each stands for one system-prompt text. */
  datatype Persona =
    | MetaController
    | EvidenceScout
    | ClaimAnalyst
    | TruthAnalyst
    | Advocate
    | Skeptic
    | FactChecker
    | ContextAnalyst
    | Judge
  {
    /** The `agent` name under which a persona's output enters a conversation. */
    function Name(): string {
      match this
      case MetaController => "Meta Controller"
      case EvidenceScout => "Evidence Scout"
      case ClaimAnalyst => "Claim Analyst"
      case TruthAnalyst => "Truth Analyst"
      case Advocate => "Advocate"
      case Skeptic => "Skeptic"
      case FactChecker => "Fact-Checker"
      case ContextAnalyst => "Context Analyst"
      case Judge => "Judge"
    }
  }

  const FastModel: string := "gpt-4.1-mini"
  const JudgeModel: string := "gpt-5.2"
  /** `call_llm`'s default temperature. */
  const ChatTemperature: real := 0.3
  /** `get_json_response`'s default temperature. */
  const JsonTemperature: real := 0.2
  /** `get_json_response`'s default `max_retries`. */
  const DefaultRetries: int := 3

  /** One chat-completion request: system prompt (by persona), user prompt, model and temperature. */
  datatype Request = Request(persona: Persona, user: string, model: string, temperature: real)

  /** The model's raw answer to a request, given all requests that came before it. */
  type Oracle = (seq<Request>, Request) -> string

  /** A reading of an answer as a JSON value, or `None` when it is not one. */
  type Decoder = string -> Option<Json>

  /** Everything outside the pipeline's own logic: the model, `json.loads` and `json.dumps`. */
  datatype Env = Env(oracle: Oracle, parse: Decoder, dump: Json -> string)
  {
    /** `call_llm`: the model's answer with surrounding whitespace stripped. */
    function Chat(): Oracle {
      (log: seq<Request>, request: Request) => Strip(oracle(log, request))
    }

    /** How `get_json_response` reads an answer: fences cleaned, then `json.loads`. */
    function Decode(): Decoder {
      (content: string) => parse(CleanFences(content))
    }
  }

  /** `range(n)` is empty for a negative `n`. */
  function Clamp(n: int): nat {
    if n < 0 then 0 else n
  }

  const Fence: string := "```"
  const JsonFence: string := "```json"

  /** `s.startswith("```")`, spelt out character by character. */
  predicate OpensWithFence(s: string) {
    |s| >= 3 && s[0] == '`' && s[1] == '`' && s[2] == '`'
  }

  /** `s.startswith("```json")`, spelt out character by character. */
  predicate OpensWithJsonFence(s: string) {
    |s| >= 7 && OpensWithFence(s) && s[3] == 'j' && s[4] == 's' && s[5] == 'o' && s[6] == 'n'
  }

  /** `s.endswith("```")`, spelt out character by character. */
  predicate ClosesWithFence(s: string) {
    |s| >= 3 && s[|s| - 3] == '`' && s[|s| - 2] == '`' && s[|s| - 1] == '`'
  }

  /** The three tests are Python's `startswith` and `endswith` with the fence strings. */
  lemma FenceTests(s: string)
    ensures OpensWithFence(s) <==> StartsWith(s, Fence)
    ensures OpensWithJsonFence(s) <==> StartsWith(s, JsonFence)
    ensures ClosesWithFence(s) <==> EndsWith(s, Fence)
  {
    if OpensWithJsonFence(s) {
      assert s[..7] == JsonFence;
    }
    if OpensWithFence(s) {
      assert s[..3] == Fence;
    }
    if ClosesWithFence(s) {
      assert s[|s| - 3..] == Fence;
    }
    if StartsWith(s, JsonFence) {
      assert s[3] == s[..7][3];
    }
  }

  /** One opening fence cut off: "```json" if present, otherwise "```" if present. */
  function DropOpening(content: string): string {
    if OpensWithJsonFence(content) then content[7..]
    else if OpensWithFence(content) then content[3..]
    else content
  }

  /** One closing "```" cut off, if present. */
  function DropClosing(content: string): string {
    if ClosesWithFence(content) then content[..|content| - 3] else content
  }

  /**
   * The markdown-fence cleaning of `get_json_response`: one opening "```json"
   * or, failing that, one "```" is cut off, then one closing "```", and the
   * rest is stripped.
   */
  function CleanFences(content: string): (r: string)
    ensures Trimmed(r)
    ensures !OpensWithFence(content) && !ClosesWithFence(content) ==> r == Strip(content)
  {
    Strip(DropClosing(DropOpening(content)))
  }

  /** A body wrapped in "```json" ... "```" comes back as the stripped body. */
  lemma CleanUnwrapsJsonFence(body: string)
    ensures CleanFences(JsonFence + body + Fence) == Strip(body)
  {
    var s := JsonFence + body + Fence;
    assert OpensWithJsonFence(s);
    var t := body + Fence;
    assert s[7..] == t;
    assert DropOpening(s) == t;
    assert ClosesWithFence(t);
    assert t[..|t| - 3] == body;
    assert DropClosing(t) == body;
  }

  /** A body wrapped in "```" ... "```" comes back as the stripped body, unless it starts with "json". */
  lemma CleanUnwrapsPlainFence(body: string)
    requires !StartsWith(body, "json")
    ensures CleanFences(Fence + body + Fence) == Strip(body)
  {
    var s := Fence + body + Fence;
    if |body| >= 4 {
      assert body[..4] != "json";
      assert s[3..7] == body[..4];
    } else {
      assert s[3 + |body|] == '`';
    }
    assert !OpensWithJsonFence(s);
    assert OpensWithFence(s);
    var t := body + Fence;
    assert s[3..] == t;
    assert DropOpening(s) == t;
    assert ClosesWithFence(t);
    assert t[..|t| - 3] == body;
    assert DropClosing(t) == body;
  }

  /** "```json" takes precedence over "```": the word "json" is not left behind. */
  lemma CleanPrefersJsonFence(body: string)
    requires Trimmed(body) && !ClosesWithFence(body)
    ensures CleanFences(JsonFence + body) == body
  {
    var u := JsonFence + body;
    assert OpensWithJsonFence(u);
    assert u[7..] == body;
    assert DropOpening(u) == body;
    assert DropClosing(body) == body;
    StripTrimmed(body);
  }

  /** Only one opening fence is removed: of a doubled fence the inner one stays. */
  lemma CleanRemovesOneOpening(body: string)
    requires Trimmed(body) && |body| >= 1 && body[|body| - 1] != '`'
    ensures CleanFences(Fence + Fence + body) == Fence + body
  {
    var v := Fence + Fence + body;
    var w := Fence + body;
    assert v[6] == body[0];
    assert v[3..] == w;
    assert DropOpening(v) == w;
    assert w[|w| - 1] == body[|body| - 1];
    assert DropClosing(w) == w;
    assert Trimmed(w);
    StripTrimmed(w);
  }

  /** How a failed attempt changes the user prompt for the next one. */
  datatype Nudge =
      /** The original prompt plus a fixed note (the web backend). */
    | Fixed(note: string)
      /** The original prompt, a note, the first `limit` characters of the bad answer and "..." (the script). */
    | EchoPrevious(note: string, limit: nat)

  /** The prompt of the next attempt: always built from the ORIGINAL user prompt. */
  function Corrected(nudge: Nudge, user: string, content: string): string {
    match nudge
    case Fixed(note) => user + note
    case EchoPrevious(note, limit) => user + note + Take(content, limit) + "..."
  }

  /** The fixed arguments of one `get_json_response` call. */
  datatype JsonCall = JsonCall(persona: Persona, user: string, model: string, temperature: real, nudge: Nudge)

  function Ask(c: JsonCall, prompt: string): Request {
    Request(c.persona, prompt, c.model, c.temperature)
  }

  /** The answer to the `i`-th request of `log`. */
  function ReplyAt(oracle: Oracle, log: seq<Request>, i: nat): string
    requires i < |log|
  {
    oracle(log[..i], log[i])
  }

  /** What the decoder makes of the answer to the `i`-th request of `log`. */
  function ParsedReply(oracle: Oracle, decode: Decoder, log: seq<Request>, i: nat): Option<Json>
    requires i < |log|
  {
    decode(ReplyAt(oracle, log, i))
  }

  /** The request after the `i`-th is the retry that its answer calls for. */
  predicate RetriedAfter(oracle: Oracle, c: JsonCall, log: seq<Request>, i: nat)
    requires i + 1 < |log|
  {
    log[i + 1] == Ask(c, Corrected(c.nudge, c.user, ReplyAt(oracle, log, i)))
  }

  /** The outcome of an extraction and the request log after it. */
  datatype Extraction = Extraction(result: Option<Json>, log: seq<Request>)

  /**
   * The attempt loop of `get_json_response`, with `left` attempts still
   * allowed and `prompt` the next user prompt. It is stated for any decoder;
   * `get_json_response` uses `Env.Decode` (fence cleaning, then `json.loads`).
   */
  function Attempts(oracle: Oracle, decode: Decoder, c: JsonCall, prompt: string, left: nat, log: seq<Request>): Extraction
    decreases left
  {
    if left == 0 then Extraction(None, log)
    else
      var request := Ask(c, prompt);
      var content := oracle(log, request);
      match decode(content)
      case Some(j) => Extraction(Some(j), log + [request])
      case None => Attempts(oracle, decode, c, Corrected(c.nudge, c.user, content), left - 1, log + [request])
  }

  /**
   * The attempt loop only appends to the request log, at most `left`
   * requests, and at least one when it is allowed any; the first uses
   * `prompt`; it gives up only after all `left` attempts.
   */
  lemma {:induction false} AttemptsAppend(oracle: Oracle, decode: Decoder, c: JsonCall, prompt: string, left: nat, log: seq<Request>)
    ensures var e := Attempts(oracle, decode, c, prompt, left, log);
      && |log| <= |e.log| <= |log| + left
      && e.log[..|log|] == log
      && (left > 0 ==> |e.log| > |log| && e.log[|log|] == Ask(c, prompt))
      && (e.result.None? ==> |e.log| == |log| + left)
    decreases left
  {
    if left > 0 {
      var request := Ask(c, prompt);
      var content := oracle(log, request);
      var log1 := log + [request];
      if decode(content).None? {
        var next := Corrected(c.nudge, c.user, content);
        AttemptsAppend(oracle, decode, c, next, left - 1, log1);
        var e := Attempts(oracle, decode, c, next, left - 1, log1);
        assert e.log[..|log|] == e.log[..|log1|][..|log|];
      }
    }
  }

  /** Every retry is built from the ORIGINAL user prompt and the answer just rejected. */
  lemma {:induction false} AttemptsRetryFromOriginal(oracle: Oracle, decode: Decoder, c: JsonCall, prompt: string, left: nat, log: seq<Request>)
    ensures forall i | |log| <= i < |Attempts(oracle, decode, c, prompt, left, log).log| - 1 ::
      RetriedAfter(oracle, c, Attempts(oracle, decode, c, prompt, left, log).log, i)
    decreases left
  {
    if left > 0 {
      var request := Ask(c, prompt);
      var content := oracle(log, request);
      var log1 := log + [request];
      if decode(content).None? {
        var next := Corrected(c.nudge, c.user, content);
        AttemptsAppend(oracle, decode, c, next, left - 1, log1);
        AttemptsRetryFromOriginal(oracle, decode, c, next, left - 1, log1);
        var e := Attempts(oracle, decode, c, next, left - 1, log1);
        if |e.log| > |log1| {
          assert e.log[..|log|] == log by {
            assert e.log[..|log|] == e.log[..|log1|][..|log|];
          }
          assert e.log[|log|] == request;
          assert RetriedAfter(oracle, c, e.log, |log|);
        }
      }
    }
  }

  /** Every answer but the last one failed to decode. */
  lemma {:induction false} AttemptsFailBeforeLast(oracle: Oracle, decode: Decoder, c: JsonCall, prompt: string, left: nat, log: seq<Request>)
    ensures var e := Attempts(oracle, decode, c, prompt, left, log);
      forall i | |log| <= i < |e.log| - 1 :: ParsedReply(oracle, decode, e.log, i).None?
    decreases left
  {
    if left > 0 {
      var request := Ask(c, prompt);
      var content := oracle(log, request);
      var log1 := log + [request];
      if decode(content).None? {
        var next := Corrected(c.nudge, c.user, content);
        AttemptsAppend(oracle, decode, c, next, left - 1, log1);
        AttemptsFailBeforeLast(oracle, decode, c, next, left - 1, log1);
        var e := Attempts(oracle, decode, c, next, left - 1, log1);
        assert e.log[..|log|] == log by {
          assert e.log[..|log|] == e.log[..|log1|][..|log|];
        }
        assert e.log[|log|] == request;
        assert ParsedReply(oracle, decode, e.log, |log|).None?;
      }
    }
  }

  /**
   * The result is the decoding of the last answer when some answer decoded,
   * and `None` only when every answer failed to decode.
   */
  lemma {:induction false} AttemptsResult(oracle: Oracle, decode: Decoder, c: JsonCall, prompt: string, left: nat, log: seq<Request>)
    ensures var e := Attempts(oracle, decode, c, prompt, left, log);
      && (e.result.Some? ==> |e.log| > |log| && e.result == ParsedReply(oracle, decode, e.log, |e.log| - 1))
      && (e.result.None? ==> forall i | |log| <= i < |e.log| :: ParsedReply(oracle, decode, e.log, i).None?)
    decreases left
  {
    if left > 0 {
      var request := Ask(c, prompt);
      var content := oracle(log, request);
      var log1 := log + [request];
      assert log1[..|log|] == log;
      if decode(content).None? {
        var next := Corrected(c.nudge, c.user, content);
        AttemptsAppend(oracle, decode, c, next, left - 1, log1);
        AttemptsResult(oracle, decode, c, next, left - 1, log1);
        var e := Attempts(oracle, decode, c, next, left - 1, log1);
        assert e.log[..|log|] == log by {
          assert e.log[..|log|] == e.log[..|log1|][..|log|];
        }
        assert e.log[|log|] == request;
        assert ParsedReply(oracle, decode, e.log, |log|).None?;
      } else {
        assert ReplyAt(oracle, log1, |log|) == content;
      }
    }
  }

  /** With a fixed note, every retry asks the same thing: the original prompt and the note, once. */
  lemma AttemptsFixedRetries(oracle: Oracle, decode: Decoder, c: JsonCall, left: nat, log: seq<Request>)
    requires c.nudge.Fixed?
    ensures var e := Attempts(oracle, decode, c, c.user, left, log);
      forall i | |log| < i < |e.log| :: e.log[i] == Ask(c, c.user + c.nudge.note)
  {
    AttemptsRetryFromOriginal(oracle, decode, c, c.user, left, log);
    var e := Attempts(oracle, decode, c, c.user, left, log);
    assert forall i | |log| <= i < |e.log| - 1 :: RetriedAfter(oracle, c, e.log, i);
    forall i | |log| < i < |e.log|
      ensures e.log[i] == Ask(c, c.user + c.nudge.note)
    {
      var j := i - 1;
      assert |log| <= j < |e.log| - 1;
      assert RetriedAfter(oracle, c, e.log, j);
    }
  }

  /**
   * With an echoed answer, every retry is the original prompt, the note and
   * at most `limit` characters of the rejected answer: retry prompts never grow
   * with the number of attempts.
   */
  lemma AttemptsEchoBounded(oracle: Oracle, decode: Decoder, c: JsonCall, left: nat, log: seq<Request>)
    requires c.nudge.EchoPrevious?
    ensures var e := Attempts(oracle, decode, c, c.user, left, log);
      forall i | |log| < i < |e.log| ::
        && StartsWith(e.log[i].user, c.user + c.nudge.note)
        && |e.log[i].user| <= |c.user| + |c.nudge.note| + c.nudge.limit + 3
  {
    AttemptsRetryFromOriginal(oracle, decode, c, c.user, left, log);
    var e := Attempts(oracle, decode, c, c.user, left, log);
    assert forall i | |log| <= i < |e.log| - 1 :: RetriedAfter(oracle, c, e.log, i);
    forall i | |log| < i < |e.log|
      ensures StartsWith(e.log[i].user, c.user + c.nudge.note)
      ensures |e.log[i].user| <= |c.user| + |c.nudge.note| + c.nudge.limit + 3
    {
      assert RetriedAfter(oracle, c, e.log, i - 1);
      var u := e.log[i].user;
      var head := c.user + c.nudge.note;
      assert u == head + Take(ReplyAt(oracle, e.log, i - 1), c.nudge.limit) + "...";
      assert u[..|head|] == head;
    }
  }

  /** Concatenation is associative, stated once so that callers need not prove it pointwise. */
  lemma AppendAssociates<T>(a: seq<T>, b: seq<T>, c: seq<T>)
    ensures a + (b + c) == (a + b) + c
  {}

  /** A slice within a prefix reads the same in any extension of it. */
  lemma SliceExtended<T>(s: seq<T>, s': seq<T>, i: nat, j: nat)
    requires i <= j <= |s| <= |s'| && s'[..|s|] == s
    ensures s'[i..j] == s[i..j]
  {
    forall k | 0 <= k < j - i
      ensures s'[i..j][k] == s[i..j][k]
    {
      assert s'[i + k] == s'[..|s|][i + k];
    }
  }

  /** An answer recorded in a log stays the same when more requests follow. */
  lemma ReplyAtExtended(oracle: Oracle, log: seq<Request>, log': seq<Request>, i: nat)
    requires i < |log| <= |log'| && log'[..|log|] == log
    ensures ReplyAt(oracle, log', i) == ReplyAt(oracle, log, i)
  {
    assert log'[..i] == log'[..|log|][..i];
  }

  /** The judges' default decision is already lower-case, so `.lower()` keeps it. */
  lemma UncertainIsLowercase()
    ensures Lower("uncertain") == "uncertain"
  {}

  /** One turn of the attempt loop. */
  lemma AttemptsStep(oracle: Oracle, decode: Decoder, c: JsonCall, prompt: string, left: nat, log: seq<Request>)
    requires left > 0
    ensures var content := oracle(log, Ask(c, prompt));
      Attempts(oracle, decode, c, prompt, left, log) ==
        match decode(content)
        case Some(j) => Extraction(Some(j), log + [Ask(c, prompt)])
        case None => Attempts(oracle, decode, c, Corrected(c.nudge, c.user, content), left - 1, log + [Ask(c, prompt)])
  {}

  /**
   * `get_json_response`: at most `max_retries` calls (none when it is zero or
   * negative), returning the first answer that parses after fence cleaning,
   * or `None`.
   */
  method GetJsonResponse(env: Env, c: JsonCall, maxRetries: int, log: seq<Request>)
    returns (r: Option<Json>, log': seq<Request>)
    ensures Extraction(r, log') == Attempts(env.Chat(), env.Decode(), c, c.user, Clamp(maxRetries), log)
  {
    var current := c.user;
    log' := log;
    var attempt := 0;
    ghost var left := Clamp(maxRetries);
    while attempt < maxRetries
      invariant left == Clamp(maxRetries) - attempt
      invariant Attempts(env.Chat(), env.Decode(), c, current, left, log') == Attempts(env.Chat(), env.Decode(), c, c.user, Clamp(maxRetries), log)
    {
      var request := Ask(c, current);
      var content := env.Chat()(log', request);
      AttemptsStep(env.Chat(), env.Decode(), c, current, left, log');
      log' := log' + [request];
      var cleaned := CleanFences(content);
      var parsed := env.parse(cleaned);
      assert parsed == env.Decode()(content);
      if parsed.Some? {
        return parsed, log';
      }
      current := Corrected(c.nudge, c.user, content);
      attempt := attempt + 1;
      left := left - 1;
    }
    r := None;
  }
}
