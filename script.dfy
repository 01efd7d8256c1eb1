/**
 * The command-line pipeline `verify_claim(claim)`: a meta-controller assigns
 * trust weights (the Advocate's and the Skeptic's made equal), an Evidence
 * Scout gathers evidence that then stands in for the source truth, two
 * analysts look at the claim and at the evidence separately, four debate
 * rounds follow, then a Fact-Checker, a Context Analyst and the judge.
 */
module Script {
  import opened Wrappers
  import opened Text
  import opened Json
  import opened Llm
  import opened Debate

  /** Why `verify_claim` raises instead of returning its report. */
  datatype ScriptError =
      /** A truthy meta-controller answer that is not an object cannot be indexed by "weights". */
    | MetaNotObject
      /** The "weights" value has no `.get`. */
    | WeightsNotObject
      /** The advocate or skeptic weight cannot be added and halved. */
    | WeightsNotNumbers
      /** A truthy judge answer that is not an object has no `.get`. */
    | JudgeNotObject
      /** The judge's decision is not a string and has no `.lower()`. */
    | DecisionNotText

  // ---------------------------------------------------------------
  // Stage 0: the meta-controller and the trust weights
  // ---------------------------------------------------------------

  /** The meta-controller's user prompt, with the indentation of its triple-quoted template. */
  function MetaUserMessage(claim: string): string {
    "\n        Claim:\n        " + claim
    + "\n\n        Return JSON of the form:\n        {\n        \"claim_type\": \"...\",\n        \"weights\": {\n"
    + "            \"evidence_scout\": 0.xx,\n            \"fact_checker\": 0.xx,\n"
    + "            \"advocate\": 0.xx,\n            \"skeptic\": 0.xx,\n"
    + "            \"context_analyst\": 0.xx\n        },\n        \"rationale\": \"...\"\n        }\n    "
  }

  /** The note the script's `get_json_response` puts between the original prompt and the echoed answer. */
  const RetryNote: string :=
    "\n\nERROR: The previous response was not valid JSON. Please return ONLY a valid JSON object. "
    + "Do not wrap in markdown blocks.\nPrevious invalid output:\n"

  /** How many characters of a rejected answer a retry echoes. */
  const EchoLimit: nat := 200

  function MetaCall(claim: string): JsonCall {
    JsonCall(MetaController, MetaUserMessage(claim), FastModel, JsonTemperature, EchoPrevious(RetryNote, EchoLimit))
  }

  /** Every role at 0.2. */
  const FallbackWeights: map<string, Json> := map[
    "evidence_scout" := JNum(0.2),
    "fact_checker" := JNum(0.2),
    "advocate" := JNum(0.2),
    "skeptic" := JNum(0.2),
    "context_analyst" := JNum(0.2)]

  /** The meta answer used when the meta-controller gave nothing usable. */
  const FallbackMeta: map<string, Json> := map[
    "claim_type" := JStr("General"),
    "weights" := JObj(FallbackWeights),
    "rationale" := JStr("Fallback due to JSON error.")]

  /** The meta answer as the script reads it: the fallback when falsy, otherwise it must be an object. */
  function MetaFields(meta: Option<Json>): (r: Result<map<string, Json>, ScriptError>)
    ensures (meta.None? || !Truthy(meta.value)) ==> r == Success(FallbackMeta)
    ensures meta.Some? && Truthy(meta.value) && meta.value.JObj? ==> r == Success(meta.value.fields)
    ensures r.Failure? <==> meta.Some? && Truthy(meta.value) && !meta.value.JObj?
    ensures r.Failure? ==> r.error == MetaNotObject
  {
    if meta.None? || !Truthy(meta.value) then Success(FallbackMeta)
    else if meta.value.JObj? then Success(meta.value.fields)
    else Failure(MetaNotObject)
  }

  /**
   * The trust weights after the safety step: when the meta answer has
   * "weights", the advocate and skeptic weights (0.2 when absent) are both
   * replaced by their average; otherwise every role gets 0.2.
   */
  function EqualisedWeights(meta: Option<Json>): (r: Result<map<string, Json>, ScriptError>)
    ensures r.Success? ==>
      && "advocate" in r.value && "skeptic" in r.value
      && r.value["advocate"] == r.value["skeptic"]
      && r.value["advocate"].JNum?
    ensures meta.Some? && Truthy(meta.value) && !meta.value.JObj? ==> r == Failure(MetaNotObject)
    ensures meta.Some? && Truthy(meta.value) && meta.value.JObj? && "weights" !in meta.value.fields ==>
      r == Success(FallbackWeights)
    ensures meta.Some? && Truthy(meta.value) && meta.value.JObj? && "weights" in meta.value.fields ==>
      var w := meta.value.fields["weights"];
      && (r == Failure(WeightsNotObject) <==> !w.JObj?)
      && (r == Failure(WeightsNotNumbers) <==>
            w.JObj? && !(IsNumber(Get(w.fields, "advocate", JNum(0.2))) && IsNumber(Get(w.fields, "skeptic", JNum(0.2)))))
      && (w.JObj? && IsNumber(Get(w.fields, "advocate", JNum(0.2))) && IsNumber(Get(w.fields, "skeptic", JNum(0.2))) ==>
            && r.Success?
            && r.value["advocate"]
               == JNum((NumberOf(Get(w.fields, "advocate", JNum(0.2))) + NumberOf(Get(w.fields, "skeptic", JNum(0.2)))) / 2.0))
  {
    match MetaFields(meta)
    case Failure(e) => Failure(e)
    case Success(fields) =>
      if "weights" !in fields then Success(FallbackWeights)
      else
        match fields["weights"]
        case JObj(w) =>
          var advocate := Get(w, "advocate", JNum(0.2));
          var skeptic := Get(w, "skeptic", JNum(0.2));
          if IsNumber(advocate) && IsNumber(skeptic) then
            var average := JNum((NumberOf(advocate) + NumberOf(skeptic)) / 2.0);
            Success(w["advocate" := average]["skeptic" := average])
          else Failure(WeightsNotNumbers)
        case _ => Failure(WeightsNotObject)
  }

  /**
   * Equalisation moves weight only between the Advocate and the Skeptic: it
   * keeps their total and every other role's weight, and adds no other role.
   */
  lemma EqualisationKeepsTotal(fields: map<string, Json>, w: map<string, Json>)
    requires "weights" in fields && fields["weights"] == JObj(w)
    requires EqualisedWeights(Some(JObj(fields))).Success?
    ensures var r := EqualisedWeights(Some(JObj(fields))).value;
      && IsNumber(Get(w, "advocate", JNum(0.2))) && IsNumber(Get(w, "skeptic", JNum(0.2)))
      && NumberOf(r["advocate"]) + NumberOf(r["skeptic"])
         == NumberOf(Get(w, "advocate", JNum(0.2))) + NumberOf(Get(w, "skeptic", JNum(0.2)))
      && r.Keys == w.Keys + {"advocate", "skeptic"}
      && forall k | k in w && k != "advocate" && k != "skeptic" :: r[k] == w[k]
  {
    assert Truthy(JObj(fields));
  }

  /** The fallback weights are already equal: a failed meta-controller leaves every role at 0.2. */
  lemma FallbackWeightsStay(meta: Option<Json>)
    requires meta.None? || !Truthy(meta.value)
    ensures EqualisedWeights(meta) == Success(FallbackWeights)
  {
    assert FallbackMeta["weights"] == JObj(FallbackWeights);
    assert Get(FallbackWeights, "advocate", JNum(0.2)) == JNum(0.2);
    assert Get(FallbackWeights, "skeptic", JNum(0.2)) == JNum(0.2);
    assert FallbackWeights["advocate" := JNum(0.2)]["skeptic" := JNum(0.2)] == FallbackWeights;
  }

  /** Equalising weights that are already equalised changes nothing. */
  lemma EqualisationIdempotent(meta: Option<Json>)
    requires EqualisedWeights(meta).Success?
    ensures var w := EqualisedWeights(meta).value;
      EqualisedWeights(Some(JObj(map["weights" := JObj(w)]))) == Success(w)
  {
    var w := EqualisedWeights(meta).value;
    var again := Some(JObj(map["weights" := JObj(w)]));
    assert "weights" in again.value.fields;
    assert MetaFields(again) == Success(map["weights" := JObj(w)]);
    var a := w["advocate"];
    assert Get(w, "advocate", JNum(0.2)) == a && Get(w, "skeptic", JNum(0.2)) == a;
    assert (a.n + a.n) / 2.0 == a.n;
    assert w["advocate" := a]["skeptic" := a] == w;
  }

  // ---------------------------------------------------------------
  // Stages 1 to 5: the prompts
  // ---------------------------------------------------------------

  /** Stage 1: the Evidence Scout sees the claim only. */
  function ScoutRequest(claim: string): Request {
    Request(EvidenceScout, "Claim: " + claim + "\nGather evidence to verify this.", FastModel, ChatTemperature)
  }

  /** Pre-analysis: the Claim Analyst sees the claim and nothing else. */
  function ClaimAnalysisRequest(claim: string): Request {
    Request(ClaimAnalyst, "Claim to Analyze:\n" + claim, FastModel, ChatTemperature)
  }

  /** Pre-analysis: the Truth Analyst sees the evidence and nothing else. */
  function TruthAnalysisRequest(evidence: string): Request {
    Request(TruthAnalyst, "Source Truth to Analyze:\n" + evidence, FastModel, ChatTemperature)
  }

  /** The shared context of the debaters: claim, evidence and both analyses, ending with "Debate History:". */
  function CommonContext(claim: string, evidence: string, claimAnalysis: string, truthAnalysis: string): string {
    "\n    Claim: " + claim + "\n    Evidence/Truth: " + evidence
    + "\n    \n    PRE-ANALYSIS (Use this to guide your arguments):\n    [Claim Analysis]:\n    " + claimAnalysis
    + "\n    \n    [Truth Analysis]:\n    " + truthAnalysis
    + "\n    \n    Debate History:\n    "
  }

  /** The number of debate rounds, fixed in the script. */
  const DebateRounds: nat := 4

  /** Stage 3: the Fact-Checker sees the claim and the evidence, not the debate. */
  function FactCheckRequest(claim: string, evidence: string): Request {
    Request(FactChecker, "Claim:\n" + claim + "\n\nEvidence:\n" + evidence, FastModel, ChatTemperature)
  }

  /** Stage 4: the Context Analyst sees the claim only. */
  function ContextRequest(claim: string): Request {
    Request(ContextAnalyst, "Claim:\n" + claim, FastModel, ChatTemperature)
  }

  /** One conversation entry of the script: the Judge's message is whatever the judge gave as summary. */
  datatype Entry = Entry(agent: string, message: Json)

  function EntryJson(e: Entry): Json {
    JObj(map["agent" := JStr(e.agent), "message" := e.message])
  }

  function ConversationJson(conversation: seq<Entry>): Json {
    JArr(seq(|conversation|, i requires 0 <= i < |conversation| => EntryJson(conversation[i])))
  }

  /** Debate turns as conversation entries. */
  function Entries(turns: seq<AgentMessage>): (r: seq<Entry>)
    ensures |r| == |turns|
    ensures forall i | 0 <= i < |turns| :: r[i] == Entry(turns[i].agent, JStr(turns[i].message))
  {
    seq(|turns|, i requires 0 <= i < |turns| => Entry(turns[i].agent, JStr(turns[i].message)))
  }

  /** Stage 5: the judge's user prompt, with the weights and the conversation so far dumped as JSON. */
  function JudgePrompt(dump: Json -> string, claim: string, weights: map<string, Json>,
                       claimAnalysis: string, truthAnalysis: string, conversation: seq<Entry>): string
  {
    "\n        Claim:\n        " + claim
    + "\n\n        Trust Weights:\n        " + dump(JObj(weights))
    + "\n\n        Pre-Analysis:\n        [Claim Analysis]:\n        " + claimAnalysis
    + "\n        [Truth Analysis]:\n        " + truthAnalysis
    + "\n\n        Full Conversation:\n        " + dump(ConversationJson(conversation))
    + "\n\n        Return JSON with \"decision\", \"confidence\", \"summary\", \"disclaimers\".\n    "
  }

  // ---------------------------------------------------------------
  // The judge's answer and the report
  // ---------------------------------------------------------------

  const FallbackSummary: string := "The judge failed to produce a valid verdict."

  /** The verdict used when the judge gave nothing usable: note the confidence of 0.0. */
  const JudgeFallback: map<string, Json> := map[
    "decision" := JStr("uncertain"),
    "confidence" := JNum(0.0),
    "summary" := JStr(FallbackSummary),
    "disclaimers" := JArr([JStr("System Error")])]

  /** The dictionary `verify_claim` returns. The evidence stands in for the truth. */
  datatype ClaimReport = ClaimReport(
    claim: string,
    truth: string,
    claimAnalysis: string,
    truthAnalysis: string,
    conversation: seq<Entry>,
    summary: Json,
    decision: string,
    confidence: Json,
    disclaimers: Json)

  /** What the script has learnt before the debate: evidence and the two analyses. */
  datatype Findings = Findings(evidence: string, claimAnalysis: string, truthAnalysis: string)

  /**
   * The end of `verify_claim`: the judge's answer (or the fallback) gives
   * the Judge's entry and the report; the decision is only lower-cased.
   */
  function Report(claim: string, findings: Findings, conversation: seq<Entry>, judged: Option<Json>): (r: Result<ClaimReport, ScriptError>)
    ensures r.Success? ==>
      && r.value.claim == claim
      && r.value.truth == findings.evidence
      && r.value.claimAnalysis == findings.claimAnalysis
      && r.value.truthAnalysis == findings.truthAnalysis
      && r.value.conversation == conversation + [Entry("Judge", r.value.summary)]
    ensures r.Failure? ==> r.error == JudgeNotObject || r.error == DecisionNotText
  {
    var fields :=
      if judged.None? || !Truthy(judged.value) then Success(JudgeFallback)
      else if judged.value.JObj? then Success(judged.value.fields)
      else Failure(JudgeNotObject);
    match fields
    case Failure(e) => Failure(e)
    case Success(f) =>
      var summary := Get(f, "summary", JStr(""));
      match Get(f, "decision", JStr("uncertain"))
      case JStr(decision) =>
        Success(ClaimReport(
          claim, findings.evidence, findings.claimAnalysis, findings.truthAnalysis,
          conversation + [Entry("Judge", summary)], summary, Lower(decision),
          Get(f, "confidence", JNum(0.5)), Get(f, "disclaimers", JArr([]))))
      case _ => Failure(DecisionNotText)
  }

  /** The fallback report: the judge gave nothing usable. */
  function FallbackReport(claim: string, findings: Findings, conversation: seq<Entry>): ClaimReport {
    ClaimReport(
      claim, findings.evidence, findings.claimAnalysis, findings.truthAnalysis,
      conversation + [Entry("Judge", JStr(FallbackSummary))], JStr(FallbackSummary),
      "uncertain", JNum(0.0), JArr([JStr("System Error")]))
  }

  /** A falsy judge answer yields the fallback report, with confidence 0.0. */
  lemma ReportFallback(claim: string, findings: Findings, conversation: seq<Entry>, judged: Option<Json>)
    requires judged.None? || !Truthy(judged.value)
    ensures Report(claim, findings, conversation, judged) == Success(FallbackReport(claim, findings, conversation))
  {
    assert Get(JudgeFallback, "summary", JStr("")) == JStr(FallbackSummary);
    assert Get(JudgeFallback, "decision", JStr("uncertain")) == JStr("uncertain");
    assert Get(JudgeFallback, "confidence", JNum(0.5)) == JNum(0.0);
    assert Get(JudgeFallback, "disclaimers", JArr([])) == JArr([JStr("System Error")]);
    UncertainIsLowercase();
  }

  /**
   * A truthy judge answer that is not an object raises. An object is read as
   * it stands: a report exactly when its decision (default "uncertain") is a
   * string, lower-cased with no capital left and unchanged when it had none;
   * the summary (default ""), whatever JSON it is, becomes the Judge's entry;
   * the confidence (default 0.5) and the disclaimers (default []) are the
   * answer's own.
   */
  lemma ReportReadsAnswer(claim: string, findings: Findings, conversation: seq<Entry>, judged: Option<Json>)
    requires judged.Some? && Truthy(judged.value)
    ensures var r := Report(claim, findings, conversation, judged);
      && (!judged.value.JObj? ==> r == Failure(JudgeNotObject))
      && (judged.value.JObj? ==>
        var summary := Get(judged.value.fields, "summary", JStr(""));
        var decision := Get(judged.value.fields, "decision", JStr("uncertain"));
        && (r.Success? <==> decision.JStr?)
        && (r.Failure? ==> r.error == DecisionNotText)
        && (r.Success? ==>
          && r.value.summary == summary
          && r.value.conversation == conversation + [Entry("Judge", summary)]
          && r.value.decision == Lower(decision.s)
          && (forall i | 0 <= i < |r.value.decision| :: !IsUpper(r.value.decision[i]))
          && ((forall i | 0 <= i < |decision.s| :: !IsUpper(decision.s[i])) ==> r.value.decision == decision.s)
          && r.value.confidence == Get(judged.value.fields, "confidence", JNum(0.5))
          && r.value.disclaimers == Get(judged.value.fields, "disclaimers", JArr([]))))
  {
    if judged.value.JObj? {
      var decision := Get(judged.value.fields, "decision", JStr("uncertain"));
      if decision.JStr? {
        LowerHasNoUpper(decision.s);
        if forall i | 0 <= i < |decision.s| :: !IsUpper(decision.s[i]) {
          LowerFixesLowercase(decision.s);
        }
      }
    }
  }

  // ---------------------------------------------------------------
  // The pipeline as a function of the model's answers
  // ---------------------------------------------------------------

  /** The outcome of `verify_claim` and every request it made. */
  datatype ScriptRun = ScriptRun(outcome: Result<ClaimReport, ScriptError>, log: seq<Request>)

  /** The findings before the debate and the request log after them. */
  datatype Briefing = Briefing(findings: Findings, log: seq<Request>)

  /** Stage 1 and the pre-analysis: the scout, then the Claim Analyst, then the Truth Analyst. */
  function Briefed(chat: Oracle, claim: string, log: seq<Request>): Briefing {
    var evidence := chat(log, ScoutRequest(claim));
    var log1 := log + [ScoutRequest(claim)];
    var claimAnalysis := chat(log1, ClaimAnalysisRequest(claim));
    var log2 := log1 + [ClaimAnalysisRequest(claim)];
    var truthAnalysis := chat(log2, TruthAnalysisRequest(evidence));
    Briefing(Findings(evidence, claimAnalysis, truthAnalysis), log2 + [TruthAnalysisRequest(evidence)])
  }

  /** What every debater is shown before the history: the common context and a line break. */
  function DebatePrefix(claim: string, f: Findings): string {
    CommonContext(claim, f.evidence, f.claimAnalysis, f.truthAnalysis) + "\n"
  }

  /** Stage 2: the four debate rounds. */
  function Debated(chat: Oracle, claim: string, b: Briefing): State {
    Rounds(chat, DebatePrefix(claim, b.findings), DebateRounds, Opening(b.log))
  }

  /** The conversation before the judge speaks and the request log after it. */
  datatype Panel = Panel(conversation: seq<Entry>, log: seq<Request>)

  /** The conversation before the judge: the scout's evidence, the debate, the Fact-Checker, the Context Analyst. */
  function Transcript(evidence: string, turns: seq<AgentMessage>, factCheck: string, context: string): seq<Entry> {
    [Entry(EvidenceScout.Name(), JStr(evidence))] + Entries(turns)
    + [Entry(FactChecker.Name(), JStr(factCheck)), Entry(ContextAnalyst.Name(), JStr(context))]
  }

  /** Stages 3 and 4. */
  function Consulted(chat: Oracle, claim: string, f: Findings, d: State): Panel {
    var factCheck := chat(d.log, FactCheckRequest(claim, f.evidence));
    var log1 := d.log + [FactCheckRequest(claim, f.evidence)];
    var context := chat(log1, ContextRequest(claim));
    Panel(Transcript(f.evidence, d.turns, factCheck, context), log1 + [ContextRequest(claim)])
  }

  /** The judge's `get_json_response` call, with the script's echoing retry. */
  function JudgeCall(dump: Json -> string, claim: string, weights: map<string, Json>, f: Findings, conversation: seq<Entry>): JsonCall {
    JsonCall(Judge, JudgePrompt(dump, claim, weights, f.claimAnalysis, f.truthAnalysis, conversation),
             JudgeModel, JsonTemperature, EchoPrevious(RetryNote, EchoLimit))
  }

  /** Stage 5 and the report. */
  function Judged(env: Env, claim: string, weights: map<string, Json>, f: Findings, p: Panel): ScriptRun {
    var call := JudgeCall(env.dump, claim, weights, f, p.conversation);
    var judged := Attempts(env.Chat(), env.Decode(), call, call.user, Clamp(DefaultRetries), p.log);
    ScriptRun(Report(claim, f, p.conversation, judged.result), judged.log)
  }

  /** Stage 0: the meta-controller's `get_json_response` call. */
  function Consultation(env: Env, claim: string, log: seq<Request>): Extraction {
    Attempts(env.Chat(), env.Decode(), MetaCall(claim), MetaUserMessage(claim), Clamp(DefaultRetries), log)
  }

  /** `verify_claim(claim)` after the requests in `log`. */
  function Verification(env: Env, claim: string, log: seq<Request>): ScriptRun {
    var meta := Consultation(env, claim, log);
    match EqualisedWeights(meta.result)
    case Failure(e) => ScriptRun(Failure(e), meta.log)
    case Success(weights) =>
      var b := Briefed(env.Chat(), claim, meta.log);
      var d := Debated(env.Chat(), claim, b);
      Judged(env, claim, weights, b.findings, Consulted(env.Chat(), claim, b.findings, d))
  }

  /** Stage 1 and the pre-analysis, as the script runs them. */
  method Brief(env: Env, claim: string, log: seq<Request>) returns (findings: Findings, log': seq<Request>)
    ensures Briefing(findings, log') == Briefed(env.Chat(), claim, log)
  {
    var scout := ScoutRequest(claim);
    var evidence := env.Chat()(log, scout);
    log' := log + [scout];
    var claimAsk := ClaimAnalysisRequest(claim);
    var claimAnalysis := env.Chat()(log', claimAsk);
    log' := log' + [claimAsk];
    var truthAsk := TruthAnalysisRequest(evidence);
    var truthAnalysis := env.Chat()(log', truthAsk);
    log' := log' + [truthAsk];
    findings := Findings(evidence, claimAnalysis, truthAnalysis);
  }

  /** Stage 2, as the script runs it: the debate entries and the request log after them. */
  method Argue(env: Env, claim: string, b: Briefing) returns (entries: seq<Entry>, log': seq<Request>)
    ensures var d := Debated(env.Chat(), claim, b);
      entries == Entries(d.turns) && log' == d.log
  {
    var f := b.findings;
    var context := CommonContext(claim, f.evidence, f.claimAnalysis, f.truthAnalysis);
    var history := "";
    entries := [];
    log' := b.log;
    ghost var turns: seq<AgentMessage> := [];
    ghost var prefix := DebatePrefix(claim, f);
    ghost var left: nat := DebateRounds;
    var round := 0;
    while round < DebateRounds
      invariant left == DebateRounds - round
      invariant entries == Entries(turns)
      invariant Rounds(env.Chat(), prefix, left, State(log', turns, history)) == Rounds(env.Chat(), prefix, DebateRounds, Opening(b.log))
    {
      ghost var before := State(log', turns, history);
      var advocate := Request(Advocate, context + "\n" + history, FastModel, ChatTemperature);
      assert advocate == TurnRequest(Advocate, prefix, history);
      var advocateArg := env.Chat()(log', advocate);
      log' := log' + [advocate];
      var msg := AgentMessage(Advocate.Name(), advocateArg);
      EntriesAppend(turns, msg);
      turns := turns + [msg];
      entries := entries + [Entry(msg.agent, JStr(msg.message))];
      history := history + Tag(msg);

      var skeptic := Request(Skeptic, context + "\n" + history, FastModel, ChatTemperature);
      assert skeptic == TurnRequest(Skeptic, prefix, history);
      var skepticArg := env.Chat()(log', skeptic);
      log' := log' + [skeptic];
      msg := AgentMessage(Skeptic.Name(), skepticArg);
      EntriesAppend(turns, msg);
      turns := turns + [msg];
      entries := entries + [Entry(msg.agent, JStr(msg.message))];
      history := history + Tag(msg);
      assert State(log', turns, history) == Round(env.Chat(), prefix, before);

      round := round + 1;
      left := left - 1;
    }
  }

  /** A turn added to the debate adds its one entry. */
  lemma EntriesAppend(turns: seq<AgentMessage>, m: AgentMessage)
    ensures Entries(turns + [m]) == Entries(turns) + [Entry(m.agent, JStr(m.message))]
  {
    assert (turns + [m])[|turns|] == m;
    forall i | 0 <= i < |turns|
      ensures Entries(turns + [m])[i] == Entries(turns)[i]
    {
      assert (turns + [m])[i] == turns[i];
    }
  }

  /** `verify_claim`, step by step as the script runs it. */
  method VerifyClaim(env: Env, claim: string, log: seq<Request>)
    returns (r: Result<ClaimReport, ScriptError>, log': seq<Request>)
    ensures var run := Verification(env, claim, log);
      r == run.outcome && log' == run.log
  {
    var meta;
    meta, log' := GetJsonResponse(env, MetaCall(claim), DefaultRetries, log);
    var weights := EqualisedWeights(meta);
    if weights.Failure? {
      return Failure(weights.error), log';
    }

    var findings, conversation;
    ghost var start := log';
    findings, conversation, log' := Convene(env, claim, log');
    ghost var b := Briefed(env.Chat(), claim, start);
    ghost var panel := Consulted(env.Chat(), claim, b.findings, Debated(env.Chat(), claim, b));

    var call := JudgeCall(env.dump, claim, weights.value, findings, conversation);
    var judged;
    judged, log' := GetJsonResponse(env, call, DefaultRetries, log');
    r := Report(claim, findings, conversation, judged);
    assert ScriptRun(r, log') == Judged(env, claim, weights.value, findings, panel);
  }

  /** Stages 1 to 4 of `verify_claim`: the findings, and the conversation before the judge speaks. */
  method Convene(env: Env, claim: string, log: seq<Request>)
    returns (findings: Findings, conversation: seq<Entry>, log': seq<Request>)
    ensures var b := Briefed(env.Chat(), claim, log);
      findings == b.findings
      && Panel(conversation, log') == Consulted(env.Chat(), claim, b.findings, Debated(env.Chat(), claim, b))
  {
    findings, log' := Brief(env, claim, log);
    var briefing := Briefing(findings, log');
    var entries;
    entries, log' := Argue(env, claim, briefing);
    conversation := [Entry(EvidenceScout.Name(), JStr(findings.evidence))] + entries;

    var check := FactCheckRequest(claim, findings.evidence);
    var factCheck := env.Chat()(log', check);
    log' := log' + [check];
    conversation := conversation + [Entry(FactChecker.Name(), JStr(factCheck))];
    var ask := ContextRequest(claim);
    var context := env.Chat()(log', ask);
    log' := log' + [ask];
    conversation := conversation + [Entry(ContextAnalyst.Name(), JStr(context))];
  }

  // ---------------------------------------------------------------
  // What the script promises
  // ---------------------------------------------------------------

  /**
   * Stage 0: one to three meta requests, the first with the meta prompt and
   * every retry with that prompt, the note and a bounded echo of the
   * rejected answer; with no usable answer every role weighs 0.2.
   */
  lemma ConsultationRequests(env: Env, claim: string, log: seq<Request>)
    ensures var meta := Consultation(env, claim, log); var n := |log|; var prompt := MetaUserMessage(claim);
      && n + 1 <= |meta.log| <= n + 3
      && meta.log[..n] == log
      && meta.log[n] == Request(MetaController, prompt, FastModel, JsonTemperature)
      && (forall i | n < i < |meta.log| ::
            && StartsWith(meta.log[i].user, prompt + RetryNote)
            && |meta.log[i].user| <= |prompt| + |RetryNote| + EchoLimit + 3)
      && (meta.result.None? ==> |meta.log| == n + 3 && EqualisedWeights(meta.result) == Success(FallbackWeights))
  {
    var c := MetaCall(claim);
    AttemptsAppend(env.Chat(), env.Decode(), c, c.user, Clamp(DefaultRetries), log);
    AttemptsEchoBounded(env.Chat(), env.Decode(), c, Clamp(DefaultRetries), log);
    if Consultation(env, claim, log).result.None? {
      FallbackWeightsStay(None);
    }
  }

  /** The pre-debate requests: the scout, then each analyst shown only its own input. */
  lemma BriefedLaidOut(chat: Oracle, claim: string, log: seq<Request>)
    ensures var b := Briefed(chat, claim, log); var n := |log|;
      && |b.log| == n + 3 && b.log[..n] == log
      && b.log[n] == ScoutRequest(claim)
      && b.log[n + 1] == ClaimAnalysisRequest(claim)
      && b.log[n + 2] == TruthAnalysisRequest(b.findings.evidence)
      && b.findings.evidence == ReplyAt(chat, b.log, n)
      && b.findings.claimAnalysis == ReplyAt(chat, b.log, n + 1)
      && b.findings.truthAnalysis == ReplyAt(chat, b.log, n + 2)
  {
    var b := Briefed(chat, claim, log);
    var n := |log|;
    assert b.log[..n] == log;
    assert b.log[..n + 1] == log + [ScoutRequest(claim)];
    assert b.log[..n + 2] == log + [ScoutRequest(claim), ClaimAnalysisRequest(claim)];
  }

  /** The script's debate is conducted as `Conducted` says, with eight turns. */
  lemma DebateConducted(chat: Oracle, claim: string, b: Briefing)
    ensures var d := Debated(chat, claim, b);
      Conducted(chat, DebatePrefix(claim, b.findings), b.log, d) && |d.turns| == 2 * DebateRounds
  {
    OpeningConducted(chat, DebatePrefix(claim, b.findings), b.log);
    RoundsConducted(chat, DebatePrefix(claim, b.findings), b.log, DebateRounds, Opening(b.log));
  }

  /** The first `k` debate turns as the answers recorded from position `start` of `requests`. */
  function Spoken(chat: Oracle, requests: seq<Request>, start: nat, k: nat): (turns: seq<AgentMessage>)
    requires start + k <= |requests|
    ensures |turns| == k
    ensures forall j | 0 <= j < k :: turns[j] == AgentMessage(Speaker(j).Name(), ReplyAt(chat, requests, start + j))
  {
    seq(k, j requires 0 <= j < k => AgentMessage(Speaker(j).Name(), ReplyAt(chat, requests, start + j)))
  }

  /** Eight debaters alternating from the Advocate from position `start` on, each shown the prefix and the answers of all earlier debaters. */
  predicate DebateAsked(chat: Oracle, prefix: string, start: nat, requests: seq<Request>)
    requires start + 2 * DebateRounds <= |requests|
  {
    forall k | 0 <= k < 2 * DebateRounds ::
      requests[start + k] == TurnRequest(Speaker(k), prefix, Render(Spoken(chat, requests, start, k)))
  }

  /** The script's debate, wherever its requests are followed by others, is asked as `DebateAsked` says. */
  lemma DebateAskedFrom(chat: Oracle, claim: string, b: Briefing, requests: seq<Request>)
    requires var d := Debated(chat, claim, b);
      |d.log| <= |requests| && requests[..|d.log|] == d.log
    ensures |b.log| + 2 * DebateRounds <= |requests|
    ensures DebateAsked(chat, DebatePrefix(claim, b.findings), |b.log|, requests)
  {
    var d := Debated(chat, claim, b);
    var prefix := DebatePrefix(claim, b.findings);
    DebateConducted(chat, claim, b);
    TurnsSpoken(chat, prefix, b.log, d, requests);
    forall k | 0 <= k < 2 * DebateRounds
      ensures requests[|b.log| + k] == TurnRequest(Speaker(k), prefix, Render(Spoken(chat, requests, |b.log|, k)))
    {
      assert TurnAt(chat, prefix, b.log, d, k);
      assert requests[|b.log| + k] == requests[..|d.log|][|b.log| + k];
    }
  }

  /**
   * The requests of `verify_claim` after the meta stage ended with the
   * requests in `base`: the scout; the Claim Analyst shown the claim only;
   * the Truth Analyst shown the evidence only; eight debaters alternating
   * from the Advocate, each shown the common context with both analyses and
   * the answers of all earlier debaters; the Fact-Checker shown the claim
   * and the evidence but no debate; the Context Analyst shown the claim;
   * then one to three judge requests.
   */
  predicate ScriptLaidOut(chat: Oracle, claim: string, base: seq<Request>, requests: seq<Request>) {
    var m := |base|;
    && m + 14 <= |requests| <= m + 16
    && requests[..m] == base
    && requests[m] == ScoutRequest(claim)
    && requests[m + 1] == ClaimAnalysisRequest(claim)
    && var f := Findings(ReplyAt(chat, requests, m), ReplyAt(chat, requests, m + 1), ReplyAt(chat, requests, m + 2));
      && requests[m + 2] == TruthAnalysisRequest(f.evidence)
      && DebateAsked(chat, DebatePrefix(claim, f), m + 3, requests)
      && requests[m + 11] == FactCheckRequest(claim, f.evidence)
      && requests[m + 12] == ContextRequest(claim)
      && requests[m + 13].persona == Judge && requests[m + 13].model == JudgeModel
  }

  /**
   * The judge stage: the first request carries the judge prompt over the
   * whole conversation so far; each retry is that prompt, the note and a
   * bounded echo; every answer but the last failed to decode; the report
   * is drawn from the last answer when it decoded and is the fallback, with
   * confidence 0.0, when none did.
   */
  lemma JudgedRequests(env: Env, claim: string, weights: map<string, Json>, f: Findings, p: Panel)
    ensures var run := Judged(env, claim, weights, f, p); var n := |p.log|;
      var prompt := JudgePrompt(env.dump, claim, weights, f.claimAnalysis, f.truthAnalysis, p.conversation);
      && n + 1 <= |run.log| <= n + 3
      && run.log[..n] == p.log
      && run.log[n] == Request(Judge, prompt, JudgeModel, JsonTemperature)
      && (forall i | n < i < |run.log| ::
            && StartsWith(run.log[i].user, prompt + RetryNote)
            && |run.log[i].user| <= |prompt| + |RetryNote| + EchoLimit + 3)
      && (forall i | n <= i < |run.log| - 1 :: ParsedReply(env.Chat(), env.Decode(), run.log, i).None?)
      && var decoded := ParsedReply(env.Chat(), env.Decode(), run.log, |run.log| - 1);
        && (decoded.None? ==> |run.log| == n + 3 && run.outcome == Success(FallbackReport(claim, f, p.conversation)))
        && (decoded.Some? ==> run.outcome == Report(claim, f, p.conversation, decoded))
  {
    var call := JudgeCall(env.dump, claim, weights, f, p.conversation);
    var e := Attempts(env.Chat(), env.Decode(), call, call.user, Clamp(DefaultRetries), p.log);
    AttemptsAppend(env.Chat(), env.Decode(), call, call.user, Clamp(DefaultRetries), p.log);
    AttemptsEchoBounded(env.Chat(), env.Decode(), call, Clamp(DefaultRetries), p.log);
    AttemptsFailBeforeLast(env.Chat(), env.Decode(), call, call.user, Clamp(DefaultRetries), p.log);
    AttemptsResult(env.Chat(), env.Decode(), call, call.user, Clamp(DefaultRetries), p.log);
    if e.result.None? {
      ReportFallback(claim, f, p.conversation, e.result);
    }
  }

  /** The turns of a correctly conducted debate are the answers recorded in any later request log. */
  lemma TurnsSpoken(chat: Oracle, prefix: string, base: seq<Request>, d: State, requests: seq<Request>)
    requires Conducted(chat, prefix, base, d)
    requires |d.log| <= |requests| && requests[..|d.log|] == d.log
    ensures forall k | 0 <= k <= |d.turns| :: d.turns[..k] == Spoken(chat, requests, |base|, k)
  {
    forall j | 0 <= j < |d.turns|
      ensures d.turns[j] == AgentMessage(Speaker(j).Name(), ReplyAt(chat, requests, |base| + j))
    {
      assert TurnAt(chat, prefix, base, d, j);
      ReplyAtExtended(chat, d.log, requests, |base| + j);
    }
  }

  /** The requests up to the judge's, laid out for any answers, followed by judge requests. */
  lemma PanelLaidOut(chat: Oracle, claim: string, base: seq<Request>, requests: seq<Request>)
    requires var b := Briefed(chat, claim, base);
      var p := Consulted(chat, claim, b.findings, Debated(chat, claim, b));
      && |p.log| + 1 <= |requests| <= |p.log| + 3 && requests[..|p.log|] == p.log
      && requests[|p.log|].persona == Judge && requests[|p.log|].model == JudgeModel
    ensures ScriptLaidOut(chat, claim, base, requests)
  {
    var m := |base|;
    var b := Briefed(chat, claim, base);
    var f := b.findings;
    var d := Debated(chat, claim, b);
    var p := Consulted(chat, claim, f, d);
    BriefedLaidOut(chat, claim, base);
    DebateConducted(chat, claim, b);
    assert |d.log| == m + 11;
    assert requests[..|d.log|] == d.log by {
      assert requests[..|d.log|] == requests[..|p.log|][..|d.log|];
    }
    assert requests[..|b.log|] == b.log by {
      assert requests[..|b.log|] == requests[..|d.log|][..|b.log|];
    }
    assert requests[..m] == base by {
      assert requests[..m] == requests[..|b.log|][..m];
    }
    ReplyAtExtended(chat, b.log, requests, m);
    ReplyAtExtended(chat, b.log, requests, m + 1);
    ReplyAtExtended(chat, b.log, requests, m + 2);
    assert f == Findings(ReplyAt(chat, requests, m), ReplyAt(chat, requests, m + 1), ReplyAt(chat, requests, m + 2));
    assert requests[m] == b.log[m] && requests[m + 1] == b.log[m + 1] && requests[m + 2] == b.log[m + 2];
    DebateAskedFrom(chat, claim, b, requests);
    assert requests[m + 11] == p.log[m + 11];
    assert requests[m + 12] == p.log[m + 12];
  }

  /**
   * The requests of `verify_claim`: a meta answer whose weights cannot be
   * equalised ends the run right after the meta stage; otherwise the run
   * goes on as `ScriptLaidOut` says.
   */
  lemma VerificationRequests(env: Env, claim: string, log: seq<Request>)
    ensures var meta := Consultation(env, claim, log); var run := Verification(env, claim, log);
      && (EqualisedWeights(meta.result).Failure? ==>
            run == ScriptRun(Failure(EqualisedWeights(meta.result).error), meta.log))
      && (EqualisedWeights(meta.result).Success? ==> ScriptLaidOut(env.Chat(), claim, meta.log, run.log))
  {
    var meta := Consultation(env, claim, log);
    var weights := EqualisedWeights(meta.result);
    if weights.Success? {
      var chat := env.Chat();
      var b := Briefed(chat, claim, meta.log);
      var p := Consulted(chat, claim, b.findings, Debated(chat, claim, b));
      var run := Verification(env, claim, log);
      assert run == Judged(env, claim, weights.value, b.findings, p);
      JudgedRequests(env, claim, weights.value, b.findings, p);
      PanelLaidOut(chat, claim, meta.log, run.log);
    }
  }

  /** The conversation before the judge: the scout, eight alternating debaters, the Fact-Checker, the Context Analyst. */
  lemma PanelTranscript(chat: Oracle, claim: string, base: seq<Request>)
    ensures var b := Briefed(chat, claim, base);
      var c := Consulted(chat, claim, b.findings, Debated(chat, claim, b)).conversation;
      && |c| == 11
      && c[0] == Entry("Evidence Scout", JStr(b.findings.evidence))
      && (forall k | 0 <= k < 2 * DebateRounds :: c[k + 1].agent == Speaker(k).Name())
      && c[9].agent == "Fact-Checker"
      && c[10].agent == "Context Analyst"
  {
    var b := Briefed(chat, claim, base);
    var d := Debated(chat, claim, b);
    DebateConducted(chat, claim, b);
    var c := Consulted(chat, claim, b.findings, d).conversation;
    forall k | 0 <= k < 2 * DebateRounds
      ensures c[k + 1].agent == Speaker(k).Name()
    {
      assert TurnAt(chat, DebatePrefix(claim, b.findings), b.log, d, k);
    }
  }

  /**
   * The report's conversation: the scout's evidence (which is also the
   * report's truth), eight debate turns alternating from the Advocate, the
   * Fact-Checker, the Context Analyst and the Judge with the summary: twelve
   * entries, so the meta-controller has none.
   */
  lemma ScriptTranscript(env: Env, claim: string, log: seq<Request>)
    ensures var run := Verification(env, claim, log);
      run.outcome.Success? ==>
        var r := run.outcome.value; var c := r.conversation;
        && r.claim == claim
        && |c| == 12
        && c[0] == Entry("Evidence Scout", JStr(r.truth))
        && (forall k | 0 <= k < 2 * DebateRounds :: c[k + 1].agent == Speaker(k).Name())
        && c[9].agent == "Fact-Checker"
        && c[10].agent == "Context Analyst"
        && c[11] == Entry("Judge", r.summary)
  {
    var meta := Consultation(env, claim, log);
    var weights := EqualisedWeights(meta.result);
    var run := Verification(env, claim, log);
    if weights.Success? && run.outcome.Success? {
      var chat := env.Chat();
      var b := Briefed(chat, claim, meta.log);
      var p := Consulted(chat, claim, b.findings, Debated(chat, claim, b));
      assert run == Judged(env, claim, weights.value, b.findings, p);
      PanelTranscript(chat, claim, meta.log);
      var c := run.outcome.value.conversation;
      assert c[..11] == p.conversation;
      forall k | 0 <= k < 11
        ensures c[k] == p.conversation[k]
      {
        assert c[k] == c[..11][k];
      }
    }
  }
}
