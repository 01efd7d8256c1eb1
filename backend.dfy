/**
 * The web backend's jury pipeline: `run_jury` and its streaming twin
 * `run_jury_streaming`, which the endpoints in the Api module run.
 */
module Backend {
  import opened Wrappers
  import opened Text
  import opened Json
  import opened Llm
  import opened Debate

  /** The body of `POST /api/verify`, with the number of debate rounds as sent. */
  datatype VerifyRequest = VerifyRequest(claim: string, truth: string, debateRounds: int)

  /** The verdict handed to the frontend (timestamps are not modelled). */
  datatype VerdictPayload = VerdictPayload(
    claim: string,
    truth: string,
    conversation: seq<AgentMessage>,
    summary: string,
    decision: string,
    confidence: Json,
    disclaimers: Json)

  /** Why the pipeline raises instead of producing a verdict. */
  datatype JuryError =
      /** A truthy judge answer that is not an object has no `.get`. */
    | JudgeNotObject
      /** The judge's summary is not a string, which `AgentMessage` refuses. */
    | SummaryNotText
      /** The judge's decision is not a string and has no `.lower()`. */
    | DecisionNotText

  // ---------------------------------------------------------------
  // Prompts
  // ---------------------------------------------------------------

  /** Stage 1: the Evidence Scout reads the source truth and the claim. */
  function ScoutRequest(claim: string, truth: string): Request {
    Request(EvidenceScout, "SOURCE TRUTH:\n" + truth + "\n\nCLAIM being evaluated:\n" + claim, FastModel, ChatTemperature)
  }

  /** What the Advocate, the Skeptic and the Fact-Checker are shown before the debate history. */
  function DebatePrefix(claim: string, truth: string, evidence: string): string {
    "CLAIM:\n" + claim + "\n\nSOURCE TRUTH:\n" + truth + "\n\nEvidence:\n" + evidence + "\n\nDebate History:\n"
  }

  /** Stage 3: the Fact-Checker sees the same prefix and the whole debate history. */
  function FactCheckRequest(prefix: string, history: string): Request {
    Request(FactChecker, prefix + history, FastModel, ChatTemperature)
  }

  /** `AgentMessage.model_dump()`, without the timestamp. */
  function MessageJson(m: AgentMessage): Json {
    JObj(map["agent" := JStr(m.agent), "message" := JStr(m.message)])
  }

  function ConversationJson(conversation: seq<AgentMessage>): Json {
    JArr(seq(|conversation|, i requires 0 <= i < |conversation| => MessageJson(conversation[i])))
  }

  /** Stage 4: the judge's user prompt, with the conversation so far dumped as JSON. */
  function JudgePrompt(dump: Json -> string, claim: string, truth: string, conversation: seq<AgentMessage>): string {
    "\nCLAIM:\n" + claim + "\n\nSOURCE TRUTH:\n" + truth + "\n\nFull Conversation:\n"
    + dump(ConversationJson(conversation))
    + "\n\nReturn JSON with \"decision\", \"confidence\", \"summary\", \"disclaimers\".\n"
  }

  /** The note the backend's `get_json_response` appends to the original prompt on a retry. */
  const RetryNote: string := "\n\nERROR: Previous response was not valid JSON. Return ONLY valid JSON."

  /** The judge is asked through `get_json_response` with the judge model and its default temperature. */
  function JudgeCall(env: Env, claim: string, truth: string, conversation: seq<AgentMessage>): JsonCall {
    JsonCall(Judge, JudgePrompt(env.dump, claim, truth, conversation), JudgeModel, JsonTemperature, Fixed(RetryNote))
  }

  // ---------------------------------------------------------------
  // The judge's answer
  // ---------------------------------------------------------------

  const FallbackSummary: string := "The judge failed to produce a valid verdict."

  /** The verdict used when the judge gave nothing usable. */
  const JudgeFallback: map<string, Json> := map[
    "decision" := JStr("uncertain"),
    "confidence" := JNum(0.5),
    "summary" := JStr(FallbackSummary),
    "disclaimers" := JArr([JStr("System Error")])]

  /** True when `if not judge_result` replaces the judge's answer by the fallback. */
  predicate Falsy(judged: Option<Json>) {
    judged.None? || !Truthy(judged.value)
  }

  /** The fields the verdict is read from: the fallback for a falsy answer, the object itself otherwise. */
  function JudgeFields(judged: Option<Json>): (r: Result<map<string, Json>, JuryError>)
    ensures Falsy(judged) ==> r == Success(JudgeFallback)
    ensures !Falsy(judged) ==> (r.Success? <==> judged.value.JObj?)
    ensures r.Success? && !Falsy(judged) ==> r.value == judged.value.fields && r.value != map[]
    ensures r.Failure? ==> r.error == JudgeNotObject
  {
    if Falsy(judged) then Success(JudgeFallback)
    else if judged.value.JObj? then Success(judged.value.fields)
    else Failure(JudgeNotObject)
  }

  /** The pipeline as far as it got: its conversation, its outcome and the requests it made. */
  datatype JuryRun = JuryRun(conversation: seq<AgentMessage>, outcome: Result<VerdictPayload, JuryError>, log: seq<Request>)

  /**
   * The end of `run_jury`: the judge's answer (or the fallback) becomes the
   * Judge's conversation entry and the verdict. The decision is lower-cased
   * and nothing more; the summary must be a string, the decision too.
   */
  function Conclude(claim: string, truth: string, conversation: seq<AgentMessage>, judged: Option<Json>, log: seq<Request>): (run: JuryRun)
    ensures run.log == log
    ensures JudgeFields(judged).Failure? ==> run == JuryRun(conversation, Failure(JudgeNotObject), log)
    ensures run.outcome.Success? ==>
      var v := run.outcome.value;
      && v.claim == claim && v.truth == truth
      && v.conversation == run.conversation == conversation + [AgentMessage("Judge", v.summary)]
    ensures |run.conversation| == |conversation| + 1 || run.conversation == conversation
    ensures run.conversation[..|conversation|] == conversation
    ensures (run.outcome.Success? || run.outcome.error == DecisionNotText)
      <==> |run.conversation| == |conversation| + 1
    ensures |run.conversation| == |conversation| + 1 ==> run.conversation[|conversation|].agent == "Judge"
  {
    match JudgeFields(judged)
    case Failure(e) => JuryRun(conversation, Failure(e), log)
    case Success(fields) => Decide(claim, truth, conversation, fields, log)
  }

  /** The judge's fields read into the Judge's entry and the verdict. */
  function Decide(claim: string, truth: string, conversation: seq<AgentMessage>, fields: map<string, Json>, log: seq<Request>): JuryRun {
    match Get(fields, "summary", JStr(""))
    case JStr(summary) =>
      var full := conversation + [AgentMessage("Judge", summary)];
      (match Get(fields, "decision", JStr("uncertain"))
       case JStr(decision) =>
         var verdict := VerdictPayload(
           claim, truth, full, summary, Lower(decision),
           Get(fields, "confidence", JNum(0.5)), Get(fields, "disclaimers", JArr([])));
         JuryRun(full, Success(verdict), log)
       case _ => JuryRun(full, Failure(DecisionNotText), log))
    case _ => JuryRun(conversation, Failure(SummaryNotText), log)
  }

  // ---------------------------------------------------------------
  // The pipeline
  // ---------------------------------------------------------------

  /** The conversation before the judge: the scout, the debate turns, the Fact-Checker. */
  function Hearing(evidence: string, turns: seq<AgentMessage>, factCheck: string): seq<AgentMessage> {
    [AgentMessage(EvidenceScout.Name(), evidence)] + turns + [AgentMessage(FactChecker.Name(), factCheck)]
  }

  /**
   * `run_jury(claim, truth, debate_rounds)` after the requests in `log`:
   * scout, `debate_rounds` rounds of debate (none when it is not positive),
   * Fact-Checker, then the judge with up to three attempts.
   */
  function Jury(env: Env, claim: string, truth: string, rounds: int, log: seq<Request>): JuryRun {
    var evidence := Evidence(env, claim, truth, log);
    var debate := Debated(env, claim, truth, rounds, log);
    var check := FactCheckRequest(DebatePrefix(claim, truth, evidence), debate.history);
    var conversation := Hearing(evidence, debate.turns, env.Chat()(debate.log, check));
    Judgement(env, claim, truth, conversation, debate.log + [check])
  }

  /** Stage 1: the Evidence Scout's answer. */
  function Evidence(env: Env, claim: string, truth: string, log: seq<Request>): string {
    env.Chat()(log, ScoutRequest(claim, truth))
  }

  /** Stage 2: the debate after the scout's request. */
  function Debated(env: Env, claim: string, truth: string, rounds: int, log: seq<Request>): State {
    var prefix := DebatePrefix(claim, truth, Evidence(env, claim, truth, log));
    Rounds(env.Chat(), prefix, Clamp(rounds), Opening(log + [ScoutRequest(claim, truth)]))
  }

  /** Stage 4: the judge asked about `conversation` (up to three attempts), and the verdict drawn from its answer. */
  function Judgement(env: Env, claim: string, truth: string, conversation: seq<AgentMessage>, log: seq<Request>): JuryRun {
    var call := JudgeCall(env, claim, truth, conversation);
    var judged := Attempts(env.Chat(), env.Decode(), call, call.user, Clamp(DefaultRetries), log);
    Conclude(claim, truth, conversation, judged.result, judged.log)
  }

  /** `run_jury`: the verdict, or the error it raises, and the requests it made. */
  method RunJury(env: Env, claim: string, truth: string, debateRounds: int, log: seq<Request>)
    returns (r: Result<VerdictPayload, JuryError>, log': seq<Request>)
    ensures var run := Jury(env, claim, truth, debateRounds, log);
      r == run.outcome && log' == run.log
  {
    var conversation: seq<AgentMessage> := [];
    log' := log;

    var scout := ScoutRequest(claim, truth);
    var evidence := env.Chat()(log', scout);
    log' := log' + [scout];
    conversation := conversation + [AgentMessage("Evidence Scout", evidence)];

    var prefix := DebatePrefix(claim, truth, evidence);
    var history := "";
    ghost var debate := Debated(env, claim, truth, debateRounds, log);
    var round := 0;
    ghost var left: nat := Clamp(debateRounds);
    assert conversation[1..] == [];
    while round < debateRounds
      invariant left == Clamp(debateRounds) - round
      invariant |conversation| >= 1 && conversation[0] == AgentMessage("Evidence Scout", evidence)
      invariant Rounds(env.Chat(), prefix, left, State(log', conversation[1..], history)) == debate
    {
      ghost var before := State(log', conversation[1..], history);
      var advocate := TurnRequest(Advocate, prefix, history);
      var advocateArg := env.Chat()(log', advocate);
      log' := log' + [advocate];
      conversation := conversation + [AgentMessage("Advocate", advocateArg)];
      history := history + Tag(AgentMessage("Advocate", advocateArg));

      var skeptic := TurnRequest(Skeptic, prefix, history);
      var skepticArg := env.Chat()(log', skeptic);
      log' := log' + [skeptic];
      conversation := conversation + [AgentMessage("Skeptic", skepticArg)];
      history := history + Tag(AgentMessage("Skeptic", skepticArg));
      assert conversation[1..] == before.turns + [AgentMessage("Advocate", advocateArg), AgentMessage("Skeptic", skepticArg)];
      assert State(log', conversation[1..], history) == Round(env.Chat(), prefix, before);

      round := round + 1;
      left := left - 1;
    }

    assert State(log', conversation[1..], history) == debate;

    var check := FactCheckRequest(prefix, history);
    var factCheck := env.Chat()(log', check);
    log' := log' + [check];
    assert conversation == [conversation[0]] + conversation[1..];
    conversation := conversation + [AgentMessage("Fact-Checker", factCheck)];
    assert conversation == Hearing(evidence, debate.turns, factCheck);
    ghost var hearingLog := log';

    var call := JudgeCall(env, claim, truth, conversation);
    var judged;
    judged, log' := GetJsonResponse(env, call, DefaultRetries, log');
    var run := Conclude(claim, truth, conversation, judged, log');
    assert run == Judgement(env, claim, truth, conversation, hearingLog);
    r := run.outcome;
  }

  /** One server-sent event of the streaming endpoint. */
  datatype Event =
    | AgentEvent(message: AgentMessage)
    | VerdictEvent(verdict: VerdictPayload)

  function AgentEvents(conversation: seq<AgentMessage>): (events: seq<Event>)
    ensures |events| == |conversation|
    ensures forall i | 0 <= i < |events| :: events[i] == AgentEvent(conversation[i])
  {
    seq(|conversation|, i requires 0 <= i < |conversation| => AgentEvent(conversation[i]))
  }

  /** What a streaming run yields: one event per conversation entry as it is made, then the verdict. */
  function Stream(run: JuryRun): seq<Event> {
    AgentEvents(run.conversation) + if run.outcome.Success? then [VerdictEvent(run.outcome.value)] else []
  }

  /** How a run ends: `None` when it produced a verdict, otherwise the error it raised. */
  function Raised(run: JuryRun): Option<JuryError> {
    if run.outcome.Success? then None else Some(run.outcome.error)
  }

  /** The debate loop of `run_jury_streaming`: each turn is streamed as soon as it is taken. */
  method StreamRounds(env: Env, prefix: string, debateRounds: int, log: seq<Request>)
    returns (turns: seq<AgentMessage>, history: string, events: seq<Event>, log': seq<Request>)
    ensures State(log', turns, history) == Rounds(env.Chat(), prefix, Clamp(debateRounds), Opening(log))
    ensures events == AgentEvents(turns)
  {
    turns := [];
    history := "";
    events := [];
    log' := log;
    var round := 0;
    ghost var left: nat := Clamp(debateRounds);
    while round < debateRounds
      invariant left == Clamp(debateRounds) - round
      invariant events == AgentEvents(turns)
      invariant Rounds(env.Chat(), prefix, left, State(log', turns, history)) == Rounds(env.Chat(), prefix, Clamp(debateRounds), Opening(log))
    {
      ghost var before := State(log', turns, history);
      var advocate := TurnRequest(Advocate, prefix, history);
      var advocateArg := env.Chat()(log', advocate);
      log' := log' + [advocate];
      var msg := AgentMessage("Advocate", advocateArg);
      turns := turns + [msg];
      events := events + [AgentEvent(msg)];
      history := history + Tag(msg);

      var skeptic := TurnRequest(Skeptic, prefix, history);
      var skepticArg := env.Chat()(log', skeptic);
      log' := log' + [skeptic];
      msg := AgentMessage("Skeptic", skepticArg);
      turns := turns + [msg];
      events := events + [AgentEvent(msg)];
      history := history + Tag(msg);
      assert State(log', turns, history) == Round(env.Chat(), prefix, before);

      round := round + 1;
      left := left - 1;
    }
  }

  /**
   * `run_jury_streaming`: the same requests as `run_jury`, each conversation
   * entry yielded as soon as it exists, then the verdict. When the judge's
   * decision is not a string the Judge entry has already been yielded.
   */
  method RunJuryStreaming(env: Env, claim: string, truth: string, debateRounds: int, log: seq<Request>)
    returns (events: seq<Event>, raised: Option<JuryError>, log': seq<Request>)
    ensures var run := Jury(env, claim, truth, debateRounds, log);
      events == Stream(run) && raised == Raised(run) && log' == run.log
  {
    var conversation;
    conversation, events, log' := StreamHearing(env, claim, truth, debateRounds, log);
    ghost var hearingLog := log';
    var tail;
    tail, raised, log' := StreamJudgement(env, claim, truth, conversation, log');
    events := events + tail;
    ghost var evidence := Evidence(env, claim, truth, log);
    ghost var debate := Debated(env, claim, truth, debateRounds, log);
    ghost var check := FactCheckRequest(DebatePrefix(claim, truth, evidence), debate.history);
    assert Jury(env, claim, truth, debateRounds, log) == Judgement(env, claim, truth, conversation, hearingLog);
  }

  /** The scout, the debate and the Fact-Checker of `run_jury_streaming`, each streamed as soon as it speaks. */
  method StreamHearing(env: Env, claim: string, truth: string, debateRounds: int, log: seq<Request>)
    returns (conversation: seq<AgentMessage>, events: seq<Event>, log': seq<Request>)
    ensures var evidence := Evidence(env, claim, truth, log);
      var debate := Debated(env, claim, truth, debateRounds, log);
      var check := FactCheckRequest(DebatePrefix(claim, truth, evidence), debate.history);
      && conversation == Hearing(evidence, debate.turns, env.Chat()(debate.log, check))
      && log' == debate.log + [check]
      && events == AgentEvents(conversation)
  {
    var scout := ScoutRequest(claim, truth);
    var evidence := env.Chat()(log, scout);
    log' := log + [scout];
    var msg := AgentMessage("Evidence Scout", evidence);
    conversation := [msg];
    events := [AgentEvent(msg)];

    var prefix := DebatePrefix(claim, truth, evidence);
    var turns, history, debateEvents;
    turns, history, debateEvents, log' := StreamRounds(env, prefix, debateRounds, log');
    assert State(log', turns, history) == Debated(env, claim, truth, debateRounds, log);
    conversation := conversation + turns;
    events := events + debateEvents;

    var check := FactCheckRequest(prefix, history);
    var factCheck := env.Chat()(log', check);
    log' := log' + [check];
    msg := AgentMessage("Fact-Checker", factCheck);
    conversation := conversation + [msg];
    events := events + [AgentEvent(msg)];
    assert conversation == Hearing(evidence, turns, factCheck);
  }

  /** The judge stage of `run_jury_streaming`: the judge's request, then its events. */
  method StreamJudgement(env: Env, claim: string, truth: string, conversation: seq<AgentMessage>, log: seq<Request>)
    returns (tail: seq<Event>, raised: Option<JuryError>, log': seq<Request>)
    ensures var run := Judgement(env, claim, truth, conversation, log);
      Stream(run) == AgentEvents(conversation) + tail && raised == Raised(run) && log' == run.log
  {
    var call := JudgeCall(env, claim, truth, conversation);
    var judged;
    judged, log' := GetJsonResponse(env, call, DefaultRetries, log);
    tail, raised := JudgeEvents(claim, truth, conversation, judged, log');
  }

  /** The end of `run_jury_streaming`: the Judge entry as soon as it exists, then the verdict. */
  method JudgeEvents(claim: string, truth: string, conversation: seq<AgentMessage>, judged: Option<Json>, log: seq<Request>)
    returns (tail: seq<Event>, raised: Option<JuryError>)
    ensures var run := Conclude(claim, truth, conversation, judged, log);
      Stream(run) == AgentEvents(conversation) + tail && raised == Raised(run)
  {
    var fields := JudgeFields(judged);
    if fields.Failure? {
      return [], Some(fields.error);
    }
    tail, raised := DecisionEvents(claim, truth, conversation, fields.value, log);
  }

  /** The events of a readable judge answer: the Judge entry once its summary is read, the verdict once the decision is. */
  method DecisionEvents(claim: string, truth: string, conversation: seq<AgentMessage>, fields: map<string, Json>, log: seq<Request>)
    returns (tail: seq<Event>, raised: Option<JuryError>)
    ensures var run := Decide(claim, truth, conversation, fields, log);
      Stream(run) == AgentEvents(conversation) + tail && raised == Raised(run)
  {
    var summary := Get(fields, "summary", JStr(""));
    if !summary.JStr? {
      return [], Some(SummaryNotText);
    }
    var msg := AgentMessage("Judge", summary.s);
    AgentEventsAppend(conversation, msg);
    var decision := Get(fields, "decision", JStr("uncertain"));
    if !decision.JStr? {
      return [AgentEvent(msg)], Some(DecisionNotText);
    }
    var verdict := VerdictPayload(
      claim, truth, conversation + [msg], summary.s, Lower(decision.s),
      Get(fields, "confidence", JNum(0.5)), Get(fields, "disclaimers", JArr([])));
    tail := [AgentEvent(msg)] + [VerdictEvent(verdict)];
    raised := None;
    ghost var run := JuryRun(conversation + [msg], Success(verdict), log);
    assert Decide(claim, truth, conversation, fields, log) == run;
    assert Stream(run) == AgentEvents(conversation + [msg]) + [VerdictEvent(verdict)];
    AppendAssociates(AgentEvents(conversation), [AgentEvent(msg)], [VerdictEvent(verdict)]);
  }

  /** An entry added to the conversation adds its one event to the stream. */
  lemma AgentEventsAppend(conversation: seq<AgentMessage>, m: AgentMessage)
    ensures AgentEvents(conversation + [m]) == AgentEvents(conversation) + [AgentEvent(m)]
  {
    var a := AgentEvents(conversation + [m]);
    var b := AgentEvents(conversation) + [AgentEvent(m)];
    assert |a| == |b|;
    forall i | 0 <= i < |a|
      ensures a[i] == b[i]
    {
      if i < |conversation| {
        assert (conversation + [m])[i] == conversation[i];
      }
    }
  }


  // ---------------------------------------------------------------
  // Properties of the pipeline
  // ---------------------------------------------------------------

  /** The agents of a conversation in the pipeline's order: scout, `n` debate turns alternating from the Advocate, Fact-Checker. */
  predicate Transcribed(conversation: seq<AgentMessage>, n: nat) {
    && |conversation| >= n + 2
    && conversation[0].agent == "Evidence Scout"
    && (forall k | 0 <= k < n :: conversation[k + 1].agent == Speaker(k).Name())
    && conversation[n + 1].agent == "Fact-Checker"
  }

  /** The debate of a run is conducted as `Conducted` says, with two turns per round. */
  lemma DebatedConducted(env: Env, claim: string, truth: string, rounds: int, log: seq<Request>)
    ensures var debate := Debated(env, claim, truth, rounds, log);
      && Conducted(env.Chat(), DebatePrefix(claim, truth, Evidence(env, claim, truth, log)), log + [ScoutRequest(claim, truth)], debate)
      && |debate.turns| == 2 * Clamp(rounds)
  {
    var prefix := DebatePrefix(claim, truth, Evidence(env, claim, truth, log));
    var base := log + [ScoutRequest(claim, truth)];
    OpeningConducted(env.Chat(), prefix, base);
    RoundsConducted(env.Chat(), prefix, base, Clamp(rounds), Opening(base));
  }

  /**
   * The conversation of `run_jury` with `R` rounds: the scout, `2 R` debate
   * turns alternating from the Advocate, the Fact-Checker and, once the
   * judge's summary is accepted, the Judge; a verdict always carries all
   * `2 R + 3` entries.
   */
  lemma JuryTranscript(env: Env, claim: string, truth: string, rounds: int, log: seq<Request>)
    ensures var run := Jury(env, claim, truth, rounds, log); var n := 2 * Clamp(rounds);
      && Transcribed(run.conversation, n)
      && (|run.conversation| == n + 2 || (|run.conversation| == n + 3 && run.conversation[n + 2].agent == "Judge"))
      && (run.outcome.Success? ==>
            var v := run.outcome.value;
            && v.claim == claim && v.truth == truth
            && v.conversation == run.conversation
            && |v.conversation| == n + 3
            && v.conversation[n + 2] == AgentMessage("Judge", v.summary))
  {
    var evidence := Evidence(env, claim, truth, log);
    var prefix := DebatePrefix(claim, truth, evidence);
    var base := log + [ScoutRequest(claim, truth)];
    var debate := Debated(env, claim, truth, rounds, log);
    DebatedConducted(env, claim, truth, rounds, log);
    var check := FactCheckRequest(prefix, debate.history);
    var conversation := Hearing(evidence, debate.turns, env.Chat()(debate.log, check));
    var run := Jury(env, claim, truth, rounds, log);
    assert run == Judgement(env, claim, truth, conversation, debate.log + [check]);
    var n := 2 * Clamp(rounds);
    assert run.conversation[..|conversation|] == conversation;
    forall k | 0 <= k < n
      ensures run.conversation[k + 1].agent == Speaker(k).Name()
    {
      assert TurnAt(env.Chat(), prefix, base, debate, k);
      assert run.conversation[k + 1] == conversation[k + 1] == debate.turns[k];
    }
    assert run.conversation[0] == conversation[0];
    assert run.conversation[n + 1] == conversation[n + 1];
  }

  /**
   * The requests before the judge's, in order, after the requests in `log`:
   * the scout; each debater shown the prefix (claim, truth, evidence) and the
   * history of all earlier turns; the Fact-Checker shown the same prefix and
   * the whole history. Each of the first `n + 2` conversation entries is the
   * answer to its request.
   */
  predicate HearingLaidOut(chat: Oracle, claim: string, truth: string, log: seq<Request>, n: nat,
                           conversation: seq<AgentMessage>, requests: seq<Request>)
  {
    var b := |log|;
    && |conversation| >= n + 2
    && |requests| >= b + n + 2
    && requests[..b] == log
    && requests[b] == ScoutRequest(claim, truth)
    && Answered(chat, b, n + 2, conversation, requests)
    && TurnsAsked(DebatePrefix(claim, truth, conversation[0].message), b, n, conversation, requests)
  }

  /** The first `count` conversation entries are the answers to the requests from index `b` on. */
  predicate Answered(chat: Oracle, b: nat, count: nat, conversation: seq<AgentMessage>, requests: seq<Request>)
    requires count <= |conversation| && b + count <= |requests|
  {
    forall i | 0 <= i < count :: conversation[i].message == ReplyAt(chat, requests, b + i)
  }

  /**
   * The requests after the scout's at index `b`: each debater shown the
   * prefix and the history of all earlier turns, then the Fact-Checker shown
   * the same prefix and the whole history.
   */
  predicate TurnsAsked(prefix: string, b: nat, n: nat, conversation: seq<AgentMessage>, requests: seq<Request>)
    requires n + 1 <= |conversation| && b + n + 2 <= |requests|
  {
    && (forall k | 0 <= k < n ::
          requests[b + 1 + k] == TurnRequest(Speaker(k), prefix, Render(conversation[1..k + 1])))
    && requests[b + n + 1] == FactCheckRequest(prefix, Render(conversation[1..n + 1]))
  }

  /** Appending to the conversation and to the requests keeps what was laid out before. */
  lemma HearingExtends(chat: Oracle, claim: string, truth: string, log: seq<Request>, n: nat,
                       conversation: seq<AgentMessage>, requests: seq<Request>,
                       conversation': seq<AgentMessage>, requests': seq<Request>)
    requires HearingLaidOut(chat, claim, truth, log, n, conversation, requests)
    requires |conversation'| >= |conversation| && conversation'[..|conversation|] == conversation
    requires |requests'| >= |requests| && requests'[..|requests|] == requests
    ensures HearingLaidOut(chat, claim, truth, log, n, conversation', requests')
  {
    var b := |log|;
    var m := |requests|;
    assert m >= b + n + 2 && |conversation| >= n + 2;
    assert requests'[..b] == log by {
      assert requests'[..b] == requests'[..m][..b];
    }
    assert requests'[b] == requests'[..m][b];
    assert conversation'[0] == conversation'[..|conversation|][0];
    RepliesExtend(chat, b, n + 2, conversation, requests, conversation', requests');
    TurnsExtend(DebatePrefix(claim, truth, conversation[0].message), b, n, conversation, requests, conversation', requests');
  }

  /** Extending the conversation and the requests keeps the first `count` entries the answers to their requests. */
  lemma RepliesExtend(chat: Oracle, b: nat, count: nat,
                      conversation: seq<AgentMessage>, requests: seq<Request>,
                      conversation': seq<AgentMessage>, requests': seq<Request>)
    requires count <= |conversation| <= |conversation'| && conversation'[..|conversation|] == conversation
    requires b + count <= |requests| <= |requests'| && requests'[..|requests|] == requests
    requires Answered(chat, b, count, conversation, requests)
    ensures Answered(chat, b, count, conversation', requests')
  {
    forall i | 0 <= i < count
      ensures conversation'[i].message == ReplyAt(chat, requests', b + i)
    {
      assert conversation'[i] == conversation'[..|conversation|][i];
      ReplyAtExtended(chat, requests, requests', b + i);
    }
  }

  /** Extending the conversation and the requests keeps the debaters' and the Fact-Checker's requests as they were laid out. */
  lemma TurnsExtend(prefix: string, b: nat, n: nat,
                    conversation: seq<AgentMessage>, requests: seq<Request>,
                    conversation': seq<AgentMessage>, requests': seq<Request>)
    requires n + 1 <= |conversation| <= |conversation'| && conversation'[..|conversation|] == conversation
    requires b + n + 2 <= |requests| <= |requests'| && requests'[..|requests|] == requests
    requires TurnsAsked(prefix, b, n, conversation, requests)
    ensures TurnsAsked(prefix, b, n, conversation', requests')
  {
    var m := |requests|;
    forall k | 0 <= k < n
      ensures requests'[b + 1 + k] == TurnRequest(Speaker(k), prefix, Render(conversation'[1..k + 1]))
    {
      assert requests'[b + 1 + k] == requests'[..m][b + 1 + k];
      SliceExtended(conversation, conversation', 1, k + 1);
    }
    assert requests'[b + n + 1] == requests'[..m][b + n + 1];
    SliceExtended(conversation, conversation', 1, n + 1);
  }

  /** A scout answer, a correctly conducted debate and the Fact-Checker after it are laid out as `HearingLaidOut` says. */
  lemma HearingFromDebate(chat: Oracle, claim: string, truth: string, log: seq<Request>, evidence: string, debate: State)
    requires evidence == chat(log, ScoutRequest(claim, truth))
    requires Conducted(chat, DebatePrefix(claim, truth, evidence), log + [ScoutRequest(claim, truth)], debate)
    ensures var check := FactCheckRequest(DebatePrefix(claim, truth, evidence), debate.history);
      HearingLaidOut(chat, claim, truth, log, |debate.turns|,
                     Hearing(evidence, debate.turns, chat(debate.log, check)), debate.log + [check])
  {
    var prefix := DebatePrefix(claim, truth, evidence);
    var scout := ScoutRequest(claim, truth);
    var base := log + [scout];
    var check := FactCheckRequest(prefix, debate.history);
    var requests := debate.log + [check];
    var conversation := Hearing(evidence, debate.turns, chat(debate.log, check));
    var n := |debate.turns|;
    var b := |log|;
    assert requests[..b] == log by {
      assert requests[..b] == debate.log[..|base|][..b];
    }
    assert requests[b] == scout by {
      assert requests[b] == debate.log[..|base|][b];
    }
    HearingTurns(chat, claim, truth, log, evidence, debate);
    HearingReplies(chat, claim, truth, log, evidence, debate);
  }

  /** Each debater of the hearing is asked as `Conducted` says, the Fact-Checker after them with the whole history. */
  lemma HearingTurns(chat: Oracle, claim: string, truth: string, log: seq<Request>, evidence: string, debate: State)
    requires Conducted(chat, DebatePrefix(claim, truth, evidence), log + [ScoutRequest(claim, truth)], debate)
    ensures var prefix := DebatePrefix(claim, truth, evidence);
      var check := FactCheckRequest(prefix, debate.history);
      TurnsAsked(prefix, |log|, |debate.turns|, Hearing(evidence, debate.turns, chat(debate.log, check)), debate.log + [check])
  {
    var prefix := DebatePrefix(claim, truth, evidence);
    var base := log + [ScoutRequest(claim, truth)];
    var check := FactCheckRequest(prefix, debate.history);
    var requests := debate.log + [check];
    var conversation := Hearing(evidence, debate.turns, chat(debate.log, check));
    var n := |debate.turns|;
    var b := |log|;
    forall k | 0 <= k < n
      ensures requests[b + 1 + k] == TurnRequest(Speaker(k), prefix, Render(conversation[1..k + 1]))
    {
      assert TurnAt(chat, prefix, base, debate, k);
      assert conversation[1..k + 1] == debate.turns[..k];
    }
    assert conversation[1..n + 1] == debate.turns;
  }

  /** Each entry of the hearing is the answer to its request. */
  lemma HearingReplies(chat: Oracle, claim: string, truth: string, log: seq<Request>, evidence: string, debate: State)
    requires evidence == chat(log, ScoutRequest(claim, truth))
    requires Conducted(chat, DebatePrefix(claim, truth, evidence), log + [ScoutRequest(claim, truth)], debate)
    ensures var check := FactCheckRequest(DebatePrefix(claim, truth, evidence), debate.history);
      var conversation := Hearing(evidence, debate.turns, chat(debate.log, check));
      Answered(chat, |log|, |debate.turns| + 2, conversation, debate.log + [check])
  {
    var prefix := DebatePrefix(claim, truth, evidence);
    var base := log + [ScoutRequest(claim, truth)];
    var check := FactCheckRequest(prefix, debate.history);
    var requests := debate.log + [check];
    var conversation := Hearing(evidence, debate.turns, chat(debate.log, check));
    var n := |debate.turns|;
    var b := |log|;
    assert requests[..|debate.log|] == debate.log;
    forall i | 0 <= i < n + 2
      ensures conversation[i].message == ReplyAt(chat, requests, b + i)
    {
      if i == 0 {
        assert requests[..b] == log by {
          assert requests[..b] == debate.log[..|base|][..b];
        }
        assert requests[b] == debate.log[..|base|][b];
      } else if i < n + 1 {
        assert TurnAt(chat, prefix, base, debate, i - 1);
        assert conversation[i] == debate.turns[i - 1];
        ReplyAtExtended(chat, debate.log, requests, b + i);
      } else {
        assert requests[..b + i] == debate.log;
      }
    }
  }

  /** The hearing (scout, debate, Fact-Checker) of `run_jury` is laid out as `HearingLaidOut` says. */
  lemma HearingRequests(env: Env, claim: string, truth: string, rounds: int, log: seq<Request>)
    ensures var evidence := Evidence(env, claim, truth, log);
      var debate := Debated(env, claim, truth, rounds, log);
      var check := FactCheckRequest(DebatePrefix(claim, truth, evidence), debate.history);
      HearingLaidOut(env.Chat(), claim, truth, log, 2 * Clamp(rounds),
                     Hearing(evidence, debate.turns, env.Chat()(debate.log, check)), debate.log + [check])
  {
    DebatedConducted(env, claim, truth, rounds, log);
    HearingFromDebate(env.Chat(), claim, truth, log, Evidence(env, claim, truth, log), Debated(env, claim, truth, rounds, log));
  }

  /** The judge stage only appends: one to three requests, and at most the Judge's entry. */
  lemma JudgementAppends(env: Env, claim: string, truth: string, conversation: seq<AgentMessage>, log: seq<Request>)
    ensures var run := Judgement(env, claim, truth, conversation, log);
      && |log| + 1 <= |run.log| <= |log| + 3
      && run.log[..|log|] == log
      && |conversation| <= |run.conversation| <= |conversation| + 1
      && run.conversation[..|conversation|] == conversation
  {
    var call := JudgeCall(env, claim, truth, conversation);
    AttemptsAppend(env.Chat(), env.Decode(), call, call.user, Clamp(DefaultRetries), log);
  }

  /**
   * The requests of `run_jury`, in order: the hearing as `HearingLaidOut`
   * says, then one to three judge requests.
   */
  lemma JuryRequests(env: Env, claim: string, truth: string, rounds: int, log: seq<Request>)
    ensures var run := Jury(env, claim, truth, rounds, log); var n := 2 * Clamp(rounds);
      && |log| + n + 3 <= |run.log| <= |log| + n + 5
      && HearingLaidOut(env.Chat(), claim, truth, log, n, run.conversation, run.log)
  {
    var evidence := Evidence(env, claim, truth, log);
    var debate := Debated(env, claim, truth, rounds, log);
    var check := FactCheckRequest(DebatePrefix(claim, truth, evidence), debate.history);
    var requests := debate.log + [check];
    var conversation := Hearing(evidence, debate.turns, env.Chat()(debate.log, check));
    HearingRequests(env, claim, truth, rounds, log);
    JudgementAppends(env, claim, truth, conversation, requests);
    var run := Jury(env, claim, truth, rounds, log);
    assert run == Judgement(env, claim, truth, conversation, requests);
    DebatedConducted(env, claim, truth, rounds, log);
    HearingExtends(env.Chat(), claim, truth, log, 2 * Clamp(rounds), conversation, requests, run.conversation, run.log);
  }

  /** The verdict the judge stage falls back to when the judge gave nothing usable. */
  function FallbackVerdict(claim: string, truth: string, conversation: seq<AgentMessage>): VerdictPayload {
    VerdictPayload(
      claim, truth, conversation + [AgentMessage("Judge", FallbackSummary)],
      FallbackSummary, "uncertain", JNum(0.5), JArr([JStr("System Error")]))
  }

  /** A falsy judge answer (none at all, `{}`, `[]`, `""`, `0`, `false` or `null`) yields the fallback verdict. */
  lemma ConcludeFallback(claim: string, truth: string, conversation: seq<AgentMessage>, judged: Option<Json>, log: seq<Request>)
    requires Falsy(judged)
    ensures Conclude(claim, truth, conversation, judged, log).outcome == Success(FallbackVerdict(claim, truth, conversation))
  {
    assert JudgeFields(judged) == Success(JudgeFallback);
    assert Get(JudgeFallback, "summary", JStr("")) == JStr(FallbackSummary);
    assert Get(JudgeFallback, "decision", JStr("uncertain")) == JStr("uncertain");
    assert Get(JudgeFallback, "confidence", JNum(0.5)) == JNum(0.5);
    assert Get(JudgeFallback, "disclaimers", JArr([])) == JArr([JStr("System Error")]);
    UncertainIsLowercase();
  }

  /**
   * A truthy judge answer that is not an object raises. An object is read as
   * it stands: a verdict exactly when its summary (default "") and its
   * decision (default "uncertain") are strings, else the error of the first
   * that is not. The verdict's decision is the decision lower-cased, with no
   * capital left and unchanged when it had none; its confidence (default
   * 0.5) and its disclaimers (default []) are the answer's own.
   */
  lemma ConcludeReadsAnswer(claim: string, truth: string, conversation: seq<AgentMessage>, judged: Option<Json>, log: seq<Request>)
    requires judged.Some? && Truthy(judged.value)
    ensures var run := Conclude(claim, truth, conversation, judged, log);
      && (!judged.value.JObj? ==> run.outcome == Failure(JudgeNotObject))
      && (judged.value.JObj? ==>
        var summary := Get(judged.value.fields, "summary", JStr(""));
        var decision := Get(judged.value.fields, "decision", JStr("uncertain"));
        && (run.outcome.Success? <==> summary.JStr? && decision.JStr?)
        && (!summary.JStr? ==> run.outcome == Failure(SummaryNotText))
        && (summary.JStr? && !decision.JStr? ==> run.outcome == Failure(DecisionNotText))
        && (run.outcome.Success? ==>
          && run.outcome.value.summary == summary.s
          && run.outcome.value.decision == Lower(decision.s)
          && (forall i | 0 <= i < |run.outcome.value.decision| :: !IsUpper(run.outcome.value.decision[i]))
          && ((forall i | 0 <= i < |decision.s| :: !IsUpper(decision.s[i])) ==> run.outcome.value.decision == decision.s)
          && run.outcome.value.confidence == Get(judged.value.fields, "confidence", JNum(0.5))
          && run.outcome.value.disclaimers == Get(judged.value.fields, "disclaimers", JArr([]))))
  {
    if judged.value.JObj? {
      var decision := Get(judged.value.fields, "decision", JStr("uncertain"));
      if decision.JStr? {
        LowerHasNoUpper(decision.s);
        if forall i | 0 <= i < |decision.s| :: !IsUpper(decision.s[i]) {
          LowerFixesLowercase(decision.s);
        }
      }
    }
  }

  /**
   * The judge stage: the first request carries the judge prompt unchanged
   * and every retry that prompt with the note appended once; every answer
   * but the last failed to decode; the verdict is drawn from the last answer
   * when it decoded, and is the fallback when none did.
   */
  lemma JudgementRequests(env: Env, claim: string, truth: string, conversation: seq<AgentMessage>, log: seq<Request>)
    ensures var run := Judgement(env, claim, truth, conversation, log);
      var prompt := JudgePrompt(env.dump, claim, truth, conversation);
      && |log| + 1 <= |run.log| <= |log| + 3
      && run.log[|log|] == Request(Judge, prompt, JudgeModel, JsonTemperature)
      && (forall i | |log| < i < |run.log| :: run.log[i] == Request(Judge, prompt + RetryNote, JudgeModel, JsonTemperature))
      && (forall i | |log| <= i < |run.log| - 1 :: ParsedReply(env.Chat(), env.Decode(), run.log, i).None?)
      && var decoded := ParsedReply(env.Chat(), env.Decode(), run.log, |run.log| - 1);
        && (decoded.None? ==> |run.log| == |log| + 3 && run.outcome == Success(FallbackVerdict(claim, truth, conversation)))
        && (decoded.Some? ==> run == Conclude(claim, truth, conversation, decoded, run.log))
  {
    var call := JudgeCall(env, claim, truth, conversation);
    var e := Attempts(env.Chat(), env.Decode(), call, call.user, Clamp(DefaultRetries), log);
    AttemptsAppend(env.Chat(), env.Decode(), call, call.user, Clamp(DefaultRetries), log);
    AttemptsFixedRetries(env.Chat(), env.Decode(), call, Clamp(DefaultRetries), log);
    AttemptsFailBeforeLast(env.Chat(), env.Decode(), call, call.user, Clamp(DefaultRetries), log);
    AttemptsResult(env.Chat(), env.Decode(), call, call.user, Clamp(DefaultRetries), log);
    if e.result.None? {
      ConcludeFallback(claim, truth, conversation, e.result, e.log);
    }
  }

  /**
   * In `run_jury` the judge is asked about the whole conversation before its
   * own entry, first with the judge prompt and then, on each retry, with the
   * same prompt and the note once; when no answer decodes the verdict is the
   * fallback.
   */
  lemma JuryJudgement(env: Env, claim: string, truth: string, rounds: int, log: seq<Request>)
    ensures var run := Jury(env, claim, truth, rounds, log); var n := 2 * Clamp(rounds); var b := |log|;
      && |run.conversation| >= n + 2
      && b + n + 3 <= |run.log| <= b + n + 5
      && var prompt := JudgePrompt(env.dump, claim, truth, run.conversation[..n + 2]);
        && run.log[b + n + 2] == Request(Judge, prompt, JudgeModel, JsonTemperature)
        && (forall i | b + n + 2 < i < |run.log| ::
              run.log[i] == Request(Judge, prompt + RetryNote, JudgeModel, JsonTemperature))
        && ((forall i | b + n + 2 <= i < |run.log| :: ParsedReply(env.Chat(), env.Decode(), run.log, i).None?)
              ==> run.outcome == Success(FallbackVerdict(claim, truth, run.conversation[..n + 2])))
  {
    var evidence := Evidence(env, claim, truth, log);
    var debate := Debated(env, claim, truth, rounds, log);
    DebatedConducted(env, claim, truth, rounds, log);
    var check := FactCheckRequest(DebatePrefix(claim, truth, evidence), debate.history);
    var requests := debate.log + [check];
    var conversation := Hearing(evidence, debate.turns, env.Chat()(debate.log, check));
    var run := Jury(env, claim, truth, rounds, log);
    assert run == Judgement(env, claim, truth, conversation, requests);
    JudgementAppends(env, claim, truth, conversation, requests);
    JudgementRequests(env, claim, truth, conversation, requests);
    assert run.conversation[..2 * Clamp(rounds) + 2] == conversation;
  }

  /**
   * The decision is only lower-cased: a judge answering "Partly" yields the
   * decision "partly", none of "faithful", "mutated" and "uncertain".
   */
  lemma DecisionIsNotValidated(claim: string, truth: string, conversation: seq<AgentMessage>, log: seq<Request>)
    ensures var answer := JObj(map["decision" := JStr("Partly")]);
      var run := Conclude(claim, truth, conversation, Some(answer), log);
      && run.outcome.Success?
      && run.outcome.value.decision == "partly"
      && run.outcome.value.decision !in {"faithful", "mutated", "uncertain"}
  {
    var answer := JObj(map["decision" := JStr("Partly")]);
    assert "summary" !in answer.fields;
    assert "decision" in answer.fields;
    assert Truthy(answer);
    assert JudgeFields(Some(answer)) == Success(answer.fields);
    PartlyLowered();
  }

  lemma PartlyLowered()
    ensures Lower("Partly") == "partly"
  {}
}
