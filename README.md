# Claim-verification jury, modelled in Dafny

This project models the deterministic core of a claim-verification system.
The system decides whether a short claim faithfully represents a source
text. A pipeline of language-model personas does the work:

- an Evidence Scout;
- an Advocate and a Skeptic who debate in rounds;
- a Fact-Checker;
- in the command-line script, also a meta-controller, two pre-analysts and a Context Analyst;
- a Judge, whose answer must be JSON.

Two programs share the pipeline:

- the web backend (`backend/main.py`);
- the command-line script (`script.py`).

The language model is an **oracle**. It is a function from every request
made so far and the new request to the answer text. That covers both a fixed
script of canned answers and a pure function of the prompt. `json.loads` and
`json.dumps` are parameters of the environment (`Llm.Env`). Every pipeline is
modelled twice:

- as a specification function that gives the outcome and the log of every request made;
- as a method with the source's loops, proved equal to that function.

The lemmas then state what the source promises about those functions.

Modules:

- `Wrappers`: `Option` and `Result`.
- `Text`: Python's `str.strip`, ASCII `str.lower` and slicing.
- `Json`: JSON values and Python truthiness.
- `Llm`: `call_llm`, fence cleaning and the retry loop of `get_json_response`. Both programs share these.
- `Debate`: the Advocate/Skeptic loop. Both programs share it.
- `Backend`: `run_jury` and `run_jury_streaming`.
- `Api`: `load_cases`, `get_case` and the latest-verdict store behind the endpoints.
- `Script`: the script's `verify_claim`.

Python exceptions that the source lets escape become `Failure` values. Examples:

- a judge answer that is not an object;
- a decision that is not a string;
- a CSV row without a cell.

The code has no K-juror majority vote and does not coerce unknown decisions
to `uncertain`. The model follows the code:

- one judge call;
- the decision is only lower-cased (`Backend.DecisionIsNotValidated`).

## Model

| member | source | states |
|---|---|---|
| Text.Strip | backend/main.py:126 | the answer of `call_llm` has no leading or trailing whitespace and is no longer than the raw answer |
| Text.StripSurrounded | script.py:30 | stripping removes exactly the surrounding whitespace and keeps a trimmed core unchanged |
| Text.StripIdempotent | backend/main.py:126 | stripping an already stripped answer changes nothing |
| Text.Take | script.py:58 | `content[:200]` has length min(200, len) and is a prefix of the content |
| Text.Lower | backend/main.py:252 | `.lower()` keeps the length |
| Text.LowerMapsCapitals | backend/main.py:252 | `.lower()` turns each capital `A`..`Z` into the small letter at the same place in the alphabet |
| Text.LowerHasNoUpper | backend/main.py:252 | no upper-case letter is left after `.lower()` |
| Text.LowerIdempotent | script.py:396 | lower-casing twice equals lower-casing once |
| Text.LowerFixesLowercase | backend/main.py:252 | a decision without upper-case letters passes `.lower()` unchanged |
| Llm.FenceTests | backend/main.py:136-141 | the character tests are exactly `startswith("```")`, `startswith("```json")` and `endswith("```")` |
| Llm.CleanFences | backend/main.py:134-142 | the cleaned text is stripped of surrounding whitespace; text with neither an opening nor a closing fence comes back merely stripped |
| Llm.CleanUnwrapsJsonFence | backend/main.py:136-142 | a body wrapped in a json-tagged fence comes out as the stripped body |
| Llm.CleanUnwrapsPlainFence | script.py:43-51 | a body wrapped in a plain fence comes out as the stripped body, unless the body itself begins with "json" |
| Llm.CleanPrefersJsonFence | backend/main.py:136-139 | a json-tagged opening is removed whole (seven characters), not as a plain fence |
| Llm.CleanRemovesOneOpening | script.py:43-46 | only one opening fence is removed: a doubled fence leaves one in place |
| Llm.AttemptsAppend | backend/main.py:128-150 | the loop only appends requests, at most `max_retries` of them; the first carries the original prompt; `None` comes only after all attempts |
| Llm.AttemptsRetryFromOriginal | backend/main.py:148 | every retry is built from the original prompt and the answer just rejected, never from the previous retry prompt |
| Llm.AttemptsFailBeforeLast | backend/main.py:144-148 | every answer before the last one failed to parse |
| Llm.AttemptsResult | backend/main.py:144-150 | the result is the parse of the last answer when one parsed, and `None` only when every answer failed to parse |
| Llm.AttemptsFixedRetries | backend/main.py:148 | with the backend's fixed note, every retry asks exactly the original prompt plus the note, once |
| Llm.AttemptsEchoBounded | script.py:58 | with the script's echo, every retry starts with the original prompt and the note, and its length is bounded by the prompt, the note and 203 |
| Llm.GetJsonResponse | script.py:32-63 | the loop's result and requests are those of `Attempts` with `max(0, max_retries)` attempts (none when `max_retries` is zero or negative) |
| Debate.SpeakConducted | backend/main.py:184-191 | a turn asks its speaker with the prefix and the history so far, and records the answer in the history |
| Debate.RoundsConducted | backend/main.py:180-201 | `n` rounds add `2 n` turns alternating from the Advocate; each speaker is shown the prefix and the rendering of all earlier turns and answers that very request |
| Debate.RoundsExtend | script.py:303-320 | rounds only append: earlier turns and requests stay as they were |
| Debate.RenderAppend | backend/main.py:191 | the history of concatenated turns is the concatenation of their histories |
| Debate.HistoryShowsEarlierTurns | script.py:306-319 | every earlier turn appears whole and in order in the history a later speaker sees |
| Backend.JudgeFields | backend/main.py:232-238 | a falsy judge answer is replaced by the fallback; an answer that is not an object fails |
| Backend.Conclude | backend/main.py:240-255 | the judge stage never changes the request log; a verdict carries the claim, the truth and the conversation plus the Judge's summary entry; a truthy answer that is not an object fails with nothing added; the Judge's entry is added exactly when the outcome is a verdict or a non-text decision |
| Backend.ConcludeReadsAnswer | backend/main.py:232-255 | a truthy object answer gives a verdict exactly when its summary and decision (defaults "" and "uncertain") are strings, otherwise `SummaryNotText` or `DecisionNotText`; the verdict's decision is the answer's lower-cased, has no capital and is unchanged when it had none; confidence and disclaimers are the answer's, defaulting to 0.5 and []; a truthy non-object fails |
| Backend.RunJury | backend/main.py:159-255 | the method's outcome and requests equal the specification `Jury` |
| Backend.RunJuryStreaming | backend/main.py:258-346 | the streamed events are one event per conversation entry and then the verdict, and the outcome matches `run_jury` |
| Backend.StreamRounds | backend/main.py:275-294 | the streaming debate loop makes the requests, turns and history of `max(0, R)` rounds as `Rounds` says, and streams one agent event per turn |
| Backend.StreamHearing | backend/main.py:258-305 | the streamed hearing is the scout, the debate and the Fact-Checker as in `run_jury`, one event per entry |
| Backend.StreamJudgement | backend/main.py:307-346 | the judge stage streams what `run_jury`'s judge stage yields after the hearing's events, and raises what it raises |
| Backend.JudgeEvents | backend/main.py:323-346 | after the agent events, the judge stage streams the Judge's entry and then the verdict, each only if `run_jury` gets that far before raising |
| Backend.DecisionEvents | backend/main.py:331-346 | from readable judge fields: the Judge's entry once the summary is a string, the verdict once the decision is too |
| Backend.DebatedConducted | backend/main.py:178-201 | the backend's debate is conducted as `Debate.Conducted` says, with `2 max(0, R)` turns |
| Backend.JuryTranscript | backend/main.py:159-255 | the conversation is the scout, `2 max(0, R)` alternating debate turns, the Fact-Checker and the Judge: `2 max(0, R) + 3` entries in every verdict |
| Backend.HearingExtends | backend/main.py:170-214 | appending to the conversation and the request log keeps what was laid out |
| Backend.HearingFromDebate | backend/main.py:165-214 | the scout, the debate and the Fact-Checker are laid out as `HearingLaidOut` says |
| Backend.HearingTurns | backend/main.py:178-209 | each debater is shown the prefix and all earlier turns; the Fact-Checker the prefix and the whole history |
| Backend.HearingReplies | backend/main.py:165-214 | each entry of the hearing is the answer to its own request |
| Backend.HearingRequests | backend/main.py:165-214 | the scout sees truth and claim; each debater sees the prefix and all earlier turns; the Fact-Checker sees the prefix and the whole history; each entry answers its request |
| Backend.JudgementAppends | backend/main.py:230-245 | the judge stage appends one to three requests and at most one entry, keeping the earlier log and conversation |
| Backend.JuryRequests | backend/main.py:159-255 | a run makes `2 max(0, R) + 3` to `2 max(0, R) + 5` requests, laid out as `HearingLaidOut` says |
| Backend.ConcludeFallback | backend/main.py:232-238 | a falsy judge answer yields the fallback verdict: "uncertain", confidence 0.5, the failure summary, "System Error" |
| Backend.JudgementRequests | backend/main.py:218-238 | the first judge request is the judge prompt; each retry adds the fixed note once; every answer but the last failed to decode; three failed answers give the fallback verdict, and a decoded answer is concluded as `Conclude` says |
| Backend.JuryJudgement | backend/main.py:218-238 | the judge is asked about the whole conversation before its own entry |
| Backend.DecisionIsNotValidated | backend/main.py:252 | a judge deciding "Partly" yields the decision "partly", outside the three documented values |
| Api.Cell | backend/main.py:362-363 | a cell is read exactly when the column and the cell are present, and then stripped; a missing column or a missing cell fails with its own error |
| Api.LoadCases | backend/main.py:352-368 | no file gives no cases; otherwise one case per record, in order, with ids 1, 2, 3 and so on; the first unreadable record aborts the load |
| Api.GetCase | backend/main.py:412-418 | 404 "Case not found" exactly when the id is below 1 or above the number of cases; otherwise a loaded case |
| Api.GetCaseFindsId | backend/main.py:412-418 | on loaded cases, the case found has the id asked for, and every case is found by its own id |
| Api.VerdictStore.GetVerdict | backend/main.py:469-486 | the file's verdict when the file holds one, else the in-memory slot, else 404; a file that parses but is not a verdict gives 500 |
| Api.VerdictStore.PostVerdict | backend/main.py:488-498 | the slot and the file take the posted verdict, and the next read returns it |
| Api.VerdictStore.VerifyClaim | backend/main.py:420-438 | the outcome is `run_jury`'s; a verdict is stored in the slot and the file (last writer wins); a failure leaves both unchanged |
| Api.VerdictStore.VerifyClaimStream | backend/main.py:441-467 | one frame `data: <event>\n\n` per event of `run_jury_streaming`; a verdict is stored in the slot and the file; a failure leaves both unchanged |
| Api.VerdictStore.Relay | backend/main.py:444-458 | one frame per event, in order; the slot and the file hold the last verdict event's payload, and are unchanged when there is none |
| Api.StreamVerdict | backend/main.py:331-346 | the last verdict event of a streamed run carries its verdict, and a failed run streams none |
| Script.MetaFields | script.py:224-231 | a falsy meta answer is replaced by the fallback meta; a truthy object is read as its own fields; a truthy answer that is not an object fails |
| Script.EqualisedWeights | script.py:224-244 | a truthy meta object without "weights" gives every role 0.2; a non-object meta answer fails with `MetaNotObject`, a non-object "weights" with `WeightsNotObject` and non-numeric Advocate or Skeptic weights with `WeightsNotNumbers`; numeric ones (0.2 when absent) give a success whose Advocate and Skeptic weights both equal their average |
| Script.EqualisationKeepsTotal | script.py:234-240 | equalisation keeps the Advocate and Skeptic total and every other role's weight |
| Script.FallbackWeightsStay | script.py:225-231 | without a usable meta answer, every role weighs 0.2 |
| Script.EqualisationIdempotent | script.py:234-240 | equalising equalised weights again changes nothing |
| Script.Report | script.py:361-399 | the report carries the claim, the evidence as truth, both analyses and the conversation plus the Judge's summary entry; a failure is a non-object answer or a non-text decision |
| Script.ReportReadsAnswer | script.py:361-399 | a truthy object answer gives a report exactly when its decision (default "uncertain") is a string, else `DecisionNotText`; the decision is lower-cased, has no capital and is unchanged when it had none; the summary (default "") is the Judge's entry; confidence and disclaimers are the answer's, defaulting to 0.5 and []; a truthy non-object fails |
| Script.ReportFallback | script.py:361-367 | a falsy judge answer yields the fallback report, with confidence 0.0 |
| Script.Brief | script.py:263-281 | the method's findings and requests equal those of `Briefed` |
| Script.Argue | script.py:301-320 | the method's entries and requests equal those of the four-round `Debated` |
| Script.VerifyClaim | script.py:202-399 | the method's outcome and requests equal the specification `Verification` |
| Script.Convene | script.py:263-338 | the method's findings, conversation and requests before the judge equal those of `Briefed`, `Debated` and `Consulted` |
| Script.ConsultationRequests | script.py:207-231 | one to three meta requests: first the meta prompt, then retries with a bounded echo; with no usable answer every weight is 0.2 |
| Script.BriefedLaidOut | script.py:263-281 | the scout sees the claim; the Claim Analyst sees only the claim; the Truth Analyst sees only the evidence |
| Script.DebateConducted | script.py:301-320 | the script's debate has eight turns conducted as `Debate.Conducted` says |
| Script.DebateAskedFrom | script.py:301-320 | in any log that extends the debate's, the eight debaters alternate from the Advocate and each is shown the prefix and all earlier answers |
| Script.TurnsSpoken | script.py:303-320 | the debate's turns are the answers recorded in any later log |
| Script.JudgedRequests | script.py:340-367 | the judge prompt covers the whole conversation so far; retries echo at most 200 characters; every answer but the last failed to decode; three failed answers give the fallback report, and a decoded answer is read as `Report` says |
| Script.PanelLaidOut | script.py:263-338 | every request before the judge is laid out as `ScriptLaidOut` says |
| Script.VerificationRequests | script.py:202-360 | bad weights end the run after the meta stage; otherwise each debater sees the common context with both analyses and all earlier answers, the Fact-Checker sees claim and evidence but no debate, and the Context Analyst sees the claim |
| Script.PanelTranscript | script.py:284-338 | before the judge the conversation is the scout, eight alternating turns, the Fact-Checker and the Context Analyst |
| Script.ScriptTranscript | script.py:284-399 | the report's conversation has twelve entries: the scout (whose message is the report's truth), eight alternating turns, the Fact-Checker, the Context Analyst and the Judge |

## Left out

- System prompts: the system-prompt texts are represented only by a `Persona` value. The user prompts are modelled character for character.
- Timestamps: they are not modelled. `get_timestamp`, `get_time` and the `timestamp` field of conversation entries depend on the clock.
- `time.sleep(1)`: the pause between the script's retries is not modelled, because it has no effect on values.
- Logging: `print` output is left out, because it has no effect on values.
- The network: `client.chat.completions.create` is the oracle, so network failures and API errors are not modelled.
- JSON: `json.loads` and `json.dumps` are parameters, so their exact text format is not modelled.
- Numbers: JSON numbers are reals. Float rounding, NaN, infinities and overflow of `(adv + skp) / 2` are not modelled.
- Text.Lower: it maps only ASCII letters. Python's Unicode case mapping is not modelled.
- Pydantic validation: the check that `confidence` is a number and `disclaimers` a list of strings is not modelled. Those fields are kept as JSON values, and pydantic failures other than a non-text summary or decision are left out.
- Api.VerdictStore.GetVerdict: reading `result.json` back is taken as returning the verdict written. The JSON round trip and `VerdictPayload(**data)` on foreign files are abstracted to `ResultFile`.
- Api.LoadCases: the CSV path, file encoding and CSV syntax errors are left out. A record is a map from header to cell.
- Api.VerdictStore.VerifyClaimStream: the frames are built eagerly. The compact `json.dumps(event)` of a frame is a parameter of its own, so its text format is not modelled. The lazy generator, client disconnects and `StreamingResponse` headers are left out.
- The request body: the `debate_rounds = 2` default of `VerifyRequest` belongs to pydantic's parsing of the body, so the model takes the number of rounds as sent.
- Concurrency: concurrent requests racing on `latest_verdict` are not modelled. The store is a single-threaded object.
- Endpoints: the root endpoint, `GET /api/cases`, CORS setup and the start-up `lifespan` hook only wire the modelled functions together, so they are left out.
- Script output: the command-line entry point that prints the report and writes `result.json` is I/O, so it is left out. The report's `analysis` object is flattened into two fields.
- Api.GetCase: it states that a success is one of the loaded cases. That the id matches is `Api.GetCaseFindsId`, which needs the cases as loaded.
