/**
 * The HTTP side of the web backend: the case list loaded from the CSV file
 * at start-up and looked up by id, and the latest-verdict store, which
 * keeps the verdict both in memory and in `result.json`.
 */
module Api {
  import opened Wrappers
  import opened Text
  import opened Json
  import opened Llm
  import opened Debate
  import opened Backend

  /** An `HTTPException`: status code and detail text. */
  datatype HttpError = HttpError(status: int, detail: string)

  // ---------------------------------------------------------------
  // Cases
  // ---------------------------------------------------------------

  datatype CaseItem = CaseItem(id: int, claim: string, truth: string)

  /** One CSV record as `csv.DictReader` gives it: header name to cell, `None` where a short row has no cell. */
  type CsvRow = map<string, Option<string>>

  /** Why loading the cases raises. */
  datatype LoadError =
      /** The header has no such column (`KeyError`). */
    | MissingColumn(column: string)
      /** A short row has no cell for the column, and `None` has no `strip()`. */
    | MissingCell(column: string)

  /** `row[column].strip()`. */
  function Cell(row: CsvRow, column: string): (r: Result<string, LoadError>)
    ensures r.Success? <==> column in row && row[column].Some?
    ensures r.Success? ==> r.value == Strip(row[column].value)
    ensures r.Success? ==> Trimmed(r.value)
    ensures r.Failure? ==> r.error == (if column in row then MissingCell(column) else MissingColumn(column))
  {
    if column !in row then Failure(MissingColumn(column))
    else if row[column].None? then Failure(MissingCell(column))
    else Success(Strip(row[column].value))
  }

  /** The case made of the `i`-th record (from zero): its id is `i + 1`, the claim is read before the truth. */
  function CaseOf(i: nat, row: CsvRow): Result<CaseItem, LoadError> {
    match Cell(row, "claim")
    case Failure(e) => Failure(e)
    case Success(claim) =>
      match Cell(row, "truth")
      case Failure(e) => Failure(e)
      case Success(truth) => Success(CaseItem(i + 1, claim, truth))
  }

  /** The ids of a case list are 1, 2, 3, ... in order. */
  predicate Numbered(cases: seq<CaseItem>) {
    forall i | 0 <= i < |cases| :: cases[i].id == i + 1
  }

  /**
   * `load_cases`: no file gives no cases; otherwise one case per record, in
   * order, numbered from 1, with claim and truth stripped; the first record
   * that cannot be read aborts the load with its error.
   */
  method LoadCases(file: Option<seq<CsvRow>>) returns (r: Result<seq<CaseItem>, LoadError>)
    ensures file.None? ==> r == Success([])
    ensures r.Success? ==> Numbered(r.value)
    ensures file.Some? && r.Success? ==>
      && |r.value| == |file.value|
      && forall i | 0 <= i < |file.value| :: CaseOf(i, file.value[i]) == Success(r.value[i])
    ensures file.Some? ==>
      (r.Failure? <==> exists i | 0 <= i < |file.value| :: CaseOf(i, file.value[i]).Failure?)
    ensures file.Some? && r.Failure? ==>
      exists i | 0 <= i < |file.value| ::
        && CaseOf(i, file.value[i]) == Failure(r.error)
        && forall j | 0 <= j < i :: CaseOf(j, file.value[j]).Success?
  {
    var cases: seq<CaseItem> := [];
    if file.None? {
      return Success(cases);
    }
    var rows := file.value;
    var i := 0;
    while i < |rows|
      invariant 0 <= i <= |rows| && |cases| == i
      invariant forall j | 0 <= j < i :: CaseOf(j, rows[j]) == Success(cases[j])
    {
      var claim := Cell(rows[i], "claim");
      if claim.Failure? {
        assert CaseOf(i, rows[i]).Failure?;
        return Failure(claim.error);
      }
      var truth := Cell(rows[i], "truth");
      if truth.Failure? {
        assert CaseOf(i, rows[i]).Failure?;
        return Failure(truth.error);
      }
      cases := cases + [CaseItem(i + 1, claim.value, truth.value)];
      i := i + 1;
    }
    return Success(cases);
  }

  /** `GET /api/cases/{case_id}`: the `case_id`-th case, counting from 1, or 404. */
  function GetCase(cases: seq<CaseItem>, caseId: int): (r: Result<CaseItem, HttpError>)
    ensures r.Failure? <==> caseId < 1 || caseId > |cases|
    ensures r.Failure? ==> r.error == HttpError(404, "Case not found")
    ensures r.Success? ==> r.value in cases
  {
    if caseId < 1 || caseId > |cases| then Failure(HttpError(404, "Case not found"))
    else Success(cases[caseId - 1])
  }

  /** On a loaded case list, looking up an id finds the case with that id, and every case is found by its id. */
  lemma GetCaseFindsId(cases: seq<CaseItem>, caseId: int)
    requires Numbered(cases)
    ensures GetCase(cases, caseId).Success? ==> GetCase(cases, caseId).value.id == caseId
    ensures forall k | 0 <= k < |cases| :: GetCase(cases, cases[k].id) == Success(cases[k])
  {
  }

  // ---------------------------------------------------------------
  // The latest verdict
  // ---------------------------------------------------------------

  /** What `result.json` holds, as `GET /api/verdict` reads it. */
  datatype ResultFile =
      /** No file: `FileNotFoundError`. */
    | Missing
      /** Not JSON: `json.JSONDecodeError`. */
    | Garbled
      /** A verdict written by this server. */
    | Written(payload: VerdictPayload)
      /** JSON that `VerdictPayload(**data)` refuses: an uncaught error, answered with status 500. */
    | Unusable

  /** The reply of `POST /api/verdict`. */
  datatype PostAck = PostAck(success: bool, message: string)

  /** `{"type": ..., "data": ...}` of a streamed event. */
  function EventJson(e: Event): Json {
    match e
    case AgentEvent(m) => JObj(map["type" := JStr("agent"), "data" := MessageJson(m)])
    case VerdictEvent(v) => JObj(map["type" := JStr("verdict"), "data" := VerdictJson(v)])
  }

  /** `VerdictPayload.model_dump()`, without timestamps. */
  function VerdictJson(v: VerdictPayload): Json {
    JObj(map[
      "claim" := JStr(v.claim),
      "truth" := JStr(v.truth),
      "conversation" := ConversationJson(v.conversation),
      "summary" := JStr(v.summary),
      "decision" := JStr(v.decision),
      "confidence" := v.confidence,
      "disclaimers" := v.disclaimers])
  }

  /** One server-sent event on the wire; `dump` is the compact `json.dumps(event)`, not the judge prompt's indented one. */
  function Frame(dump: Json -> string, e: Event): string {
    "data: " + dump(EventJson(e)) + "\n\n"
  }

  /** The payload of the last verdict event among `events`, if there is one. */
  function LastVerdict(events: seq<Event>): Option<VerdictPayload> {
    if events == [] then None
    else if events[|events| - 1].VerdictEvent? then Some(events[|events| - 1].verdict)
    else LastVerdict(events[..|events| - 1])
  }

  /** Agent events alone carry no verdict. */
  lemma {:induction false} NoVerdictAmongAgents(conversation: seq<AgentMessage>)
    ensures LastVerdict(AgentEvents(conversation)) == None
  {
    if conversation != [] {
      var n := |conversation| - 1;
      assert AgentEvents(conversation)[..n] == AgentEvents(conversation[..n]);
      NoVerdictAmongAgents(conversation[..n]);
    }
  }

  /** A streamed run carries its verdict as the last verdict event, and none when it failed. */
  lemma StreamVerdict(run: JuryRun)
    ensures LastVerdict(Stream(run)) == if run.outcome.Success? then Some(run.outcome.value) else None
  {
    NoVerdictAmongAgents(run.conversation);
    if run.outcome.Success? {
      var s := Stream(run);
      assert s[..|s| - 1] == AgentEvents(run.conversation);
    } else {
      assert Stream(run) == AgentEvents(run.conversation);
    }
  }

  /** The module-level `latest_verdict` slot and the `result.json` file next to the backend. */
  class VerdictStore {
    var latest: Option<VerdictPayload>
    var file: ResultFile

    /** A server just started: an empty slot, and whatever file an earlier run left. */
    constructor(file: ResultFile)
      ensures latest.None? && this.file == file
    {
      latest := None;
      this.file := file;
    }

    /**
     * `GET /api/verdict`: the file when it holds a verdict, else the
     * in-memory slot, else 404; a file that parses but is not a verdict
     * makes the request fail with 500.
     */
    function GetVerdict(): (r: Result<VerdictPayload, HttpError>)
      reads this
      ensures r.Success? ==> (file.Written? && r.value == file.payload) || (!file.Written? && latest == Some(r.value))
      ensures r.Failure? <==> file.Unusable? || ((file.Missing? || file.Garbled?) && latest.None?)
      ensures r.Failure? ==> r.error.status == (if file.Unusable? then 500 else 404)
    {
      match file
      case Written(payload) => Success(payload)
      case Unusable => Failure(HttpError(500, "Internal Server Error"))
      case _ => if latest.Some? then Success(latest.value) else Failure(HttpError(404, "No verdict available"))
    }

    /** `POST /api/verdict`: the slot and the file take the posted verdict, which every later read returns. */
    method PostVerdict(payload: VerdictPayload) returns (ack: PostAck)
      modifies this
      ensures latest == Some(payload) && file == Written(payload)
      ensures GetVerdict() == Success(payload)
      ensures ack == PostAck(true, "Verdict received")
    {
      latest := Some(payload);
      file := Written(payload);
      ack := PostAck(true, "Verdict received");
    }

    /**
     * `POST /api/verify`: runs the jury; a verdict goes to the slot and the
     * file and is returned; an error leaves both as they were.
     */
    method VerifyClaim(env: Env, request: VerifyRequest, log: seq<Request>)
      returns (r: Result<VerdictPayload, JuryError>, log': seq<Request>)
      modifies this
      ensures var run := Jury(env, request.claim, request.truth, request.debateRounds, log);
        r == run.outcome && log' == run.log
      ensures r.Success? ==> latest == Some(r.value) && file == Written(r.value) && GetVerdict() == Success(r.value)
      ensures r.Failure? ==> latest == old(latest) && file == old(file)
    {
      r, log' := RunJury(env, request.claim, request.truth, request.debateRounds, log);
      if r.Success? {
        latest := Some(r.value);
        file := Written(r.value);
      }
    }

    /**
     * `POST /api/verify/stream`: one frame per streamed event, in order; the
     * verdict event, when there is one, stores the verdict as `VerifyClaim`
     * does.
     */
    method VerifyClaimStream(env: Env, compact: Json -> string, request: VerifyRequest, log: seq<Request>)
      returns (frames: seq<string>, raised: Option<JuryError>, log': seq<Request>)
      modifies this
      ensures var run := Jury(env, request.claim, request.truth, request.debateRounds, log);
        && log' == run.log && raised == Raised(run)
        && |frames| == |Stream(run)|
        && (forall i | 0 <= i < |frames| :: frames[i] == Frame(compact, Stream(run)[i]))
        && (run.outcome.Success? ==> latest == Some(run.outcome.value) && file == Written(run.outcome.value))
        && (run.outcome.Failure? ==> latest == old(latest) && file == old(file))
    {
      var events;
      events, raised, log' := RunJuryStreaming(env, request.claim, request.truth, request.debateRounds, log);
      frames := Relay(compact, events);
      StreamVerdict(Jury(env, request.claim, request.truth, request.debateRounds, log));
    }

    /**
     * The generator of `POST /api/verify/stream`: each event becomes a frame,
     * and a verdict event is stored in the slot and the file on its way out.
     */
    method Relay(dump: Json -> string, events: seq<Event>) returns (frames: seq<string>)
      modifies this
      ensures |frames| == |events|
      ensures forall i | 0 <= i < |events| :: frames[i] == Frame(dump, events[i])
      ensures latest == if LastVerdict(events).Some? then LastVerdict(events) else old(latest)
      ensures file == if LastVerdict(events).Some? then Written(LastVerdict(events).value) else old(file)
    {
      frames := [];
      var i := 0;
      while i < |events|
        invariant 0 <= i <= |events| && |frames| == i
        invariant forall j | 0 <= j < i :: frames[j] == Frame(dump, events[j])
        invariant latest == if LastVerdict(events[..i]).Some? then LastVerdict(events[..i]) else old(latest)
        invariant file == if LastVerdict(events[..i]).Some? then Written(LastVerdict(events[..i]).value) else old(file)
      {
        assert events[..i + 1][..i] == events[..i];
        if events[i].VerdictEvent? {
          latest := Some(events[i].verdict);
          file := Written(events[i].verdict);
        }
        frames := frames + [Frame(dump, events[i])];
        i := i + 1;
      }
      assert events[..|events|] == events;
    }
  }
}
