/** The `POST /api/interview/summary` route handler: it validates the request,
    asks the completion service for per-question analyses and for an overall
    summary, assembles the full report (each analysis stamped with its
    position, plus metadata), stores it and returns it serialized.

    Everything after authentication runs inside one `try`: any thrown error,
    from the completion service, `JSON.parse`, a property read on `null` or
    the store, becomes a 500 response with an error body and no report. The
    clock (`new Date().toISOString()`), `JSON.stringify` and the store's
    insert are parameters. */
module SummaryRoute {
  import opened Wrappers
  import opened Text
  import opened Json
  import opened Prompts

  datatype SummaryRequest = SummaryRequest(
    resumeText: Option<string>,
    role: Option<string>,
    experienceLevel: Option<string>,
    conversationHistory: Option<Value>,
    jobDescription: Option<string>)

  const Unauthorized := "Unauthorized - Please log in"
  const MissingFields := "Missing required fields: resumeText, role, or experienceLevel"
  const HistoryRequired := "Conversation history must be a non-empty array"
  const AnalysisFailed := "Failed to generate interview analysis"

  /** `!x?.trim()`: absent, or blank after trimming. */
  predicate Missing(x: Option<string>) {
    x.None? || Trim(x.value) == ""
  }

  /** `Array.isArray(h) && h.length !== 0` */
  predicate NonEmptyArray(h: Option<Value>) {
    h.Some? && h.value.JArr? && |h.value.items| > 0
  }

  /** One history entry as the prompt builders read it: `entry.question` and
      `entry.answer` interpolated into text; a `null` entry throws. */
  function ToQA(entry: Value): (r: Result<QA>)
    ensures r.Err? <==> entry.JNull?
    ensures entry.JObj? ==> r == Ok(QA(DisplayOpt(Get(entry.fields, "question")),
                                       DisplayOpt(Get(entry.fields, "answer"))))
  {
    if entry.JNull? then Err("TypeError: Cannot read properties of null (reading 'question')")
    else Ok(QA(DisplayOpt(OptProp(Some(entry), "question")), DisplayOpt(OptProp(Some(entry), "answer"))))
  }

  /** The whole history as prompt turns, in order; the first `null` entry throws. */
  function ToHistory(entries: seq<Value>): (r: Result<seq<QA>>)
    ensures r.Ok? ==> |r.value| == |entries| && forall i :: 0 <= i < |entries| ==> ToQA(entries[i]) == Ok(r.value[i])
    ensures r.Err? <==> exists i :: 0 <= i < |entries| && entries[i].JNull?
  {
    if |entries| == 0 then Ok([])
    else
      var first :- ToQA(entries[0]);
      var rest := ToHistory(entries[1..]);
      assert forall i :: 1 <= i < |entries| ==> entries[i] == entries[1..][i - 1];
      if rest.Err? then
        var j :| 0 <= j < |entries[1..]| && entries[1..][j].JNull?;
        assert entries[j + 1].JNull?;
        Err(rest.message)
      else
        Ok([first] + rest.value)
  }

  /** `batchContent.analyses || []` (line 56): a `null` content throws, a
      missing or falsy field gives the empty array, and any truthy value is
      taken as it is. */
  function AnalysesField(batchContent: Value): (r: Result<Value>)
    ensures r.Err? <==> batchContent.JNull?
    ensures r.Ok? ==> Truthy(r.value)
    ensures batchContent.JObj? && !Truthy(Get(batchContent.fields, "analyses").GetOr(JNull)) ==> r == Ok(JArr([]))
    ensures batchContent.JObj? && Get(batchContent.fields, "analyses").Some? &&
            Truthy(Get(batchContent.fields, "analyses").value) ==>
              r == Ok(Get(batchContent.fields, "analyses").value)
  {
    var a :- Prop(batchContent, "analyses");
    Ok(Or(a, JArr([])))
  }

  /** `questionAnalyses.map(...)` (line 80) needs an array; anything else throws. */
  function MapTarget(questionAnalyses: Value): (r: Result<seq<Value>>)
    ensures r.Ok? <==> questionAnalyses.JArr?
    ensures r.Ok? ==> r.value == questionAnalyses.items
  {
    if questionAnalyses.JArr? then Ok(questionAnalyses.items)
    else Err("TypeError: questionAnalyses.map is not a function")
  }

  /** The analyses the report is built from: the field read, then the `.map`
      that needs an array; a `null` content or a truthy non-array throws. */
  function Analyses(batchContent: Value): (r: Result<seq<Value>>)
    ensures batchContent.JNull? ==> r.Err?
    ensures batchContent.JObj? && !Truthy(Get(batchContent.fields, "analyses").GetOr(JNull)) ==> r == Ok([])
    ensures batchContent.JObj? && Get(batchContent.fields, "analyses").Some? &&
            Get(batchContent.fields, "analyses").value.JArr? ==>
              r == Ok(Get(batchContent.fields, "analyses").value.items)
  {
    var v :- AnalysesField(batchContent);
    MapTarget(v)
  }

  const PositionKey := "position"
  const OfTotalKey := "ofTotal"

  /** `{ ...analysis, position: index + 1, ofTotal: total }` */
  function Stamp(analysis: Value, index: nat, total: nat): Value {
    JObj(Set(Set(Assign([], Spread(analysis)), PositionKey, JNum(index + 1)), OfTotalKey, JNum(total)))
  }

  /** `questionAnalyses.map(...)`: one stamped copy per analysis, in order. */
  function StampAll(analyses: seq<Value>, total: nat): (r: seq<Value>)
    ensures |r| == |analyses|
  {
    seq(|analyses|, i requires 0 <= i < |analyses| => Stamp(analyses[i], i, total))
  }

  /** The i-th stamped analysis reads `position` as i + 1, `ofTotal` as the
      history length, and every other key as the analysis the model gave. */
  lemma StampFacts(analyses: seq<Value>, total: nat, i: nat, k: string)
    requires i < |analyses|
    ensures var s := StampAll(analyses, total)[i];
            s.JObj? &&
            Get(s.fields, k) ==
              if k == OfTotalKey then Some(JNum(total))
              else if k == PositionKey then Some(JNum(i + 1))
              else Get(Spread(analyses[i]), k)
  {
    var base := Assign([], Spread(analyses[i]));
    var withPos := Set(base, PositionKey, JNum(i + 1));
    SetFacts(withPos, OfTotalKey, JNum(total), k);
    SetFacts(base, PositionKey, JNum(i + 1), k);
    AssignFacts([], Spread(analyses[i]), k);
    GetDefinedIffKey(Spread(analyses[i]), k);
  }

  /** The `metadata` object of the report. */
  function Metadata(role: string, level: string, now: string, total: nat): Value {
    JObj([("role", JStr(role)), ("experienceLevel", JStr(level)), ("analyzedAt", JStr(now)),
          ("totalQuestions", JNum(total))])
  }

  /** `fullAnalysis` */
  function Report(summary: Value, analyses: seq<Value>, role: string, level: string, now: string, total: nat): Value {
    JObj([("overallSummary", summary), ("questionAnalyses", JArr(StampAll(analyses, total))),
          ("metadata", Metadata(role, level, now, total))])
  }

  /** Lines 41-91 for a validated request: both completions and the
      assembly of the report. */
  function Assemble(req: SummaryRequest, entries: seq<Value>, llm: Prompt -> Reply,
                    parse: string -> Option<Value>, now: string): Result<Value>
    requires !Missing(req.role) && !Missing(req.experienceLevel) && !Missing(req.resumeText)
  {
    var role := req.role.value;
    var level := req.experienceLevel.value;
    var history :- ToHistory(entries);
    var batchContent :- CompleteJson(llm, parse, BatchAnalysis(role, level, history));
    var questionAnalyses :- AnalysesField(batchContent);
    var summary :- CompleteJson(llm, parse, FinalSummary(role, level, req.resumeText.value, req.jobDescription, history));
    var analyses :- MapTarget(questionAnalyses);
    Ok(Report(summary, analyses, role, level, now, |entries|))
  }

  /** The shape of `fullAnalysis`: one stamped analysis per analysis given,
      each stamped with its 1-based position and the total, and metadata
      whose `totalQuestions` is the total. */
  predicate ReportShape(rep: Value, analyses: seq<Value>, role: string, level: string, total: nat) {
    rep.JObj? &&
    var qa := Get(rep.fields, "questionAnalyses");
    qa.Some? && qa.value.JArr? && |qa.value.items| == |analyses| &&
    (forall i :: 0 <= i < |qa.value.items| ==>
       qa.value.items[i].JObj? &&
       Get(qa.value.items[i].fields, PositionKey) == Some(JNum(i + 1)) &&
       Get(qa.value.items[i].fields, OfTotalKey) == Some(JNum(total))) &&
    var md := Get(rep.fields, "metadata");
    md.Some? && md.value.JObj? &&
    Get(md.value.fields, "role") == Some(JStr(role)) &&
    Get(md.value.fields, "experienceLevel") == Some(JStr(level)) &&
    Get(md.value.fields, "totalQuestions") == Some(JNum(total))
  }

  lemma ReportHasShape(summary: Value, analyses: seq<Value>, role: string, level: string, now: string, total: nat)
    ensures ReportShape(Report(summary, analyses, role, level, now, total), analyses, role, level, total)
  {
    forall i | 0 <= i < |analyses|
      ensures var s := StampAll(analyses, total)[i];
              s.JObj? && Get(s.fields, PositionKey) == Some(JNum(i + 1)) &&
              Get(s.fields, OfTotalKey) == Some(JNum(total))
    {
      StampFacts(analyses, total, i, PositionKey);
      StampFacts(analyses, total, i, OfTotalKey);
    }
    var md := Metadata(role, level, now, total).fields;
    assert md[..3][..2] == md[..2] && md[..2][..1] == md[..1];
    assert Get(md, "experienceLevel") == Get(md[..2], "experienceLevel");
    assert Get(md, "role") == Get(md[..3], "role") == Get(md[..2], "role") == Get(md[..1], "role");
  }

  /** The report's counts: one stamped analysis per analysis the model
      returned (not per history entry), each stamped with its 1-based
      position and the history length, and metadata whose `totalQuestions`
      is the history length and whose role and level are the request's. */
  lemma AssembleFacts(req: SummaryRequest, entries: seq<Value>, llm: Prompt -> Reply,
                      parse: string -> Option<Value>, now: string)
    requires !Missing(req.role) && !Missing(req.experienceLevel) && !Missing(req.resumeText)
    requires Assemble(req, entries, llm, parse, now).Ok?
    ensures var history := ToHistory(entries).value;
            var batch := CompleteJson(llm, parse, BatchAnalysis(req.role.value, req.experienceLevel.value, history));
            batch.Ok? && Analyses(batch.value).Ok? &&
            ReportShape(Assemble(req, entries, llm, parse, now).value, Analyses(batch.value).value,
                        req.role.value, req.experienceLevel.value, |entries|)
  {
    var role, level := req.role.value, req.experienceLevel.value;
    var history := ToHistory(entries).value;
    var batch := CompleteJson(llm, parse, BatchAnalysis(role, level, history)).value;
    var summary := CompleteJson(llm, parse, FinalSummary(role, level, req.resumeText.value, req.jobDescription, history)).value;
    var analyses := Analyses(batch).value;
    assert Assemble(req, entries, llm, parse, now).value == Report(summary, analyses, role, level, now, |entries|);
    ReportHasShape(summary, analyses, role, level, now, |entries|);
  }

  /** `{ error, details }`: the failure body, which holds no report. */
  function ErrorDetails(message: string): (r: Value)
    ensures r.JObj? && Keys(r.fields) == {"error", "details"}
  {
    var fs := [("error", JStr(AnalysisFailed)), ("details", JStr(message))];
    assert fs[..1][..0] == [];
    assert Keys(fs[..1]) == {"error"};
    JObj(fs)
  }

  /** The handler. `userId` is the signed-in user, if any; `insert` stores the
      serialized report for the user and yields the new record's id, or the
      store's error message. */
  function Summarize(userId: Option<string>, req: SummaryRequest, llm: Prompt -> Reply,
                     parse: string -> Option<Value>, now: string, stringify: Value -> string,
                     insert: (string, string) -> Result<Value>): (r: Response)
    ensures r.Respond?
    ensures !Filled(userId) <==> r.status == 401
    ensures Filled(userId) && (Missing(req.resumeText) || Missing(req.role) || Missing(req.experienceLevel)) ==>
              r == Respond(400, ErrorBody(MissingFields))
    ensures Filled(userId) && !Missing(req.resumeText) && !Missing(req.role) && !Missing(req.experienceLevel) &&
            !NonEmptyArray(req.conversationHistory) ==>
              r == Respond(400, ErrorBody(HistoryRequired))
    ensures r.status == 500 ==> r.body.JObj? && Keys(r.body.fields) == {"error", "details"}
    ensures r.status in {200, 400, 401, 500}
  {
    if !Filled(userId) then Respond(401, ErrorBody(Unauthorized))
    else if Missing(req.resumeText) || Missing(req.role) || Missing(req.experienceLevel) then
      Respond(400, ErrorBody(MissingFields))
    else if !NonEmptyArray(req.conversationHistory) then Respond(400, ErrorBody(HistoryRequired))
    else
      var entries := req.conversationHistory.value.items;
      match Assemble(req, entries, llm, parse, now)
      case Err(message) => Respond(500, ErrorDetails(message))
      case Ok(report) =>
        var data := stringify(report);
        match insert(userId.value, data)
        case Err(message) => Respond(500, ErrorDetails(message))
        case Ok(id) => Respond(200, JObj([("success", JBool(true)), ("data", JStr(data)), ("analysisId", id)]))
  }

  /** A request whose history holds a `null` entry never produces a report. */
  lemma NullEntryFails(userId: string, req: SummaryRequest, llm: Prompt -> Reply,
                       parse: string -> Option<Value>, now: string, stringify: Value -> string,
                       insert: (string, string) -> Result<Value>, i: nat)
    requires userId != ""
    requires !Missing(req.resumeText) && !Missing(req.role) && !Missing(req.experienceLevel)
    requires NonEmptyArray(req.conversationHistory)
    requires i < |req.conversationHistory.value.items| && req.conversationHistory.value.items[i].JNull?
    ensures Summarize(Some(userId), req, llm, parse, now, stringify, insert).status == 500
  {
    assert ToHistory(req.conversationHistory.value.items).Err?;
  }

  /** A successful response carries exactly the serialization of the
      assembled report and the stored record's id. */
  lemma SuccessCarriesReport(userId: string, req: SummaryRequest, llm: Prompt -> Reply,
                             parse: string -> Option<Value>, now: string, stringify: Value -> string,
                             insert: (string, string) -> Result<Value>)
    requires Summarize(Some(userId), req, llm, parse, now, stringify, insert).status == 200
    ensures NonEmptyArray(req.conversationHistory)
    ensures var entries := req.conversationHistory.value.items;
            var rep := Assemble(req, entries, llm, parse, now);
            var r := Summarize(Some(userId), req, llm, parse, now, stringify, insert);
            rep.Ok? && insert(userId, stringify(rep.value)).Ok? &&
            r.body == JObj([("success", JBool(true)), ("data", JStr(stringify(rep.value))),
                            ("analysisId", insert(userId, stringify(rep.value)).value)])
  {
  }
}
