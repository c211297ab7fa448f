/** The `POST /api/next-question` route handler: it digests the resume with
    the completion service, chooses between a resume-sourced question and a
    follow-up on the previous answer, asks the service for the question,
    grades the previous answer when the reply continues the conversation, and
    answers with the reply plus the digest under `resumeHighlights`.

    The handler has no `try`/`catch`: every thrown error (a failed completion,
    unparsable content, a property read on `null`) escapes it, which the model
    reports as `Unhandled`. */
module NextQuestionRoute {
  import opened Wrappers
  import opened Text
  import opened Json
  import opened Prompts
  import opened Selection

  /** The destructured request body. `conversationHistory` is any JSON value;
      `None` stands for a missing field, which defaults to `[]`. */
  datatype Request = Request(
    previousQuestion: Option<string>,
    userAnswer: Option<string>,
    resumeText: Option<string>,
    role: Option<string>,
    experienceLevel: Option<string>,
    conversationHistory: Option<Value>)

  const MissingFields := "Missing required fields"
  const HighlightsKey := "resumeHighlights"

  /** `resumeText && role && experienceLevel` */
  predicate HasRequiredFields(req: Request) {
    Filled(req.resumeText) && Filled(req.role) && Filled(req.experienceLevel)
  }

  /** `conversationHistory.length` after the `= []` default: `null` throws;
      arrays and strings have a length; for any other value it is `undefined`,
      which no comparison with a number satisfies. */
  function HistoryLength(history: Option<Value>): (r: Result<Option<int>>)
    ensures r.Err? <==> history == Some(JNull)
    ensures history.None? ==> r == Ok(Some(0))
    ensures history.Some? && history.value.JArr? ==> r == Ok(Some(|history.value.items|))
  {
    match history
    case None => Ok(Some(0))
    case Some(JNull) => Err("TypeError: Cannot read properties of null")
    case Some(JArr(items)) => Ok(Some(|items|))
    case Some(JStr(s)) => Ok(Some(|s|))
    case Some(_) => Ok(None)
  }

  /** The route's own filter over `Object.entries(resumeData)`, written as a
      left-to-right accumulation: an entry is kept when its value is an array
      with `length > 0`. */
  function CollectCategories(entries: Fields, acc: seq<Category>): seq<Category>
    decreases |entries|
  {
    if |entries| == 0 then acc
    else
      var acc' := if HasItems(entries[0].1) then acc + [Category(entries[0].0, entries[0].1.items)] else acc;
      CollectCategories(entries[1..], acc')
  }

  /** The route's filter keeps the same categories, in the same order, as the
      shared question selector. */
  lemma {:induction false} CollectIsEligible(entries: Fields, acc: seq<Category>)
    ensures CollectCategories(entries, acc) == acc + Eligible(entries)
    decreases |entries|
  {
    if |entries| > 0 {
      var acc' := if HasItems(entries[0].1) then acc + [Category(entries[0].0, entries[0].1.items)] else acc;
      CollectIsEligible(entries[1..], acc');
    }
  }

  /** Lines 43-75 of the route: the source of the next question, with the
      short-circuit of `||` (the history length is read only when there is a
      previous question) and `Object.entries(null)` throwing. */
  function RouteSource(previousQuestion: Option<string>, history: Option<Value>, resumeData: Value,
                       d: Draws): Result<Source>
  {
    var ask :-
      if !Filled(previousQuestion) then Ok(true)
      else
        var n :- HistoryLength(history);
        Ok((n.Some? && n.value >= 2) || d.coin);
    if !ask then Ok(FromConversation)
    else if resumeData.JNull? then Err("TypeError: Cannot convert undefined or null to object")
    else
      var cs := CollectCategories(Spread(resumeData), []);
      CollectIsEligible(Spread(resumeData), []);
      if |cs| > 0 then Ok(Pick(cs, d)) else Ok(FromConversation)
  }

  /** The route and the interview utilities implement the same policy: for an
      array history and a non-null digest, the route picks exactly the source
      `SelectSource` picks with the history's length. */
  lemma RouteSourceAgrees(previousQuestion: Option<string>, history: seq<Value>, resumeData: Value, d: Draws)
    requires !resumeData.JNull?
    ensures RouteSource(previousQuestion, Some(JArr(history)), resumeData, d) ==
            Ok(SelectSource(previousQuestion, |history|, Spread(resumeData), d))
  {
    var es := Spread(resumeData);
    CollectIsEligible(es, []);
    assert CollectCategories(es, []) == Eligible(es);
    assert HistoryLength(Some(JArr(history))) == Ok(Some(|history|));
  }

  /** The interview panel never sends `conversationHistory`, so the route sees
      an empty history: a follow-up is replaced by a resume question only when
      there is no previous question or the coin succeeds. */
  lemma MissingHistoryIsEmpty(previousQuestion: Option<string>, resumeData: Value, d: Draws)
    ensures RouteSource(previousQuestion, None, resumeData, d) ==
            RouteSource(previousQuestion, Some(JArr([])), resumeData, d)
    ensures Filled(previousQuestion) && !d.coin ==>
              RouteSource(previousQuestion, None, resumeData, d) == Ok(FromConversation)
  {
  }

  /** The first two completions of the handler: the digest of the resume and
      the reply to the question prompt. */
  function Question(req: Request, d: Draws, llm: Prompt -> Reply, parse: string -> Option<Value>): Result<(Value, Value)>
    requires HasRequiredFields(req)
  {
    var role := req.role.value;
    var level := req.experienceLevel.value;
    var resumeData :- CompleteJson(llm, parse, ResumeAnalysis(req.resumeText.value, role, level));
    var source :- RouteSource(req.previousQuestion, req.conversationHistory, resumeData, d);
    var output :- CompleteJson(llm, parse, PromptFor(source, req.previousQuestion, req.userAnswer, role, level));
    Ok((resumeData, output))
  }

  /** `output.source === 'conversation' && userAnswer` */
  predicate WantsEvaluation(req: Request, output: Value) {
    output.JObj? && Get(output.fields, "source") == Some(JStr("conversation")) && Filled(req.userAnswer)
  }

  /** The evaluation prompt; a missing previous question is interpolated as
      the text `undefined`. */
  function EvaluationPrompt(req: Request): Prompt
    requires HasRequiredFields(req) && Filled(req.userAnswer)
  {
    var question := if req.previousQuestion.Some? then req.previousQuestion.value else "undefined";
    Evaluation(question, req.userAnswer.value, req.role.value, req.experienceLevel.value)
  }

  /** `Object.assign(output, evalData)` when the reply continues the conversation. */
  function Evaluate(req: Request, output: Value, llm: Prompt -> Reply, parse: string -> Option<Value>): Result<Value>
    requires HasRequiredFields(req)
  {
    if WantsEvaluation(req, output) then
      var evalData :- CompleteJson(llm, parse, EvaluationPrompt(req));
      Ok(JObj(Assign(output.fields, Spread(evalData))))
    else Ok(output)
  }

  /** `{ ...output, resumeHighlights: resumeData }` */
  function ResponseBody(output: Value, resumeData: Value): Value {
    JObj(Set(Assign([], Spread(output)), HighlightsKey, resumeData))
  }

  /** The handler. */
  function NextQuestion(req: Request, d: Draws, llm: Prompt -> Reply, parse: string -> Option<Value>): (r: Response)
    // a request missing a required field is refused before any completion is requested
    ensures !HasRequiredFields(req) <==> r == Respond(400, ErrorBody(MissingFields))
    // otherwise the handler either succeeds or throws
    ensures HasRequiredFields(req) ==> r.Unhandled? || (r.Respond? && r.status == 200)
  {
    if !HasRequiredFields(req) then Respond(400, ErrorBody(MissingFields))
    else match Question(req, d, llm, parse)
      case Err(_) => Unhandled
      case Ok((resumeData, output)) =>
        if output.JNull? then Unhandled
        else match Evaluate(req, output, llm, parse)
          case Err(_) => Unhandled
          case Ok(merged) => Respond(200, ResponseBody(merged, resumeData))
  }

  /** Reading the response body: `resumeHighlights` is always the digest, even
      when the reply has a field of that name; every other key reads as in the
      reply. */
  lemma ResponseBodyFields(output: Value, resumeData: Value, k: string)
    ensures Get(ResponseBody(output, resumeData).fields, k) ==
            if k == HighlightsKey then Some(resumeData) else Get(Spread(output), k)
  {
    var base := Assign([], Spread(output));
    SetFacts(base, HighlightsKey, resumeData, k);
    AssignFacts([], Spread(output), k);
    GetDefinedIffKey(Spread(output), k);
  }

  /** The evaluation completion is requested only on the conversation path
      with an answer: two services that agree on every other prompt produce
      the same response unless the question reply asks for an evaluation. */
  lemma EvaluationOnlyOnConversation(req: Request, d: Draws, llm1: Prompt -> Reply, llm2: Prompt -> Reply,
                                     parse: string -> Option<Value>)
    requires forall p: Prompt :: !p.Evaluation? ==> llm1(p) == llm2(p)
    ensures NextQuestion(req, d, llm1, parse) != NextQuestion(req, d, llm2, parse) ==>
              HasRequiredFields(req) && Question(req, d, llm1, parse).Ok? &&
              WantsEvaluation(req, Question(req, d, llm1, parse).value.1)
  {
    if HasRequiredFields(req) {
      var role := req.role.value;
      var level := req.experienceLevel.value;
      var digest := ResumeAnalysis(req.resumeText.value, role, level);
      assert CompleteJson(llm1, parse, digest) == CompleteJson(llm2, parse, digest);
      var rd := CompleteJson(llm1, parse, digest);
      if rd.Ok? {
        var source := RouteSource(req.previousQuestion, req.conversationHistory, rd.value, d);
        if source.Ok? {
          var p := PromptFor(source.value, req.previousQuestion, req.userAnswer, role, level);
          assert CompleteJson(llm1, parse, p) == CompleteJson(llm2, parse, p);
        }
      }
      assert Question(req, d, llm1, parse) == Question(req, d, llm2, parse);
    }
  }

  /** On the conversation path with an answer, the grading fields overwrite
      the question reply's fields of the same name, the reply's other fields
      are kept, and the digest is attached. */
  lemma EvaluationOverwrites(req: Request, d: Draws, llm: Prompt -> Reply, parse: string -> Option<Value>, k: string)
    requires HasRequiredFields(req) && Question(req, d, llm, parse).Ok?
    requires WantsEvaluation(req, Question(req, d, llm, parse).value.1)
    requires CompleteJson(llm, parse, EvaluationPrompt(req)).Ok?
    ensures var r := NextQuestion(req, d, llm, parse);
            var (resumeData, output) := Question(req, d, llm, parse).value;
            var evalData := CompleteJson(llm, parse, EvaluationPrompt(req)).value;
            r.Respond? && r.status == 200 && r.body.JObj? &&
            Get(r.body.fields, k) ==
              if k == HighlightsKey then Some(resumeData)
              else if k in Keys(Spread(evalData)) then Get(Spread(evalData), k)
              else Get(output.fields, k)
  {
    var (resumeData, output) := Question(req, d, llm, parse).value;
    var evalData := CompleteJson(llm, parse, EvaluationPrompt(req)).value;
    var merged := Assign(output.fields, Spread(evalData));
    assert Evaluate(req, output, llm, parse) == Ok(JObj(merged));
    ResponseBodyFields(JObj(merged), resumeData, k);
    SpreadObject(merged, k);
    AssignFacts(output.fields, Spread(evalData), k);
  }

  /** Without an evaluation the response is the question reply as is, plus
      the digest. */
  lemma ReplyPassesThrough(req: Request, d: Draws, llm: Prompt -> Reply, parse: string -> Option<Value>, k: string)
    requires HasRequiredFields(req) && Question(req, d, llm, parse).Ok?
    requires !Question(req, d, llm, parse).value.1.JNull?
    requires !WantsEvaluation(req, Question(req, d, llm, parse).value.1)
    ensures var r := NextQuestion(req, d, llm, parse);
            var (resumeData, output) := Question(req, d, llm, parse).value;
            r.Respond? && r.status == 200 && r.body.JObj? &&
            Get(r.body.fields, k) == if k == HighlightsKey then Some(resumeData) else Get(Spread(output), k)
  {
    var (resumeData, output) := Question(req, d, llm, parse).value;
    ResponseBodyFields(output, resumeData, k);
  }
}
