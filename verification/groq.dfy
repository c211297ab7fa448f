/** `analyzeResume` of the completion-service client used by the resume
    analyzer: the API-key guard, the `roles` default, and the recovery of the
    JSON object from the raw completion text by `indexOf('{')`,
    `lastIndexOf('}')` and `substring`. The HTTP request is the parameter
    `post`; `JSON.parse` is the parameter `parse`. */
module ResumeAnalyzer {
  import opened Wrappers
  import opened Text
  import opened Json
  import FeedbackParser

  /** What the request carries that depends on the arguments: the resume
      text, the `roles` value (serialized into the prompt) and the optional
      job description. */
  datatype AnalysisRequest = AnalysisRequest(resumeText: string, roles: Value, jobDescription: Option<string>)

  const KeyMissing := "GROQ_API_KEY is not defined"
  const InvalidJson := "Invalid JSON response from LLM"

  /** `roles: string[] = ['General']`: the default replaces only a missing
      argument. */
  function RolesOrDefault(roles: Option<Value>): (r: Value)
    ensures roles.None? ==> r == JArr([JStr("General")])
    ensures roles.Some? ==> r == roles.value
  {
    roles.GetOr(JArr([JStr("General")]))
  }

  /** `raw.substring(raw.indexOf('{'), raw.lastIndexOf('}') + 1)` */
  function Candidate(raw: string): string {
    Substring(raw, IndexOf(raw, '{'), LastIndexOf(raw, '}') + 1)
  }

  /** When a `{` comes before a later `}`, the candidate is the inclusive
      span between the first `{` and the last `}`, which opens with `{` and
      closes with `}`. */
  lemma CandidateSpan(raw: string)
    requires IndexOf(raw, '{') >= 0 && LastIndexOf(raw, '}') > IndexOf(raw, '{')
    ensures var c := Candidate(raw);
            c == raw[IndexOf(raw, '{')..LastIndexOf(raw, '}') + 1] &&
            |c| >= 2 && c[0] == '{' && c[|c| - 1] == '}'
  {
    var f, l := IndexOf(raw, '{'), LastIndexOf(raw, '}');
    var c := raw[f..l + 1];
    assert Candidate(raw) == c;
    assert c[0] == raw[f] && c[|c| - 1] == raw[l];
  }

  /** The analyzer's candidate is exactly the text the feedback parser's
      greedy pattern matches whenever that pattern matches at all. */
  lemma CandidateMatchesParser(raw: string)
    requires FeedbackParser.BraceSpan(raw).Some?
    ensures FeedbackParser.BraceSpan(raw) == Some(Candidate(raw))
  {
    assert Candidate(raw) == raw[IndexOf(raw, '{')..LastIndexOf(raw, '}') + 1];
  }

  /** `substring` semantics when the braces are missing or out of order: a
      missing `{` makes the start -1, which clamps to 0; a start after the end
      swaps the bounds. */
  lemma CandidateOutOfOrder(raw: string)
    ensures IndexOf(raw, '{') == -1 ==> Candidate(raw) == raw[..LastIndexOf(raw, '}') + 1]
    ensures IndexOf(raw, '{') >= 0 && LastIndexOf(raw, '}') < IndexOf(raw, '{') ==>
              Candidate(raw) == raw[LastIndexOf(raw, '}') + 1..IndexOf(raw, '{')]
  {
    var f, l := IndexOf(raw, '{'), LastIndexOf(raw, '}');
    if f == -1 {
      assert Candidate(raw) == Substring(raw, -1, l + 1);
    }
  }

  /** The inner `try`: reading an undefined completion or a failed parse is
      rethrown as one fixed error; otherwise the parsed value is returned. */
  function Extract(raw: Option<string>, parse: string -> Option<Value>): (r: Result<Value>)
    ensures r.Err? ==> r.message == InvalidJson
    ensures r.Ok? <==> raw.Some? && parse(Candidate(raw.value)).Some?
    ensures r.Ok? ==> r.value == parse(Candidate(raw.value)).value
  {
    if raw.None? then Err(InvalidJson)
    else match parse(Candidate(raw.value))
      case None => Err(InvalidJson)
      case Some(v) => Ok(v)
  }

  /** `analyzeResume(resumeText, roles?, jobDescription?)`. */
  function AnalyzeResume(apiKey: Option<string>, resumeText: string, roles: Option<Value>,
                         jobDescription: Option<string>, post: AnalysisRequest -> Result<Option<string>>,
                         parse: string -> Option<Value>): (r: Result<Value>)
    // a missing key fails before any request, whatever the service would say
    ensures !Filled(apiKey) ==> r == Err(KeyMissing)
    // with a key, a transport failure propagates and anything else is the extraction
    ensures Filled(apiKey) ==>
              var req := AnalysisRequest(resumeText, RolesOrDefault(roles), jobDescription);
              (post(req).Err? ==> r == Err(post(req).message)) &&
              (post(req).Ok? ==> r == Extract(post(req).value, parse))
  {
    if !Filled(apiKey) then Err(KeyMissing)
    else
      var raw :- post(AnalysisRequest(resumeText, RolesOrDefault(roles), jobDescription));
      Extract(raw, parse)
  }
}
