/** `parseLLMResponse`: pull the JSON object out of a free-text completion
    and read the score, the feedback and the follow-up question from it,
    falling back to a fixed reply whenever anything fails. */
module FeedbackParser {
  import opened Wrappers
  import opened Text
  import opened Json

  /** The text the greedy pattern `/\{[\s\S]*\}/` matches: from the first
      `{` to the last `}`, provided that `}` comes after that `{`. */
  function BraceSpan(s: string): (r: Option<string>)
    ensures r.Some? <==> IndexOf(s, '{') >= 0 && LastIndexOf(s, '}') > IndexOf(s, '{')
    ensures r.Some? ==> r.value == s[IndexOf(s, '{')..LastIndexOf(s, '}') + 1]
  {
    var first := IndexOf(s, '{');
    var last := LastIndexOf(s, '}');
    if first >= 0 && last > first then Some(s[first..last + 1]) else None
  }

  /** The match, described without positions: a slice of the output that
      opens with `{` and closes with `}`, with no `{` before it and no `}`
      after it; and there is no match only when no `}` follows any `{`. */
  lemma BraceSpanIsGreedyMatch(s: string)
    ensures var r := BraceSpan(s);
            (r.Some? ==> exists i :: SliceAt(s, i, r.value) && '{' !in s[..i] && '}' !in s[i + |r.value|..]) &&
            (r.Some? ==> |r.value| >= 2 && r.value[0] == '{' && r.value[|r.value| - 1] == '}') &&
            (r.None? ==> forall i, j :: 0 <= i < j < |s| && s[i] == '{' ==> s[j] != '}')
  {
    var first := IndexOf(s, '{');
    var last := LastIndexOf(s, '}');
    var r := BraceSpan(s);
    if r.Some? {
      assert SliceAt(s, first, r.value);
      assert s[first + |r.value|..] == s[last + 1..];
    }
  }

  /** The three fields the panel reads. */
  datatype Parsed = Parsed(score: Value, feedback: Value, followUpQuestion: Value)

  const FallbackFeedback := "Sorry, something went wrong with AI response."
  const FallbackQuestion := "Could you tell me more about your technical experience?"
  const MissingQuestion := "Next question not found."

  /** The reply used when no JSON is found or anything throws. */
  function Fallback(): Parsed {
    Parsed(JStr("0"), JStr(FallbackFeedback), JStr(FallbackQuestion))
  }

  /** Field defaults `parsed.x || default`; reading a field of `null` throws. */
  function Fields(parsed: Value): (r: Result<Parsed>)
    ensures r.Err? <==> parsed.JNull?
  {
    if parsed.JNull? then Err("TypeError: Cannot read properties of null (reading 'score')")
    else
      var field := k => OptProp(Some(parsed), k);
      Ok(Parsed(Or(field("score"), JStr("0")), Or(field("feedback"), JStr("")),
                Or(field("followUpQuestion"), JStr(MissingQuestion))))
  }

  /** `parseLLMResponse(output)`, with `JSON.parse` as the parameter `parse`. */
  function ParseLLMResponse(output: string, parse: string -> Option<Value>): (r: Parsed)
    // the follow-up question is never falsy
    ensures Truthy(r.followUpQuestion)
    // no span, a parse failure or a `null` document give exactly the fallback
    ensures BraceSpan(output).None? ==> r == Fallback()
    ensures BraceSpan(output).Some? && (parse(BraceSpan(output).value).None? || parse(BraceSpan(output).value) == Some(JNull))
            ==> r == Fallback()
    // otherwise each truthy field is kept and each falsy one defaulted
    ensures BraceSpan(output).Some? && parse(BraceSpan(output).value).Some? && parse(BraceSpan(output).value).value.JObj? ==>
              var fs := parse(BraceSpan(output).value).value.fields;
              r == Parsed(Or(Get(fs, "score"), JStr("0")), Or(Get(fs, "feedback"), JStr("")),
                          Or(Get(fs, "followUpQuestion"), JStr(MissingQuestion)))
  {
    match BraceSpan(output)
    case None => Fallback()
    case Some(candidate) =>
      match parse(candidate)
      case None => Fallback()
      case Some(parsed) =>
        match Fields(parsed)
        case Err(_) => Fallback()
        case Ok(p) => p
  }

  /** Both the score and the follow-up question of the result are truthy:
      a falsy score is replaced by the string `"0"`, which is truthy. */
  lemma ScoreAndQuestionTruthy(output: string, parse: string -> Option<Value>)
    ensures var r := ParseLLMResponse(output, parse);
            Truthy(r.score) && Truthy(r.followUpQuestion)
  {
  }
}
