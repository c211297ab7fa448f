/** The feedback card that renders a stored interview report: the defaults
    it substitutes for missing parts, the rounded average of the per-question
    scores, the colour tiers of the overall, average and per-question scores,
    and the colour and text of the hiring verdict.

    The report is typed as the component declares it; every optional
    property is an `Option`. Scores are taken to be the integers the
    interface declares: a string score, which the average's sum would
    concatenate, and a fractional score are outside the model. */
module FeedbackCard {
  import opened Wrappers
  import opened Text
  import opened Tiers

  datatype Recommendation = Recommendation(verdict: Option<string>, rationale: Option<string>)

  /** The overall evaluation; the strength and weakness lists and the
      cultural-fit text are displayed as given and carry no logic. */
  datatype Evaluation = Evaluation(score: Option<int>, summary: Option<string>,
                                   recommendation: Option<Recommendation>)

  datatype QuestionEvaluation = QuestionEvaluation(score: Option<int>, keyStrengths: Option<seq<string>>,
                                                   improvementPriorities: Option<seq<string>>)

  datatype QuestionAnalysis = QuestionAnalysis(question: Option<string>, answer: Option<string>,
                                               overallEvaluation: Option<QuestionEvaluation>)

  datatype Metadata = Metadata(role: Option<string>, experienceLevel: Option<string>,
                               analyzedAt: Option<string>, totalQuestions: Option<int>)

  datatype OverallSummary = OverallSummary(overallEvaluation: Option<Evaluation>)

  datatype AnalysisData = AnalysisData(overallSummary: Option<OverallSummary>,
                                       questionAnalyses: Option<seq<QuestionAnalysis>>,
                                       metadata: Option<Metadata>)

  const NoEvaluation := "No evaluation available"
  const NoRecommendation := "No recommendation"
  const NoRationale := "No rationale provided"

  /** The evaluation shown when the report has none. */
  function DefaultEvaluation(): Evaluation {
    Evaluation(Some(0), Some(NoEvaluation), Some(Recommendation(Some(""), Some(""))))
  }

  /** `analysisData?.overallSummary?.overallEvaluation || default` */
  function OverallEvaluation(data: Option<AnalysisData>): (e: Evaluation)
    ensures (data.None? || data.value.overallSummary.None? || data.value.overallSummary.value.overallEvaluation.None?)
            ==> e == DefaultEvaluation()
    ensures data.Some? && data.value.overallSummary.Some? && data.value.overallSummary.value.overallEvaluation.Some?
            ==> e == data.value.overallSummary.value.overallEvaluation.value
  {
    if data.Some? && data.value.overallSummary.Some? && data.value.overallSummary.value.overallEvaluation.Some? then
      data.value.overallSummary.value.overallEvaluation.value
    else DefaultEvaluation()
  }

  /** `analysisData?.questionAnalyses || []` */
  function QuestionAnalyses(data: Option<AnalysisData>): (qs: seq<QuestionAnalysis>)
    ensures data.None? || data.value.questionAnalyses.None? ==> qs == []
    ensures data.Some? && data.value.questionAnalyses.Some? ==> qs == data.value.questionAnalyses.value
  {
    if data.Some? && data.value.questionAnalyses.Some? then data.value.questionAnalyses.value else []
  }

  /** `analysisData?.metadata || default` */
  function MetadataOf(data: Option<AnalysisData>): (m: Metadata)
    ensures data.None? || data.value.metadata.None? ==> m == Metadata(Some(""), Some(""), Some(""), Some(0))
    ensures data.Some? && data.value.metadata.Some? ==> m == data.value.metadata.value
  {
    if data.Some? && data.value.metadata.Some? then data.value.metadata.value
    else Metadata(Some(""), Some(""), Some(""), Some(0))
  }

  /** `q.overallEvaluation?.score || 0` */
  function QuestionScore(q: QuestionAnalysis): int {
    if q.overallEvaluation.Some? && q.overallEvaluation.value.score.Some? then q.overallEvaluation.value.score.value
    else 0
  }

  /** The `reduce` that adds the question scores. */
  function ScoreSum(qs: seq<QuestionAnalysis>): int {
    if |qs| == 0 then 0 else ScoreSum(qs[..|qs| - 1]) + QuestionScore(qs[|qs| - 1])
  }

  /** `Math.round(sum / n)`, which rounds halves upwards, or 0 without
      questions. */
  function AverageQuestionScore(qs: seq<QuestionAnalysis>): int {
    if |qs| > 0 then (2 * ScoreSum(qs) + |qs|) / (2 * |qs|) else 0
  }

  /** The sum of scores that all lie in `[lo, hi]` lies in `[n·lo, n·hi]`. */
  lemma {:induction false} ScoreSumBounds(qs: seq<QuestionAnalysis>, lo: int, hi: int)
    requires forall i :: 0 <= i < |qs| ==> lo <= QuestionScore(qs[i]) <= hi
    ensures lo * |qs| <= ScoreSum(qs) <= hi * |qs|
  {
    if |qs| > 0 {
      var init := qs[..|qs| - 1];
      assert forall i :: 0 <= i < |init| ==> init[i] == qs[i];
      ScoreSumBounds(init, lo, hi);
      assert lo * |qs| == lo * |init| + lo;
      assert hi * |qs| == hi * |init| + hi;
    }
  }

  /** The average lies between the lowest and the highest question score;
      in particular equal scores average to that score. */
  lemma AverageWithinScores(qs: seq<QuestionAnalysis>, lo: int, hi: int)
    requires |qs| > 0
    requires forall i :: 0 <= i < |qs| ==> lo <= QuestionScore(qs[i]) <= hi
    ensures lo <= AverageQuestionScore(qs) <= hi
  {
    ScoreSumBounds(qs, lo, hi);
    RoundedMeanWithin(ScoreSum(qs), |qs|, lo, hi);
  }

  /** `Math.round(s / n)` stays within `[lo, hi]` when `s / n` does. */
  lemma RoundedMeanWithin(s: int, n: int, lo: int, hi: int)
    requires n > 0 && lo * n <= s <= hi * n
    ensures lo <= (2 * s + n) / (2 * n) <= hi
  {
    assert 2 * s + n >= lo * (2 * n) by { assert lo * (2 * n) == 2 * (lo * n); }
    DivAtLeast(2 * s + n, 2 * n, lo);
    assert 2 * s + n < (hi + 1) * (2 * n) by { assert (hi + 1) * (2 * n) == 2 * (hi * n) + 2 * n; }
    DivAtLeast(2 * s + n, 2 * n, hi + 1);
  }

  /** The average's tier compares the exact mean with 6.5 and 3.5, the
      smallest means that round to 7 and to 4. */
  lemma AverageTierThresholds(qs: seq<QuestionAnalysis>)
    requires |qs| > 0
    ensures var s, n := ScoreSum(qs), |qs|;
            (Classify(Some(AverageQuestionScore(qs))) == Strong <==> 2 * s >= 13 * n) &&
            (Classify(Some(AverageQuestionScore(qs))) == Middle <==> 7 * n <= 2 * s < 13 * n)
  {
    var s, n := ScoreSum(qs), |qs|;
    DivAtLeast(2 * s + n, 2 * n, 7);
    DivAtLeast(2 * s + n, 2 * n, 4);
  }

  /** The verdict badge: green for exactly `Hire`, amber for exactly
      `Borderline`, red for anything else, `Strong Hire` and a missing verdict
      included. */
  function VerdictTier(verdict: Option<string>): (t: Tier)
    ensures t == Strong <==> verdict == Some("Hire")
    ensures t == Middle <==> verdict == Some("Borderline")
  {
    if verdict == Some("Hire") then Strong else if verdict == Some("Borderline") then Middle else Weak
  }

  /** `text || placeholder` for a possibly missing string. */
  function ShownOr(text: Option<string>, placeholder: string): (r: string)
    ensures Filled(text) ==> r == text.value
    ensures !Filled(text) ==> r == placeholder
  {
    if Filled(text) then text.value else placeholder
  }

  /** What the card shows. */
  datatype CardView =
    | NoData
    | Card(overallScore: int, overallTier: Tier, average: Option<(int, Tier)>,
           verdict: string, verdictTier: Tier, rationale: string, questionTiers: seq<Tier>)

  /** The rendered card: without data only the "No interview data available"
      card; otherwise the overall score and its tier, the average and its tier
      when there are analyses, the verdict with its placeholders, and one tier
      per question. */
  function Render(data: Option<AnalysisData>): (v: CardView)
    ensures v.NoData? <==> data.None?
    ensures v.Card? ==>
              var e := OverallEvaluation(data);
              var qs := QuestionAnalyses(data);
              var rec := e.recommendation;
              v.overallScore == e.score.GetOr(0) &&
              v.overallTier == Classify(Some(v.overallScore)) &&
              (v.average.Some? <==> |qs| > 0) &&
              (v.average.Some? ==> v.average.value == (AverageQuestionScore(qs), Classify(Some(AverageQuestionScore(qs))))) &&
              v.verdictTier == VerdictTier(if rec.Some? then rec.value.verdict else None) &&
              v.verdict == ShownOr(if rec.Some? then rec.value.verdict else None, NoRecommendation) &&
              v.rationale == ShownOr(if rec.Some? then rec.value.rationale else None, NoRationale) &&
              |v.questionTiers| == |qs| &&
              forall i :: 0 <= i < |qs| ==> v.questionTiers[i] == Classify(Some(QuestionScore(qs[i])))
  {
    if data.None? then NoData
    else
      var e := OverallEvaluation(data);
      var qs := QuestionAnalyses(data);
      var verdict := if e.recommendation.Some? then e.recommendation.value.verdict else None;
      var rationale := if e.recommendation.Some? then e.recommendation.value.rationale else None;
      var score := e.score.GetOr(0);
      var avg := AverageQuestionScore(qs);
      Card(score, Classify(Some(score)),
           if |qs| > 0 then Some((avg, Classify(Some(avg)))) else None,
           ShownOr(verdict, NoRecommendation), VerdictTier(verdict), ShownOr(rationale, NoRationale),
           seq(|qs|, i requires 0 <= i < |qs| => Classify(Some(QuestionScore(qs[i])))))
  }

  /** A report without an overall evaluation shows score 0 in the weak tier
      and a red, empty-verdict badge that reads "No recommendation". */
  lemma MissingEvaluationShowsDefaults(data: AnalysisData)
    requires data.overallSummary.None?
    ensures var v := Render(Some(data));
            v.Card? && v.overallScore == 0 && v.overallTier == Weak &&
            v.verdict == NoRecommendation && v.verdictTier == Weak && v.rationale == NoRationale
  {
  }
}
