/** The interview panel page as a state machine: the setup form, the start
    guard, the once-a-minute countdown, answer submission with its running
    counters, ending, the completed view's average-score tier and the reset
    back to setup.

    React state updates are applied as whole-state transitions. Submitting an
    answer is split in two, because the page awaits the server between them:
    the click captures the pending question and answer and issues the request,
    and the arrival of the reply updates the state, whatever the stage is by
    then. The per-answer score is whatever value the server sent; `parseInt`
    turns it into `Some(n)` or `None` for `NaN`, and a `NaN` running total
    stays `NaN`. */
module InterviewPanel {
  import opened Wrappers
  import opened Text
  import opened Json
  import opened Tiers
  import NextQuestionRoute

  datatype Stage = Setup | Interview | Completed

  /** One history entry `{ question, answer, score, feedback }`; a value the
      reply did not contain is `None`. */
  datatype Turn = Turn(question: Option<Value>, answer: string, score: Option<Value>, feedback: Option<Value>)

  /** The duration slider's range: whole minutes from 5 to 15. */
  type Minutes = n: int | 5 <= n <= 15 witness 10

  datatype Panel = Panel(
    stage: Stage,
    resumeText: string,
    role: string,
    experienceLevel: string,
    duration: Minutes,
    timeLeft: int,
    currentQuestion: Option<Value>,
    answer: string,
    score: Option<Value>,
    feedback: Option<Value>,
    history: seq<Turn>,
    totalScore: Option<int>,
    questionsAnswered: int,
    listening: bool)

  const OpeningQuestion := "Tell me about yourself and why you're interested in this role?"

  /** The state the page mounts with. */
  function Initial(): Panel {
    Panel(Setup, "", "", "", 10, 0, Some(JStr("")), "", Some(JStr("")), Some(JStr("")), [], Some(0), 0, false)
  }

  /** `startInterview`: refused while any setup field is empty; otherwise the
      interview begins with the full duration, the opening question and both
      counters at zero. */
  function Start(p: Panel): (r: Panel)
    ensures p.resumeText == "" || p.role == "" || p.experienceLevel == "" ==> r == p
    ensures p.resumeText != "" && p.role != "" && p.experienceLevel != "" ==>
              r.stage == Interview && r.timeLeft == p.duration &&
              r.currentQuestion == Some(JStr(OpeningQuestion)) &&
              r.totalScore == Some(0) && r.questionsAnswered == 0 && r.history == p.history
  {
    if p.resumeText == "" || p.role == "" || p.experienceLevel == "" then p
    else p.(stage := Interview, timeLeft := p.duration, currentQuestion := Some(JStr(OpeningQuestion)),
            totalScore := Some(0), questionsAnswered := 0)
  }

  /** `endInterview`: the interview is completed and listening stops, from
      any stage. */
  function End(p: Panel): (r: Panel)
    ensures r.stage == Completed && !r.listening
  {
    p.(stage := Completed, listening := false)
  }

  /** Ending twice is ending once, and ending changes nothing but the stage
      and the microphone. */
  lemma EndIdempotent(p: Panel)
    ensures End(End(p)) == End(p)
    ensures End(p).(stage := p.stage, listening := p.listening) == p
  {
  }

  /** One firing of the minute timer. The timer runs only during the
      interview while time is left; the last minute ends the interview. */
  function Tick(p: Panel): (r: Panel)
    ensures p.stage != Interview || p.timeLeft <= 0 ==> r == p
    ensures p.stage == Interview && p.timeLeft > 1 ==> r == p.(timeLeft := p.timeLeft - 1)
    ensures p.stage == Interview && 0 < p.timeLeft <= 1 ==> r == End(p).(timeLeft := 0)
    ensures p.timeLeft >= 0 ==> r.timeLeft >= 0
  {
    if p.stage != Interview || p.timeLeft <= 0 then p
    else if p.timeLeft <= 1 then End(p).(timeLeft := 0)
    else p.(timeLeft := p.timeLeft - 1)
  }

  /** `k` timer firings in a row. */
  function Ticks(p: Panel, k: nat): Panel
    decreases k
  {
    if k == 0 then p else Ticks(Tick(p), k - 1)
  }

  /** The countdown: from an interview with `t` minutes left, fewer than `t`
      firings leave it running with exactly that many minutes less, and the
      `t`-th firing completes it with no time left. */
  lemma {:induction false} Countdown(p: Panel, k: nat)
    requires p.stage == Interview && p.timeLeft >= 1
    ensures k < p.timeLeft ==> Ticks(p, k) == p.(timeLeft := p.timeLeft - k)
    ensures k >= p.timeLeft ==> Ticks(p, k) == End(p).(timeLeft := 0)
    decreases k
  {
    if k > 0 {
      var q := Tick(p);
      if p.timeLeft > 1 {
        Countdown(q, k - 1);
        assert q.(timeLeft := q.timeLeft - (k - 1)) == p.(timeLeft := p.timeLeft - k);
        assert End(q).(timeLeft := 0) == End(p).(timeLeft := 0);
      } else {
        StoppedClock(q, k - 1);
      }
    }
  }

  /** Once the interview is over no firing changes anything. */
  lemma {:induction false} StoppedClock(p: Panel, k: nat)
    requires p.stage != Interview
    ensures Ticks(p, k) == p
    decreases k
  {
    if k > 0 {
      StoppedClock(p, k - 1);
    }
  }

  /** A request in flight: the question and answer captured when the button
      was clicked. */
  datatype Pending = Pending(question: Option<Value>, answer: string)

  /** How a reply to the question request turned out: the request or the
      body's JSON failed, or a body arrived with the response's `ok` flag. */
  datatype Outcome = Failed | Delivered(ok: bool, data: Value)

  /** `handleSubmit` up to the request: a blank answer is refused and nothing
      is sent. */
  function Submit(p: Panel): (r: Option<Pending>)
    ensures r.None? <==> Blank(p.answer)
    ensures r.Some? ==> r.value.question == p.currentQuestion && r.value.answer == p.answer
  {
    TrimEmptyIffBlank(p.answer);
    if Trim(p.answer) == "" then None else Some(Pending(p.currentQuestion, p.answer))
  }

  /** The body the panel posts: the pending question (a string, or absent),
      the answer and the setup fields. It has no `conversationHistory`. */
  function RequestOf(p: Panel, pend: Pending): (req: NextQuestionRoute.Request)
    ensures req.conversationHistory.None?
    ensures req.userAnswer == Some(pend.answer)
    ensures req.resumeText == Some(p.resumeText) && req.role == Some(p.role) &&
            req.experienceLevel == Some(p.experienceLevel)
  {
    var question := match pend.question
      case Some(JStr(s)) => Some(s)
      case _ => None;
    NextQuestionRoute.Request(question, Some(pend.answer), Some(p.resumeText), Some(p.role),
                              Some(p.experienceLevel), None)
  }

  /** `parseInt(score)`: the score is first converted to its string form. */
  function ParsedScore(score: Option<Value>): Option<int> {
    ParseInt(DisplayOpt(score))
  }

  /** A numeric score parses back to itself. */
  lemma ParsedNumber(n: int)
    ensures ParsedScore(Some(JNum(n))) == Some(n)
  {
    ParseIntOfIntToString(n);
  }

  /** A score stored as a number parses back to that number. */
  lemma ParsedScoreOfNumber(score: Option<Value>)
    ensures score.Some? && score.value.JNum? ==> ParsedScore(score) == Some(score.value.n)
  {
    if score.Some? && score.value.JNum? {
      ParsedNumber(score.value.n);
    }
  }

  /** `prev + numericScore`, where `NaN` on either side gives `NaN`. */
  function AddScore(total: Option<int>, x: Option<int>): (r: Option<int>)
    ensures r.Some? <==> total.Some? && x.Some?
    ensures r.Some? ==> r.value == total.value + x.value
  {
    if total.Some? && x.Some? then Some(total.value + x.value) else None
  }

  /** The reply handler after `await`: a failed request, a non-OK response or
      a `null` body change nothing; otherwise the turn is recorded with the
      pending question and answer, the reply's follow-up question becomes the
      current one, the answer box is cleared, and both counters advance. */
  function Receive(p: Panel, pend: Pending, outcome: Outcome): (r: Panel)
    ensures outcome.Failed? || !outcome.ok || outcome.data.JNull? ==> r == p
    ensures outcome.Delivered? && outcome.ok && !outcome.data.JNull? ==>
              var data := outcome.data;
              var score := OptProp(Some(data), "score");
              r.history == p.history + [Turn(pend.question, pend.answer, score, OptProp(Some(data), "feedback"))] &&
              r.currentQuestion == OptProp(Some(data), "followUpQuestion") &&
              r.answer == "" &&
              r.questionsAnswered == p.questionsAnswered + 1 &&
              r.totalScore == AddScore(p.totalScore, ParsedScore(score)) &&
              r.stage == p.stage && r.timeLeft == p.timeLeft
  {
    match outcome
    case Failed => p
    case Delivered(ok, data) =>
      if !ok || data.JNull? then p
      else
        var score := OptProp(Some(data), "score");
        var feedback := OptProp(Some(data), "feedback");
        p.(score := score, feedback := feedback,
           currentQuestion := OptProp(Some(data), "followUpQuestion"),
           history := p.history + [Turn(pend.question, pend.answer, score, feedback)],
           answer := "",
           totalScore := AddScore(p.totalScore, ParsedScore(score)),
           questionsAnswered := p.questionsAnswered + 1)
  }

  /** The reply handler with a stage check: a reply that arrives when no
      interview is running is dropped. */
  function ReceiveInInterview(p: Panel, pend: Pending, outcome: Outcome): (r: Panel)
    ensures p.stage != Interview ==> r == p
    ensures p.stage == Interview ==> r == Receive(p, pend, outcome)
  {
    if p.stage == Interview then Receive(p, pend, outcome) else p
  }

  /** "Start New Interview": back to the setup form with the last feedback,
      score and history cleared. The counters are left as they are. */
  function Reset(p: Panel): (r: Panel)
    ensures r.stage == Setup && r.history == []
    ensures r.totalScore == p.totalScore && r.questionsAnswered == p.questionsAnswered
  {
    p.(stage := Setup, feedback := Some(JStr("")), score := Some(JStr("")), history := [])
  }

  /** A running total over parsed scores, `NaN` as soon as one is `NaN`. */
  function SumOf(xs: seq<Option<int>>): Option<int> {
    if |xs| == 0 then Some(0) else AddScore(SumOf(xs[..|xs| - 1]), xs[|xs| - 1])
  }

  /** The total is `NaN` exactly when some summand is. */
  lemma {:induction false} SumOfNaN(xs: seq<Option<int>>)
    ensures SumOf(xs).None? <==> exists i :: 0 <= i < |xs| && xs[i].None?
  {
    if |xs| > 0 {
      var init := xs[..|xs| - 1];
      SumOfNaN(init);
      assert forall i :: 0 <= i < |init| ==> init[i] == xs[i];
      if SumOf(init).None? {
        var i :| 0 <= i < |init| && init[i].None?;
        assert xs[i].None?;
      }
    }
  }

  /** Appending a summand adds it to the total. */
  lemma SumOfSnoc(xs: seq<Option<int>>, x: Option<int>)
    ensures SumOf(xs + [x]) == AddScore(SumOf(xs), x)
  {
    assert (xs + [x])[..|xs|] == xs;
  }

  /** The parsed score of one turn. */
  function TurnScore(t: Turn): Option<int> {
    ParsedScore(t.score)
  }

  /** The parsed scores of a history, in order. */
  function ScoresOf(h: seq<Turn>): seq<Option<int>> {
    seq(|h|, i requires 0 <= i < |h| => TurnScore(h[i]))
  }

  /** The running total the history implies: the sum of the parsed scores. */
  function SumScores(h: seq<Turn>): Option<int> {
    SumOf(ScoresOf(h))
  }

  /** The total is `NaN` exactly when some recorded score does not parse. */
  lemma SumScoresNaN(h: seq<Turn>)
    ensures SumScores(h).None? <==> exists i :: 0 <= i < |h| && TurnScore(h[i]).None?
  {
    var xs := ScoresOf(h);
    SumOfNaN(xs);
    assert forall i :: 0 <= i < |h| ==> xs[i] == TurnScore(h[i]);
  }

  /** Recording one more turn adds its parsed score to the total. */
  lemma SumScoresSnoc(h: seq<Turn>, t: Turn)
    ensures SumScores(h + [t]) == AddScore(SumScores(h), TurnScore(t))
  {
    var xs, ys := ScoresOf(h), ScoresOf(h + [t]);
    assert ys == xs + [TurnScore(t)] by {
      assert |ys| == |xs| + 1;
      assert forall i :: 0 <= i < |h| ==> ys[i] == xs[i];
    }
    SumOfSnoc(xs, TurnScore(t));
  }

  /** The user actions and asynchronous arrivals the page reacts to. */
  datatype Event =
    | EditResume(resumeText: string)
    | EditRole(role: string)
    | EditLevel(level: string)
    | SetDuration(minutes: Minutes)
    | StartClicked
    | EditAnswer(answer: string)
    | Listen(on: bool)
    | TimerFired
    | EndClicked
    | ReplyArrived(pending: Pending, outcome: Outcome)
    | ResetClicked

  /** The controls each view renders; a reply can arrive at any time. */
  predicate Offered(p: Panel, e: Event) {
    match e
    case EditResume(_) => p.stage == Setup
    case EditRole(_) => p.stage == Setup
    case EditLevel(_) => p.stage == Setup
    case SetDuration(_) => p.stage == Setup
    case StartClicked => p.stage == Setup
    case EditAnswer(_) => p.stage == Interview
    case Listen(_) => p.stage == Interview
    case TimerFired => true
    case EndClicked => p.stage == Interview
    case ReplyArrived(_, _) => true
    case ResetClicked => p.stage == Completed
  }

  /** One transition; `guarded` selects the reply handler that drops replies
      arriving outside an interview. */
  function Step(p: Panel, e: Event, guarded: bool): Panel {
    match e
    case EditResume(s) => p.(resumeText := s)
    case EditRole(s) => p.(role := s)
    case EditLevel(s) => p.(experienceLevel := s)
    case SetDuration(m) => p.(duration := m)
    case StartClicked => Start(p)
    case EditAnswer(s) => p.(answer := s)
    case Listen(on) => p.(listening := on)
    case TimerFired => Tick(p)
    case EndClicked => End(p)
    case ReplyArrived(pend, outcome) =>
      if guarded then ReceiveInInterview(p, pend, outcome) else Receive(p, pend, outcome)
    case ResetClicked => Reset(p)
  }

  /** The consistency the panel is meant to keep: no time below zero, an
      empty history on the setup form, and during and after an interview one
      history entry per answered question with the total equal to the sum of
      the recorded scores. */
  predicate Valid(p: Panel) {
    && p.timeLeft >= 0
    && (p.stage == Setup ==> p.history == [])
    && (p.stage != Setup ==> |p.history| == p.questionsAnswered && p.totalScore == SumScores(p.history))
  }

  lemma InitialValid()
    ensures Valid(Initial())
  {
  }

  /** With replies dropped outside an interview, every offered event keeps
      the panel consistent. */
  lemma StepPreservesValid(p: Panel, e: Event)
    requires Valid(p) && Offered(p, e)
    ensures Valid(Step(p, e, true))
  {
    match e
    case ReplyArrived(pend, outcome) => GuardedReplyPreservesValid(p, pend, outcome);
    case _ =>
  }

  /** A reply the stage check lets through advances the history and the
      answered count together and adds its score to the total. */
  lemma GuardedReplyPreservesValid(p: Panel, pend: Pending, outcome: Outcome)
    requires Valid(p)
    ensures Valid(ReceiveInInterview(p, pend, outcome))
  {
    if p.stage == Interview && outcome.Delivered? && outcome.ok && !outcome.data.JNull? {
      var r := Receive(p, pend, outcome);
      var t := Turn(pend.question, pend.answer, OptProp(Some(outcome.data), "score"), OptProp(Some(outcome.data), "feedback"));
      assert r.history == p.history + [t];
      SumScoresSnoc(p.history, t);
    }
  }

  /** Without the stage check, consistency breaks: a reply to an answer
      submitted before the interview ended, arriving after the reset, puts an
      entry into the setup form's history, and the next interview starts with
      one entry but no answered question. */
  lemma LateReplyBreaksHistory(p: Panel, data: Value)
    requires p.stage == Interview && Valid(p) && !Blank(p.answer) && !data.JNull?
    requires p.resumeText != "" && p.role != "" && p.experienceLevel != ""
    ensures var pend := Submit(p);
            var p2 := Reset(End(p));
            pend.Some? && Valid(End(p)) && Valid(p2) &&
            var p3 := Receive(p2, pend.value, Delivered(true, data));
            var p4 := Start(p3);
            !Valid(p3) && p4.stage == Interview && |p4.history| == 1 && p4.questionsAnswered == 0 && !Valid(p4)
  {
  }

  /** What a late reply shows: a reply that arrives after the interview has
      ended is still recorded on the completed screen, so "Questions
      Answered" grows by one while the stage stays completed; the guarded
      handler would have left the screen as it was. */
  lemma LateReplyChangesSummary(p: Panel, data: Value)
    requires p.stage == Interview && !Blank(p.answer) && !data.JNull?
    ensures var pend := Submit(p);
            pend.Some? &&
            var done := End(p);
            var late := Receive(done, pend.value, Delivered(true, data));
            late.stage == Completed && late.questionsAnswered == done.questionsAnswered + 1 &&
            ReceiveInInterview(done, pend.value, Delivered(true, data)) == done
  {
  }

  /** A concrete case: ending the interview before the first reply arrives
      shows 0 answered questions in red; the reply, scored 10, then turns the
      completed screen's average green. */
  lemma LateReplyRecoloursAverage(p: Panel)
    requires p.stage == Interview && Valid(p) && !Blank(p.answer) && p.questionsAnswered == 0
    ensures var done := End(p);
            var late := Receive(done, Submit(p).value, Delivered(true, JObj([("score", JNum(10))])));
            AverageTier(done) == Weak && late.questionsAnswered == 1 && AverageTier(late) == Strong
  {
    var data := JObj([("score", JNum(10))]);
    var done := End(p);
    assert p.history == [];
    assert ScoresOf([]) == [];
    assert done.totalScore == Some(0);
    assert OptProp(Some(data), "score") == Some(JNum(10));
    ParsedNumber(10);
    var late := Receive(done, Submit(p).value, Delivered(true, data));
    assert late.totalScore == Some(10);
    assert RoundedTenths(10, 1) == 100;
  }

  /** The panel's requests never carry a history, so the route's "two or
      more turns" trigger cannot fire: with a pending question and a failed
      coin the next question always follows up on the answer. */
  lemma PanelNeverTriggersHistoryRule(p: Panel, pend: Pending, resumeData: Value, d: NextQuestionRoute.Selection.Draws)
    requires pend.question.Some? && pend.question.value.JStr? && pend.question.value.s != "" && !d.coin
    ensures NextQuestionRoute.RouteSource(RequestOf(p, pend).previousQuestion, RequestOf(p, pend).conversationHistory,
                                          resumeData, d) == Ok(NextQuestionRoute.Selection.FromConversation)
  {
    NextQuestionRoute.MissingHistoryIsEmpty(RequestOf(p, pend).previousQuestion, resumeData, d);
  }

  /** `(totalScore / questionsAnswered).toFixed(1)` in tenths, rounding a
      half away from zero. */
  function RoundedTenths(total: int, n: int): int
    requires n > 0
  {
    if total >= 0 then (20 * total + n) / (2 * n) else -((-20 * total + n) / (2 * n))
  }

  /** The completed view's colour and closing message: no answered question
      shows "0", and a `NaN` total shows `NaN`, both of which are weak. */
  function AverageTier(p: Panel): Tier {
    if p.questionsAnswered <= 0 then ClassifyTenths(0)
    else match p.totalScore
      case None => Classify(None)
      case Some(t) => ClassifyTenths(RoundedTenths(t, p.questionsAnswered))
  }

  /** The average tier compares the exact mean with 6.95 and 3.95, the
      smallest values that display as 7.0 and 4.0. */
  lemma AverageTierThresholds(p: Panel)
    requires p.questionsAnswered > 0 && p.totalScore.Some?
    ensures var t, n := p.totalScore.value, p.questionsAnswered;
            (AverageTier(p) == Strong <==> 20 * t >= 139 * n) &&
            (AverageTier(p) == Middle <==> 79 * n <= 20 * t < 139 * n)
  {
    var t, n := p.totalScore.value, p.questionsAnswered;
    if t >= 0 {
      DivAtLeast(20 * t + n, 2 * n, 70);
      DivAtLeast(20 * t + n, 2 * n, 40);
    } else {
      assert (-20 * t + n) / (2 * n) >= 0;
    }
  }

  /** The colour of the last answer's score, `parseInt(score) >= 7` and so
      on: a score that does not parse is red. */
  function ScoreTier(p: Panel): (t: Tier)
    ensures t == Strong <==> ParsedScore(p.score).Some? && ParsedScore(p.score).value >= 7
    ensures ParsedScore(p.score).None? ==> t == Weak
    ensures p.score.Some? && p.score.value.JNum? ==> t == Classify(Some(p.score.value.n))
  {
    ParsedScoreOfNumber(p.score);
    Classify(ParsedScore(p.score))
  }
}
