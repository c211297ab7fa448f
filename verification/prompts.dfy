/** The prompts the interview controller sends to the language model, and
    the boundary to the completion service itself.

    A prompt is kept as a structured value (`Prompt`) so that the model of
    the completion service can be a plain function of it; `Render` gives the
    text the prompt builders produce. The long fixed instruction blocks that
    close the summary and batch-analysis prompts are represented by short
    constants (their wording carries no logic). */
module Prompts {
  import opened Wrappers
  import opened Text
  import opened Json

  /** One interview turn as the summary prompts read it. */
  datatype QA = QA(question: string, answer: string)

  datatype Prompt =
    | ResumeAnalysis(resumeText: string, role: string, level: string)
    | ResumeQuestion(category: string, item: string, role: string, level: string)
    | FollowUp(previousQuestion: string, answer: string, role: string, level: string)
    | Evaluation(question: string, answer: string, role: string, level: string)
    | FinalSummary(role: string, level: string, resumeText: string,
                   jobDescription: Option<string>, history: seq<QA>)
    | BatchAnalysis(role: string, level: string, history: seq<QA>)

  /** `s || fallback` on a string: the empty string is replaced, any other kept. */
  function OrText(s: string, fallback: string): (r: string)
    ensures s == "" ==> r == fallback
    ensures s != "" ==> r == s
  {
    if s == "" then fallback else s
  }

  /** One transcript block of the final-summary prompt, numbered `k`. */
  function SummaryBlock(k: nat, e: QA): string {
    "QUESTION " + NatToString(k) + ": " + e.question + "\nANSWER " + NatToString(k) + ": " + e.answer
  }

  /** One transcript block of the batch-analysis prompt, numbered `k`. */
  function BatchBlock(k: nat, e: QA): string {
    "**Question " + NatToString(k) + ":**\n" + e.question
    + "\n\n**Response " + NatToString(k) + ":**\n" + e.answer
  }

  const SummarySeparator := "\n\n"
  const BatchSeparator := "\n\n---\n\n"

  /** `history.map((e, i) => block(i + 1, e)).join(sep)` for the summary prompt. */
  function SummaryTranscript(history: seq<QA>): string {
    Join(SummarySeparator, seq(|history|, i requires 0 <= i < |history| => SummaryBlock(i + 1, history[i])))
  }

  /** The same for the batch-analysis prompt. */
  function BatchTranscript(history: seq<QA>): string {
    Join(BatchSeparator, seq(|history|, i requires 0 <= i < |history| => BatchBlock(i + 1, history[i])))
  }

  /** `${jobDescription ? `**Job Requirements:**\n${jobDescription}\n` : ''}` */
  function JobSection(jobDescription: Option<string>): string {
    if jobDescription.Some? && jobDescription.value != "" then
      JobHeading + jobDescription.value + "\n"
    else ""
  }

  // Fixed text of the prompt templates, kept in constants so that the
  // templates below read as their interpolation structure.
  const AnalyzeIntro := "\nAnalyze this resume for a "
  const PositionAt := " position at "
  const LevelColon := " level:\n"
  const ExtractList := "\n\nExtract:\n1. 2-3 most relevant technical skills\n2. 1-2 notable projects\n"
    + "3. Work experience highlights\n4. Any certifications or education relevant to "
  const DigestShape := "\n\nReturn as JSON:\n{\n  \"skills\": [\"skill1\", \"skill2\"],\n"
    + "  \"projects\": [\"project1\"],\n  \"experience\": [\"experience1\"],\n"
    + "  \"certifications\": [\"cert1\"]\n}\n"
  const Interviewing := "\nYou're interviewing a "
  const CandidateFor := " candidate for "
  const SentenceEnd := ". \n"
  const MentionsThis := "Their resume mentions this "
  const AskAbout := "\n\nAsk ONE clear, technical question about this "
  const ItemAssess := " item that would assess:\n1. Their depth of knowledge\n"
    + "2. How they applied this in practice\n3. Relevance to "
  const ResumeQuestionShape := "\n\nReturn JSON with just the question:\n{\n"
    + "  \"followUpQuestion\": \"your question here\",\n  \"source\": \"resume\"\n}\n"
  const PreviousQuestionLabel := "Previous question: "
  const CandidateResponseLabel := "Candidate response: "
  const NotAskedYet := "Not asked yet"
  const NoResponseYet := "No response yet"
  const FollowUpChoices := "\nDo ONE of these:\n1. Ask a follow-up that probes deeper into their answer OR\n"
    + "2. Challenge their perspective slightly OR \n3. Ask them to elaborate on a specific part\n\n"
    + "Keep it technical and relevant to "
  const FollowUpShape := ". \nReturn JSON with question and context:\n{\n"
    + "  \"followUpQuestion\": \"your question here\",\n  \"source\": \"conversation\"\n}\n"
  const EvaluateIntro := "\nEvaluate this response for a "
  const EvaluationShape := "\n\nProvide brief feedback and 1-10 score. Return JSON:\n{\n"
    + "  \"score\": number,\n  \"feedback\": \"string\"\n}\n"
  const SummaryIntro := "\nYou are an expert AI interviewer analyzing a candidate's performance for a "
  const AtThe := " position at the "
  const BackgroundHeading := " level. \n\n**Candidate Background:**\n"
  const JobHeading := "**Job Requirements:**\n"
  const TranscriptHeading := "\n\n**Interview Transcript:**\n"
  const SummaryTasks :=
    "\n\n**Analysis Tasks:**\n\n1. Provide a comprehensive overall evaluation in JSON format"
    + " (overallEvaluation: score, summary, technicalCompetency, softSkills, culturalFit,"
    + " recommendation; questionAnalysis per question).\n"
  const BatchIntro := "\nYou are an expert "
  const BatchConducting := " interviewer conducting a comprehensive evaluation of multiple interview responses at the "
  const BatchHeading := " level.\n\n### Interview Questions and Candidate Responses:\n"
  const BatchRequirementsHeading := "\n\n### Analysis Requirements:\nProvide detailed feedback for each"
    + " question-response pair as { \"analyses\": [...], \"summaryInsights\": {...} }, judged against "
  const ExpectationsFor := " expectations for the "
  const RoleEnd := " role.\n"

  function ResumeAnalysisText(resumeText: string, role: string, level: string): (r: string)
    ensures |r| > 0
  {
    AnalyzeIntro + role + PositionAt + level + LevelColon + resumeText + ExtractList + role + DigestShape
  }

  /** The opening line shared by the resume-question and follow-up prompts. */
  function InterviewerLine(role: string, level: string): (r: string)
    ensures |r| > 0
  {
    Interviewing + level + CandidateFor + role + SentenceEnd
  }

  function ResumeQuestionTail(category: string, role: string): string {
    AskAbout + category + ItemAssess + role + ResumeQuestionShape
  }

  function ResumeQuestionText(category: string, item: string, role: string, level: string): (r: string)
    ensures |r| > 0
  {
    InterviewerLine(role, level) + MentionsThis + (category + ": \"" + item + "\"")
    + ResumeQuestionTail(category, role)
  }

  /** The two context lines of the follow-up prompt. */
  function FollowUpContext(previousQuestion: string, answer: string): string {
    PreviousQuestionLabel + OrText(previousQuestion, NotAskedYet) + "\n"
    + CandidateResponseLabel + OrText(answer, NoResponseYet) + "\n"
  }

  function FollowUpTail(role: string): string {
    FollowUpChoices + role + FollowUpShape
  }

  function FollowUpText(previousQuestion: string, answer: string, role: string, level: string): (r: string)
    ensures |r| > 0
  {
    InterviewerLine(role, level) + FollowUpContext(previousQuestion, answer) + FollowUpTail(role)
  }

  function EvaluationText(question: string, answer: string, role: string, level: string): (r: string)
    ensures |r| > 0
  {
    EvaluateIntro + level + " " + role + " candidate:\n" + "Q: " + question + "\nA: " + answer + EvaluationShape
  }

  function SummaryHead(role: string, level: string, resumeText: string): (r: string)
    ensures |r| > 0
  {
    SummaryIntro + role + AtThe + level + BackgroundHeading + resumeText + "\n\n"
  }

  function SummaryTail(history: seq<QA>): string {
    TranscriptHeading + SummaryTranscript(history) + SummaryTasks
  }

  function FinalSummaryText(role: string, level: string, resumeText: string,
                            jobDescription: Option<string>, history: seq<QA>): (r: string)
    ensures |r| > 0
  {
    SummaryHead(role, level, resumeText) + JobSection(jobDescription) + SummaryTail(history)
  }

  function BatchAnalysisText(role: string, level: string, history: seq<QA>): (r: string)
    ensures |r| > 0
  {
    BatchIntro + role + BatchConducting + level + BatchHeading + BatchTranscript(history)
    + BatchRequirementsHeading + level + ExpectationsFor + role + RoleEnd
  }

  /** The prompt text of each builder of the prompt library. The first four
      builders keep their fixed paragraphs as constants; the final-summary and
      batch-analysis texts keep their opening, their transcript and the one
      interpolation each of role and level in their closing paragraph, but
      abbreviate the closing instructions (the JSON schema and the guideline
      lists). No builder returns the empty string. */
  function Render(p: Prompt): (text: string)
    ensures |text| > 0
  {
    match p
    case ResumeAnalysis(resumeText, role, level) => ResumeAnalysisText(resumeText, role, level)
    case ResumeQuestion(category, item, role, level) => ResumeQuestionText(category, item, role, level)
    case FollowUp(previousQuestion, answer, role, level) => FollowUpText(previousQuestion, answer, role, level)
    case Evaluation(question, answer, role, level) => EvaluationText(question, answer, role, level)
    case FinalSummary(role, level, resumeText, jobDescription, history) =>
      FinalSummaryText(role, level, resumeText, jobDescription, history)
    case BatchAnalysis(role, level, history) => BatchAnalysisText(role, level, history)
  }

  /** The summary transcript of an empty history is empty; appending a turn
      appends exactly one block, numbered with the new length, after one
      blank line (nothing precedes the first block). */
  lemma SummaryTranscriptSnoc(history: seq<QA>, e: QA)
    ensures SummaryTranscript([]) == ""
    ensures SummaryTranscript(history + [e]) ==
            if |history| == 0 then SummaryBlock(1, e)
            else SummaryTranscript(history) + "\n\n" + SummaryBlock(|history| + 1, e)
  {
    var h' := history + [e];
    var blocks := seq(|history|, i requires 0 <= i < |history| => SummaryBlock(i + 1, history[i]));
    var blocks' := seq(|h'|, i requires 0 <= i < |h'| => SummaryBlock(i + 1, h'[i]));
    assert blocks' == blocks + [SummaryBlock(|history| + 1, e)];
    JoinSnoc(SummarySeparator, blocks, SummaryBlock(|history| + 1, e));
  }

  /** The batch transcript numbers turns 1..n in order and separates them by
      a horizontal rule between blank lines. */
  lemma BatchTranscriptSnoc(history: seq<QA>, e: QA)
    ensures BatchTranscript([]) == ""
    ensures BatchTranscript(history + [e]) ==
            if |history| == 0 then BatchBlock(1, e)
            else BatchTranscript(history) + "\n\n---\n\n" + BatchBlock(|history| + 1, e)
  {
    var h' := history + [e];
    var blocks := seq(|history|, i requires 0 <= i < |history| => BatchBlock(i + 1, history[i]));
    var blocks' := seq(|h'|, i requires 0 <= i < |h'| => BatchBlock(i + 1, h'[i]));
    assert blocks' == blocks + [BatchBlock(|history| + 1, e)];
    JoinSnoc(BatchSeparator, blocks, BatchBlock(|history| + 1, e));
  }

  /** The Job Requirements section is present, holding the description,
      exactly when the description is a non-empty string; a missing or empty
      description renders the same prompt as no description at all. */
  lemma JobSectionIffTruthy(role: string, level: string, resumeText: string,
                            jobDescription: Option<string>, history: seq<QA>)
    ensures jobDescription.Some? && jobDescription.value != "" ==>
              Contains(Render(FinalSummary(role, level, resumeText, jobDescription, history)),
                       JobHeading + jobDescription.value + "\n")
    ensures !(jobDescription.Some? && jobDescription.value != "") ==>
              Render(FinalSummary(role, level, resumeText, jobDescription, history))
              == Render(FinalSummary(role, level, resumeText, None, history))
  {
    if jobDescription.Some? && jobDescription.value != "" {
      ContainsMiddle(SummaryHead(role, level, resumeText), JobSection(jobDescription), SummaryTail(history));
    }
  }

  /** The resume-question prompt quotes the selected item verbatim right
      after its category name. */
  lemma ResumeQuestionQuotesItem(category: string, item: string, role: string, level: string)
    ensures Contains(Render(ResumeQuestion(category, item, role, level)),
                     category + ": \"" + item + "\"")
  {
    ContainsMiddle(InterviewerLine(role, level) + MentionsThis,
                   category + ": \"" + item + "\"", ResumeQuestionTail(category, role));
  }

  /** An empty previous question or answer is shown as "Not asked yet" or
      "No response yet"; a non-empty one is shown as given. */
  lemma FollowUpPlaceholders(previousQuestion: string, answer: string, role: string, level: string)
    ensures Contains(Render(FollowUp(previousQuestion, answer, role, level)),
                     PreviousQuestionLabel + OrText(previousQuestion, NotAskedYet) + "\n"
                     + CandidateResponseLabel + OrText(answer, NoResponseYet) + "\n")
  {
    ContainsMiddle(InterviewerLine(role, level), FollowUpContext(previousQuestion, answer), FollowUpTail(role));
  }

  /** What the completion service hands back: a transport failure, or a
      response whose first choice may lack content. */
  datatype Reply = Unavailable | Completed(content: Option<string>)

  /** `JSON.parse(result.choices?.[0]?.message?.content || '{}')` after a
      completion request; a transport failure throws, like a parse failure. */
  function CompleteJson(llm: Prompt -> Reply, parse: string -> Option<Value>, p: Prompt): (r: Result<Value>)
    ensures llm(p).Unavailable? ==> r.Err?
    ensures llm(p).Completed? ==> r == ParseContent(llm(p).content, parse)
  {
    match llm(p)
    case Unavailable => Err("completion request failed")
    case Completed(content) => ParseContent(content, parse)
  }
}
