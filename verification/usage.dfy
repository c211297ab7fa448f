/** The usage counters kept on each user row and the routes that read and
    bump them: the dashboard statistics and their PATCH increment, the
    resume-analysis route with its trial gate, the interview plan check and
    the interview counter bump.

    The `User` table is a finite map from user id to row. The sign-up webhook
    creates every row with `clerkId` equal to `id`, so the lookups by
    `clerkId` and by `id` find the same row. A database call that fails for a
    reason other than a missing row is a flag of `Faults`; a request body
    that is not JSON is `None`. */
module Usage {
  import opened Wrappers
  import opened Text
  import opened Json
  import ResumeAnalyzer

  /** The columns these routes read; `None` is SQL `NULL`. */
  datatype UserRecord = UserRecord(plan: Option<string>, resumeUsed: Option<int>, interviewUsed: Option<int>,
                                   createdAt: string, subscriptionStatus: Option<string>)

  type Users = map<string, UserRecord>

  /** Which database calls of one request fail. */
  datatype Faults = Faults(read: bool, update: bool, insert: bool)

  /** A route's status, the table afterwards, and what the body reports. */
  datatype Outcome<T> = Outcome(status: nat, users: Users, payload: Option<T>)

  /** `x || 0` on a counter column: `NULL` and 0 both read as 0. */
  function Count(x: Option<int>): int {
    x.GetOr(0)
  }

  /** `x + 1` on a counter column, where `null + 1` is 1. */
  function Bumped(x: Option<int>): Option<int> {
    Some(Count(x) + 1)
  }

  // ---------------------------------------------------------------------
  // GET /api/user/stats

  const ActiveStatus := "active"

  /** The statistics object the dashboard reads. */
  datatype Stats = Stats(resumeUsed: int, interviewUsed: int, planType: Option<string>,
                         subscriptionStatus: string, createdAt: string,
                         totalSessions: int, totalTime: int, lastActivity: string)

  /** The statistics derived from one row: 15 minutes per resume analysis and
      30 per interview. */
  function StatsOf(u: UserRecord): Stats {
    var resumes, interviews := Count(u.resumeUsed), Count(u.interviewUsed);
    Stats(resumes, interviews, u.plan,
          if Filled(u.subscriptionStatus) then u.subscriptionStatus.value else ActiveStatus,
          u.createdAt, resumes + interviews, resumes * 15 + interviews * 30, u.createdAt)
  }

  /** How the derived figures hang together: the sessions are the two
      counters, the time weighs an interview twice a resume analysis, the
      last activity is the creation date, and only an empty or missing
      status reads as active unless the row says so. */
  lemma StatsConsistent(u: UserRecord)
    ensures var s := StatsOf(u);
            s.totalSessions == s.resumeUsed + s.interviewUsed &&
            s.totalTime == 15 * s.totalSessions + 15 * s.interviewUsed &&
            (s.resumeUsed >= 0 && s.interviewUsed >= 0 ==> 15 * s.totalSessions <= s.totalTime <= 30 * s.totalSessions) &&
            s.lastActivity == s.createdAt &&
            (s.subscriptionStatus == ActiveStatus <==> !Filled(u.subscriptionStatus) || u.subscriptionStatus == Some(ActiveStatus)) &&
            (u.resumeUsed.None? ==> s.resumeUsed == 0) && (u.interviewUsed.None? ==> s.interviewUsed == 0)
  {
  }

  /** The statistics of the signed-in user; a failed or empty lookup is 404. */
  function GetStats(userId: Option<string>, users: Users, faults: Faults): (r: Outcome<Stats>)
    ensures r.users == users
    ensures !Filled(userId) <==> r.status == 401
    ensures r.status == 200 <==> Filled(userId) && !faults.read && userId.value in users
    ensures r.status == 200 ==> r.payload == Some(StatsOf(users[userId.value]))
    ensures Filled(userId) && r.status != 200 ==> r.status == 404 && r.payload.None?
  {
    if !Filled(userId) then Outcome(401, users, None)
    else if faults.read || userId.value !in users then Outcome(404, users, None)
    else Outcome(200, users, Some(StatsOf(users[userId.value])))
  }

  // ---------------------------------------------------------------------
  // PATCH /api/user/stats

  datatype Counter = ResumeCounter | InterviewCounter

  /** `type === 'resume' ? 'resumeUsed' : 'interviewUsed'` after the check
      `!type || !['resume', 'interview'].includes(type)`, which lets exactly
      the two strings through. */
  function CounterOf(kind: Option<Value>): Option<Counter> {
    if kind == Some(JStr("resume")) then Some(ResumeCounter)
    else if kind == Some(JStr("interview")) then Some(InterviewCounter)
    else None
  }

  function Read(u: UserRecord, c: Counter): Option<int> {
    match c
    case ResumeCounter => u.resumeUsed
    case InterviewCounter => u.interviewUsed
  }

  function Write(u: UserRecord, c: Counter, v: Option<int>): UserRecord {
    match c
    case ResumeCounter => u.(resumeUsed := v)
    case InterviewCounter => u.(interviewUsed := v)
  }

  /** Writing one counter is read back from that counter and from nowhere
      else. */
  lemma ReadWrite(u: UserRecord, c: Counter, v: Option<int>, c': Counter)
    ensures Read(Write(u, c, v), c') == if c' == c then v else Read(u, c')
    ensures var w := Write(u, c, v);
            w.plan == u.plan && w.createdAt == u.createdAt && w.subscriptionStatus == u.subscriptionStatus
  {
  }

  /** The PATCH handler: `body` is the parsed request body. The payload is
      the counter updated and its new value. */
  function Patch(userId: Option<string>, body: Option<Value>, users: Users, faults: Faults): (r: Outcome<(Counter, int)>)
    ensures !Filled(userId) <==> r.status == 401
    ensures r.status != 200 ==> r.users == users && r.payload.None?
    // a body that is not JSON, or is `null`, throws into the 500 handler
    ensures Filled(userId) && (body.None? || body.value.JNull?) ==> r.status == 500
    // the usage type is checked before anything is read
    ensures Filled(userId) && body.Some? && !body.value.JNull? ==>
              (r.status == 400 <==> CounterOf(OptProp(body, "type")).None?)
    ensures r.status == 200 <==>
              Filled(userId) && body.Some? && !body.value.JNull? && CounterOf(OptProp(body, "type")).Some? &&
              !faults.read && userId.value in users && !faults.update
    // success bumps exactly the named counter of exactly the caller's row
    ensures r.status == 200 ==>
              var id, c := userId.value, CounterOf(OptProp(body, "type")).value;
              r.payload == Some((c, Count(Read(users[id], c)) + 1)) &&
              r.users == users[id := Write(users[id], c, Bumped(Read(users[id], c)))]
    ensures r.status in {200, 400, 401, 500}
  {
    if !Filled(userId) then Outcome(401, users, None)
    else if body.None? || body.value.JNull? then Outcome(500, users, None)
    else match CounterOf(OptProp(body, "type"))
      case None => Outcome(400, users, None)
      case Some(c) =>
        var id := userId.value;
        if faults.read || id !in users then Outcome(500, users, None)
        else if faults.update then Outcome(500, users, None)
        else
          var next := Count(Read(users[id], c)) + 1;
          Outcome(200, users[id := Write(users[id], c, Some(next))], Some((c, next)))
  }

  /** A successful PATCH raises the dashboard's session count by exactly one
      and its time by 15 or 30 minutes, and changes no other user's
      statistics. */
  lemma PatchThenStats(userId: string, body: Value, users: Users, faults: Faults, other: string)
    requires Patch(Some(userId), Some(body), users, faults).status == 200
    requires other != userId && other in users
    ensures var after := Patch(Some(userId), Some(body), users, faults).users;
            var s, s' := StatsOf(users[userId]), StatsOf(after[userId]);
            userId in after && other in after &&
            s'.totalSessions == s.totalSessions + 1 &&
            s'.totalTime == s.totalTime + (if CounterOf(OptProp(Some(body), "type")) == Some(ResumeCounter) then 15 else 30) &&
            StatsOf(after[other]) == StatsOf(users[other])
  {
  }

  // ---------------------------------------------------------------------
  // POST /api/analyze

  const TrialPlan := "trial"

  /** `user.plan === "trial" && user.resumeUsed === 1`: the comparison is
      strict, so only a count of exactly one refuses. */
  predicate ResumeTrialUsed(u: UserRecord) {
    u.plan == Some(TrialPlan) && u.resumeUsed == Some(1)
  }

  /** The analysis route. `body` is the parsed request body, whose
      `resumeText` and `role` go to the resume analyzer (a missing `role`
      takes the analyzer's default roles); `apiKey`, `post` and `parse` are
      the analyzer's environment. The counter is bumped before the analysis
      record is stored, and the bump's own failure is ignored. */
  function Analyze(userId: Option<string>, body: Option<Value>, users: Users, faults: Faults,
                   apiKey: Option<string>, post: ResumeAnalyzer.AnalysisRequest -> Result<Option<string>>,
                   parse: string -> Option<Value>): (r: Outcome<Value>)
    ensures !Filled(userId) <==> r.status == 401
    // a body that is not JSON, or is `null`, throws into the 500 handler
    ensures Filled(userId) && (body.None? || body.value.JNull?) ==> r.status == 500 && r.users == users
    ensures Filled(userId) && body.Some? && !body.value.JNull? && (faults.read || userId.value !in users) ==>
              r.status == 404
    // the trial gate refuses before the analysis and before any write
    ensures Filled(userId) && body.Some? && !body.value.JNull? && !faults.read && userId.value in users ==>
              (r.status == 403 <==> ResumeTrialUsed(users[userId.value]))
    ensures r.status in {200, 401, 403, 404, 500}
    ensures r.status != 200 ==> r.payload.None?
    // the table changes only by bumping the caller's resume counter
    ensures r.users == users || (Filled(userId) && userId.value in users &&
              r.users == users[userId.value := users[userId.value].(resumeUsed := Bumped(users[userId.value].resumeUsed))])
    ensures r.status == 200 ==>
              var a := ResumeAnalyzer.AnalyzeResume(apiKey, DisplayOpt(OptProp(body, "resumeText")),
                                                    OptProp(body, "role"), None, post, parse);
              Filled(userId) && userId.value in users && !ResumeTrialUsed(users[userId.value]) && !faults.insert &&
              a.Ok? && r.payload == Some(a.value)
    // a failed analysis throws into the 500 handler before the counter is touched
    ensures Filled(userId) && body.Some? && !body.value.JNull? && !faults.read && userId.value in users &&
            !ResumeTrialUsed(users[userId.value]) &&
            ResumeAnalyzer.AnalyzeResume(apiKey, DisplayOpt(OptProp(body, "resumeText")),
                                         OptProp(body, "role"), None, post, parse).Err? ==>
              r.status == 500 && r.users == users
    // a successful analysis bumps the counter unless the update itself fails
    ensures r.status == 200 && !faults.update ==>
              Filled(userId) && userId.value in users &&
              r.users == users[userId.value := users[userId.value].(resumeUsed := Bumped(users[userId.value].resumeUsed))]
    ensures faults.update ==> r.users == users
  {
    if !Filled(userId) then Outcome(401, users, None)
    else if body.None? || body.value.JNull? then Outcome(500, users, None)
    else
      var id := userId.value;
      if faults.read || id !in users then Outcome(404, users, None)
      else if ResumeTrialUsed(users[id]) then Outcome(403, users, None)
      else match ResumeAnalyzer.AnalyzeResume(apiKey, DisplayOpt(OptProp(body, "resumeText")),
                                              OptProp(body, "role"), None, post, parse)
        case Err(_) => Outcome(500, users, None)
        case Ok(result) =>
          var users' := if faults.update then users
                        else users[id := users[id].(resumeUsed := Bumped(users[id].resumeUsed))];
          if faults.insert then Outcome(500, users', None)
          else Outcome(200, users', Some(result))
  }

  /** A record that fails to store still costs the user the analysis: the
      counter was bumped first and nothing undoes it. */
  lemma InsertFailureKeepsBump(id: string, body: Value, users: Users, faults: Faults,
                               apiKey: Option<string>, post: ResumeAnalyzer.AnalysisRequest -> Result<Option<string>>,
                               parse: string -> Option<Value>)
    requires id != "" && !body.JNull? && !faults.read && !faults.update && faults.insert && id in users
    requires !ResumeTrialUsed(users[id])
    requires ResumeAnalyzer.AnalyzeResume(apiKey, DisplayOpt(OptProp(Some(body), "resumeText")),
                                          OptProp(Some(body), "role"), None, post, parse).Ok?
    ensures var r := Analyze(Some(id), Some(body), users, faults, apiKey, post, parse);
            r.status == 500 && id in r.users && Count(r.users[id].resumeUsed) == Count(users[id].resumeUsed) + 1
  {
  }

  /** The gate's strictness lets a trial user through once the counter has
      passed one: after an analysis and a PATCH of the resume counter, a
      second analysis is accepted. */
  lemma TrialGateSkipsPastOne(id: string, body: Value, patchBody: Value, users: Users,
                              apiKey: Option<string>, post: ResumeAnalyzer.AnalysisRequest -> Result<Option<string>>,
                              parse: string -> Option<Value>)
    requires id != "" && !body.JNull? && patchBody == JObj([("type", JStr("resume"))])
    requires id in users && users[id].plan == Some(TrialPlan) && users[id].resumeUsed == Some(0)
    requires ResumeAnalyzer.AnalyzeResume(apiKey, DisplayOpt(OptProp(Some(body), "resumeText")),
                                          OptProp(Some(body), "role"), None, post, parse).Ok?
    ensures var ok := Faults(false, false, false);
            var r1 := Analyze(Some(id), Some(body), users, ok, apiKey, post, parse);
            var r2 := Patch(Some(id), Some(patchBody), r1.users, ok);
            var r3 := Analyze(Some(id), Some(body), r2.users, ok, apiKey, post, parse);
            r1.status == 200 && r2.status == 200 && r3.status == 200 && r3.users[id].resumeUsed == Some(3)
  {
    var ok := Faults(false, false, false);
    var r1 := Analyze(Some(id), Some(body), users, ok, apiKey, post, parse);
    assert r1.users[id].resumeUsed == Some(1);
    assert OptProp(Some(patchBody), "type") == Some(JStr("resume"));
    var r2 := Patch(Some(id), Some(patchBody), r1.users, ok);
    assert r2.users[id].resumeUsed == Some(2);
  }

  /** The gate as the refusal message describes it: a trial user who has
      used any analysis is refused. */
  predicate ResumeTrialSpent(u: UserRecord) {
    u.plan == Some(TrialPlan) && Count(u.resumeUsed) >= 1
  }

  /** `Analyze` with the gate `resumeUsed >= 1`. */
  function AnalyzeGated(userId: Option<string>, body: Option<Value>, users: Users, faults: Faults,
                        apiKey: Option<string>, post: ResumeAnalyzer.AnalysisRequest -> Result<Option<string>>,
                        parse: string -> Option<Value>): (r: Outcome<Value>)
    ensures Filled(userId) && body.Some? && !body.value.JNull? && !faults.read && userId.value in users ==>
              (r.status == 403 <==> ResumeTrialSpent(users[userId.value]))
    ensures r.users == users || (Filled(userId) && userId.value in users &&
              r.users == users[userId.value := users[userId.value].(resumeUsed := Bumped(users[userId.value].resumeUsed))])
    ensures r.status == 200 ==> Filled(userId) && userId.value in users && !ResumeTrialSpent(users[userId.value])
  {
    if !Filled(userId) then Outcome(401, users, None)
    else if body.None? || body.value.JNull? then Outcome(500, users, None)
    else
      var id := userId.value;
      if faults.read || id !in users then Outcome(404, users, None)
      else if ResumeTrialSpent(users[id]) then Outcome(403, users, None)
      else match ResumeAnalyzer.AnalyzeResume(apiKey, DisplayOpt(OptProp(body, "resumeText")),
                                              OptProp(body, "role"), None, post, parse)
        case Err(_) => Outcome(500, users, None)
        case Ok(result) =>
          var users' := if faults.update then users
                        else users[id := users[id].(resumeUsed := Bumped(users[id].resumeUsed))];
          if faults.insert then Outcome(500, users', None)
          else Outcome(200, users', Some(result))
  }

  /** With the corrected gate a trial allowance is spent for good: once a
      trial user's resume counter is positive, no analysis and no PATCH
      makes it non-positive again, so every later analysis is refused. */
  lemma SpentTrialStaysSpent(id: string, users: Users, userId: Option<string>, body: Option<Value>,
                             patchBody: Option<Value>, faults: Faults,
                             apiKey: Option<string>, post: ResumeAnalyzer.AnalysisRequest -> Result<Option<string>>,
                             parse: string -> Option<Value>)
    requires id in users && ResumeTrialSpent(users[id])
    ensures var a := AnalyzeGated(userId, body, users, faults, apiKey, post, parse).users;
            var p := Patch(userId, patchBody, users, faults).users;
            id in a && ResumeTrialSpent(a[id]) && id in p && ResumeTrialSpent(p[id])
    ensures AnalyzeGated(Some(id), body, users, faults, apiKey, post, parse).status != 200
  {
    var p := Patch(userId, patchBody, users, faults);
    if p.status == 200 {
      ReadWrite(users[id], CounterOf(OptProp(patchBody, "type")).value, Bumped(Read(users[id], CounterOf(OptProp(patchBody, "type")).value)), ResumeCounter);
    }
  }

  // ---------------------------------------------------------------------
  // GET /api/interview/check-plan

  /** `user.plan === "trial" && user.interviewUsed >= 1`; `null >= 1` is
      false. */
  predicate InterviewTrialUsed(u: UserRecord) {
    u.plan == Some(TrialPlan) && u.interviewUsed.Some? && u.interviewUsed.value >= 1
  }

  /** The plan check. It never writes; its payload is the row's plan and
      interview counter as stored. There is no sign-in check: without a user
      id the lookup finds nothing. */
  function CheckPlan(userId: Option<string>, users: Users, faults: Faults): (r: Outcome<(Option<string>, Option<int>)>)
    ensures r.users == users
    ensures r.status in {200, 403, 404}
    ensures r.status == 404 <==> userId.None? || faults.read || userId.value !in users
    ensures r.status == 403 <==> userId.Some? && !faults.read && userId.value in users &&
                                 users[userId.value].plan == Some(TrialPlan) && Count(users[userId.value].interviewUsed) >= 1
    ensures r.status == 200 ==> r.payload == Some((users[userId.value].plan, users[userId.value].interviewUsed))
    ensures r.status != 200 ==> r.payload.None?
  {
    if userId.None? || faults.read || userId.value !in users then Outcome(404, users, None)
    else if InterviewTrialUsed(users[userId.value]) then Outcome(403, users, None)
    else Outcome(200, users, Some((users[userId.value].plan, users[userId.value].interviewUsed)))
  }

  /** Only the trial plan is ever refused, whatever its counter says. */
  lemma PaidPlansNeverRefused(id: string, users: Users, faults: Faults)
    requires id in users && !faults.read && users[id].plan != Some(TrialPlan)
    ensures CheckPlan(Some(id), users, faults).status == 200
  {
  }

  // ---------------------------------------------------------------------
  // POST /api/interview

  /** The interview counter bump. `header` is the `user-id` request header. */
  function BumpInterview(header: Option<string>, users: Users, faults: Faults): (r: Outcome<()>)
    ensures r.status in {200, 400, 500}
    ensures r.status == 400 <==> !Filled(header)
    ensures r.status == 200 <==> Filled(header) && !faults.read && header.value in users && !faults.update
    ensures r.status != 200 ==> r.users == users
    // success rewrites only the interview counter of the named row
    ensures r.status == 200 ==>
              var id := header.value;
              id in r.users && r.users.Keys == users.Keys &&
              r.users[id] == users[id].(interviewUsed := r.users[id].interviewUsed) &&
              Count(r.users[id].interviewUsed) == Count(users[id].interviewUsed) + 1 &&
              forall other :: other in users && other != id ==> r.users[other] == users[other]
  {
    if !Filled(header) then Outcome(400, users, None)
    else
      var id := header.value;
      if faults.read || id !in users then Outcome(500, users, None)
      else if faults.update then Outcome(500, users, None)
      else Outcome(200, users[id := users[id].(interviewUsed := Bumped(users[id].interviewUsed))], Some(()))
  }

  /** An interview bump is the PATCH increment of the interview counter: both
      leave the same table behind. */
  lemma BumpAgreesWithPatch(id: string, users: Users, faults: Faults)
    requires id != ""
    ensures var b := BumpInterview(Some(id), users, faults);
            var p := Patch(Some(id), Some(JObj([("type", JStr("interview"))])), users, faults);
            b.status == p.status && b.users == p.users
  {
    assert OptProp(Some(JObj([("type", JStr("interview"))])), "type") == Some(JStr("interview"));
  }

  /** A trial user's first bump from an empty counter makes the plan check
      refuse the next interview. */
  lemma BumpSpendsInterviewTrial(id: string, users: Users)
    requires id != "" && id in users && users[id].plan == Some(TrialPlan) && Count(users[id].interviewUsed) == 0
    ensures var ok := Faults(false, false, false);
            CheckPlan(Some(id), users, ok).status == 200 &&
            CheckPlan(Some(id), BumpInterview(Some(id), users, ok).users, ok).status == 403
  {
  }
}
