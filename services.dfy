/**
 * The five service operations of app/api/services.py. Each turns a validated
 * request into a prompt, a user id and a payload for the agent system, calls
 * the agent once, and hands its reply to the response pipeline of Extraction
 * with the operation's response model.
 */
module Services {
  import opened Wrappers
  import opened Text
  import opened Json
  import opened Validation
  import opened Schemas
  import opened Extraction

  // ---------------------------------------------------------------------------
  // The agent call (lines 18-33)
  // ---------------------------------------------------------------------------

  /** Which of the five fixed instruction blocks closes the prompt. */
  datatype Operation = DailyMissions | DailyFeedback | WeeklyAnalysis | ChatSessionStart | ChatMessageReply

  /**
   * A prompt: `facts` is the text of the f-string from its start up to the end
   * of its last interpolated line, character for character; the instruction
   * block that follows has no interpolation and is named by its operation.
   */
  datatype Prompt = Prompt(facts: string, instructions: Operation)

  /** One top-level entry of the payload ("preferences" or "event"). */
  type Bucket = map<string, Json>

  datatype AgentRequest = AgentRequest(userRequest: Prompt, userId: string, userPayload: map<string, Bucket>)

  /**
   * `run_agent_system` either raises, or returns a dict whose "agent_response"
   * entry, when there is one, is `agentResponse`.
   */
  datatype AgentResult = AgentRaised(reason: string) | AgentReturned(agentResponse: Option<string>)

  /** The agent system, left abstract. */
  type Agent = AgentRequest -> AgentResult

  /** `agent_result.get("agent_response", "")`. */
  function ReplyText(result: AgentResult): string
    requires result.AgentReturned?
  {
    if result.agentResponse.Some? then result.agentResponse.value else ""
  }

  /** What asking `agent` with `call` and reading its reply against `contract` yields. */
  predicate Answers<T(==)>(result: Result<T, PipelineError>, call: AgentRequest, agent: Agent, parse: JsonLoads, contract: Contract<T>) {
    && (result.Err? && result.error.UpstreamAgentError? <==> agent(call).AgentRaised?)
    && (agent(call).AgentRaised? ==> result == Err(UpstreamAgentError(agent(call).reason)))
    && (agent(call).AgentReturned? ==> result == ParseAgentResponse(ReplyText(agent(call)), parse, contract))
  }

  /**
   * `_call_agent_and_parse_response`: an exception of the agent system passes
   * through; a reply is parsed and validated, and a result is only ever the
   * model validated from the decoded candidate of that reply.
   */
  function CallAgentAndParseResponse<T(==)>(call: AgentRequest, agent: Agent, parse: JsonLoads, contract: Contract<T>): (r: Result<T, PipelineError>)
    ensures Answers(r, call, agent, parse, contract)
    ensures r.Ok? ==>
      && agent(call).AgentReturned?
      && parse(Candidate(ReplyText(agent(call)))).Ok?
      && contract.validate(parse(Candidate(ReplyText(agent(call)))).value) == Ok(r.value)
  {
    match agent(call)
    case AgentRaised(reason) => Err(UpstreamAgentError(reason))
    case AgentReturned(_) => ParseAgentResponse(ReplyText(agent(call)), parse, contract)
  }

  /**
   * A result without an "agent_response" entry is decoded as the empty text,
   * which `json.loads` rejects: a parse error whose raw reply is empty.
   */
  lemma MissingReplyIsParseError<T>(call: AgentRequest, agent: Agent, parse: JsonLoads, contract: Contract<T>)
    requires agent(call) == AgentReturned(None)
    requires parse("").Err?
    ensures CallAgentAndParseResponse(call, agent, parse, contract) == Err(ResponseParseError(parse("").error, ""))
  {
    BareReplyCandidate("");
  }

  const DailyMissionContract: Contract<DailyMissionResponse> := Contract("DailyMissionResponse", ValidateDailyMissionResponse)
  const DailyFeedbackContract: Contract<DailyFeedbackResponse> := Contract("DailyFeedbackResponse", ValidateDailyFeedbackResponse)
  const WeeklyAnalysisContract: Contract<WeeklyAnalysisResponse> := Contract("WeeklyAnalysisResponse", ValidateWeeklyAnalysisResponse)
  const ChatSessionContract: Contract<ChatSessionResponse> := Contract("ChatSessionResponse", ValidateChatSessionResponse)
  const ChatMessageContract: Contract<ChatMessageResponse> := Contract("ChatMessageResponse", ValidateChatMessageResponse)

  // ---------------------------------------------------------------------------
  // Prompt text shared by the five builders
  // ---------------------------------------------------------------------------

  /** Every line of the prompts' f-strings starts on a new line indented by four spaces. */
  const Indent: string := "\n    "

  function Lines(ls: seq<string>): string {
    if |ls| == 0 then "" else Indent + ls[0] + Lines(ls[1..])
  }

  /** Every line given to Lines appears in its text as a whole, indented line. */
  lemma {:induction false} LinesContainEach(ls: seq<string>, i: nat)
    requires i < |ls|
    ensures Contains(Lines(ls), Indent + ls[i])
    decreases i
  {
    if i == 0 {
      ContainsMiddle("", Indent + ls[0], Lines(ls[1..]));
      assert "" + (Indent + ls[0]) + Lines(ls[1..]) == Lines(ls);
    } else {
      LinesContainEach(ls[1..], i - 1);
      assert ls[1..][i - 1] == ls[i];
      ContainsWithin(Indent + ls[0], Lines(ls[1..]), "", Indent + ls[i]);
      assert Indent + ls[0] + Lines(ls[1..]) + "" == Lines(ls);
    }
  }

  /** A line built as `caption + value` shows up as exactly that text. */
  lemma LineShown(ls: seq<string>, i: nat, caption: string, value: string)
    requires i < |ls| && ls[i] == caption + value
    ensures Contains(Lines(ls), Indent + caption + value)
  {
    LinesContainEach(ls, i);
    assert Indent + ls[i] == Indent + caption + value;
  }

  /** Two neighbouring lines appear together, the second right after the first. */
  lemma {:induction false} LinesContainPair(ls: seq<string>, i: nat)
    requires i + 1 < |ls|
    ensures Contains(Lines(ls), Indent + ls[i] + Indent + ls[i + 1])
    decreases i
  {
    if i == 0 {
      assert ls[1..][1..] == ls[2..];
      assert Lines(ls) == "" + (Indent + ls[0] + Indent + ls[1]) + Lines(ls[2..]);
      ContainsMiddle("", Indent + ls[0] + Indent + ls[1], Lines(ls[2..]));
    } else {
      LinesContainPair(ls[1..], i - 1);
      assert ls[1..][i - 1] == ls[i] && ls[1..][i] == ls[i + 1];
      ContainsWithin(Indent + ls[0], Lines(ls[1..]), "", Indent + ls[i] + Indent + ls[i + 1]);
      assert Indent + ls[0] + Lines(ls[1..]) + "" == Lines(ls);
    }
  }

  /**
   * A line that is not the last ends where the next one's indent begins, so
   * `caption + value` appears as the whole line and `value` is not cut short.
   */
  lemma LineEnded(ls: seq<string>, i: nat, caption: string, value: string)
    requires i + 1 < |ls| && ls[i] == caption + value
    ensures Contains(Lines(ls), Indent + caption + value + Indent)
  {
    LinesContainPair(ls, i);
    assert Indent + ls[i] + Indent + ls[i + 1] == (Indent + caption + value + Indent) + ls[i + 1];
    ContainsHead(Lines(ls), Indent + caption + value + Indent, ls[i + 1]);
  }

  /** Python truthiness of an optional string: neither None nor empty. */
  predicate Truthy(o: Option<string>) {
    o.Some? && o.value != ""
  }

  /** `v` is a JSON string that `parse` reads back as `e`. */
  predicate Denotes<E(==)>(v: Json, parse: string -> Option<E>, e: E) {
    v.JStr? && parse(v.s) == Some(e)
  }

  /** An optional text as a payload value: `None` is JSON null. */
  function OptionalText(o: Option<string>): (j: Json)
    ensures AsOptionalString(j) == Ok(o)
  {
    if o.Some? then JStr(o.value) else JNull
  }

  const UserIdLabel: string := "사용자 ID: "

  /**
   * Every builder passes the user id as `str(request.userId)`, which reads
   * back as the id, and names it in the prompt on a line of its own: the
   * caption and the id, followed by the next line's indent.
   */
  predicate IdentifiesUser(c: AgentRequest, userId: int) {
    && c.userId == IntToString(userId)
    && ParseDecimal(c.userId) == Some(userId)
    && Contains(c.userRequest.facts, Indent + UserIdLabel + c.userId + Indent)
  }

  /** The line that stands for an empty list of history items or ranked reasons. */
  const NoneLine: string := "- 없음"

  // ---------------------------------------------------------------------------
  // Daily missions (lines 60-130)
  // ---------------------------------------------------------------------------

  /** `f"{start.isoformat()}-{end.isoformat()}"` (line 67). */
  function AvailableTime(o: OnboardingData): string {
    o.availableStartTime + "-" + o.availableEndTime
  }

  /** The "preferences" bucket of lines 64-71. */
  function MissionPreferences(o: OnboardingData): Bucket {
    map[
      "appGoal" := JStr(o.appGoal),
      "workTimeType" := JStr(WorkTimeTypeValue(o.workTimeType)),
      "availableTime" := JStr(AvailableTime(o)),
      "minExerciseMinutes" := JInt(o.minExerciseMinutes),
      "preferredExercises" := JStr(Join(", ", o.preferredExercises)),
      "lifestyleType" := JStr(LifestyleTypeValue(o.lifestyleType))]
  }

  /**
   * The preferences bucket has six keys: the goal as sent, the available
   * time as "start-end", the minimum minutes as an integer, the preferred
   * exercises joined by ", " in order, and the enum members by the values
   * that identify them.
   */
  lemma MissionPreferencesContents(o: OnboardingData)
    ensures var b := MissionPreferences(o);
      && b.Keys == {"appGoal", "workTimeType", "availableTime", "minExerciseMinutes", "preferredExercises", "lifestyleType"}
      && b["appGoal"] == JStr(o.appGoal)
      && b["availableTime"] == JStr(o.availableStartTime + "-" + o.availableEndTime)
      && b["preferredExercises"] == JStr(Join(", ", o.preferredExercises))
      && AsInt(b["minExerciseMinutes"]) == Ok(o.minExerciseMinutes)
      && Denotes(b["workTimeType"], ParseWorkTimeType, o.workTimeType)
      && Denotes(b["lifestyleType"], ParseLifestyleType, o.lifestyleType)
  {
    EnumValuesRoundTrip();
  }

  /**
   * Start and end of the available time are recoverable from "start-end"
   * when the start contains no '-' (a naive ISO time never does): the first '-'
   * is the separator.
   */
  lemma AvailableTimeSplits(o: OnboardingData)
    requires !Contains(o.availableStartTime, "-")
    ensures var t := AvailableTime(o);
      var k := Find(t, "-");
      && k == |o.availableStartTime|
      && t[..k] == o.availableStartTime
      && t[k + 1..] == o.availableEndTime
  {
    var start := o.availableStartTime;
    var t := AvailableTime(o);
    assert t[|start|..|start| + 1] == "-";
    forall j | 0 <= j < |start| ensures !OccursAt(t, "-", j) {
      OccurrenceChars(t, "-", j);
      assert t[j] == start[j];
      assert OccursAt(start, "-", j) <==> start[j] == '-' by {
        assert start[j..j + 1] == [start[j]];
      }
    }
    FindIsFirst(t, "-", |start|);
    assert t[..|start|] == start;
    assert t[|start| + 1..] == o.availableEndTime;
  }

  /** The five keys one history item contributes (lines 78-82). */
  function HistoryEvent(h: RecentMissionHistoryItem): Bucket {
    map[
      "date" := JStr(h.date),
      "missionType" := JStr(MissionTypeValue(h.missionType)),
      "difficulty" := JStr(DifficultyValue(h.difficulty)),
      "mission_result" := JStr(MissionResultValue(h.result)),
      "fail_reason" := OptionalText(h.failureReason)]
  }

  const HistoryKeys: set<string> := {"date", "missionType", "difficulty", "mission_result", "fail_reason"}

  /** A history item's bucket has the five history keys, each reading back as the item's field. */
  lemma HistoryEventContents(h: RecentMissionHistoryItem)
    ensures var b := HistoryEvent(h);
      && b.Keys == HistoryKeys
      && b["date"] == JStr(h.date)
      && Denotes(b["missionType"], ParseMissionType, h.missionType)
      && Denotes(b["difficulty"], ParseDifficulty, h.difficulty)
      && Denotes(b["mission_result"], ParseMissionResult, h.result)
      && AsOptionalString(b["fail_reason"]) == Ok(h.failureReason)
  {
    EnumValuesRoundTrip();
  }

  /** The "event" bucket before the loop (lines 72-74). */
  function WeeklyFailureEvent(reasons: seq<string>): Bucket {
    map["weeklyFailureReasons" := JStr(Join(", ", reasons))]
  }

  /**
   * The "event" bucket after the loop of lines 76-84. Each pass writes the
   * item's keys and then spreads the previous event over them, so a value
   * already present wins: the first item's fields stay, and no later item
   * changes anything.
   */
  function MissionEvent(history: seq<RecentMissionHistoryItem>, reasons: seq<string>): (b: Bucket)
    ensures b.Keys == (if |history| == 0 then {} else HistoryKeys) + {"weeklyFailureReasons"}
    ensures b["weeklyFailureReasons"] == JStr(Join(", ", reasons))
    ensures |history| > 0 ==> forall k :: k in HistoryKeys ==> b[k] == HistoryEvent(history[0])[k]
  {
    if |history| == 0 then WeeklyFailureEvent(reasons) else HistoryEvent(history[0]) + WeeklyFailureEvent(reasons)
  }

  /** Items after the first never reach the payload. */
  lemma LaterHistoryIgnored(first: RecentMissionHistoryItem, later: seq<RecentMissionHistoryItem>, reasons: seq<string>)
    ensures MissionEvent([first] + later, reasons) == MissionEvent([first], reasons)
  {
    assert ([first] + later)[0] == first;
  }

  /** The payload of lines 63-84. */
  function MissionsPayload(r: DailyMissionRequest): map<string, Bucket> {
    map[
      "preferences" := MissionPreferences(r.onboarding),
      "event" := MissionEvent(r.recentMissionHistory, r.weeklyFailureReasons)]
  }

  /** Spreading a bucket over keys it already has leaves it as it was. */
  lemma SpreadOverCovered(added: Bucket, previous: Bucket)
    requires added.Keys <= previous.Keys
    ensures added + previous == previous
  {
  }

  /** One pass of the loop of lines 76-84 takes the event over the first `i` items to the first `i + 1`. */
  lemma MissionEventStep(history: seq<RecentMissionHistoryItem>, i: int, reasons: seq<string>)
    requires 0 <= i < |history|
    ensures MissionEvent(history[..i + 1], reasons) == HistoryEvent(history[i]) + MissionEvent(history[..i], reasons)
  {
    if i > 0 {
      SpreadOverCovered(HistoryEvent(history[i]), MissionEvent(history[..i], reasons));
      assert history[..i + 1][0] == history[..i][0];
    } else {
      assert history[..1][0] == history[i];
    }
  }

  /** Lines 63-84, loop and all: the payload is built and then rewritten once per history item. */
  method BuildMissionsPayload(r: DailyMissionRequest) returns (payload: map<string, Bucket>)
    ensures payload == MissionsPayload(r)
  {
    var history := r.recentMissionHistory;
    var reasons := r.weeklyFailureReasons;
    var prefs := MissionPreferences(r.onboarding);
    payload := map["preferences" := prefs, "event" := WeeklyFailureEvent(reasons)];
    for i := 0 to |history|
      invariant payload == map["preferences" := prefs, "event" := MissionEvent(history[..i], reasons)]
    {
      MissionEventStep(history, i, reasons);
      ghost var previous := payload;
      payload := payload["event" := HistoryEvent(history[i]) + payload["event"]];
      assert payload == previous["event" := MissionEvent(history[..i + 1], reasons)];
    }
    assert history[..|history|] == history;
  }

  /**
   * One line of the mission history (line 96): it opens with the date and
   * closes with the failure reason when that is truthy, else with the result.
   */
  function HistoryLine(h: RecentMissionHistoryItem): (t: string)
    ensures StartsWith(t, "- 날짜: " + h.date)
    ensures Truthy(h.failureReason) ==> EndsWith(t, ", 실패 사유: " + h.failureReason.value)
    ensures !Truthy(h.failureReason) ==> EndsWith(t, ", 결과: " + MissionResultValue(h.result))
  {
    var head := "- 날짜: " + h.date;
    var outcome := ", 결과: " + MissionResultValue(h.result);
    var reason := if Truthy(h.failureReason) then ", 실패 사유: " + h.failureReason.value else "";
    var middle := ", 유형: " + MissionTypeValue(h.missionType) + ", 난이도: " + DifficultyValue(h.difficulty);
    var t := head + middle + outcome + reason;
    assert t[..|head|] == head;
    assert reason == "" ==> t[|t| - |outcome|..] == outcome;
    assert t[|t| - |reason|..] == reason;
    t
  }

  /** The history lines joined by a bare newline, or "- 없음" (lines 95-98). */
  function HistorySection(history: seq<RecentMissionHistoryItem>): (t: string)
    ensures t == NoneLine <==> |history| == 0
  {
    if |history| == 0 then NoneLine
    else
      var lines := seq(|history|, i requires 0 <= i < |history| => HistoryLine(history[i]));
      JoinStartsWithFirst("\n", lines);
      Join("\n", lines)
  }

  /** The weekly failure reasons, or "없음" (line 100). */
  function ReasonsText(reasons: seq<string>): string {
    if |reasons| > 0 then Join(", ", reasons) else "없음"
  }

  function MissionHeadLines(r: DailyMissionRequest): seq<string> {
    var o := r.onboarding;
    [
      UserIdLabel + IntToString(r.userId),
      "사용자 목표: " + o.appGoal,
      "근무 시간 유형: " + WorkTimeTypeValue(o.workTimeType),
      "운동 가능 시간: " + o.availableStartTime + " ~ " + o.availableEndTime
        + " (" + IntToString(o.minExerciseMinutes) + "분 이상)",
      "선호 운동: " + Join(", ", o.preferredExercises),
      "생활 패턴: " + LifestyleTypeValue(o.lifestyleType)]
  }

  const HistoryHeading: string := "최근 미션 이력:"

  /** The prompt facts of lines 86-100: three groups of lines, with an empty line between groups. */
  function MissionFacts(r: DailyMissionRequest): string {
    Lines(MissionHeadLines(r))
    + "\n" + Lines([HistoryHeading, HistorySection(r.recentMissionHistory)])
    + "\n" + Lines(["주간 주요 실패 원인: " + ReasonsText(r.weeklyFailureReasons)])
  }

  /** The user id stands on a line of its own, and the history heading is followed by the history. */
  lemma MissionFactsShow(r: DailyMissionRequest)
    ensures Contains(MissionFacts(r), Indent + UserIdLabel + IntToString(r.userId) + Indent)
    ensures Contains(MissionFacts(r), Indent + HistoryHeading + Indent + HistorySection(r.recentMissionHistory))
  {
    var head := Lines(MissionHeadLines(r));
    var hist := Lines([HistoryHeading, HistorySection(r.recentMissionHistory)]);
    var tail := Lines(["주간 주요 실패 원인: " + ReasonsText(r.weeklyFailureReasons)]);
    var user := Indent + UserIdLabel + IntToString(r.userId) + Indent;
    LineEnded(MissionHeadLines(r), 0, UserIdLabel, IntToString(r.userId));
    ContainsBefore(head, "\n", user);
    ContainsBefore(head + "\n", hist, user);
    ContainsBefore(head + "\n" + hist, "\n", user);
    ContainsBefore(head + "\n" + hist + "\n", tail, user);
    var section := Indent + HistoryHeading + Indent + HistorySection(r.recentMissionHistory);
    LinesContainPair([HistoryHeading, HistorySection(r.recentMissionHistory)], 0);
    ContainsAfter(head + "\n", hist, section);
    ContainsBefore(head + "\n" + hist, "\n", section);
    ContainsBefore(head + "\n" + hist + "\n", tail, section);
  }

  /** The agent request of `get_daily_missions_service`, with the loop's payload. */
  function DailyMissionsCall(r: DailyMissionRequest): (c: AgentRequest)
    ensures IdentifiesUser(c, r.userId)
    ensures c.userRequest.instructions == DailyMissions
    ensures c.userPayload.Keys == {"preferences", "event"}
    ensures Contains(c.userRequest.facts, Indent + HistoryHeading + Indent + HistorySection(r.recentMissionHistory))
  {
    IntToStringRoundTrip(r.userId);
    MissionFactsShow(r);
    var payload := MissionsPayload(r);
    assert payload.Keys == {"preferences", "event"};
    AgentRequest(Prompt(MissionFacts(r), DailyMissions), IntToString(r.userId), payload)
  }

  /** The request carries the loop's buckets: the preferences and the first item's event. */
  lemma DailyMissionsCallPayload(r: DailyMissionRequest)
    ensures var c := DailyMissionsCall(r);
      && c.userPayload["preferences"] == MissionPreferences(r.onboarding)
      && c.userPayload["event"] == MissionEvent(r.recentMissionHistory, r.weeklyFailureReasons)
  {
  }

  /** `get_daily_missions_service`: the payload is built by the loop, then the agent is asked. */
  method DailyMissionsService(r: DailyMissionRequest, agent: Agent, parse: JsonLoads) returns (result: Result<DailyMissionResponse, PipelineError>)
    ensures Answers(result, DailyMissionsCall(r), agent, parse, DailyMissionContract)
  {
    var payload := BuildMissionsPayload(r);
    var call := AgentRequest(Prompt(MissionFacts(r), DailyMissions), IntToString(r.userId), payload);
    result := CallAgentAndParseResponse(call, agent, parse, DailyMissionContract);
  }

  // ---------------------------------------------------------------------------
  // Daily feedback (lines 133-188)
  // ---------------------------------------------------------------------------

  /** The failure reason in parentheses, shown only when it is truthy (line 154). */
  function FailureNote(reason: Option<string>): (n: string)
    ensures n == "" <==> !Truthy(reason)
    ensures Truthy(reason) ==> n == " (실패 사유: " + reason.value + ")"
  {
    if Truthy(reason) then " (실패 사유: " + reason.value + ")" else ""
  }

  /** The "event" bucket of lines 137-145. */
  function FeedbackEvent(r: DailyFeedbackRequest): Bucket {
    var m := r.todayMission;
    map[
      "date" := JStr(r.targetDate),
      "missionType" := JStr(MissionTypeValue(m.missionType)),
      "difficulty" := JStr(DifficultyValue(m.difficulty)),
      "mission_result" := JStr(MissionResultValue(m.result)),
      "fail_reason" := OptionalText(m.failureReason),
      "successDays_recent" := JInt(r.recentSummary.successDays),
      "failureDays_recent" := JInt(r.recentSummary.failureDays)]
  }

  /** The feedback event has seven keys: today's mission and the recent counts, each reading back. */
  lemma FeedbackEventContents(r: DailyFeedbackRequest)
    ensures var b := FeedbackEvent(r);
      && b.Keys == {"date", "missionType", "difficulty", "mission_result", "fail_reason", "successDays_recent", "failureDays_recent"}
      && b["date"] == JStr(r.targetDate)
      && Denotes(b["missionType"], ParseMissionType, r.todayMission.missionType)
      && Denotes(b["difficulty"], ParseDifficulty, r.todayMission.difficulty)
      && Denotes(b["mission_result"], ParseMissionResult, r.todayMission.result)
      && AsOptionalString(b["fail_reason"]) == Ok(r.todayMission.failureReason)
      && AsInt(b["successDays_recent"]) == Ok(r.recentSummary.successDays)
      && AsInt(b["failureDays_recent"]) == Ok(r.recentSummary.failureDays)
  {
    EnumValuesRoundTrip();
  }

  function FeedbackLines(r: DailyFeedbackRequest): seq<string> {
    var m := r.todayMission;
    [
      UserIdLabel + IntToString(r.userId),
      "분석 대상 날짜: " + r.targetDate,
      "오늘 수행한 미션:",
      "- 유형: " + MissionTypeValue(m.missionType),
      "- 난이도: " + DifficultyValue(m.difficulty),
      "- 결과: " + MissionResultValue(m.result) + FailureNote(m.failureReason),
      "최근 요약:",
      "- 성공 일수: " + IntToString(r.recentSummary.successDays) + "일",
      "- 실패 일수: " + IntToString(r.recentSummary.failureDays) + "일"]
  }

  /** The agent request of `get_daily_feedback_service`. */
  function DailyFeedbackCall(r: DailyFeedbackRequest): (c: AgentRequest)
    ensures IdentifiesUser(c, r.userId)
    ensures c.userRequest.instructions == DailyFeedback
    ensures c.userPayload.Keys == {"event"}
    ensures c.userPayload["event"] == FeedbackEvent(r)
    ensures Contains(c.userRequest.facts, Indent + "분석 대상 날짜: " + r.targetDate)
    ensures Contains(c.userRequest.facts, Indent + "- 결과: " + (MissionResultValue(r.todayMission.result) + FailureNote(r.todayMission.failureReason)))
  {
    IntToStringRoundTrip(r.userId);
    var m := r.todayMission;
    LineEnded(FeedbackLines(r), 0, UserIdLabel, IntToString(r.userId));
    LineShown(FeedbackLines(r), 1, "분석 대상 날짜: ", r.targetDate);
    LineShown(FeedbackLines(r), 5, "- 결과: ", MissionResultValue(m.result) + FailureNote(m.failureReason));
    assert "- 결과: " + (MissionResultValue(m.result) + FailureNote(m.failureReason))
      == "- 결과: " + MissionResultValue(m.result) + FailureNote(m.failureReason);
    AgentRequest(Prompt(Lines(FeedbackLines(r)), DailyFeedback), IntToString(r.userId), map["event" := FeedbackEvent(r)])
  }

  /** `get_daily_feedback_service`. */
  function DailyFeedbackService(r: DailyFeedbackRequest, agent: Agent, parse: JsonLoads): (result: Result<DailyFeedbackResponse, PipelineError>)
    ensures Answers(result, DailyFeedbackCall(r), agent, parse, DailyFeedbackContract)
  {
    CallAgentAndParseResponse(DailyFeedbackCall(r), agent, parse, DailyFeedbackContract)
  }

  // ---------------------------------------------------------------------------
  // Weekly analysis (lines 191-233)
  // ---------------------------------------------------------------------------

  /** `f"{item.reason} ({item.count}회)"` (line 202). */
  function RankedSummaryItem(f: FailureReasonRankedItem): string {
    f.reason + " (" + IntToString(f.count) + "회)"
  }

  /** `f"- {item.reason}: {item.count}회"` (line 215). */
  function RankedLine(f: FailureReasonRankedItem): string {
    "- " + f.reason + ": " + IntToString(f.count) + "회"
  }

  /** The ranked reasons, one per line, or "- 없음" (lines 214-217). */
  function RankedSection(items: seq<FailureReasonRankedItem>): (t: string)
    ensures t == NoneLine <==> |items| == 0
  {
    if |items| == 0 then NoneLine
    else
      var lines := seq(|items|, i requires 0 <= i < |items| => RankedLine(items[i]));
      JoinStartsWithFirst("\n", lines);
      Join("\n", lines)
  }

  /** The "event" bucket of lines 196-203. */
  function WeeklyEvent(r: WeeklyAnalysisRequest): Bucket {
    var items := r.failureReasonsRanked;
    map[
      "week_start" := JStr(r.weekRange.start),
      "week_end" := JStr(r.weekRange.end),
      "totalDays_weekly" := JInt(r.weeklyStats.totalDays),
      "successDays_weekly" := JInt(r.weeklyStats.successDays),
      "failureDays_weekly" := JInt(r.weeklyStats.failureDays),
      "failureReasons_ranked" := JStr(Join(", ", seq(|items|, i requires 0 <= i < |items| => RankedSummaryItem(items[i]))))]
  }

  /** The weekly event has six keys, and the ranked reasons are "reason (count회)" joined by ", " in rank order. */
  lemma WeeklyEventContents(r: WeeklyAnalysisRequest)
    ensures var b := WeeklyEvent(r); var items := r.failureReasonsRanked;
      && b.Keys == {"week_start", "week_end", "totalDays_weekly", "successDays_weekly", "failureDays_weekly", "failureReasons_ranked"}
      && b["week_start"] == JStr(r.weekRange.start) && b["week_end"] == JStr(r.weekRange.end)
      && AsInt(b["totalDays_weekly"]) == Ok(r.weeklyStats.totalDays)
      && AsInt(b["successDays_weekly"]) == Ok(r.weeklyStats.successDays)
      && AsInt(b["failureDays_weekly"]) == Ok(r.weeklyStats.failureDays)
      && b["failureReasons_ranked"] == JStr(Join(", ", seq(|items|, i requires 0 <= i < |items| => RankedSummaryItem(items[i]))))
  {
  }

  const RankedHeading: string := "주요 실패 원인 (횟수 기준):"

  function WeeklyLines(r: WeeklyAnalysisRequest): seq<string> {
    [
      UserIdLabel + IntToString(r.userId),
      "주간 분석 범위: " + (r.weekRange.start + " ~ " + r.weekRange.end),
      "주간 통계:",
      "- 총 일수: " + IntToString(r.weeklyStats.totalDays) + "일",
      "- 성공 일수: " + IntToString(r.weeklyStats.successDays) + "일",
      "- 실패 일수: " + IntToString(r.weeklyStats.failureDays) + "일",
      RankedHeading,
      RankedSection(r.failureReasonsRanked)]
  }

  /** The agent request of `get_weekly_analysis_service`; its preferences are empty. */
  function WeeklyAnalysisCall(r: WeeklyAnalysisRequest): (c: AgentRequest)
    ensures IdentifiesUser(c, r.userId)
    ensures c.userRequest.instructions == WeeklyAnalysis
    ensures c.userPayload.Keys == {"preferences", "event"} && c.userPayload["preferences"] == map[]
    ensures c.userPayload["event"] == WeeklyEvent(r)
    ensures Contains(c.userRequest.facts, Indent + "주간 분석 범위: " + (r.weekRange.start + " ~ " + r.weekRange.end))
    ensures Contains(c.userRequest.facts, Indent + RankedHeading + Indent + RankedSection(r.failureReasonsRanked))
  {
    IntToStringRoundTrip(r.userId);
    var ls := WeeklyLines(r);
    LineEnded(ls, 0, UserIdLabel, IntToString(r.userId));
    LineShown(ls, 1, "주간 분석 범위: ", r.weekRange.start + " ~ " + r.weekRange.end);
    LinesContainPair(ls, 6);
    AgentRequest(Prompt(Lines(ls), WeeklyAnalysis), IntToString(r.userId), map["preferences" := map[], "event" := WeeklyEvent(r)])
  }

  /** `get_weekly_analysis_service`. */
  function WeeklyAnalysisService(r: WeeklyAnalysisRequest, agent: Agent, parse: JsonLoads): (result: Result<WeeklyAnalysisResponse, PipelineError>)
    ensures Answers(result, WeeklyAnalysisCall(r), agent, parse, WeeklyAnalysisContract)
  {
    CallAgentAndParseResponse(WeeklyAnalysisCall(r), agent, parse, WeeklyAnalysisContract)
  }

  // ---------------------------------------------------------------------------
  // Chat session (lines 236-272)
  // ---------------------------------------------------------------------------

  const SessionOpening: string := "새로운 채팅 세션이 시작되었습니다."

  function ChatSessionLines(r: ChatSessionRequest): seq<string> {
    [
      SessionOpening,
      UserIdLabel + IntToString(r.userId),
      "세션 ID: " + IntToString(r.sessionId),
      "사용자 초기 컨텍스트:",
      "- 앱 사용 목적: " + r.initialContext.appGoal,
      "- 생활 패턴: " + LifestyleTypeValue(r.initialContext.lifestyleType)]
  }

  /** The agent request of `create_chat_session_service`: only preferences, no event. */
  function ChatSessionCall(r: ChatSessionRequest): (c: AgentRequest)
    ensures IdentifiesUser(c, r.userId)
    ensures c.userRequest.instructions == ChatSessionStart
    ensures c.userPayload.Keys == {"preferences"}
    ensures c.userPayload["preferences"].Keys == {"appGoal", "lifestyleType"}
    ensures var v := c.userPayload["preferences"]["lifestyleType"];
      v.JStr? && ParseLifestyleType(v.s) == Some(r.initialContext.lifestyleType)
    ensures c.userPayload["preferences"]["appGoal"] == JStr(r.initialContext.appGoal)
    ensures Contains(c.userRequest.facts, Indent + "세션 ID: " + IntToString(r.sessionId))
    ensures StartsWith(c.userRequest.facts, Indent + SessionOpening)
  {
    IntToStringRoundTrip(r.userId);
    EnumValuesRoundTrip();
    LineEnded(ChatSessionLines(r), 1, UserIdLabel, IntToString(r.userId));
    LineShown(ChatSessionLines(r), 2, "세션 ID: ", IntToString(r.sessionId));
    AgentRequest(
      Prompt(Lines(ChatSessionLines(r)), ChatSessionStart),
      IntToString(r.userId),
      map["preferences" := map[
        "appGoal" := JStr(r.initialContext.appGoal),
        "lifestyleType" := JStr(LifestyleTypeValue(r.initialContext.lifestyleType))]])
  }

  /** `create_chat_session_service`. */
  function ChatSessionService(r: ChatSessionRequest, agent: Agent, parse: JsonLoads): (result: Result<ChatSessionResponse, PipelineError>)
    ensures Answers(result, ChatSessionCall(r), agent, parse, ChatSessionContract)
  {
    CallAgentAndParseResponse(ChatSessionCall(r), agent, parse, ChatSessionContract)
  }

  // ---------------------------------------------------------------------------
  // Chat message (lines 275-321)
  // ---------------------------------------------------------------------------

  const TextInputLabel: string := "사용자 텍스트 입력: "
  const OptionInputLabel: string := "사용자 선택지 입력: "

  /**
   * The user's input as the prompt states it (lines 278-282): the text of a
   * TEXT input, the value of an OPTION input, each only when truthy, and
   * otherwise nothing. The field the input type does not select is ignored.
   */
  function ChatInputContent(input: ChatInput): (t: string)
    ensures t == "" <==>
      !((input.inputType == TEXT && Truthy(input.text)) || (input.inputType == OPTION && Truthy(input.value)))
    ensures input.inputType == TEXT && Truthy(input.text) ==> t == TextInputLabel + input.text.value
    ensures input.inputType == OPTION && Truthy(input.value) ==> t == OptionInputLabel + input.value.value
  {
    if input.inputType == TEXT && Truthy(input.text) then TextInputLabel + input.text.value
    else if input.inputType == OPTION && Truthy(input.value) then OptionInputLabel + input.value.value
    else ""
  }

  /** The "event" bucket of lines 285-290. */
  function ChatMessageEvent(r: ChatMessageRequest): Bucket {
    map[
      "session_id" := JInt(r.sessionId),
      "input_type" := JStr(ChatInputTypeValue(r.input.inputType)),
      "input_content" := JStr(ChatInputContent(r.input)),
      "timestamp" := JStr(r.timestamp)]
  }

  /** The chat event has four keys: the session, the input's type and content, and the time, each reading back. */
  lemma ChatMessageEventContents(r: ChatMessageRequest)
    ensures var b := ChatMessageEvent(r);
      && b.Keys == {"session_id", "input_type", "input_content", "timestamp"}
      && AsInt(b["session_id"]) == Ok(r.sessionId)
      && Denotes(b["input_type"], ParseChatInputType, r.input.inputType)
      && b["input_content"] == JStr(ChatInputContent(r.input))
      && b["timestamp"] == JStr(r.timestamp)
  {
    EnumValuesRoundTrip();
  }

  function ChatMessageLines(r: ChatMessageRequest): seq<string> {
    [
      "이전 대화 세션 ID: " + IntToString(r.sessionId),
      UserIdLabel + IntToString(r.userId),
      "사용자 입력: " + ChatInputContent(r.input),
      "입력 시각: " + r.timestamp]
  }

  /** The agent request of `handle_chat_message_service`: the same input text in prompt and payload. */
  function ChatMessageCall(r: ChatMessageRequest): (c: AgentRequest)
    ensures IdentifiesUser(c, r.userId)
    ensures c.userRequest.instructions == ChatMessageReply
    ensures c.userPayload.Keys == {"event"}
    ensures c.userPayload["event"] == ChatMessageEvent(r)
    ensures c.userPayload["event"].Keys == {"session_id", "input_type", "input_content", "timestamp"}
    ensures c.userPayload["event"]["input_content"] == JStr(ChatInputContent(r.input))
    ensures Contains(c.userRequest.facts, Indent + "사용자 입력: " + c.userPayload["event"]["input_content"].s)
    ensures AsInt(c.userPayload["event"]["session_id"]) == Ok(r.sessionId)
  {
    IntToStringRoundTrip(r.userId);
    LineEnded(ChatMessageLines(r), 1, UserIdLabel, IntToString(r.userId));
    LineShown(ChatMessageLines(r), 2, "사용자 입력: ", ChatInputContent(r.input));
    AgentRequest(Prompt(Lines(ChatMessageLines(r)), ChatMessageReply), IntToString(r.userId), map["event" := ChatMessageEvent(r)])
  }

  /** `handle_chat_message_service`. */
  function ChatMessageService(r: ChatMessageRequest, agent: Agent, parse: JsonLoads): (result: Result<ChatMessageResponse, PipelineError>)
    ensures Answers(result, ChatMessageCall(r), agent, parse, ChatMessageContract)
  {
    CallAgentAndParseResponse(ChatMessageCall(r), agent, parse, ChatMessageContract)
  }
}
