/**
 * The request and response models of the five operations (the pydantic
 * models of app/api/schemas.py) and their validators. Each model is a closed
 * record: every field without a default must be present with the right JSON
 * type, an enumeration field must hold one of its members' values, a list
 * field is validated element by element, and keys the model does not declare
 * are ignored. A `date`, `time` or `datetime` field is kept as its ISO text.
 */
module Schemas {
  import opened Wrappers
  import opened Json
  import opened Validation

  // ===========================================================================
  // Enumerations
  // ===========================================================================

  datatype WorkTimeType = FIXED | SHIFT | FREE

  const WorkTimeTypeValues: seq<string> := ["FIXED", "SHIFT", "FREE"]

  function WorkTimeTypeValue(t: WorkTimeType): string {
    match t
    case FIXED => "FIXED"
    case SHIFT => "SHIFT"
    case FREE => "FREE"
  }

  function ParseWorkTimeType(s: string): (r: Option<WorkTimeType>)
    ensures r.Some? <==> s in WorkTimeTypeValues
    ensures r.Some? ==> WorkTimeTypeValue(r.value) == s
  {
    if s == "FIXED" then Some(FIXED)
    else if s == "SHIFT" then Some(SHIFT)
    else if s == "FREE" then Some(FREE)
    else None
  }

  datatype LifestyleType = MORNING | NIGHT | IRREGULAR

  const LifestyleTypeValues: seq<string> := ["MORNING", "NIGHT", "IRREGULAR"]

  function LifestyleTypeValue(t: LifestyleType): string {
    match t
    case MORNING => "MORNING"
    case NIGHT => "NIGHT"
    case IRREGULAR => "IRREGULAR"
  }

  function ParseLifestyleType(s: string): (r: Option<LifestyleType>)
    ensures r.Some? <==> s in LifestyleTypeValues
    ensures r.Some? ==> LifestyleTypeValue(r.value) == s
  {
    if s == "MORNING" then Some(MORNING)
    else if s == "NIGHT" then Some(NIGHT)
    else if s == "IRREGULAR" then Some(IRREGULAR)
    else None
  }

  datatype MissionType = EXERCISE | DIET

  const MissionTypeValues: seq<string> := ["EXERCISE", "DIET"]

  function MissionTypeValue(t: MissionType): string {
    match t
    case EXERCISE => "EXERCISE"
    case DIET => "DIET"
  }

  function ParseMissionType(s: string): (r: Option<MissionType>)
    ensures r.Some? <==> s in MissionTypeValues
    ensures r.Some? ==> MissionTypeValue(r.value) == s
  {
    if s == "EXERCISE" then Some(EXERCISE)
    else if s == "DIET" then Some(DIET)
    else None
  }

  datatype Difficulty = EASY | NORMAL | HARD

  const DifficultyValues: seq<string> := ["EASY", "NORMAL", "HARD"]

  function DifficultyValue(d: Difficulty): string {
    match d
    case EASY => "EASY"
    case NORMAL => "NORMAL"
    case HARD => "HARD"
  }

  function ParseDifficulty(s: string): (r: Option<Difficulty>)
    ensures r.Some? <==> s in DifficultyValues
    ensures r.Some? ==> DifficultyValue(r.value) == s
  {
    if s == "EASY" then Some(EASY)
    else if s == "NORMAL" then Some(Difficulty.NORMAL)
    else if s == "HARD" then Some(HARD)
    else None
  }

  datatype MissionResult = SUCCESS | FAILURE

  const MissionResultValues: seq<string> := ["SUCCESS", "FAILURE"]

  function MissionResultValue(r: MissionResult): string {
    match r
    case SUCCESS => "SUCCESS"
    case FAILURE => "FAILURE"
  }

  function ParseMissionResult(s: string): (r: Option<MissionResult>)
    ensures r.Some? <==> s in MissionResultValues
    ensures r.Some? ==> MissionResultValue(r.value) == s
  {
    if s == "SUCCESS" then Some(SUCCESS)
    else if s == "FAILURE" then Some(FAILURE)
    else None
  }

  datatype Intent = PRAISE | RETRY | NORMAL | PUSH

  const IntentValues: seq<string> := ["PRAISE", "RETRY", "NORMAL", "PUSH"]

  function IntentValue(i: Intent): string {
    match i
    case PRAISE => "PRAISE"
    case RETRY => "RETRY"
    case NORMAL => "NORMAL"
    case PUSH => "PUSH"
  }

  function ParseIntent(s: string): (r: Option<Intent>)
    ensures r.Some? <==> s in IntentValues
    ensures r.Some? ==> IntentValue(r.value) == s
  {
    if s == "PRAISE" then Some(PRAISE)
    else if s == "RETRY" then Some(RETRY)
    else if s == "NORMAL" then Some(Intent.NORMAL)
    else if s == "PUSH" then Some(PUSH)
    else None
  }

  datatype ChatInputType = TEXT | OPTION

  const ChatInputTypeValues: seq<string> := ["TEXT", "OPTION"]

  function ChatInputTypeValue(t: ChatInputType): string {
    match t
    case TEXT => "TEXT"
    case OPTION => "OPTION"
  }

  function ParseChatInputType(s: string): (r: Option<ChatInputType>)
    ensures r.Some? <==> s in ChatInputTypeValues
    ensures r.Some? ==> ChatInputTypeValue(r.value) == s
  {
    if s == "TEXT" then Some(TEXT)
    else if s == "OPTION" then Some(OPTION)
    else None
  }

  /** Every member's value reads back as that member, so values identify members. */
  lemma EnumValuesRoundTrip()
    ensures forall t :: ParseWorkTimeType(WorkTimeTypeValue(t)) == Some(t)
    ensures forall t :: ParseLifestyleType(LifestyleTypeValue(t)) == Some(t)
    ensures forall t :: ParseMissionType(MissionTypeValue(t)) == Some(t)
    ensures forall d :: ParseDifficulty(DifficultyValue(d)) == Some(d)
    ensures forall r :: ParseMissionResult(MissionResultValue(r)) == Some(r)
    ensures forall i :: ParseIntent(IntentValue(i)) == Some(i)
    ensures forall t :: ParseChatInputType(ChatInputTypeValue(t)) == Some(t)
  {
    forall t: WorkTimeType ensures ParseWorkTimeType(WorkTimeTypeValue(t)) == Some(t) {
      match t case FIXED => case SHIFT => case FREE =>
    }
    forall t: LifestyleType ensures ParseLifestyleType(LifestyleTypeValue(t)) == Some(t) {
      match t case MORNING => case NIGHT => case IRREGULAR =>
    }
    forall t: MissionType ensures ParseMissionType(MissionTypeValue(t)) == Some(t) {
      match t case EXERCISE => case DIET =>
    }
    forall d: Difficulty ensures ParseDifficulty(DifficultyValue(d)) == Some(d) {
      match d case EASY => case NORMAL => case HARD =>
    }
    forall r: MissionResult ensures ParseMissionResult(MissionResultValue(r)) == Some(r) {
      match r case SUCCESS => case FAILURE =>
    }
    forall i: Intent ensures ParseIntent(IntentValue(i)) == Some(i) {
      match i case PRAISE => case RETRY => case NORMAL => case PUSH =>
    }
    forall t: ChatInputType ensures ParseChatInputType(ChatInputTypeValue(t)) == Some(t) {
      match t case TEXT => case OPTION =>
    }
  }

  function AsWorkTimeType(j: Json): Result<WorkTimeType, Violation> { AsEnum(j, ParseWorkTimeType, WorkTimeTypeValues) }
  function AsLifestyleType(j: Json): Result<LifestyleType, Violation> { AsEnum(j, ParseLifestyleType, LifestyleTypeValues) }
  function AsMissionType(j: Json): Result<MissionType, Violation> { AsEnum(j, ParseMissionType, MissionTypeValues) }
  function AsDifficulty(j: Json): Result<Difficulty, Violation> { AsEnum(j, ParseDifficulty, DifficultyValues) }
  function AsMissionResult(j: Json): Result<MissionResult, Violation> { AsEnum(j, ParseMissionResult, MissionResultValues) }
  function AsIntent(j: Json): Result<Intent, Violation> { AsEnum(j, ParseIntent, IntentValues) }
  function AsChatInputType(j: Json): Result<ChatInputType, Violation> { AsEnum(j, ParseChatInputType, ChatInputTypeValues) }

  /** A string list field (`List[str]`). */
  function AsStringList(j: Json): Result<seq<string>, Violation> { AsList(j, AsString) }

  /** The JSON array of a list of strings, used by the round-trip lemmas. */
  function StringsToJson(xs: seq<string>): Json {
    JArr(seq(|xs|, i requires 0 <= i < |xs| => JStr(xs[i])))
  }

  lemma StringListRoundTrip(xs: seq<string>)
    ensures AsStringList(StringsToJson(xs)) == Ok(xs)
  {
    var r := AsStringList(StringsToJson(xs));
    assert r.Ok?;
    assert r.value == xs;
  }

  // ===========================================================================
  // Daily missions: request
  // ===========================================================================

  datatype OnboardingData = OnboardingData(
    appGoal: string,
    workTimeType: WorkTimeType,
    availableStartTime: string,
    availableEndTime: string,
    minExerciseMinutes: int,
    preferredExercises: seq<string>,
    lifestyleType: LifestyleType)

  datatype RecentMissionHistoryItem = RecentMissionHistoryItem(
    date: string,
    missionType: MissionType,
    difficulty: Difficulty,
    result: MissionResult,
    failureReason: Option<string>)

  datatype DailyMissionRequest = DailyMissionRequest(
    userId: int,
    onboarding: OnboardingData,
    recentMissionHistory: seq<RecentMissionHistoryItem>,
    weeklyFailureReasons: seq<string>)

  function ValidateOnboardingData(j: Json): Result<OnboardingData, Violation> {
    var obj :- AsObject(j);
    var appGoal :- Field(obj, "appGoal", AsString);
    var workTimeType :- Field(obj, "workTimeType", AsWorkTimeType);
    var start :- Field(obj, "availableStartTime", AsString);
    var end :- Field(obj, "availableEndTime", AsString);
    var minutes :- Field(obj, "minExerciseMinutes", AsInt);
    var exercises :- Field(obj, "preferredExercises", AsStringList);
    var lifestyle :- Field(obj, "lifestyleType", AsLifestyleType);
    Ok(OnboardingData(appGoal, workTimeType, start, end, minutes, exercises, lifestyle))
  }

  function OnboardingDataToJson(o: OnboardingData): Json {
    JObj(map[
      "appGoal" := JStr(o.appGoal),
      "workTimeType" := JStr(WorkTimeTypeValue(o.workTimeType)),
      "availableStartTime" := JStr(o.availableStartTime),
      "availableEndTime" := JStr(o.availableEndTime),
      "minExerciseMinutes" := JInt(o.minExerciseMinutes),
      "preferredExercises" := StringsToJson(o.preferredExercises),
      "lifestyleType" := JStr(LifestyleTypeValue(o.lifestyleType))])
  }

  lemma OnboardingDataRoundTrip(o: OnboardingData)
    ensures ValidateOnboardingData(OnboardingDataToJson(o)) == Ok(o)
  {
    EnumValuesRoundTrip();
    StringListRoundTrip(o.preferredExercises);
  }

  function ValidateRecentMissionHistoryItem(j: Json): Result<RecentMissionHistoryItem, Violation> {
    var obj :- AsObject(j);
    var date :- Field(obj, "date", AsString);
    var missionType :- Field(obj, "missionType", AsMissionType);
    var difficulty :- Field(obj, "difficulty", AsDifficulty);
    var result :- Field(obj, "result", AsMissionResult);
    var failureReason :- OptionalStringField(obj, "failureReason");
    Ok(RecentMissionHistoryItem(date, missionType, difficulty, result, failureReason))
  }

  /** Encodes a history item; an absent failure reason is left out of the object. */
  function RecentMissionHistoryItemToJson(h: RecentMissionHistoryItem): Json {
    var required := map[
      "date" := JStr(h.date),
      "missionType" := JStr(MissionTypeValue(h.missionType)),
      "difficulty" := JStr(DifficultyValue(h.difficulty)),
      "result" := JStr(MissionResultValue(h.result))];
    JObj(if h.failureReason.Some? then required["failureReason" := JStr(h.failureReason.value)] else required)
  }

  lemma RecentMissionHistoryItemRoundTrip(h: RecentMissionHistoryItem)
    ensures ValidateRecentMissionHistoryItem(RecentMissionHistoryItemToJson(h)) == Ok(h)
  {
    EnumValuesRoundTrip();
  }

  /**
   * `failureReason` defaults to None: an item without the key, or with `null`,
   * validates exactly when its required fields do, with no failure reason.
   */
  lemma FailureReasonDefaultsToNone(fields: map<string, Json>)
    requires "failureReason" !in fields || fields["failureReason"] == JNull
    ensures var r := ValidateRecentMissionHistoryItem(JObj(fields));
      r.Ok? ==> r.value.failureReason == None
    ensures var r := ValidateRecentMissionHistoryItem(JObj(fields));
      r.Ok? <==> ("date" in fields && fields["date"].JStr?
        && "missionType" in fields && AsMissionType(fields["missionType"]).Ok?
        && "difficulty" in fields && AsDifficulty(fields["difficulty"]).Ok?
        && "result" in fields && AsMissionResult(fields["result"]).Ok?)
  {
  }

  function AsHistoryList(j: Json): Result<seq<RecentMissionHistoryItem>, Violation> {
    AsList(j, ValidateRecentMissionHistoryItem)
  }

  function ValidateDailyMissionRequest(j: Json): Result<DailyMissionRequest, Violation> {
    var obj :- AsObject(j);
    var userId :- Field(obj, "userId", AsInt);
    var onboarding :- Field(obj, "onboarding", ValidateOnboardingData);
    var history :- Field(obj, "recentMissionHistory", AsHistoryList);
    var reasons :- Field(obj, "weeklyFailureReasons", AsStringList);
    Ok(DailyMissionRequest(userId, onboarding, history, reasons))
  }

  function DailyMissionRequestToJson(r: DailyMissionRequest): Json {
    var h := r.recentMissionHistory;
    JObj(map[
      "userId" := JInt(r.userId),
      "onboarding" := OnboardingDataToJson(r.onboarding),
      "recentMissionHistory" := JArr(seq(|h|, i requires 0 <= i < |h| => RecentMissionHistoryItemToJson(h[i]))),
      "weeklyFailureReasons" := StringsToJson(r.weeklyFailureReasons)])
  }

  lemma DailyMissionRequestRoundTrip(r: DailyMissionRequest)
    ensures ValidateDailyMissionRequest(DailyMissionRequestToJson(r)) == Ok(r)
  {
    var h := r.recentMissionHistory;
    var items := seq(|h|, i requires 0 <= i < |h| => RecentMissionHistoryItemToJson(h[i]));
    forall i | 0 <= i < |h| ensures ValidateRecentMissionHistoryItem(items[i]) == Ok(h[i]) {
      RecentMissionHistoryItemRoundTrip(h[i]);
    }
    var hs := AsHistoryList(JArr(items));
    assert hs.Ok? && hs.value == h;
    OnboardingDataRoundTrip(r.onboarding);
    StringListRoundTrip(r.weeklyFailureReasons);
  }

  // ===========================================================================
  // Daily missions: response
  // ===========================================================================

  datatype Mission = Mission(
    name: string,
    missionType: MissionType,
    difficulty: Difficulty,
    estimatedMinutes: int,
    estimatedCalories: int)

  datatype DailyMissionResponse = DailyMissionResponse(missions: seq<Mission>)

  function ValidateMission(j: Json): Result<Mission, Violation> {
    var obj :- AsObject(j);
    var name :- Field(obj, "name", AsString);
    var missionType :- Field(obj, "type", AsMissionType);
    var difficulty :- Field(obj, "difficulty", AsDifficulty);
    var minutes :- Field(obj, "estimatedMinutes", AsInt);
    var calories :- Field(obj, "estimatedCalories", AsInt);
    Ok(Mission(name, missionType, difficulty, minutes, calories))
  }

  function MissionToJson(m: Mission): map<string, Json> {
    map[
      "name" := JStr(m.name),
      "type" := JStr(MissionTypeValue(m.missionType)),
      "difficulty" := JStr(DifficultyValue(m.difficulty)),
      "estimatedMinutes" := JInt(m.estimatedMinutes),
      "estimatedCalories" := JInt(m.estimatedCalories)]
  }

  /**
   * A JSON value validates to mission `m` exactly when it is an object holding
   * `m`'s five fields, each under its key with its type and enumeration
   * value; other keys are ignored.
   */
  lemma MissionContract(j: Json, m: Mission)
    ensures ValidateMission(j) == Ok(m) <==> j.JObj? && SubObject(MissionToJson(m), j.fields)
  {
    if ValidateMission(j) == Ok(m) {
      ValidMissionHasFields(j, m);
    }
    if j.JObj? && SubObject(MissionToJson(m), j.fields) {
      MissionFieldsValidate(j, m);
    }
  }

  lemma ValidMissionHasFields(j: Json, m: Mission)
    requires ValidateMission(j) == Ok(m)
    ensures j.JObj? && SubObject(MissionToJson(m), j.fields)
  {
    EnumValuesRoundTrip();
    assert j.fields["type"] == JStr(MissionTypeValue(m.missionType));
    assert j.fields["difficulty"] == JStr(DifficultyValue(m.difficulty));
  }

  lemma MissionFieldsValidate(j: Json, m: Mission)
    requires j.JObj? && SubObject(MissionToJson(m), j.fields)
    ensures ValidateMission(j) == Ok(m)
  {
    EnumValuesRoundTrip();
    var f := MissionToJson(m);
    assert j.fields["name"] == f["name"];
    assert j.fields["type"] == f["type"];
    assert j.fields["difficulty"] == f["difficulty"];
    assert j.fields["estimatedMinutes"] == f["estimatedMinutes"];
    assert j.fields["estimatedCalories"] == f["estimatedCalories"];
  }

  /** A mission type outside {EXERCISE, DIET} rejects the mission. */
  lemma MissionTypeOutsideEnumRejected(fields: map<string, Json>, s: string)
    requires "type" in fields && fields["type"] == JStr(s)
    requires s !in MissionTypeValues
    ensures ValidateMission(JObj(fields)).Err?
    ensures "name" in fields && fields["name"].JStr? ==>
      ValidateMission(JObj(fields)) == Err(Violation([Key("type")], NotInEnum(MissionTypeValues)))
  {
    assert AsMissionType(fields["type"]) == Err(Violation([], NotInEnum(MissionTypeValues)));
    assert [Key("type")] + [] == [Key("type")];
  }

  function AsMissionList(j: Json): Result<seq<Mission>, Violation> { AsList(j, ValidateMission) }

  function ValidateDailyMissionResponse(j: Json): Result<DailyMissionResponse, Violation> {
    var obj :- AsObject(j);
    var missions :- Field(obj, "missions", AsMissionList);
    Ok(DailyMissionResponse(missions))
  }

  /**
   * A daily mission response is valid exactly when "missions" is an array whose
   * every element is a valid mission; the missions come back one per element,
   * in order.
   */
  lemma DailyMissionResponseContract(j: Json, r: DailyMissionResponse)
    ensures ValidateDailyMissionResponse(j) == Ok(r) <==>
      && j.JObj? && "missions" in j.fields && j.fields["missions"].JArr?
      && |j.fields["missions"].items| == |r.missions|
      && forall i :: 0 <= i < |r.missions| ==> ValidateMission(j.fields["missions"].items[i]) == Ok(r.missions[i])
  {
    if j.JObj? && "missions" in j.fields && j.fields["missions"].JArr? {
      var items := j.fields["missions"].items;
      if |items| == |r.missions| && forall i :: 0 <= i < |r.missions| ==> ValidateMission(items[i]) == Ok(r.missions[i]) {
        var l := AsMissionList(j.fields["missions"]);
        assert l.Ok?;
        assert l.value == r.missions;
      }
    }
  }

  /** One invalid mission rejects the whole response: no partial list is accepted. */
  lemma OneBadMissionRejectsResponse(j: Json, i: nat)
    requires j.JObj? && "missions" in j.fields && j.fields["missions"].JArr?
    requires i < |j.fields["missions"].items|
    requires ValidateMission(j.fields["missions"].items[i]).Err?
    ensures ValidateDailyMissionResponse(j).Err?
  {
  }

  function DailyMissionResponseToJson(r: DailyMissionResponse): Json {
    var ms := r.missions;
    JObj(map["missions" := JArr(seq(|ms|, i requires 0 <= i < |ms| => JObj(MissionToJson(ms[i]))))])
  }

  /** Validating an encoded response gives it back: values, list length and order are kept. */
  lemma DailyMissionResponseRoundTrip(r: DailyMissionResponse)
    ensures ValidateDailyMissionResponse(DailyMissionResponseToJson(r)) == Ok(r)
  {
    var j := DailyMissionResponseToJson(r);
    forall i | 0 <= i < |r.missions| ensures ValidateMission(j.fields["missions"].items[i]) == Ok(r.missions[i]) {
      MissionContract(j.fields["missions"].items[i], r.missions[i]);
    }
    DailyMissionResponseContract(j, r);
  }

  // ===========================================================================
  // Daily feedback
  // ===========================================================================

  datatype TodayMissionData = TodayMissionData(
    missionType: MissionType,
    difficulty: Difficulty,
    result: MissionResult,
    failureReason: Option<string>)

  datatype RecentSummaryData = RecentSummaryData(successDays: int, failureDays: int)

  datatype DailyFeedbackRequest = DailyFeedbackRequest(
    userId: int,
    targetDate: string,
    todayMission: TodayMissionData,
    recentSummary: RecentSummaryData)

  datatype EncouragementCandidate = EncouragementCandidate(intent: Intent, title: string, message: string)

  datatype DailyFeedbackResponse = DailyFeedbackResponse(
    feedbackText: string,
    encouragementCandidates: seq<EncouragementCandidate>)

  function ValidateTodayMissionData(j: Json): Result<TodayMissionData, Violation> {
    var obj :- AsObject(j);
    var missionType :- Field(obj, "missionType", AsMissionType);
    var difficulty :- Field(obj, "difficulty", AsDifficulty);
    var result :- Field(obj, "result", AsMissionResult);
    var failureReason :- OptionalStringField(obj, "failureReason");
    Ok(TodayMissionData(missionType, difficulty, result, failureReason))
  }

  /**
   * `failureReason` of today's mission defaults to None when the key is absent
   * or `null`.
   */
  lemma TodayFailureReasonDefaultsToNone(fields: map<string, Json>)
    requires "failureReason" !in fields || fields["failureReason"] == JNull
    ensures var r := ValidateTodayMissionData(JObj(fields));
      r.Ok? ==> r.value.failureReason == None
    ensures var r := ValidateTodayMissionData(JObj(fields));
      r.Ok? <==> ("missionType" in fields && AsMissionType(fields["missionType"]).Ok?
        && "difficulty" in fields && AsDifficulty(fields["difficulty"]).Ok?
        && "result" in fields && AsMissionResult(fields["result"]).Ok?)
  {
  }

  function ValidateRecentSummaryData(j: Json): Result<RecentSummaryData, Violation> {
    var obj :- AsObject(j);
    var successDays :- Field(obj, "successDays", AsInt);
    var failureDays :- Field(obj, "failureDays", AsInt);
    Ok(RecentSummaryData(successDays, failureDays))
  }

  function ValidateDailyFeedbackRequest(j: Json): Result<DailyFeedbackRequest, Violation> {
    var obj :- AsObject(j);
    var userId :- Field(obj, "userId", AsInt);
    var targetDate :- Field(obj, "targetDate", AsString);
    var todayMission :- Field(obj, "todayMission", ValidateTodayMissionData);
    var recentSummary :- Field(obj, "recentSummary", ValidateRecentSummaryData);
    Ok(DailyFeedbackRequest(userId, targetDate, todayMission, recentSummary))
  }

  function TodayMissionDataToJson(t: TodayMissionData): Json {
    var today := map[
      "missionType" := JStr(MissionTypeValue(t.missionType)),
      "difficulty" := JStr(DifficultyValue(t.difficulty)),
      "result" := JStr(MissionResultValue(t.result))];
    JObj(if t.failureReason.Some? then today["failureReason" := JStr(t.failureReason.value)] else today)
  }

  lemma TodayMissionDataRoundTrip(t: TodayMissionData)
    ensures ValidateTodayMissionData(TodayMissionDataToJson(t)) == Ok(t)
  {
    EnumValuesRoundTrip();
  }

  function DailyFeedbackRequestToJson(r: DailyFeedbackRequest): Json {
    JObj(map[
      "userId" := JInt(r.userId),
      "targetDate" := JStr(r.targetDate),
      "todayMission" := TodayMissionDataToJson(r.todayMission),
      "recentSummary" := JObj(map[
        "successDays" := JInt(r.recentSummary.successDays),
        "failureDays" := JInt(r.recentSummary.failureDays)])])
  }

  lemma DailyFeedbackRequestRoundTrip(r: DailyFeedbackRequest)
    ensures ValidateDailyFeedbackRequest(DailyFeedbackRequestToJson(r)) == Ok(r)
  {
    TodayMissionDataRoundTrip(r.todayMission);
  }

  function ValidateEncouragementCandidate(j: Json): Result<EncouragementCandidate, Violation> {
    var obj :- AsObject(j);
    var intent :- Field(obj, "intent", AsIntent);
    var title :- Field(obj, "title", AsString);
    var message :- Field(obj, "message", AsString);
    Ok(EncouragementCandidate(intent, title, message))
  }

  function EncouragementCandidateToJson(c: EncouragementCandidate): map<string, Json> {
    map["intent" := JStr(IntentValue(c.intent)), "title" := JStr(c.title), "message" := JStr(c.message)]
  }

  /**
   * A JSON value validates to candidate `c` exactly when it is an object whose
   * "intent" is the value of one of PRAISE, RETRY, NORMAL, PUSH and whose
   * "title" and "message" are strings.
   */
  lemma EncouragementCandidateContract(j: Json, c: EncouragementCandidate)
    ensures ValidateEncouragementCandidate(j) == Ok(c) <==> j.JObj? && SubObject(EncouragementCandidateToJson(c), j.fields)
  {
    EnumValuesRoundTrip();
    if ValidateEncouragementCandidate(j) == Ok(c) {
      assert j.fields["intent"] == JStr(IntentValue(c.intent));
    }
  }

  /** An intent outside the four members rejects the candidate. */
  lemma IntentOutsideEnumRejected(fields: map<string, Json>, s: string)
    requires "intent" in fields && fields["intent"] == JStr(s)
    requires s !in IntentValues
    ensures ValidateEncouragementCandidate(JObj(fields)).Err?
    ensures ValidateEncouragementCandidate(JObj(fields)) == Err(Violation([Key("intent")], NotInEnum(IntentValues)))
  {
    assert AsIntent(fields["intent"]) == Err(Violation([], NotInEnum(IntentValues)));
    assert [Key("intent")] + [] == [Key("intent")];
  }

  function AsCandidateList(j: Json): Result<seq<EncouragementCandidate>, Violation> {
    AsList(j, ValidateEncouragementCandidate)
  }

  function ValidateDailyFeedbackResponse(j: Json): Result<DailyFeedbackResponse, Violation> {
    var obj :- AsObject(j);
    var feedbackText :- Field(obj, "feedbackText", AsString);
    var candidates :- Field(obj, "encouragementCandidates", AsCandidateList);
    Ok(DailyFeedbackResponse(feedbackText, candidates))
  }

  /**
   * A daily feedback response is valid exactly when "feedbackText" is a string
   * and "encouragementCandidates" is an array of valid candidates, kept in order.
   */
  lemma DailyFeedbackResponseContract(j: Json, r: DailyFeedbackResponse)
    ensures ValidateDailyFeedbackResponse(j) == Ok(r) <==>
      && j.JObj? && "feedbackText" in j.fields && j.fields["feedbackText"] == JStr(r.feedbackText)
      && "encouragementCandidates" in j.fields && j.fields["encouragementCandidates"].JArr?
      && |j.fields["encouragementCandidates"].items| == |r.encouragementCandidates|
      && forall i :: 0 <= i < |r.encouragementCandidates| ==>
           ValidateEncouragementCandidate(j.fields["encouragementCandidates"].items[i]) == Ok(r.encouragementCandidates[i])
  {
    if && j.JObj? && "feedbackText" in j.fields && j.fields["feedbackText"] == JStr(r.feedbackText)
       && "encouragementCandidates" in j.fields && j.fields["encouragementCandidates"].JArr?
    {
      var items := j.fields["encouragementCandidates"].items;
      if |items| == |r.encouragementCandidates|
         && forall i :: 0 <= i < |items| ==> ValidateEncouragementCandidate(items[i]) == Ok(r.encouragementCandidates[i])
      {
        var l := AsCandidateList(j.fields["encouragementCandidates"]);
        assert l.Ok?;
        assert l.value == r.encouragementCandidates;
      }
    }
  }

  function DailyFeedbackResponseToJson(r: DailyFeedbackResponse): Json {
    var cs := r.encouragementCandidates;
    JObj(map[
      "feedbackText" := JStr(r.feedbackText),
      "encouragementCandidates" := JArr(seq(|cs|, i requires 0 <= i < |cs| => JObj(EncouragementCandidateToJson(cs[i]))))])
  }

  lemma DailyFeedbackResponseRoundTrip(r: DailyFeedbackResponse)
    ensures ValidateDailyFeedbackResponse(DailyFeedbackResponseToJson(r)) == Ok(r)
  {
    var j := DailyFeedbackResponseToJson(r);
    var items := j.fields["encouragementCandidates"].items;
    forall i | 0 <= i < |items| ensures ValidateEncouragementCandidate(items[i]) == Ok(r.encouragementCandidates[i]) {
      EncouragementCandidateContract(items[i], r.encouragementCandidates[i]);
    }
    DailyFeedbackResponseContract(j, r);
  }

  // ===========================================================================
  // Weekly analysis
  // ===========================================================================

  datatype WeekRangeData = WeekRangeData(start: string, end: string)

  datatype WeeklyStatsData = WeeklyStatsData(totalDays: int, successDays: int, failureDays: int)

  datatype FailureReasonRankedItem = FailureReasonRankedItem(reason: string, count: int)

  datatype WeeklyAnalysisRequest = WeeklyAnalysisRequest(
    userId: int,
    weekRange: WeekRangeData,
    weeklyStats: WeeklyStatsData,
    failureReasonsRanked: seq<FailureReasonRankedItem>)

  datatype WeeklyAnalysisResponse = WeeklyAnalysisResponse(mainFailureReason: string, overallFeedback: string)

  function ValidateWeekRangeData(j: Json): Result<WeekRangeData, Violation> {
    var obj :- AsObject(j);
    var start :- Field(obj, "start", AsString);
    var end :- Field(obj, "end", AsString);
    Ok(WeekRangeData(start, end))
  }

  function ValidateWeeklyStatsData(j: Json): Result<WeeklyStatsData, Violation> {
    var obj :- AsObject(j);
    var totalDays :- Field(obj, "totalDays", AsInt);
    var successDays :- Field(obj, "successDays", AsInt);
    var failureDays :- Field(obj, "failureDays", AsInt);
    Ok(WeeklyStatsData(totalDays, successDays, failureDays))
  }

  function ValidateFailureReasonRankedItem(j: Json): Result<FailureReasonRankedItem, Violation> {
    var obj :- AsObject(j);
    var reason :- Field(obj, "reason", AsString);
    var count :- Field(obj, "count", AsInt);
    Ok(FailureReasonRankedItem(reason, count))
  }

  function AsRankedList(j: Json): Result<seq<FailureReasonRankedItem>, Violation> {
    AsList(j, ValidateFailureReasonRankedItem)
  }

  function ValidateWeeklyAnalysisRequest(j: Json): Result<WeeklyAnalysisRequest, Violation> {
    var obj :- AsObject(j);
    var userId :- Field(obj, "userId", AsInt);
    var weekRange :- Field(obj, "weekRange", ValidateWeekRangeData);
    var weeklyStats :- Field(obj, "weeklyStats", ValidateWeeklyStatsData);
    var ranked :- Field(obj, "failureReasonsRanked", AsRankedList);
    Ok(WeeklyAnalysisRequest(userId, weekRange, weeklyStats, ranked))
  }

  function FailureReasonRankedItemToJson(f: FailureReasonRankedItem): Json {
    JObj(map["reason" := JStr(f.reason), "count" := JInt(f.count)])
  }

  function WeeklyAnalysisRequestToJson(r: WeeklyAnalysisRequest): Json {
    var fs := r.failureReasonsRanked;
    JObj(map[
      "userId" := JInt(r.userId),
      "weekRange" := JObj(map["start" := JStr(r.weekRange.start), "end" := JStr(r.weekRange.end)]),
      "weeklyStats" := JObj(map[
        "totalDays" := JInt(r.weeklyStats.totalDays),
        "successDays" := JInt(r.weeklyStats.successDays),
        "failureDays" := JInt(r.weeklyStats.failureDays)]),
      "failureReasonsRanked" := JArr(seq(|fs|, i requires 0 <= i < |fs| => FailureReasonRankedItemToJson(fs[i])))])
  }

  lemma WeeklyAnalysisRequestRoundTrip(r: WeeklyAnalysisRequest)
    ensures ValidateWeeklyAnalysisRequest(WeeklyAnalysisRequestToJson(r)) == Ok(r)
  {
    var fs := r.failureReasonsRanked;
    var items := seq(|fs|, i requires 0 <= i < |fs| => FailureReasonRankedItemToJson(fs[i]));
    var l := AsRankedList(JArr(items));
    assert l.Ok? && l.value == fs;
  }

  function ValidateWeeklyAnalysisResponse(j: Json): Result<WeeklyAnalysisResponse, Violation> {
    var obj :- AsObject(j);
    var mainFailureReason :- Field(obj, "mainFailureReason", AsString);
    var overallFeedback :- Field(obj, "overallFeedback", AsString);
    Ok(WeeklyAnalysisResponse(mainFailureReason, overallFeedback))
  }

  function WeeklyAnalysisResponseToJson(r: WeeklyAnalysisResponse): map<string, Json> {
    map["mainFailureReason" := JStr(r.mainFailureReason), "overallFeedback" := JStr(r.overallFeedback)]
  }

  /**
   * A weekly analysis is valid exactly when both "mainFailureReason" and
   * "overallFeedback" are strings; the values are kept.
   */
  lemma WeeklyAnalysisResponseContract(j: Json, r: WeeklyAnalysisResponse)
    ensures ValidateWeeklyAnalysisResponse(j) == Ok(r) <==> j.JObj? && SubObject(WeeklyAnalysisResponseToJson(r), j.fields)
  {
  }

  /** Without an "overallFeedback" key (a misspelt one, say) the analysis is rejected. */
  lemma MissingOverallFeedbackRejected(fields: map<string, Json>)
    requires "mainFailureReason" in fields && fields["mainFailureReason"].JStr?
    requires "overallFeedback" !in fields
    ensures ValidateWeeklyAnalysisResponse(JObj(fields)) == Err(Violation([Key("overallFeedback")], Missing))
  {
  }

  // ===========================================================================
  // Chat sessions and chat messages
  // ===========================================================================

  datatype InitialChatContext = InitialChatContext(appGoal: string, lifestyleType: LifestyleType)

  datatype ChatSessionRequest = ChatSessionRequest(sessionId: int, userId: int, initialContext: InitialChatContext)

  datatype BotMessageOption = BotMessageOption(labelText: string, value: string)

  datatype BotMessage = BotMessage(messageId: int, text: string, options: seq<BotMessageOption>)

  datatype ChatSessionResponse = ChatSessionResponse(botMessage: BotMessage)

  datatype ChatInput = ChatInput(inputType: ChatInputType, text: Option<string>, value: Option<string>)

  datatype ChatMessageRequest = ChatMessageRequest(sessionId: int, userId: int, input: ChatInput, timestamp: string)

  datatype ChatState = ChatState(isTerminal: bool)

  datatype ChatMessageResponse = ChatMessageResponse(botMessage: BotMessage, state: ChatState)

  function ValidateInitialChatContext(j: Json): Result<InitialChatContext, Violation> {
    var obj :- AsObject(j);
    var appGoal :- Field(obj, "appGoal", AsString);
    var lifestyle :- Field(obj, "lifestyleType", AsLifestyleType);
    Ok(InitialChatContext(appGoal, lifestyle))
  }

  function ValidateChatSessionRequest(j: Json): Result<ChatSessionRequest, Violation> {
    var obj :- AsObject(j);
    var sessionId :- Field(obj, "sessionId", AsInt);
    var userId :- Field(obj, "userId", AsInt);
    var context :- Field(obj, "initialContext", ValidateInitialChatContext);
    Ok(ChatSessionRequest(sessionId, userId, context))
  }

  function ChatSessionRequestToJson(r: ChatSessionRequest): Json {
    JObj(map[
      "sessionId" := JInt(r.sessionId),
      "userId" := JInt(r.userId),
      "initialContext" := JObj(map[
        "appGoal" := JStr(r.initialContext.appGoal),
        "lifestyleType" := JStr(LifestyleTypeValue(r.initialContext.lifestyleType))])])
  }

  lemma ChatSessionRequestRoundTrip(r: ChatSessionRequest)
    ensures ValidateChatSessionRequest(ChatSessionRequestToJson(r)) == Ok(r)
  {
    EnumValuesRoundTrip();
  }

  function ValidateChatInput(j: Json): Result<ChatInput, Violation> {
    var obj :- AsObject(j);
    var inputType :- Field(obj, "type", AsChatInputType);
    var text :- OptionalStringField(obj, "text");
    var value :- OptionalStringField(obj, "value");
    Ok(ChatInput(inputType, text, value))
  }

  /** `text` and `value` of a chat input default to None when absent. */
  lemma ChatInputDefaults(fields: map<string, Json>)
    requires "text" !in fields && "value" !in fields
    ensures var r := ValidateChatInput(JObj(fields));
      r.Ok? ==> r.value.text == None && r.value.value == None
    ensures ValidateChatInput(JObj(fields)).Ok? <==> "type" in fields && AsChatInputType(fields["type"]).Ok?
  {
  }

  function ValidateChatMessageRequest(j: Json): Result<ChatMessageRequest, Violation> {
    var obj :- AsObject(j);
    var sessionId :- Field(obj, "sessionId", AsInt);
    var userId :- Field(obj, "userId", AsInt);
    var input :- Field(obj, "input", ValidateChatInput);
    var timestamp :- Field(obj, "timestamp", AsString);
    Ok(ChatMessageRequest(sessionId, userId, input, timestamp))
  }

  function ChatMessageRequestToJson(r: ChatMessageRequest): Json {
    var i := map["type" := JStr(ChatInputTypeValue(r.input.inputType))];
    var i' := if r.input.text.Some? then i["text" := JStr(r.input.text.value)] else i;
    var i'' := if r.input.value.Some? then i'["value" := JStr(r.input.value.value)] else i';
    JObj(map[
      "sessionId" := JInt(r.sessionId),
      "userId" := JInt(r.userId),
      "input" := JObj(i''),
      "timestamp" := JStr(r.timestamp)])
  }

  lemma ChatMessageRequestRoundTrip(r: ChatMessageRequest)
    ensures ValidateChatMessageRequest(ChatMessageRequestToJson(r)) == Ok(r)
  {
    EnumValuesRoundTrip();
  }

  function ValidateBotMessageOption(j: Json): Result<BotMessageOption, Violation> {
    var obj :- AsObject(j);
    var labelText :- Field(obj, "label", AsString);
    var value :- Field(obj, "value", AsString);
    Ok(BotMessageOption(labelText, value))
  }

  function BotMessageOptionToJson(o: BotMessageOption): map<string, Json> {
    map["label" := JStr(o.labelText), "value" := JStr(o.value)]
  }

  lemma BotMessageOptionContract(j: Json, o: BotMessageOption)
    ensures ValidateBotMessageOption(j) == Ok(o) <==> j.JObj? && SubObject(BotMessageOptionToJson(o), j.fields)
  {
  }

  function AsOptionList(j: Json): Result<seq<BotMessageOption>, Violation> { AsList(j, ValidateBotMessageOption) }

  function ValidateBotMessage(j: Json): Result<BotMessage, Violation> {
    var obj :- AsObject(j);
    var messageId :- Field(obj, "messageId", AsInt);
    var text :- Field(obj, "text", AsString);
    var options :- Field(obj, "options", AsOptionList);
    Ok(BotMessage(messageId, text, options))
  }

  /**
   * A bot message is valid exactly when "messageId" is an integer, "text" a
   * string and "options" an array of valid {label, value} options, kept in order.
   */
  lemma BotMessageContract(j: Json, m: BotMessage)
    ensures ValidateBotMessage(j) == Ok(m) <==>
      && j.JObj?
      && "messageId" in j.fields && j.fields["messageId"] == JInt(m.messageId)
      && "text" in j.fields && j.fields["text"] == JStr(m.text)
      && "options" in j.fields && j.fields["options"].JArr?
      && |j.fields["options"].items| == |m.options|
      && forall i :: 0 <= i < |m.options| ==> ValidateBotMessageOption(j.fields["options"].items[i]) == Ok(m.options[i])
  {
    if && j.JObj?
       && "messageId" in j.fields && j.fields["messageId"] == JInt(m.messageId)
       && "text" in j.fields && j.fields["text"] == JStr(m.text)
       && "options" in j.fields && j.fields["options"].JArr?
    {
      var items := j.fields["options"].items;
      if |items| == |m.options| && forall i :: 0 <= i < |items| ==> ValidateBotMessageOption(items[i]) == Ok(m.options[i]) {
        var l := AsOptionList(j.fields["options"]);
        assert l.Ok?;
        assert l.value == m.options;
      }
    }
  }

  /** A bot message without "options" (a misspelt key, say) is rejected. */
  lemma MissingOptionsRejected(fields: map<string, Json>)
    requires "options" !in fields
    ensures ValidateBotMessage(JObj(fields)).Err?
  {
  }

  function BotMessageToJson(m: BotMessage): Json {
    var os := m.options;
    JObj(map[
      "messageId" := JInt(m.messageId),
      "text" := JStr(m.text),
      "options" := JArr(seq(|os|, i requires 0 <= i < |os| => JObj(BotMessageOptionToJson(os[i]))))])
  }

  lemma BotMessageRoundTrip(m: BotMessage)
    ensures ValidateBotMessage(BotMessageToJson(m)) == Ok(m)
  {
    var j := BotMessageToJson(m);
    var items := j.fields["options"].items;
    forall i | 0 <= i < |items| ensures ValidateBotMessageOption(items[i]) == Ok(m.options[i]) {
      BotMessageOptionContract(items[i], m.options[i]);
    }
    BotMessageContract(j, m);
  }

  function ValidateChatSessionResponse(j: Json): Result<ChatSessionResponse, Violation> {
    var obj :- AsObject(j);
    var botMessage :- Field(obj, "botMessage", ValidateBotMessage);
    Ok(ChatSessionResponse(botMessage))
  }

  /** The session response is valid exactly when its "botMessage" is, and carries it unchanged. */
  lemma ChatSessionResponseContract(j: Json, r: ChatSessionResponse)
    ensures ValidateChatSessionResponse(j) == Ok(r) <==>
      j.JObj? && "botMessage" in j.fields && ValidateBotMessage(j.fields["botMessage"]) == Ok(r.botMessage)
  {
  }

  function ValidateChatState(j: Json): Result<ChatState, Violation> {
    var obj :- AsObject(j);
    var isTerminal :- Field(obj, "isTerminal", AsBool);
    Ok(ChatState(isTerminal))
  }

  function ValidateChatMessageResponse(j: Json): Result<ChatMessageResponse, Violation> {
    var obj :- AsObject(j);
    var botMessage :- Field(obj, "botMessage", ValidateBotMessage);
    var state :- Field(obj, "state", ValidateChatState);
    Ok(ChatMessageResponse(botMessage, state))
  }

  /**
   * The message response is valid exactly when its "botMessage" is valid and
   * "state"."isTerminal" is a JSON boolean, whose value is reported as it is.
   */
  lemma ChatMessageResponseContract(j: Json, r: ChatMessageResponse)
    ensures ValidateChatMessageResponse(j) == Ok(r) <==>
      && j.JObj? && "botMessage" in j.fields && ValidateBotMessage(j.fields["botMessage"]) == Ok(r.botMessage)
      && "state" in j.fields && j.fields["state"].JObj?
      && "isTerminal" in j.fields["state"].fields
      && j.fields["state"].fields["isTerminal"] == JBool(r.state.isTerminal)
  {
  }

  /** A non-boolean "isTerminal" rejects the response (pydantic's coercion of "true", 0 and the like is not modelled). */
  lemma NonBooleanTerminalRejected(j: Json)
    requires j.JObj? && "state" in j.fields && j.fields["state"].JObj?
    requires "isTerminal" in j.fields["state"].fields && !j.fields["state"].fields["isTerminal"].JBool?
    ensures ValidateChatMessageResponse(j).Err?
  {
  }

  function ChatMessageResponseToJson(r: ChatMessageResponse): Json {
    JObj(map[
      "botMessage" := BotMessageToJson(r.botMessage),
      "state" := JObj(map["isTerminal" := JBool(r.state.isTerminal)])])
  }

  lemma ChatMessageResponseRoundTrip(r: ChatMessageResponse)
    ensures ValidateChatMessageResponse(ChatMessageResponseToJson(r)) == Ok(r)
  {
    BotMessageRoundTrip(r.botMessage);
  }

  lemma ChatSessionResponseRoundTrip(r: ChatSessionResponse)
    ensures ValidateChatSessionResponse(JObj(map["botMessage" := BotMessageToJson(r.botMessage)])) == Ok(r)
  {
    BotMessageRoundTrip(r.botMessage);
  }
}
