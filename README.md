# OMTeam AI service layer: response contracts and agent context, in Dafny

OMTeam's AI server exposes five operations: daily missions, daily feedback,
weekly analysis, chat session start and chat message. Each operation takes a
validated request and builds three things for the multi-agent system: a
Korean prompt, the user id as text, and a payload of `preferences` and
`event` entries. It then calls the agent once. The agent's free-text reply
goes through one pipeline, which:

1. finds the first "```json" and the last "```";
2. when the opener comes strictly before the closer, strips the text between them and decodes it;
3. otherwise decodes the whole reply as it is;
4. validates the decoded value against the operation's response model.

A decoding failure becomes an HTTP 500 that carries the raw reply. A value
the model rejects becomes an HTTP 500 that names the model.

The project has seven modules:

- `Wrappers`: `Option` and `Result`.
- `Text`: Python's `str.find`, `str.rfind`, `str.strip()`, `sep.join` and `str(int)`, with their inverses where one exists.
- `Json`: the decoded JSON value.
- `Validation`: required fields, exact JSON types, closed enumerations and element-by-element list validation. A failure names the path of the first violation.
- `Schemas`: every request and response model of `app/api/schemas.py`, with its validator, and an encoder where a round-trip lemma needs one.
- `Extraction`: the reply pipeline and the HTTP error it raises.
- `Services`: the five context builders, the agent call and the five operations.

`json.loads` and the agent system are parameters of the model. The history
loop of the daily-missions builder is an imperative `for` loop. It is proved
to compute the builder's closed form.

Two behaviours of the code a reader may not expect:

- **The mission-history event.** Each pass of the history loop spreads the previous event after the new item's keys (`{..., **old}`), so the FIRST history item's fields survive the loop and later items change nothing (app/api/services.py:76-84). See `Services.MissionEvent`, `Services.BuildMissionsPayload` and `Services.LaterHistoryIgnored`.
- **The reply pipeline.** The fence search uses plain `find`/`rfind` anywhere in the text, and a bare reply is decoded untrimmed (app/api/services.py:36-44). See `Extraction.Candidate` and `Extraction.BareReplyCandidate`.

## Model

| member | source | states |
|---|---|---|
| Text.Find | app/api/services.py:36 | `str.find`: -1 exactly when the pattern does not occur; otherwise an occurrence with no earlier one |
| Text.RFind | app/api/services.py:37 | `str.rfind`: -1 exactly when the pattern does not occur; otherwise an occurrence with no later one |
| Text.Strip | app/api/services.py:40-41 | `str.strip()`: the result is a slice of the input, only whitespace is cut from either side, and the result has no whitespace at its edges |
| Text.TrimStart | app/api/services.py:41 | the result is a suffix of the input, what was cut is all whitespace, and the result does not start with whitespace |
| Text.TrimEnd | app/api/services.py:41 | the result is a prefix of the input, what was cut is all whitespace, and the result does not end with whitespace |
| Text.StripSurrounded | app/api/services.py:41 | text with tight edges, wrapped in whitespace on both sides, strips back to itself |
| Text.StripTight | app/api/services.py:41 | stripping text with tight edges changes nothing |
| Text.Join | app/api/services.py:69 | `", ".join`: the empty list gives "", and a single element is itself |
| Text.JoinAppend | app/api/services.py:69 | joining two non-empty lists is joining their joins: elements keep their order |
| Text.JoinLength | app/api/services.py:73 | a join is as long as its elements plus one separator between each pair of neighbours |
| Text.NatToString | app/api/services.py:61 | decimal digits only, never empty, and no leading zero except for 0 itself |
| Text.IntToStringRoundTrip | app/api/services.py:61 | `str(n)`, modelled by `Text.IntToString`, reads back as `n` for every integer, negative ones included |
| Text.IntToStringInjective | app/api/services.py:61 | distinct user ids are sent as distinct texts |
| Validation.Under | app/api/schemas.py:50-51 | a nested violation is reported under its key or index, and a success is passed through unchanged |
| Validation.AsObject | app/api/services.py:52 | `response_model(**data)` accepts exactly an object; anything else is a type violation |
| Validation.AsString | app/api/schemas.py:55 | a `str` field accepts exactly a JSON string |
| Validation.AsInt | app/api/schemas.py:58-59 | an `int` field accepts exactly a JSON integer |
| Validation.AsBool | app/api/schemas.py:159 | a `bool` field accepts exactly a JSON boolean |
| Validation.AsOptionalString | app/api/schemas.py:46 | `Optional[str]` accepts null, as None, and a string, as itself, and nothing else |
| Validation.AsEnum | app/api/schemas.py:18-20 | an enum field accepts exactly a string that is a member's value; another string is reported as outside the enum, with the allowed values, and a non-string as a type violation |
| Validation.Field | app/api/schemas.py:54-59 | a required field is missing exactly when its key is absent; when present, it is the value its type's validator accepts, or that validator's violation under the key |
| Validation.OptionalStringField | app/api/schemas.py:46 | an optional field with default None is None when its key is absent |
| Validation.EachFrom | app/api/schemas.py:62 | a list is valid exactly when every element is; results keep length and order; otherwise the error is the first invalid element's violation, under its index |
| Validation.AsList | app/api/schemas.py:62 | a `List[...]` field accepts exactly an array of valid elements and keeps their order |
| Schemas.ParseWorkTimeType | app/api/schemas.py:8-11 | a member exactly for "FIXED", "SHIFT" and "FREE", whose value is the text read |
| Schemas.ParseLifestyleType | app/api/schemas.py:13-16 | a member exactly for "MORNING", "NIGHT" and "IRREGULAR", whose value is the text read |
| Schemas.ParseMissionType | app/api/schemas.py:18-20 | a member exactly for "EXERCISE" and "DIET", whose value is the text read |
| Schemas.ParseDifficulty | app/api/schemas.py:22-25 | a member exactly for "EASY", "NORMAL" and "HARD", whose value is the text read |
| Schemas.ParseMissionResult | app/api/schemas.py:27-29 | a member exactly for "SUCCESS" and "FAILURE", whose value is the text read |
| Schemas.ParseIntent | app/api/schemas.py:65-69 | a member exactly for "PRAISE", "RETRY", "NORMAL" and "PUSH", whose value is the text read |
| Schemas.ParseChatInputType | app/api/schemas.py:143-145 | a member exactly for "TEXT" and "OPTION", whose value is the text read |
| Schemas.EnumValuesRoundTrip | app/api/schemas.py:8-29 | every member's value reads back as that member, for all seven enumerations |
| Schemas.StringListRoundTrip | app/api/schemas.py:38 | a `List[str]` read back from its encoding is the same list |
| Schemas.OnboardingDataRoundTrip | app/api/schemas.py:32-39 | `ValidateOnboardingData` reads onboarding data back from its encoding unchanged |
| Schemas.RecentMissionHistoryItemRoundTrip | app/api/schemas.py:41-46 | `ValidateRecentMissionHistoryItem` reads a history item back from its encoding unchanged, with or without a failure reason |
| Schemas.FailureReasonDefaultsToNone | app/api/schemas.py:46 | an absent or null failure reason is None, and it never decides whether the item is valid |
| Schemas.DailyMissionRequestRoundTrip | app/api/schemas.py:48-52 | `ValidateDailyMissionRequest` reads a daily-mission request back from its encoding unchanged, history order included |
| Schemas.MissionContract | app/api/schemas.py:54-59 | `ValidateMission`: a value is mission `m` exactly when it is an object holding `m`'s five fields, "type" among them; other keys are ignored |
| Schemas.ValidMissionHasFields | app/api/schemas.py:54-59 | a value accepted as mission `m` holds each of `m`'s fields under its key |
| Schemas.MissionFieldsValidate | app/api/schemas.py:54-59 | an object holding `m`'s fields is accepted as `m` |
| Schemas.MissionTypeOutsideEnumRejected | app/api/schemas.py:56 | a mission type outside EXERCISE and DIET rejects the mission; when "name" is a string, the error is exactly the enum violation under "type" |
| Schemas.DailyMissionResponseContract | app/api/schemas.py:61-62 | `ValidateDailyMissionResponse`: a response is valid exactly when "missions" is an array whose elements are, in order, its missions |
| Schemas.OneBadMissionRejectsResponse | app/api/schemas.py:62 | one invalid mission rejects the whole response |
| Schemas.DailyMissionResponseRoundTrip | app/api/schemas.py:61-62 | a mission response read back from its encoding is unchanged |
| Schemas.TodayFailureReasonDefaultsToNone | app/api/schemas.py:71-75 | today's failure reason is None when absent or null, and today's mission is valid exactly when its three enum fields are |
| Schemas.TodayMissionDataRoundTrip | app/api/schemas.py:71-75 | `ValidateTodayMissionData` reads today's mission back from its encoding unchanged |
| Schemas.DailyFeedbackRequestRoundTrip | app/api/schemas.py:81-85 | `ValidateDailyFeedbackRequest`, through `ValidateTodayMissionData` and `ValidateRecentSummaryData`, reads a feedback request back from its encoding unchanged |
| Schemas.EncouragementCandidateContract | app/api/schemas.py:87-90 | `ValidateEncouragementCandidate`: a value is candidate `c` exactly when it is an object holding `c`'s intent, title and message |
| Schemas.IntentOutsideEnumRejected | app/api/schemas.py:88 | an intent outside the four members rejects the candidate, with exactly the enum violation under "intent" |
| Schemas.DailyFeedbackResponseContract | app/api/schemas.py:92-94 | `ValidateDailyFeedbackResponse`: a feedback response is valid exactly when it has the feedback text and an array of valid candidates, in order |
| Schemas.DailyFeedbackResponseRoundTrip | app/api/schemas.py:92-94 | a feedback response read back from its encoding is unchanged |
| Schemas.WeeklyAnalysisRequestRoundTrip | app/api/schemas.py:110-114 | `ValidateWeeklyAnalysisRequest`, through `ValidateWeekRangeData`, `ValidateWeeklyStatsData` and `ValidateFailureReasonRankedItem`, reads a weekly request back from its encoding unchanged, ranked reasons in order |
| Schemas.WeeklyAnalysisResponseContract | app/api/schemas.py:116-118 | `ValidateWeeklyAnalysisResponse`: an analysis is valid exactly when both strings are present; other keys are ignored |
| Schemas.MissingOverallFeedbackRejected | app/api/schemas.py:118 | without "overallFeedback" the analysis is rejected, with the violation naming that key |
| Schemas.ChatSessionRequestRoundTrip | app/api/schemas.py:125-128 | `ValidateChatSessionRequest`, through `ValidateInitialChatContext`, reads a session request back from its encoding unchanged |
| Schemas.ChatInputDefaults | app/api/schemas.py:147-150 | absent text and value are None, and the input is then valid exactly when its type is |
| Schemas.ChatMessageRequestRoundTrip | app/api/schemas.py:152-156 | `ValidateChatMessageRequest`, through `ValidateChatInput`, reads a chat message request back from its encoding unchanged |
| Schemas.BotMessageOptionContract | app/api/schemas.py:130-132 | `ValidateBotMessageOption`: a value is option `o` exactly when it is an object holding `o`'s "label" and "value" |
| Schemas.BotMessageContract | app/api/schemas.py:134-137 | `ValidateBotMessage`: a bot message is valid exactly when it has its id, its text and an array of valid options, in order |
| Schemas.MissingOptionsRejected | app/api/schemas.py:137 | a bot message without "options" is rejected |
| Schemas.BotMessageRoundTrip | app/api/schemas.py:134-137 | a bot message read back from its encoding is unchanged |
| Schemas.ChatSessionResponseContract | app/api/schemas.py:139-140 | `ValidateChatSessionResponse`: a session response is valid exactly when its "botMessage" is, and it carries that message |
| Schemas.ChatMessageResponseContract | app/api/schemas.py:158-163 | `ValidateChatMessageResponse`, through `ValidateChatState`: a chat response is valid exactly when its bot message is valid and "state.isTerminal" is a boolean |
| Schemas.NonBooleanTerminalRejected | app/api/schemas.py:159 | a non-boolean "isTerminal" rejects the response |
| Schemas.ChatMessageResponseRoundTrip | app/api/schemas.py:161-163 | a chat response read back from its encoding is unchanged |
| Schemas.ChatSessionResponseRoundTrip | app/api/schemas.py:139-140 | a session response read back from its encoding is unchanged |
| Extraction.FencedSliceWellFormed | app/api/services.py:39-41 | an opener before a closer never overlaps it, so the slice between them is well defined |
| Extraction.Candidate | app/api/services.py:36-44 | in the fenced branch, the opener ends at or before the start of the last closer |
| Extraction.ParseAgentResponse | app/api/services.py:35-57 | a parse error, carrying the raw reply, exactly when decoding fails; a validated model exactly when decoding succeeds and the model accepts the value; otherwise a validation error naming the model and carrying the decoded value |
| Extraction.FencedReplyCandidate | app/api/services.py:36-41 | for backtick-free text around one fenced block, the candidate is the block's stripped body |
| Extraction.OpenerOnlyFallsBack | app/api/services.py:37-44 | when "```json" is the only fence in backtick-free text, the reply is not taken as fenced and falls back to decoding the whole reply |
| Extraction.BareReplyCandidate | app/api/services.py:43-44 | without an opener, the whole reply is decoded untrimmed |
| Extraction.UndecodableIsParseError | app/api/services.py:45-49 | an undecodable candidate gives a parse error whose detail contains the raw reply |
| Extraction.NonConformingIsValidationError | app/api/services.py:51-57 | a decodable value that the model rejects gives a validation error naming the model and carrying the decoded value |
| Extraction.FencingIsOptional | app/api/services.py:36-44 | when the text around the fenced block has no backticks and the stripped body contains no "```json" of its own, the fenced reply and its bare stripped body give the same model or the same validation error |
| Extraction.ConformingReplyYieldsModel | app/api/services.py:39-52 | a fenced reply whose surrounding text has no backticks, and whose stripped body decodes to an accepted value, yields exactly the validated model |
| Extraction.ErrorDetail | app/api/services.py:46-57 | a parse error's detail starts with the parse prefix and ends with the raw reply; a validation error's detail starts with the schema prefix and the model name, and ends with ". Parsed data: " and the rendered decoded value |
| Extraction.ToHttpException | app/api/services.py:46-47 | both pipeline failures are raised with status 500 and that detail |
| Services.CallAgentAndParseResponse | app/api/services.py:18-57 | an agent exception passes through as an agent error carrying the same reason, and only then; the reply, or "" when there is none (`Services.ReplyText`), goes through the pipeline; a result is always the model validated from that reply's decoded candidate |
| Services.MissingReplyIsParseError | app/api/services.py:33 | a result without "agent_response" is decoded as "", which gives a parse error with an empty raw reply |
| Services.LinesContainEach | app/api/services.py:86-92 | every line of an f-string appears in the prompt as a whole, indented line |
| Services.LinesContainPair | app/api/services.py:213-217 | two neighbouring lines appear together, the second right after the first |
| Services.LineEnded | app/api/services.py:86-92 | a line that is not the last appears as caption plus value followed by the next line's indent, so the value is not a prefix of a longer one |
| Services.LineShown | app/api/services.py:87 | a line written as caption plus value appears exactly so |
| Services.OptionalText | app/api/services.py:82 | an optional failure reason is sent as text, or as null for None, and reads back as the same option |
| Services.MissionPreferencesContents | app/api/services.py:64-71 | `Services.MissionPreferences`: exactly six keys; the goal as sent; the available time as "start-end"; the preferred exercises joined by ", " in order; the minimum minutes as a JSON integer; the work-time and lifestyle types as values that read back as the members |
| Services.HistoryEventContents | app/api/services.py:78-82 | `Services.HistoryEvent`: exactly the five history keys; the date as sent; the mission type, difficulty and result as values that read back as the members; the failure reason as null or its text |
| Services.AvailableTimeSplits | app/api/services.py:67 | when the start time contains no '-', the first '-' of "start-end" separates them, so both times can be recovered |
| Services.MissionEvent | app/api/services.py:72-84 | the event holds the weekly failure reasons joined by ", " (the bucket `Services.WeeklyFailureEvent` of lines 72-74), plus the FIRST history item's five fields when there is one |
| Services.LaterHistoryIgnored | app/api/services.py:76-84 | history items after the first never change the event |
| Services.SpreadOverCovered | app/api/services.py:77-84 | `{**new, **old}` where `old` already has every key of `new` is `old` unchanged |
| Services.BuildMissionsPayload | app/api/services.py:63-84 | the loop's result is the closed form `Services.MissionsPayload`: the preferences bucket and the event of `MissionEvent` |
| Services.MissionEventStep | app/api/services.py:76-84 | one pass of the loop: the event over the first `i + 1` items is the `i + 1`-th item's keys overridden by the event over the first `i` |
| Services.HistorySection | app/api/services.py:95-98 | the history section is "- 없음" exactly when there is no history |
| Services.HistoryLine | app/api/services.py:96 | a history line opens with its date, and closes with the failure reason when that is truthy, else with the result |
| Services.MissionFactsShow | app/api/services.py:86-98 | the mission prompt (`Services.MissionFacts`) names the user on a line of its own (the id followed by the next line's indent), and lists the history right under its heading |
| Services.DailyMissionsCall | app/api/services.py:60-127 | the agent gets the user id as decimal text that reads back as the id; a prompt that names the user and lists the history under its heading; and a payload of exactly "preferences" and "event" |
| Services.DailyMissionsCallPayload | app/api/services.py:63-84 | the request's "preferences" is `MissionPreferences` of the onboarding data and its "event" is `MissionEvent` of the history and the weekly reasons |
| Services.DailyMissionsService | app/api/services.py:60-130 | the operation answers with the pipeline's outcome for the agent's reply to the daily-missions call |
| Services.FailureNote | app/api/services.py:154 | the failure reason is shown in parentheses exactly when it is truthy, and nothing is shown otherwise |
| Services.FeedbackEventContents | app/api/services.py:137-145 | `Services.FeedbackEvent`: exactly seven keys; the target date as sent; today's mission type, difficulty and result as values that read back as the members; the failure reason as null or its text; the recent success and failure days as JSON integers |
| Services.DailyFeedbackCall | app/api/services.py:133-157 | the agent gets the user id as decimal text that reads back as the id, and an event-only payload holding `FeedbackEvent`; the prompt names the target date and the result line with its failure note |
| Services.DailyFeedbackService | app/api/services.py:133-188 | the operation answers with the pipeline's outcome for the agent's reply to the feedback call |
| Services.RankedSection | app/api/services.py:214-217 | the ranked-reasons section is "- 없음" exactly when no reasons are ranked |
| Services.WeeklyEventContents | app/api/services.py:196-203 | `Services.WeeklyEvent`: exactly six keys; the week's start and end as sent; the three weekly counts as JSON integers; the ranked reasons as "reason (count회)" joined by ", " in rank order |
| Services.WeeklyAnalysisCall | app/api/services.py:191-217 | the agent gets the user id as decimal text that reads back as the id, and an empty preferences entry beside the event `WeeklyEvent`; the prompt names the week range and puts the ranked section under its heading |
| Services.WeeklyAnalysisService | app/api/services.py:191-233 | the operation answers with the pipeline's outcome for the agent's reply to the weekly call |
| Services.ChatSessionCall | app/api/services.py:236-252 | the agent gets the user id as decimal text that reads back as the id on a line of its own, and preferences only: the app goal as sent and the lifestyle identifying its member; the prompt opens with "새로운 채팅 세션이 시작되었습니다." and names the session |
| Services.ChatSessionService | app/api/services.py:236-272 | the operation answers with the pipeline's outcome for the agent's reply to the session call |
| Services.ChatInputContent | app/api/services.py:278-282 | the content is empty exactly when neither a TEXT input with truthy text nor an OPTION input with a truthy value is given; otherwise it is the matching caption followed by that text or value |
| Services.ChatMessageEventContents | app/api/services.py:285-290 | `Services.ChatMessageEvent`: exactly four keys; the session id as a JSON integer; the input type as a value that reads back as the member; the input content of `ChatInputContent`; the timestamp as sent |
| Services.ChatMessageCall | app/api/services.py:275-297 | the agent gets the user id as decimal text that reads back as the id on a line of its own; the event is `Services.ChatMessageEvent` (so session id, input type, content and timestamp as `ChatMessageEventContents` states); the same input content appears in the prompt's input line |
| Services.ChatMessageService | app/api/services.py:275-321 | the operation answers with the pipeline's outcome for the agent's reply to the chat call |

## Left out

- `json.loads` is a parameter rather than a JSON parser. Floating-point numbers are carried as their text, and parse-error messages come from that parameter.
- The agent system `run_agent_system` is a parameter. Its internals and a non-string "agent_response" are not modelled; an exception it raises is a reason text, propagated unchanged.
- FastAPI routing, `async`, and the HTTP layer beyond the status code and detail are not modelled.
- Pydantic's lax coercions are not modelled; the validators check exact JSON types. Examples of such coercions: "5" or a whole float such as 20.0 accepted as an int, "true", "false", 0 or 1 accepted as a bool, a date parsed from text.
- Validation.Field: pydantic collects every violation of a model. The model reports only the first, in field order; it rejects exactly the same inputs.
- Extraction.ErrorDetail: renders the text of pydantic's ValidationError and the repr of the decoded value through the abstract `Renderer`, not character by character.
- Dates, times and datetimes are kept as their ISO text; `isoformat()` normalisation is not modelled.
- The order of keys in payload dictionaries is not modelled; a payload bucket is a map.
- The fixed instruction block that closes each prompt contains no interpolation. It is represented by the operation tag `Services.Operation`, not by its text.
- Services.DailyMissionsCall: the prompt's list of weekly failure reasons reads "없음" both for no reasons and for the single reason "없음". The model keeps this ambiguity and does not claim that the prompt identifies the reasons.
- `str.strip()` uses Python's whitespace set, listed in `Text.IsSpace`; no Unicode normalisation is done.
