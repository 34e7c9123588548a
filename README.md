# BalanceAI wellness app: a verified model of its page logic

BalanceAI is a React and TypeScript wellness app. Most of it is views around calls to a
generative-AI service. Its logic is a set of small rules spread over the pages, and this
project models those rules in Dafny and proves what they promise:

- **Voice assistant.**
  - The base64 byte loops.
  - The little-endian 16-bit PCM de-interleaving.
  - The gapless playback clock and the set of playing sources.
  - The per-turn transcript accumulator.
  - The session flags and the idempotent cleanup.
- **Live activity tracking.**
  - The append-only path and its running distance.
  - The one-second tick.
  - The MET calorie formula.
  - `formatTime`.
  - The pace guard.
  - The start and stop handle bookkeeping.
- **Quiz and result.**
  - The question-by-question state machine, with the safety-modal detour after question 10.
  - The 17-question table.
  - The integer score, its rounded and clamped percentage, and the mood thresholds.
- **String rules.**
  - The quiz text put into the plan prompt.
  - The `data:` URL split and mime-type regex of the food scanner.
  - The location-keyword test and history text of the text assistant.
  - The header title and layout rule of the app shell.
  - The demo-video choice.
  - The loading-message cycle and prompt choice of the video creator.
  - The notification built by the reminder form.

Pure expressions are Dafny functions, with lemmas about them. Pages are classes whose fields
are the React state and refs, and handlers are methods. An asynchronous callback, such as a
timer, a geolocation answer, an AI reply or a server message, is a separate method call that runs
to completion. Loops stay loops, with the
invariants that tie them to a function of their input.

Modules, one per source file or part of a file:

- `Wrappers`: `Option` and `Result`.
- `Strings`: `includes`, `join`, `trim`, case mapping and `toString` as the pages use them.
- `QuizData`: the question table.
- `Quiz`, `ResultScore`: the quiz and result pages.
- `GeminiService`: the prompt text and the first-image search.
- `Scanner`: the food scanner.
- `Assistant`: the text assistant.
- `App`: the app shell.
- `WellnessTypes`: the plan records.
- `ExerciseDemo`: the demo modal.
- `VideoCreator`: the video creator.
- `Notifications`: the notifications page.
- `ActivityTracker`: live tracking.
- `AudioCodec`, `Playback`, `Transcript`, `VoiceSession`: the voice assistant.

Where the declared types and the code disagree, the model follows the code:
- `ChatMessage` declares a `role` field (types.ts:47-50), but every page writes and reads
  `sender`, so the model's message carries `sender`.
- The `Page` union (types.ts:31-45) lacks `activity-tracker`, `voice-assistant` and
  `video-creator`, but the sidebar navigates to them. So a page name is a plain string, and
  those three names render the dashboard.

## Model

| member | source | states |
|---|---|---|
| Strings.ToLower | components/modals/ExerciseDemoModal.tsx:13 | the result has the input's length and maps each character by the (ASCII) lower-case rule |
| Strings.ToLowerIdempotent | components/modals/ExerciseDemoModal.tsx:13 | lower-casing twice equals lower-casing once |
| Strings.JoinSnoc | pages/AssistantPage.tsx:62 | joining one more part appends exactly the separator and that part |
| Strings.TrimEmptyIffBlank | pages/AssistantPage.tsx:28 | `trim()` gives "" exactly when every character is JavaScript white space or a line terminator |
| Strings.DecimalString | pages/ActivityTrackerPage.tsx:150-152 | `toString()` of a whole number is a non-empty string of decimal digits |
| Strings.DecimalStringValue | pages/ActivityTrackerPage.tsx:150-152 | that string reads back as the number |
| Strings.PadTwoValue | pages/ActivityTrackerPage.tsx:150-152 | `padStart(2, '0')` of the digits reads back as the number, is all digits, is at least 2 long and exactly 2 below 100 |
| QuizData.QuizQuestionsShape | constants.ts:3-89 | 17 questions; the first has five options, the others four; no option is empty; the safety question index is in range |
| Quiz.Progress | pages/QuizPage.tsx:28-31 | progress times the question count is index times 100, and it lies in [0, 100) for every valid index |
| Quiz.QuizPage.constructor | pages/QuizPage.tsx:24-26 | first question, no answers, modal closed |
| Quiz.QuizPage.AdvanceQuestion | pages/QuizPage.tsx:48-54 | before the last question the index grows by one; at the last one the given answers are submitted, and they answer every question |
| Quiz.QuizPage.HandleAnswer | pages/QuizPage.tsx:35-46 | the option is stored under the current index only; at index 9 with an option above 0 the modal opens and the index stays; otherwise it advances or submits the updated answers |
| Quiz.QuizPage.CloseModalAndContinue | pages/QuizPage.tsx:56-59 | the modal closes and the quiz moves to the next question with the answers unchanged |
| ResultScore.ScoreSumRemove | pages/ResultPage.tsx:30-33 | every answer contributes `4 - index` once, whatever order `forEach` visits them in |
| ResultScore.ScoreSumBounds | pages/ResultPage.tsx:29-33 | with option indices 0 to 4 the total lies between 0 and `4 * (number of answers)` |
| ResultScore.ScoreSumAllBest | pages/ResultPage.tsx:28-33 | all-zero answers reach the possible score |
| ResultScore.ScoreSumLower | pages/ResultPage.tsx:32 | lowering one answer's index raises the total by exactly the difference |
| ResultScore.Round | pages/ResultPage.tsx:35 | `Math.round` lies within one half of its argument (halves go up) |
| ResultScore.Clamp | pages/ResultPage.tsx:35 | the clamp lands in [0, 100] and leaves values already there alone |
| ResultScore.MoodFor | pages/ResultPage.tsx:38-44 | Balanced iff above 75, Needs Attention iff 46 to 75, Overloaded iff at most 45 or NaN |
| ResultScore.TotalScore | pages/ResultPage.tsx:27-33 | the `forEach` loop computes the sum of the points of all answers |
| ResultScore.ComputeResult | pages/ResultPage.tsx:25-46 | no answers give score 0 and no mood; a non-empty answer map gives a percentage in [0, 100] and its mood |
| ResultScore.AllBestIsBalanced | pages/ResultPage.tsx:28-39 | all-zero answers give 100 and Balanced |
| ResultScore.RoundMonotone | pages/ResultPage.tsx:35 | `Math.round` is monotone |
| ResultScore.ClampMonotone | pages/ResultPage.tsx:35 | the clamp is monotone |
| ResultScore.LowerAnswerNeverLowersScore | pages/ResultPage.tsx:32-35 | choosing a lower option index for one question never lowers the percentage |
| GeminiService.MapBlocks | services/geminiService.ts:16-20 | the `map` yields one entry per question |
| GeminiService.MapBlocksAt | services/geminiService.ts:16-20 | entry `i` is the block of question `i` with the answer stored under `i` |
| GeminiService.BlockNonEmpty | services/geminiService.ts:18-21 | a block survives `filter(Boolean)` exactly when its question has an answer naming a non-empty option |
| GeminiService.AnsweredFromIndices | services/geminiService.ts:16-18 | the answered positions are in range, answered, and strictly increasing |
| GeminiService.AnsweredFromComplete | services/geminiService.ts:16-18 | every answered position is among them |
| GeminiService.BlocksFollowAnswered | services/geminiService.ts:16-21 | the kept blocks are exactly the blocks of the answered positions, one each, in question order |
| GeminiService.PromptIsAnsweredQuestions | services/geminiService.ts:15-21 | the prompt blocks are one `Question: q\nAnswer: a` per answered question, in order; unanswered or out-of-range answers give none |
| GeminiService.MapBlocksOutside | services/geminiService.ts:16-18 | answer keys outside the question positions do not change the blocks |
| GeminiService.ExtraKeysIgnored | services/geminiService.ts:15-22 | keys beyond the question table do not change the prompt text |
| GeminiService.NoAnswersNoBlocks | services/geminiService.ts:18-21 | with no answers nothing survives the filter |
| GeminiService.NoAnswersEmptyPrompt | services/geminiService.ts:21 | with no answers the joined text is "" |
| GeminiService.FirstInlineImage | services/geminiService.ts:164-169 | the data of the first part that has inline data; "AI did not return an image." iff no part has any; a TypeError without a candidate |
| Scanner.Split | pages/ScannerPage.tsx:34 | `split(',')` gives at least one piece and no piece contains the separator |
| Scanner.SplitJoin | pages/ScannerPage.tsx:34 | joining the pieces with the separator gives the text back |
| Scanner.LazyEnd | pages/ScannerPage.tsx:35 | the lazy group `(.*?);` ends at a ';' at or after its start |
| Scanner.LazyEndClean | pages/ScannerPage.tsx:35 | the group holds no ';' and no line terminator |
| Scanner.LazyEndFinds | pages/ScannerPage.tsx:35 | without line terminators the group reaches the nearest ';' whenever one follows |
| Scanner.MatchFromShape | pages/ScannerPage.tsx:35 | a match is the text between a ':' and the nearest ';' after it, and no earlier ':' starts a match |
| Scanner.MatchFromFirstColon | pages/ScannerPage.tsx:35 | on one-line text there is a match iff some ':' precedes some ';', and it is the text after the first ':' up to the nearest ';' |
| Scanner.ParseDataUrl | pages/ScannerPage.tsx:34-40 | success iff the mime match of the part before the first ',' is non-empty and the part after it is non-empty, with those as fields; otherwise "Invalid image format." |
| Scanner.MimeInsidePart | pages/ScannerPage.tsx:34-35 | the mime type is made of characters of the first part, so it has no ',' |
| Scanner.ScannerPage.constructor | pages/ScannerPage.tsx:8-11 | no image, analysis, error or call; not loading |
| Scanner.ScannerPage.ImageLoaded | pages/ScannerPage.tsx:18-22 | the image is set and the analysis and error cleared |
| Scanner.ScannerPage.Analyze | pages/ScannerPage.tsx:27-42 | no image: nothing changes; a malformed URL: the format error, loading off, no call; otherwise the analysis and error are cleared, loading is on, and one call with the parsed payload is made |
| Scanner.ScannerPage.AnalysisReturned | pages/ScannerPage.tsx:42-48 | the analysis is shown and loading cleared |
| Scanner.ScannerPage.AnalysisFailed | pages/ScannerPage.tsx:44-48 | the message becomes the error and loading is cleared |
| Assistant.AnyKeyword | pages/AssistantPage.tsx:38 | `some(includes)` is true iff one of the keywords occurs in the text |
| Assistant.IsLocationQuery | pages/AssistantPage.tsx:38 | a location query iff the lower-cased input contains one of the five keywords |
| Assistant.LocationQueryIgnoresCase | pages/AssistantPage.tsx:38 | an input and its lower-cased form are classified alike |
| Assistant.ShoutedKeywordDetected | pages/AssistantPage.tsx:38 | "Any parks NEAR ME?" is a location query |
| Assistant.HistoryLines | pages/AssistantPage.tsx:62 | one `sender: text` line per message, in order |
| Assistant.HistoryAppend | pages/AssistantPage.tsx:62 | one more message adds exactly "\n", its sender, ": " and its text at the end |
| Assistant.FirstHistory | pages/AssistantPage.tsx:12-14 | the first history is the greeting line alone |
| Assistant.AssistantPage.constructor | pages/AssistantPage.tsx:12-17 | the list holds the greeting only; empty input; not loading; no error |
| Assistant.AssistantPage.SetInput | pages/AssistantPage.tsx:120 | only the input changes |
| Assistant.AssistantPage.Send | pages/AssistantPage.tsx:26-67 | a blank input or an outstanding reply changes nothing; otherwise the untrimmed input is appended as the user's message, the input is cleared, loading set, the error cleared, and the page waits for the location or for the chat reply with the history of the earlier messages |
| Assistant.AssistantPage.LocationFound | pages/AssistantPage.tsx:42-44 | the grounded call starts with the query and the coordinates |
| Assistant.AssistantPage.LocationDenied | pages/AssistantPage.tsx:53-59 | the location error is set, one explanatory model message appended, loading cleared |
| Assistant.AssistantPage.GroundedReply | pages/AssistantPage.tsx:44-51 | one model message with the reply and the grounding chunks, none when absent; loading cleared |
| Assistant.AssistantPage.GroundedFailedAsWritten | pages/AssistantPage.tsx:41-52 | a rejected grounded call adds no message and leaves loading on |
| Assistant.AssistantPage.GroundedFailed | pages/AssistantPage.tsx:69-73 | a rejected grounded call adds the apology and clears loading, as the other failure paths do |
| Assistant.AssistantPage.ChatReply | pages/AssistantPage.tsx:62-66 | one model message with the reply; loading cleared |
| Assistant.AssistantPage.ChatFailed | pages/AssistantPage.tsx:69-73 | one apology message; loading cleared |
| Assistant.StuckAfterGroundedFailure | pages/AssistantPage.tsx:28-52 | after that rejection any further send is ignored and the list does not change |
| App.PageTitle | App.tsx:47-56 | the three fixed titles, "BalanceAI" for the five pre-layout pages, otherwise the name with its first character upper-cased |
| App.LayoutHiddenIffAppTitle | App.tsx:47-58 | the layout is hidden on every page titled "BalanceAI", and a page titled "BalanceAI" hides it unless its name is "balanceAI" or "BalanceAI" |
| App.SidebarTitles | App.tsx:53-54 | "notifications" is titled "Notifications" |
| App.RenderPage | App.tsx:60-93 | any view other than the dashboard is rendered only for its own page name |
| App.RenderPageOf | App.tsx:60-93 | every view is reached by its page name, and a name with no case renders the dashboard |
| App.SidebarFallbacks | App.tsx:90-91 | "activity-tracker", "voice-assistant" and "video-creator" render the dashboard |
| App.AppState.constructor | App.tsx:25-27 | the app starts on "welcome" with no answers and no plan |
| App.AppState.Navigate | App.tsx:29-31 | only the current page changes |
| App.AppState.QuizStart | App.tsx:33-35 | the page becomes "quiz" |
| App.AppState.QuizComplete | App.tsx:37-40 | the answers are stored and the page becomes "results" |
| App.AppState.PlanGenerated | App.tsx:42-45 | the plan is stored and the page becomes "dashboard" |
| ExerciseDemo.VideoForActivity | components/modals/ExerciseDemoModal.tsx:12-24 | always one of four URLs; each is chosen iff its words occur and no higher-priority word does |
| ExerciseDemo.VideoIgnoresCase | components/modals/ExerciseDemoModal.tsx:13 | a name and its lower-cased form get the same video |
| ExerciseDemo.MindfulYogaIsMeditation | components/modals/ExerciseDemoModal.tsx:14-19 | "Mindful Yoga" mentions "yoga" yet gets the meditation video |
| ExerciseDemo.NarrationAppend | components/modals/ExerciseDemoModal.tsx:51 | each further instruction is read after ". " |
| ExerciseDemo.SpeechToggle.constructor | components/modals/ExerciseDemoModal.tsx:27-28 | not speaking, nothing spoken or cancelled |
| ExerciseDemo.SpeechToggle.Toggle | components/modals/ExerciseDemoModal.tsx:41-58 | without speech support only the alert; otherwise the flag flips, cancelling when it was on and speaking the joined instructions when it was off |
| ExerciseDemo.SpeechToggle.UtteranceFinished | components/modals/ExerciseDemoModal.tsx:53-54 | end or error clears the flag and nothing else |
| ExerciseDemo.SpeechToggle.Close | components/modals/ExerciseDemoModal.tsx:33-38 | closing cancels speech when the browser has it |
| VideoCreator.IndexOf | pages/VideoCreatorPage.tsx:85 | `indexOf` is the first position holding the value, and -1 iff it is absent |
| VideoCreator.LoadingMessagesDistinct | pages/VideoCreatorPage.tsx:14-23 | the eight messages are pairwise different |
| VideoCreator.IndexOfDistinct | pages/VideoCreatorPage.tsx:85 | in a list without repeats each entry is found at its own position |
| VideoCreator.NextIn | pages/VideoCreatorPage.tsx:84-87 | the next message is always a list member, and an unknown message is followed by the first |
| VideoCreator.NextInOf | pages/VideoCreatorPage.tsx:84-87 | in a list without repeats each entry is followed by the next, the last by the first |
| VideoCreator.CycleSteps | pages/VideoCreatorPage.tsx:84-88 | `n` running polls move the message `n` positions round the list |
| VideoCreator.StepsRound | pages/VideoCreatorPage.tsx:84-88 | going the length of the list round returns to the start |
| VideoCreator.NextMessage | pages/VideoCreatorPage.tsx:84-87 | the updater always shows a list message, the first one for an unknown message |
| VideoCreator.NextMessageOf | pages/VideoCreatorPage.tsx:84-87 | message `i` is followed by message `(i + 1) mod 8` |
| VideoCreator.EightCyclesReturn | pages/VideoCreatorPage.tsx:84-88 | eight running polls in a row bring any message back |
| VideoCreator.PromptChoice | pages/VideoCreatorPage.tsx:36-45 | the fixed prompt is used iff the plan lacks a first activity in some section; otherwise the prompt contains all three names |
| VideoCreator.PollError | pages/VideoCreatorPage.tsx:90-97 | the key is dropped iff the message contains "Requested entity was not found", with the invalid-key text; otherwise the lead-in and the message |
| VideoCreator.StartError | pages/VideoCreatorPage.tsx:111-117 | the key is dropped iff the message contains "API key not valid", with its invalid-key text; otherwise the lead-in and the message |
| VideoCreator.VideoCreatorPage.constructor | pages/VideoCreatorPage.tsx:26-46 | no key, the plan's prompt, 16:9, not loading, the first message, no video, no error |
| VideoCreator.VideoCreatorPage.PlanChanged | pages/VideoCreatorPage.tsx:34-46 | the prompt is replaced by the plan's prompt; every other field unchanged |
| VideoCreator.VideoCreatorPage.KeyChecked | pages/VideoCreatorPage.tsx:48-53 | the key flag takes the answer; every other field unchanged |
| VideoCreator.VideoCreatorPage.KeySelected | pages/VideoCreatorPage.tsx:59-65 | the key counts as selected; every other field unchanged |
| VideoCreator.VideoCreatorPage.EditPrompt | pages/VideoCreatorPage.tsx:172 | only the prompt changes |
| VideoCreator.VideoCreatorPage.SetAspectRatio | pages/VideoCreatorPage.tsx:184 | only the aspect ratio changes |
| VideoCreator.VideoCreatorPage.Generate | pages/VideoCreatorPage.tsx:102-109 | error and video cleared, first message, loading on, one request with the current prompt and ratio; every other field unchanged |
| VideoCreator.VideoCreatorPage.Started | pages/VideoCreatorPage.tsx:109-110 | polling begins, still loading; every other field unchanged |
| VideoCreator.VideoCreatorPage.StartFailed | pages/VideoCreatorPage.tsx:111-119 | the classified error is shown, the key dropped when invalid, loading cleared; every other field unchanged |
| VideoCreator.VideoCreatorPage.PollRunning | pages/VideoCreatorPage.tsx:82-88 | the next loading message is shown and polling goes on; every other field unchanged |
| VideoCreator.VideoCreatorPage.PollDone | pages/VideoCreatorPage.tsx:70-81 | loading cleared; no URI sets the "no video" error; otherwise the fetched video is shown, or the fetch failure is classified; every other field unchanged |
| VideoCreator.VideoCreatorPage.PollFailed | pages/VideoCreatorPage.tsx:90-99 | the classified error is shown, the key dropped when invalid, loading cleared; every other field unchanged |
| VideoCreator.VideoCreatorPage.CreateAnother | pages/VideoCreatorPage.tsx:160 | the video is cleared; every other field unchanged |
| Notifications.InitialTimeline | pages/NotificationsPage.tsx:7-11 | three notifications with ids 1, 2 and 3 |
| Notifications.ScheduledNotification | pages/NotificationsPage.tsx:35-43 | a 'call' iff the reminder type is "Voice Call Check-in", otherwise 'check-in'; the message follows the type; the id is the time; the time shown is "Just now" |
| Notifications.NotificationsPage.constructor | pages/NotificationsPage.tsx:26-28 | the initial timeline, not scheduling, SMS selected |
| Notifications.NotificationsPage.SelectReminderType | pages/NotificationsPage.tsx:83 | only the selection changes |
| Notifications.NotificationsPage.Schedule | pages/NotificationsPage.tsx:30-34 | scheduling is on and a timer remembering the current selection starts |
| Notifications.NotificationsPage.TimerFired | pages/NotificationsPage.tsx:34-47 | exactly one notification from the captured type goes on top of the unchanged old list, scheduling is off, one alert names that type |
| Notifications.ChangeWhilePending | pages/NotificationsPage.tsx:30-47 | a selection change after submitting does not change what the timer adds |
| ActivityTracker.Met | pages/ActivityTrackerPage.tsx:65-66 | the MET values 2.5, 4.0 and 7.0 |
| ActivityTracker.CaloriesGrow | pages/ActivityTrackerPage.tsx:62-71 | zero calories at zero seconds; with a positive weight strictly more for every later second |
| ActivityTracker.PathDistanceIsPairSum | pages/ActivityTrackerPage.tsx:110-115 | the running distance equals the sum over consecutive pairs of the path |
| ActivityTracker.PathDistanceGrows | pages/ActivityTrackerPage.tsx:110-115 | with a non-negative pairwise distance the total is non-negative and never decreases as the path grows |
| ActivityTracker.FormatTimeFields | pages/ActivityTrackerPage.tsx:149-154 | minutes and seconds below 60, the fields add up to the input, the text reads back as the input, colons at fixed places, 8 characters exactly below 100 hours |
| ActivityTracker.PadTwoLong | pages/ActivityTrackerPage.tsx:150 | 100 hours or more take more than two digits |
| ActivityTracker.PaceOf | pages/ActivityTrackerPage.tsx:179 | a pace iff some distance is covered, and then minutes per kilometre; otherwise the '0.00' case |
| ActivityTracker.Tracker.constructor | pages/ActivityTrackerPage.tsx:30-46 | not tracking, empty path, zero counters, weight 70, Moderate, no handles |
| ActivityTracker.Tracker.LoadSettings | pages/ActivityTrackerPage.tsx:48-53 | a saved weight or intensity replaces the default; every other field unchanged |
| ActivityTracker.Tracker.SetWeight | pages/ActivityTrackerPage.tsx:73-77 | the weight changes; the calories follow only while tracking; every other field unchanged |
| ActivityTracker.Tracker.SetIntensity | pages/ActivityTrackerPage.tsx:79-82 | the intensity changes; the calories follow only while tracking; every other field unchanged |
| ActivityTracker.Tracker.Start | pages/ActivityTrackerPage.tsx:95-105 | counters and path reset, error cleared, tracking with a new timer and a new watch; every other field unchanged |
| ActivityTracker.Tracker.Tick | pages/ActivityTrackerPage.tsx:103 | exactly one more second; calories follow and grow with a positive weight; every other field unchanged |
| ActivityTracker.Tracker.Position | pages/ActivityTrackerPage.tsx:106-123 | the point is appended; from the second point on the distance from the previous one is added; the distance never decreases; every other field unchanged |
| ActivityTracker.Tracker.Stop | pages/ActivityTrackerPage.tsx:133-147 | not tracking; only held handles are cleared, then forgotten; a second call clears nothing; every other field unchanged |
| ActivityTracker.Tracker.PositionError | pages/ActivityTrackerPage.tsx:125-128 | the location message is set, then tracking stops; every other field unchanged |
| AudioCodec.BinaryString | pages/VoiceAssistantPage.tsx:10-14 | one character per byte, with the byte's value |
| AudioCodec.CharCodeBytes | pages/VoiceAssistantPage.tsx:20-24 | one byte per character, its code modulo 256 |
| AudioCodec.BytesRoundTrip | pages/VoiceAssistantPage.tsx:9-26 | reading the char codes of the binary string gives the bytes back |
| AudioCodec.BinaryStringRoundTrip | pages/VoiceAssistantPage.tsx:9-26 | writing the bytes of a binary string gives the string back |
| AudioCodec.Encode | pages/VoiceAssistantPage.tsx:9-16 | the loop builds the binary string of all the bytes, in order, then applies `btoa` |
| AudioCodec.Decode | pages/VoiceAssistantPage.tsx:18-26 | an InvalidCharacterError exactly when `atob` rejects the text; otherwise a fresh array holding the char codes of `atob`'s result |
| AudioCodec.DecodeInvertsEncode | pages/VoiceAssistantPage.tsx:9-26 | with `atob` undoing `btoa`, decoding what was encoded succeeds and gives the same bytes |
| AudioCodec.Int16At | pages/VoiceAssistantPage.tsx:34 | a 16-bit little-endian two's-complement value in [-32768, 32768) |
| AudioCodec.Int16RoundTrip | pages/VoiceAssistantPage.tsx:34 | the bytes of a 16-bit value read back as that value |
| AudioCodec.Sample | pages/VoiceAssistantPage.tsx:41 | `/ 32768.0` puts each sample in [-1, 1) |
| AudioCodec.ChannelValue | pages/VoiceAssistantPage.tsx:38-42 | channel `c`, frame `i` reads sample `i * numChannels + c`, which exists |
| AudioCodec.FrameInRange | pages/VoiceAssistantPage.tsx:35-41 | every frame below `frameCount` has all its channels' samples |
| AudioCodec.DecodeAudioData | pages/VoiceAssistantPage.tsx:28-45 | odd byte length gives a RangeError; no channels or frames gives NotSupportedError; otherwise a fresh channels by frames buffer holding the de-interleaved samples |
| Playback.StartOf | pages/VoiceAssistantPage.tsx:174 | the start is the later of the clock and the current time |
| Playback.Starts | pages/VoiceAssistantPage.tsx:174-176 | one start per arriving segment |
| Playback.StartsSchedule | pages/VoiceAssistantPage.tsx:174-176 | each segment starts no earlier than it arrives and never overlaps the previous one; one arriving before that ends starts exactly at its end; one arriving later starts on arrival |
| Playback.Player.constructor | pages/VoiceAssistantPage.tsx:64-65 | clock 0, no sources |
| Playback.Player.StopAll | pages/VoiceAssistantPage.tsx:67-73 | every pending source is stopped, the set emptied, the clock reset, so the next segment starts at the current time |
| Playback.Player.Play | pages/VoiceAssistantPage.tsx:170-181 | the segment starts at the later of clock and now, the clock moves to its end, the source joins the set |
| Playback.Player.Ended | pages/VoiceAssistantPage.tsx:179-181 | the source leaves the set; nothing else changes |
| Transcript.ApplyEffect | pages/VoiceAssistantPage.tsx:146-161 | a completing message appends the current turn with its own fragments and starts an empty one; any other message only extends each side |
| Transcript.ApplyConserves | pages/VoiceAssistantPage.tsx:146-161 | one message neither loses nor reorders text on either side |
| Transcript.FeedTurns | pages/VoiceAssistantPage.tsx:146-161 | over any run of messages the list only grows at its end, by one turn per completing message |
| Transcript.FeedUserText | pages/VoiceAssistantPage.tsx:146-147 | the user text of all turns and the current one is the old text followed by every input fragment, in order |
| Transcript.FeedModelText | pages/VoiceAssistantPage.tsx:149-150 | the same on the model side with the output fragments |
| VoiceSession.AfterClose | pages/VoiceAssistantPage.tsx:90-95 | a context is closed only if it is not closed yet, and ends up not running |
| VoiceSession.VoicePage.constructor | pages/VoiceAssistantPage.tsx:51-65 | the initial state, no contexts, no sessions |
| VoiceSession.VoicePage.Cleanup | pages/VoiceAssistantPage.tsx:75-98 | everything stops, the close request goes to the promise it sees, contexts not yet closed are closed, all audio stops, the flags clear; on a cleaned page with no promise nothing changes |
| VoiceSession.VoicePage.Toggle | pages/VoiceAssistantPage.tsx:106-112 | while active or connecting it cleans up, with the contexts closed and all pending audio stopped; otherwise it starts connecting with empty transcripts and asks for the microphone, changing nothing else |
| VoiceSession.VoicePage.MicrophoneGranted | pages/VoiceAssistantPage.tsx:115-121 | the stream and both contexts are kept, and the connection's promise is stored |
| VoiceSession.VoicePage.MicrophoneGrantedAsWritten | pages/VoiceAssistantPage.tsx:100-104 | with the unmount effect's dependency on `cleanup`, storing the promise tears the new session, the stream and both contexts down |
| VoiceSession.VoicePage.MicrophoneDenied | pages/VoiceAssistantPage.tsx:203-206 | a refused microphone prompt only clears `isConnecting` |
| VoiceSession.VoicePage.ContextFailed | pages/VoiceAssistantPage.tsx:115-121 | a throw after the stream is stored leaves the stream live and the contexts built so far running; only `isConnecting` is cleared |
| VoiceSession.VoicePage.OnOpen | pages/VoiceAssistantPage.tsx:124-143 | active, not connecting, microphone wired |
| VoiceSession.VoicePage.RemoteClosed | pages/VoiceAssistantPage.tsx:185-191 | the cleanup of the connecting render runs: contexts closed, pending audio stopped, flags cleared, and a close request only for the promise that render saw |
| VoiceSession.VoicePage.OnMessage | pages/VoiceAssistantPage.tsx:144-184 | transcript updates first, then the interruption stops all audio and resets the clock, then a decodable payload is scheduled at the later of the clock and now and joins the pending sources; a payload `atob` or `decodeAudioData` rejects plays nothing |
| VoiceSession.VoicePage.SourceEnded | pages/VoiceAssistantPage.tsx:179-181 | the ended source leaves the set; nothing else changes |

## Left out

- The AI calls, the live session, video generation and polling, and the key-selection dialog are
  external. Their results arrive as method arguments, such as `AnalysisReturned`, `ChatReply`,
  `PollDone` and `OnMessage`. Their JSON schemas and prompts, apart from the quiz text and the
  video prompt, are not modelled.
- `btoa` and `atob` (RFC 4648 section 4 base64) are function parameters. `atob` is partial: it
  yields nothing where the browser throws. The round trip assumes it undoes `btoa` on binary
  strings. A throw of `btoa` on a non-binary string cannot arise, because `encode` builds only
  binary strings.
- Browser services are not modelled beyond what the pages observe:
  - Web Audio: `source.start`, and the microphone capture node with its `x * 32768` conversion.
  - The geolocation watch, and the Leaflet map beyond a "shown" flag.
  - `localStorage` writes.
  - `fetch`, `Blob`, object URLs and `FileReader`.
  - `alert`, apart from its text, and speech synthesis, apart from its calls.
  - Timers.
- `haversineDistance` is an abstract non-negative function, because its trigonometry is
  floating point.
- `toFixed` formatting of distance and pace, and `Math.round` of the shown calories, are left
  out as presentation. Numbers are exact reals and whole numbers, not IEEE doubles.
- JavaScript strings are UTF-16. Dafny characters are code points, so a character outside the
  Basic Multilingual Plane counts one here and two in the page. Such characters can reach the
  model through chat input or AI replies, but no modelled result depends on the length or
  position of one.
- `toLowerCase` and `toUpperCase` map the ASCII letters only; other letters are unchanged.
- Playback.Player.Play: the 24 kHz sample rate of the output buffer is a constant, and the buffer
  duration is frames divided by it.
- VoiceSession.VoicePage.OnMessage: each message runs to completion. The page awaits the decode,
  so its messages could interleave in the page; that interleaving is not modelled.
- VoiceSession.VoicePage.RemoteClosed: it does not claim the remote session is closed. The
  cleanup that `onerror` and `onclose` call sees the promise of the render that connected.
- The page does not guard these handlers; the model requires what the UI ensures, each for the
  stated reason:
  - Scanner.ScannerPage.Analyze requires not loading, because its button is disabled while loading.
  - VideoCreator.VideoCreatorPage.Generate requires not loading, for the same reason.
  - ActivityTracker.Tracker.Start requires not tracking, because only the stop button is shown
    while tracking.
  - Quiz.QuizPage.HandleAnswer requires the modal closed, because the modal covers the option
    buttons.
- VideoCreator.VideoCreatorPage.PollDone: the awaited fetch of the video is folded into one step.
  Its outcome is an argument, and a fetch failure goes to the poll's `catch` as in the page.
- A `catch` whose error has no `message` (a thrown non-Error value) is not modelled: the error
  handlers take the message as a string.
- A wellness plan missing a whole section cannot be represented, because the record always has
  all three. The video prompt's guard for a missing first activity is modelled.
- ExerciseDemo.SpeechToggle.UtteranceFinished: the end and error events of any utterance clear
  the flag. The model does not track which utterance fired them.
- The unmount cleanup of the activity tracker (ActivityTrackerPage.tsx:56-59) and the automatic
  re-run of the calorie effect are left out. The calories are recomputed in the handlers that
  change its inputs.
- The presentation-only components and views are not part of this model:
  - the icons, layout, cards and buttons;
  - the welcome, dashboard, progress, settings, community, sign-up, activities and plan views;
  - the add-activity and add-reminder forms.

## Findings

| source | as written | input that shows it | evidently intended | confidence | as-written member | corrected member |
|---|---|---|---|---|---|---|
| pages/VoiceAssistantPage.tsx:75-104, 202 | `cleanup` depends on `state.sessionPromise`, and the unmount effect `useEffect(() => () => cleanup(), [cleanup])` depends on `cleanup`. So storing the new session's promise changes `cleanup`, and React runs the old effect's teardown. | Press the microphone button and grant access. Once the promise is stored, the teardown closes the session just opened, stops the stream and closes both audio contexts. | The teardown runs only on unmount, and the connected session stays open. | high, not executed | VoiceSession.VoicePage.MicrophoneGrantedAsWritten | VoiceSession.VoicePage.MicrophoneGranted |
| pages/AssistantPage.tsx:41-52 | The grounded call is awaited inside the geolocation success callback, which the surrounding `try`/`catch` does not cover. | A location query such as "parks near me" whose grounded call rejects. No message is added, `isLoading` stays true, and every later send is ignored. | A rejection adds the apology and clears loading, as the other failure paths do (lines 69-73). | high, not executed | Assistant.AssistantPage.GroundedFailedAsWritten | Assistant.AssistantPage.GroundedFailed |
