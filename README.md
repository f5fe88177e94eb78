# voiceagent-rn: a verified model of its decision logic

The voiceagent-rn repository is a React Native companion app (voice agents,
self-assessment, growth report, memories and events, subscriptions), plus
a Python script that prepares App Store screenshots. Most of the app is
rendering, animation and network calls. This project models the logic in
between: the small decision functions and state machines that make up
each screen. It proves what each one guarantees.

Each source file of the core has its own Dafny module of the same role:

- **Screenshot normaliser** (`Screenshots`): alpha thresholding at 50,
  the content bounding box (right and bottom exclusive), the optional
  crop, the fixed 2048×2732 output and the output file name. A failing
  file yields nothing and the run goes on. Image decoding, resampling and
  encoding are abstract.
- **Subscriptions and purchase** (`Subscription`, `ProductList`,
  `ProcessingModal`, `IosPurchase`):
  - classifying a plan change as upgrade, downgrade or switch;
  - the purchase screen's selection, submit and confirm rules, and its
    button text and visibility;
  - the payment dialog's texts;
  - the iOS payment-status state machine.
- **PHQ-9 screener** (`Phq9`, `AssessmentResult`, `AssessmentHistory`):
  - the answer array and question index;
  - the score and its severity bands;
  - the history list's paging;
  - the proof that the history colour agrees with the result colour for
    every score.
- **Lists and time arithmetic** (`ConversationList`, `GrowthReport`,
  `Emotions`, `Memories`):
  - the next-page rules;
  - second and millisecond timestamps;
  - relative-time buckets, with the current time given;
  - duration texts;
  - the emotion chart's window and axis labels;
  - grouping memories by type.
- **Selection and form state** (`Onboarding`, `TopicStep`, `Profile`,
  `Events`, `AgentTab`, `Login`):
  - the at-most-two topic picker;
  - the add/remove toggles;
  - event and agent form validation, reset and prefill;
  - phone and code login gating, and the resend countdown.
- **Infrastructure** (`ProtectedRoute`, `QueryData`, `Tracker`,
  `TailwindVars`):
  - the route guard;
  - response unwrapping and page flattening;
  - the analytics queue with its track and flush steps;
  - the theme-variable conversion, with its legacy colours and `withAlpha`.
- **Small UI state machines** (`ExpandableText`, `VideoPlayer`).

`Wrappers`, `Strings` and `Json` hold shared definitions:
- an option type for `null`/`undefined`;
- JavaScript and Python string operations (`startsWith`, `trim`,
  `replace` of the first occurrence, `lastIndexOf`);
- JSON values with JavaScript truthiness and `String(...)`.

Code that works by changing state is written as classes. Their fields are
the component's state variables, and their methods are its handlers, each
with a `modifies` clause and a full description of the new state. Pure
expressions are functions with lemmas about them. A handler that awaits a
call is split at the await. The call's outcome (resolved or thrown)
becomes a parameter of the second half.

A translated text `t(key)` is modelled as its key. Clock readings, random
identifiers and device metadata are parameters.

In two places the code does something other than what its design
suggests. First, the tracker never asks for a flush when an event is
tracked, so events can stall; "## Findings" records it. Second, toggling
a profile interest twice does not always restore the list. When the
interest was present and not last, the first toggle removes it and the
second appends it at the end. `Profile.ToggleTwiceRestores` and
`Profile.ToggleTwiceMovesToEnd` state the two cases.

## Model

| member | source | states |
|---|---|---|
| Screenshots.Mask | scripts/process_screenshots.py:25 | the mask is 255 exactly when the alpha is above 50 and 0 exactly when it is at most 50, so an alpha of 50 is not content |
| Screenshots.BBoxUnique | scripts/process_screenshots.py:25 | the bounding box is the smallest box holding the content: two boxes that both hold every content pixel and touch content on all four edges are equal |
| Screenshots.ComputeBBox | scripts/process_screenshots.py:24-25 | `getbbox()` of the thresholded alpha is absent exactly when no alpha exceeds 50; otherwise it lies inside the image (right and bottom exclusive), holds every content pixel and has content on each of its four edges |
| Screenshots.Basename | scripts/process_screenshots.py:43 | the base name is the suffix of the path after its last '/', and holds no '/' |
| Screenshots.LastDot | scripts/process_screenshots.py:44 | the position of the last '.' of a name, absent exactly when the name has no '.' |
| Screenshots.Stem | scripts/process_screenshots.py:44 | the name without its extension is a prefix of the name |
| Screenshots.LastDotBeforeExtension | scripts/process_screenshots.py:44 | in `name + "." + ext` with a dot-free `ext`, the last dot is the one before `ext` |
| Screenshots.StemDropsExtension | scripts/process_screenshots.py:44 | splitting `name + "." + ext` gives back exactly `name` when `name` has some character other than '.' |
| Screenshots.StemOfDotsOnly | scripts/process_screenshots.py:44 | a name made only of dots has no extension to remove |
| Screenshots.BasenameOfJoin | scripts/process_screenshots.py:43 | the base name of `dir + "/" + file` is `file` when `file` has no '/' |
| Screenshots.OutputPath | scripts/process_screenshots.py:13-45 | every output path lies in the output directory and starts with `iPad_Clean_` |
| Screenshots.OutputPathOfInput | scripts/process_screenshots.py:43-45 | an input `<dir>/<name>.<ext>` at index `i` is saved as `iPad_Clean_<i+1>_<name>.png` in the output directory |
| Screenshots.ProcessImage | scripts/process_screenshots.py:15-52 | a file gives its output path exactly when it opens and saves, and writes nothing otherwise; the saved image is 2048×2732 and comes from the bounding box when there is content, else from the whole image |
| Screenshots.OutputPaths | scripts/process_screenshots.py:59-60 | input `i` is named with index `i`, one path per input |
| Screenshots.Kept | scripts/process_screenshots.py:58-62 | the successful paths among the first `n` inputs number at most `n` |
| Screenshots.KeptAll | scripts/process_screenshots.py:58-62 | when every file succeeds, every path is reported, in input order |
| Screenshots.KeptMembers | scripts/process_screenshots.py:58-62 | a path is reported exactly when some input that succeeded produced it |
| Screenshots.Succeeded | scripts/process_screenshots.py:16-52 | an input succeeds exactly when it opens and its save succeeds |
| Screenshots.ProcessAndCollect | scripts/process_screenshots.py:60-62 | one pass of the loop appends the input's path exactly when it succeeded and keeps what was collected |
| Screenshots.Run | scripts/process_screenshots.py:54-62 | the directory is created exactly when missing, every input is processed, and the result is the successful paths in input order |
| Subscription.CalculatePlanChangeType | src/app/pricing/types/SubscriptionTypes.ts:86-96 | upgrade exactly when the target amount is higher, downgrade exactly when lower, switch exactly when equal |
| Subscription.ChangeTypeSwap | src/app/pricing/types/SubscriptionTypes.ts:86-96 | swapping the two amounts swaps upgrade and downgrade and keeps switch |
| Subscription.GetPlanChangeInfo | src/app/pricing/types/SubscriptionTypes.ts:101-116 | both plans are returned unchanged; the price and credit differences are target minus current; the sign of the price difference matches the change type; the change applies at once exactly for an upgrade |
| Subscription.CreditDifferenceIndependent | src/app/pricing/types/SubscriptionTypes.ts:113 | the credit difference depends only on the credits, not on the prices |
| ProductList.FindPlan | src/app/pricing/components/ProductList.tsx:126 | `find` gives nothing exactly when no plan has the id, and otherwise the first plan with that id |
| ProductList.TitleFor | src/app/pricing/components/ProductList.tsx:115 | a plan's title is the translation key `payment.` followed by its id |
| ProductList.ActivePlan | src/app/pricing/components/ProductList.tsx:124-127 | there is an active plan only for a member with a non-empty plan id; it is the table plan with that id, and one exists whenever the table holds that id |
| ProductList.ChangeInfo | src/app/pricing/components/ProductList.tsx:168-173 | no change information without an active plan or a selection, or when the selection is the active plan; otherwise the full change description of active to selected |
| ProductList.PlansAscending | src/app/pricing/components/ProductList.tsx:26-49 | in the shipped table every later plan costs strictly more (38 < 98 < 399) |
| ProductList.LaterPlanIsUpgrade | src/app/pricing/components/ProductList.tsx:26-49 | moving from a plan to any later plan in the table is an upgrade that applies immediately |
| ProductList.SubmitDecision | src/app/pricing/components/ProductList.tsx:184-202 | nothing happens exactly when neither an item nor a selection exists; a bought plan is the item, else the selection; a non-member never buys an add-on; the dialog opens only for a member with pending change information |
| ProductList.AddonNeedsMembership | src/app/pricing/components/ProductList.tsx:189-192 | a non-member buying an add-on package gets the alert and no purchase |
| ProductList.ChangeNeedsConfirmation | src/app/pricing/components/ProductList.tsx:195-198 | a member who selected a different recurring plan is asked to confirm instead of buying at once |
| ProductList.SubmitButtonText | src/app/pricing/components/ProductList.tsx:434-462 | each branch in order: "paying" exactly while loading; "select plan" exactly with no selection; for a package the top-up label with its title and price; for a plan chosen by a non-member the subscribe label with its title and price; "current plan" with its title exactly for a member's active plan; otherwise the upgrade or switch label with title and price exactly when change information exists, upgrade exactly for an upgrade, and the subscribe label when it does not |
| ProductList.Render | src/app/pricing/components/ProductList.tsx:434-462 | the fixed texts for paying and select-plan; "current plan" followed by the title; each priced label is its key ("topUp", "subscribeTo", "upgrade" for an upgrade, "switch" otherwise), the title, " - ¥" and the amount |
| ProductList.PricedLabelEndsWithPrice | src/app/pricing/components/ProductList.tsx:439-461 | every priced label ends with " - ¥" and the amount |
| ProductList.ChangeLabelOnlyUpgradeDiffers | src/app/pricing/components/ProductList.tsx:454-458 | for a member's different recurring plan the label is a change label, and it says "upgrade" exactly when the new plan costs more (downgrades and switches share "switch") |
| ProductList.ShouldShowSubmitButton | src/app/pricing/components/ProductList.tsx:467-473 | always shown to non-members; shown to a member exactly while a recurring plan other than the active one is selected |
| ProductList.FooterDisabled | src/app/pricing/components/ProductList.tsx:518 | disabled exactly when the parent disables it, nothing is selected, or the active plan is selected; an enabled button always leads to some action |
| ProductList.ShownFooterEnabled | src/app/pricing/components/ProductList.tsx:467-473 | a footer shown to a member is never disabled by its own selection rule |
| ProductList.TopUpDisabled | src/app/pricing/components/ProductList.tsx:597 | the top-up button is enabled exactly when the parent allows it and a package is selected |
| ProductList.Screen.constructor | src/app/pricing/components/ProductList.tsx:106-150 | no selection, no dialog, no sheet, not initialised; the previous loading flag is the current one |
| ProductList.Screen.AutoSelect | src/app/pricing/components/ProductList.tsx:136-147 | the first run selects the active plan, else the popular plan (index 1), and marks the screen initialised; later runs change nothing |
| ProductList.Screen.LoadingChanged | src/app/pricing/components/ProductList.tsx:150-165 | data is refreshed exactly when loading goes from true to false; the previous flag becomes the current one |
| ProductList.Screen.Select | src/app/pricing/components/ProductList.tsx:327 | tapping a card selects that plan |
| ProductList.Screen.OpenTopUp | src/app/pricing/components/ProductList.tsx:372-373 | the first package is selected and the sheet opens |
| ProductList.Screen.CloseTopUp | src/app/pricing/components/ProductList.tsx:545-552 | the sheet closes |
| ProductList.Screen.HandleSubmit | src/app/pricing/components/ProductList.tsx:184-202 | the action is the submit decision for the current selection; the dialog opens exactly when that decision is to confirm |
| ProductList.Screen.ConfirmPlanChange | src/app/pricing/components/ProductList.tsx:207-212 | the dialog closes and the selection, if any, is bought |
| ProductList.Screen.CancelPlanChange | src/app/pricing/components/ProductList.tsx:620 | the dialog closes |
| ProcessingModal.Visible | src/app/pricing/components/ProcessingModal.tsx:31 | the dialog is shown exactly when the status is not idle |
| ProcessingModal.Title | src/app/pricing/components/ProcessingModal.tsx:36-56 | the title is empty exactly when idle; processing and failure have one key each; a success gets its operation's key (subscribe, upgrade, top-up), or the generic success title without an operation |
| ProcessingModal.Description | src/app/pricing/components/ProcessingModal.tsx:61-81 | the description is empty exactly when idle; processing and failure have one key each; a success gets its operation's message, or the generic success message without an operation |
| ProcessingModal.TextsIgnoreOperation | src/app/pricing/components/ProcessingModal.tsx:37-79 | while processing and after a failure, title and description do not depend on the operation |
| ProcessingModal.SuccessTextsPerOperation | src/app/pricing/components/ProcessingModal.tsx:40-76 | after a success, subscribe, upgrade, top-up and no operation each get a title and a description of their own |
| ProcessingModal.ActionButton | src/app/pricing/components/ProcessingModal.tsx:130-138 | a button exists exactly after success or failure, "ok" after success and "retry" after failure |
| IosPurchase.OperationFor | src/app/pricing/IOS.tsx:80-103 | a purchase subscribes exactly for a recurring item, tops up otherwise, and is never recorded as an upgrade |
| IosPurchase.Loading | src/app/pricing/IOS.tsx:171 | the product list is loading exactly while the payment is processing |
| IosPurchase.Disabled | src/app/pricing/IOS.tsx:172 | the product list is enabled exactly when the store is connected and initialised |
| IosPurchase.Screen.constructor | src/app/pricing/IOS.tsx:30-32 | not ready, idle, no operation |
| IosPurchase.Screen.Initialize | src/app/pricing/IOS.tsx:39-71 | once connected the screen becomes ready whether the product fetch succeeds or fails; unconnected, nothing changes |
| IosPurchase.Screen.ConnectionChanged | src/app/pricing/IOS.tsx:39-71 | the connection flag takes its new value; the re-run effect makes the screen ready once connected, and a lost connection leaves it ready |
| IosPurchase.Screen.OnPay | src/app/pricing/IOS.tsx:78-107 | unconnected or not ready, status and operation are untouched; otherwise (missing store metadata included) the operation is recorded and the status becomes processing before the billing call |
| IosPurchase.Screen.BillingSettled | src/app/pricing/IOS.tsx:114-129 | a resolved billing call gives success, a thrown one failure |
| IosPurchase.Screen.HandleCloseModal | src/app/pricing/IOS.tsx:141-151 | closing always returns to idle with no operation, and navigates back exactly when closing a success |
| IosPurchase.Screen.AutoCloseFired | src/app/pricing/IOS.tsx:156-165 | the success timer closes the dialog and navigates back |
| IosPurchase.PurchaseFlow | src/app/pricing/IOS.tsx:78-135 | a purchase from an enabled list always starts, and the dialog then titles the billing outcome for the item's operation: subscribed for a recurring plan, topped up otherwise |
| Phq9.OptionValues | src/app/assessment/phq9.tsx:23-28 | an answer value is one of the options exactly when it lies in 0..3 |
| Phq9.SumBounds | src/app/assessment/phq9.tsx:48 | answers in 0..3 sum to between 0 and three times their number |
| Phq9.Questionnaire.constructor | src/app/assessment/phq9.tsx:33-34 | the first question, and nine answers all unanswered (-1) |
| Phq9.Questionnaire.HandleSelect | src/app/assessment/phq9.tsx:37-54 | the value is stored at the current question and nowhere else; before the last question the index advances by one; on the last one the index stays and the score handed over is the sum of all nine answers, of type "phq9", between 0 and 27 |
| Phq9.Questionnaire.HandleBack | src/app/assessment/phq9.tsx:56-62 | one question back when past the first, otherwise leave the screen; the index stays in 0..8 |
| Phq9.Questionnaire.Total | src/app/assessment/phq9.tsx:48 | the loop computes the sum of the answers |
| Phq9.AnswerAll | src/app/assessment/phq9.tsx:37-54 | answering all nine questions from the start completes with the sum of the answers given, which lies in 0..27 |
| AssessmentResult.ResultFor | src/app/assessment/result.tsx:21-27 | none exactly for scores up to 4, mild for 5-9, moderate for 10-14, moderately severe for 15-19, severe from 20; the colour is the level's colour |
| AssessmentResult.LevelName | src/app/assessment/result.tsx:22-26 | one of the five saved level names |
| AssessmentResult.LevelNamesDistinct | src/app/assessment/result.tsx:22-26 | different levels are saved under different names |
| AssessmentResult.ResultMonotone | src/app/assessment/result.tsx:21-27 | a higher score never gives a milder level |
| AssessmentResult.ParseNumber | src/app/assessment/result.tsx:18 | `Number` of a blank string is 0, and only a leading minus gives a negative number |
| AssessmentResult.ParseNumberNaN | src/app/assessment/result.tsx:18 | `Number` is NaN exactly when the trimmed text is not blank and holds a non-digit other than a leading sign followed by more text |
| AssessmentResult.ScoreOf | src/app/assessment/result.tsx:18 | a missing or non-numeric score parameter is 0, a numeric one is its value |
| AssessmentResult.UnreadableScoreIsMinimal | src/app/assessment/result.tsx:18-22 | a missing or non-numeric score shows the mildest level |
| AssessmentResult.DigitsParse | src/app/assessment/result.tsx:18 | a run of digits reads as its decimal value |
| AssessmentResult.NegativeDigitsParse | src/app/assessment/result.tsx:18 | a minus sign followed by digits reads as the negated value |
| AssessmentResult.ScoreRoundTrip | src/app/assessment/phq9.tsx:48-51 | the score the questionnaire passes as a route parameter is read back unchanged |
| AssessmentResult.SaveRequest | src/app/assessment/result.tsx:29-44 | nothing is saved without a type; otherwise the saved type and score are the screen's and the saved level is the displayed one |
| AssessmentHistory.TotalOf | src/app/assessment/history.tsx:36 | a missing or non-numeric total counts as 0 |
| AssessmentHistory.NextPageParam | src/app/assessment/history.tsx:29-38 | there is a next page exactly when the pages loaded hold fewer than the total of `lastPage.data` items, and it is the page after them |
| AssessmentHistory.NoTotalNoNextPage | src/app/assessment/history.tsx:36 | without a total there is never another page |
| AssessmentHistory.PagesCoverTotal | src/app/assessment/history.tsx:35-37 | paging stops only once the loaded pages cover the total |
| AssessmentHistory.GetLevelColor | src/app/assessment/history.tsx:51-57 | the history colour of every score is the colour the result screen gives that score |
| AssessmentHistory.ColorIgnoresLevel | src/app/assessment/history.tsx:51-57 | the stored level never changes the colour |
| AssessmentHistory.ShouldFetchNextPage | src/app/assessment/history.tsx:136-140 | another page is fetched exactly when one exists and none is being fetched |
| ConversationList.BusinessData | src/app/conversation/list.tsx:40-43 | a `data` key inside `lastPage.data` is unwrapped once; otherwise `lastPage.data` itself is read |
| ConversationList.NextPageParam | src/app/conversation/list.tsx:39-48 | there is a next page exactly when the pages loaded hold fewer items than the unwrapped total, and it is the page after them |
| ConversationList.TotalOf | src/app/conversation/list.tsx:46 | a missing or non-numeric total counts as 0 |
| ConversationList.WrappedPayloadPagesAlike | src/app/conversation/list.tsx:40-47 | a response wrapped in one more `{code, data}` layer pages exactly like the bare one |
| ConversationList.ToMillis | src/app/conversation/list.tsx:69-70 | timestamps above 10^12 are kept as milliseconds, all others are seconds multiplied by 1000 |
| ConversationList.SecondsAndMillisAgree | src/app/conversation/list.tsx:69-70 | the same instant given in seconds or in milliseconds normalises to the same value for every instant after 10^9 seconds |
| ConversationList.FormatRelativeTime | src/app/conversation/list.tsx:66-90 | a missing or zero timestamp is unknown; an out-of-range one is an invalid date; otherwise under 60 elapsed seconds is "just now", under an hour is minutes ago with a count in 1..59 that brackets the elapsed time, under a day is hours ago with a count in 1..23, and anything older goes to the calendar forms |
| ConversationList.FutureIsJustNow | src/app/conversation/list.tsx:76-78 | a time in the future, however far, reads as "just now" |
| ConversationList.BucketsMonotone | src/app/conversation/list.tsx:76-81 | a later current time never gives a more recent bucket |
| ConversationList.ToSeconds | src/app/conversation/list.tsx:94-95 | millisecond values are floored to seconds, second values kept |
| ConversationList.GetDuration | src/app/conversation/list.tsx:92-105 | no duration when either end is missing or zero, when they are equal, or when the end is not after the start; otherwise minutes and seconds with seconds in 0..59 and minutes×60 + seconds = the duration, used exactly when the duration is at least a minute, else the seconds alone |
| GrowthReport.JsRem | src/app/user/growth-report/index.tsx:48 | JavaScript's `%` by a positive number: Euclidean remainder for a non-negative dividend, a remainder in (-b, 0] for a negative one |
| GrowthReport.DurationParts | src/app/user/growth-report/index.tsx:47-48 | for a non-negative count the minutes lie in 0..59; the hours are positive exactly from 3600 seconds on |
| GrowthReport.FormatDuration | src/app/user/growth-report/index.tsx:46-53 | under an hour the whole minutes and "分钟"; from an hour on the hours, "小时", the minutes of the last hour and "分钟" |
| GrowthReport.DurationPartsCover | src/app/user/growth-report/index.tsx:47-48 | hours×3600 + minutes×60 ≤ seconds < hours×3600 + (minutes+1)×60 |
| GrowthReport.FormatDurationDropsSeconds | src/app/user/growth-report/index.tsx:46-53 | under an hour the text is the whole minutes alone, whatever the leftover seconds |
| GrowthReport.FormatDurationWithHours | src/app/user/growth-report/index.tsx:46-53 | from an hour on, the text gives the hours and then the minutes, dropping the leftover seconds |
| GrowthReport.HoursOf | src/app/user/growth-report/index.tsx:47-48 | whole hours plus a rest under an hour divide back into those hours and that rest |
| GrowthReport.MinutesOf | src/app/user/growth-report/index.tsx:48 | whole minutes plus fewer than sixty seconds divide back into those minutes |
| GrowthReport.TotalDurationText | src/app/user/growth-report/index.tsx:136 | a missing or zero total shows "0分钟" without formatting; any other total is formatted |
| GrowthReport.ZeroTotalAgrees | src/app/user/growth-report/index.tsx:136 | the zero shortcut shows what formatting zero would show |
| GrowthReport.GetEmotionConfig | src/app/user/growth-report/index.tsx:13-21 | a known emotion gets its own entry, an unknown one the neutral entry |
| GrowthReport.SameStylesAsEmotionPage | src/app/user/growth-report/index.tsx:13-21 | the report and the emotion page style every emotion the same way |
| GrowthReport.ShownMemories | src/app/user/growth-report/index.tsx:238-247 | exactly the first min(5, n) memories, each with its content and exactly the first min(3, t) of its tags |
| GrowthReport.ShownEvents | src/app/user/growth-report/index.tsx:262 | exactly the first min(3, n) events, in order |
| GrowthReport.ShowEmptyState | src/app/user/growth-report/index.tsx:274 | shown when not loading and either there is no report or it has zero conversations and an empty memory list; never while loading, never with a non-zero count, an absent list or a non-empty list |
| Emotions.LookupStyle | src/app/user/emotions/index.tsx:47 | the lookup fails exactly when no entry has the key, and otherwise returns the style of an entry with that key |
| Emotions.GetEmotionConfig | src/app/user/emotions/index.tsx:18-48 | a listed emotion gets its own style, an unlisted one the neutral style |
| Emotions.ChartTimeline | src/app/user/emotions/index.tsx:57-59 | no chart exactly when the timeline is absent or empty; otherwise the last min(14, n) points, in their original order |
| Emotions.LabelIndices | src/app/user/emotions/index.tsx:94 | the labelled indices are exactly those with i mod 3 = 0 or i = last, each once and in increasing order |
| Emotions.EndsLabelled | src/app/user/emotions/index.tsx:94 | the first and the last point of a non-empty chart are always labelled |
| Emotions.AxisLabels | src/app/user/emotions/index.tsx:94-104 | the axis shows, in order, each labelled point's date with its first five characters dropped |
| Emotions.MonthDay | src/app/user/emotions/index.tsx:104 | `date.slice(5)`: the date is its first five characters followed by the result; a shorter date gives "" |
| Emotions.MonthDayOfIsoDate | src/app/user/emotions/index.tsx:104 | a `YYYY-MM-DD` date is labelled `MM-DD` |
| Emotions.RangeText | src/app/user/emotions/index.tsx:155 | the server's range text when present, else "最近{days}天" for the selected days |
| Emotions.ShownTriggers | src/app/user/emotions/index.tsx:264 | exactly the first min(3, n) triggers, in order |
| Memories.TypeKey | src/app/user/memories/index.tsx:64 | the group key is never empty: the memory's type, or "fact" when it has none |
| Memories.TypeOrderKeys | src/app/user/memories/index.tsx:63-68 | the groups are exactly the keys some memory has, each listed once |
| Memories.TypeOrder | src/app/user/memories/index.tsx:63-68 | no more keys than memories; the first memory's key comes first |
| Memories.TypeOrderFirstOccurrence | src/app/user/memories/index.tsx:63-68 | every key has a memory, and the keys are listed in the order of their first memory |
| Memories.Group | src/app/user/memories/index.tsx:63-68 | no more memories than the list; only memories of its key; the first memory leads its group |
| Memories.GroupMembers | src/app/user/memories/index.tsx:65-66 | a group holds only memories of its key, each taken from the list |
| Memories.GroupOfAbsentKey | src/app/user/memories/index.tsx:65 | a key no memory has has no group contents |
| Memories.GroupByType | src/app/user/memories/index.tsx:63-68 | the reduce yields one group per key in first-occurrence order (by TypeOrderFirstOccurrence), and each group is that key's memories in their original order (by GroupIsKeySubsequence) |
| Memories.GroupSizesSum | src/app/user/memories/index.tsx:63-96 | the group sizes add up to the number of memories |
| Memories.KeyIndices | src/app/user/memories/index.tsx:64-66 | the positions whose memory has the key, all of them and only them, in ascending order |
| Memories.GroupIsKeySubsequence | src/app/user/memories/index.tsx:63-68 | a group is exactly its key's memories in their original order: its j-th entry is the memory at the key's j-th position |
| Memories.EveryMemoryInOneGroup | src/app/user/memories/index.tsx:63-68 | every memory lands in exactly one group, that of its own key, which is a listed group key |
| Memories.GetTypeConfig | src/app/user/memories/index.tsx:16-60 | a listed type gets its own style, any other type the fact style |
| Memories.StatsGroups | src/app/user/memories/index.tsx:99 | the stats row shows exactly the first min(3, n) groups, in order |
| Memories.DotCount | src/app/user/memories/index.tsx:154 | at most five dots; a missing or zero importance gives five; an importance in 1..5 gives that many, one above 5 gives five, a negative one none |
| Memories.AllDotsFull | src/app/user/memories/index.tsx:154-158 | every dot drawn is a full-colour one |
| Onboarding.TopicSelect | src/app/onboarding/index.tsx:59-70 | a tap puts the topic in the selection exactly when it was not there; a chosen topic is removed with the rest kept in order; a new topic is appended last, after dropping the oldest choice when two were already chosen |
| Onboarding.TopicSelectKeepsWellFormed | src/app/onboarding/index.tsx:59-70 | the selection never exceeds two topics and never holds one twice |
| Onboarding.FullSelectionEvictsOldest | src/app/onboarding/index.tsx:65-67 | a new topic on a full selection evicts exactly the oldest choice |
| Onboarding.TapTwiceRestores | src/app/onboarding/index.tsx:62-68 | tapping a topic twice restores the selection when there was room for it, or when it was the newest choice |
| Onboarding.FindLabel | src/app/onboarding/index.tsx:207 | `find` fails exactly when no topic has the id, and otherwise gives the label of a topic with that id |
| Onboarding.TopicLabel | src/app/onboarding/index.tsx:25-34 | the label of one of the eight topics, absent exactly for ids that are not topics |
| Onboarding.LabelsIn | src/app/onboarding/index.tsx:206-208 | at most one label per chosen id; one for every id when all are topics; every known id's label appears |
| Onboarding.SelectedLabels | src/app/onboarding/index.tsx:206-208 | the matching screen lists the labels of the chosen topics, dropping ids that are not topics |
| Onboarding.LabelsFromChoices | src/app/onboarding/index.tsx:206-208 | every listed label is the label of some chosen id: nothing extra appears |
| Onboarding.LabelsOfOne | src/app/onboarding/index.tsx:206-208 | one chosen id gives its topic's label, or nothing when it is not a topic |
| Onboarding.LabelsAppend | src/app/onboarding/index.tsx:206-208 | labels of two runs of ids are the labels of the first followed by those of the second, so the order of choice is kept |
| Onboarding.Screen.constructor | src/app/onboarding/index.tsx:38-39 | the welcome step with nothing chosen |
| Onboarding.Screen.HandleNext | src/app/onboarding/index.tsx:42-57 | from the welcome step, or from the topic step once a topic is chosen, the step advances by exactly one and stays in 0..2 |
| Onboarding.NextDisabled | src/app/onboarding/index.tsx:183 | disabled exactly while no topic is chosen |
| Onboarding.Screen.HandleTopicSelect | src/app/onboarding/index.tsx:59-70 | the selection becomes the updater's result and stays well formed |
| Onboarding.Screen.HandleComplete | src/app/onboarding/index.tsx:72-80 | completion stores "true" and the chosen topics (at most two) and goes to the home route |
| TopicStep.Toggle | src/app/onboarding/components/TopicStep.tsx:46-53 | a press on a card drawn as chosen filters the topic out, keeping the others in order (Remove, with RemoveConcat); one drawn as unchosen appends it after the unchanged selection; no other topic changes membership |
| Strings.RemoveConcat | src/app/onboarding/components/TopicStep.tsx:53 | filtering an id out distributes over concatenation, so the kept ids stay in their original order |
| TopicStep.ContinueDisabled | src/app/onboarding/components/TopicStep.tsx:74 | disabled exactly while no topic is chosen |
| TopicStep.FreshToggleFlips | src/app/onboarding/components/TopicStep.tsx:46-53 | with a card drawn from the current selection, a press flips the topic's membership |
| TopicStep.FreshToggleTwice | src/app/onboarding/components/TopicStep.tsx:53 | two presses on an unchosen topic, each drawn fresh, give the selection back |
| TopicStep.StalePressesDuplicate | src/app/onboarding/components/TopicStep.tsx:46-53 | two presses before a redraw both append, so the topic is listed twice |
| TopicStep.NoCap | src/app/onboarding/components/TopicStep.tsx:53 | there is no cap: an unchosen topic can always be added |
| TopicStep.TopicIcon | src/app/onboarding/components/TopicStep.tsx:59 | a missing or empty icon becomes "head-question", any other is kept |
| TopicStep.IconColor | src/app/onboarding/components/TopicStep.tsx:59 | unchosen cards are dim white; chosen ones use the topic colour, or "#a78bfa" when it has none |
| Profile.TextOr | src/app/user/profile/index.tsx:71-73 | a present, non-empty text is kept; a missing or empty one becomes the default |
| Profile.EditStartForm | src/app/user/profile/index.tsx:68-78 | without a profile every field is empty; otherwise each non-empty text field and each list is copied, a missing or empty text field becomes "" and a missing list [] |
| Profile.ToggleInterest | src/app/user/profile/index.tsx:186-192 | only `interests` changes; the interest is in it afterwards exactly when it was not before, no other interest changes membership, a new one is appended last, and a duplicate-free list stays duplicate-free |
| Profile.ToggleTwiceRestores | src/app/user/profile/index.tsx:186-192 | on a duplicate-free list, two taps give the form back when the interest was absent or the most recent choice |
| Profile.ToggleTwiceMovesToEnd | src/app/user/profile/index.tsx:186-192 | an interest chosen before the most recent one moves to the end after two taps, so the form is not the same |
| Profile.LookupLabel | src/app/user/profile/index.tsx:197 | the lookup fails exactly when no entry has the id, and otherwise gives the label of an entry with that id |
| Profile.InterestLabel | src/app/user/profile/index.tsx:175-216 | a listed interest shows its label, an unknown one shows its id |
| Profile.AvatarInitial | src/app/user/profile/index.tsx:124 | the first character of the nickname, or of "用户" when there is no nickname |
| Profile.PreviewMemories | src/app/user/profile/index.tsx:287 | exactly the first min(5, n) memories, in order |
| Profile.MemoryIcon | src/app/user/profile/index.tsx:297-302 | preference, experience and relationship get their own icons; every other type the lightbulb |
| Profile.Editor.constructor | src/app/user/profile/index.tsx:44-45 | not editing, with an empty form |
| Profile.Editor.EditStart | src/app/user/profile/index.tsx:68-78 | editing starts with the form built from the profile |
| Profile.Editor.SetNickname | src/app/user/profile/index.tsx:131 | only the nickname changes |
| Profile.Editor.SetBio | src/app/user/profile/index.tsx:150 | only the bio changes |
| Profile.Editor.PressInterest | src/app/user/profile/index.tsx:185-193 | the form becomes the toggled form |
| Profile.Editor.Save | src/app/user/profile/index.tsx:80-89 | the form is sent; editing ends exactly on success, and a failure raises an alert and keeps editing |
| Events.GetEventType | src/app/user/events/index.tsx:18-24 | always one of the five types: the type with that value when there is one, otherwise "custom" (the fifth) |
| Events.FormOf | src/app/user/events/index.tsx:75-83 | opening an event copies its title, type, date and recurrence; a missing note or person becomes ""; a missing or zero reminder becomes one day |
| Events.Page.constructor | src/app/user/events/index.tsx:29-39 | modal closed, no event being edited, default form |
| Events.Page.ResetForm | src/app/user/events/index.tsx:55-66 | the default form and no event being edited |
| Events.Page.OpenAdd | src/app/user/events/index.tsx:68-72 | the form is reset before the modal shows |
| Events.Page.OpenEdit | src/app/user/events/index.tsx:74-87 | the form is filled from the event, which becomes the one being edited, and the modal shows |
| Events.Page.SelectType | src/app/user/events/index.tsx:281 | a type chip sets only the type |
| Events.Page.ToggleRecurring | src/app/user/events/index.tsx:323 | the checkbox flips only the recurrence flag |
| Events.Page.SetTitle | src/app/user/events/index.tsx:305 | only the title changes |
| Events.Page.SetDate | src/app/user/events/index.tsx:315 | only the date changes |
| Events.Page.CloseModal | src/app/user/events/index.tsx:270 | the modal closes and the form is reset |
| Events.Page.Save | src/app/user/events/index.tsx:89-109 | a form without title or date raises an alert and sends nothing; otherwise it updates the edited event or creates a new one; success closes the modal and resets the form; failure raises an alert; nothing changes unless the call succeeds |
| Events.Complete | src/app/user/events/index.tsx:90 | a form is sent only when both its title and date are non-empty |
| Events.EditThenSave | src/app/user/events/index.tsx:74-109 | saving an opened event unchanged sends its own fields back under its id and leaves the modal closed and reset |
| AgentTab.OrEmpty | src/app/agent/components/Settings/AgentTab.tsx:70-74 | a present value is kept, a missing one becomes "" |
| AgentTab.CreateAvatar | src/app/agent/components/Settings/AgentTab.tsx:168 | a chosen avatar is kept; with none, the generated robot picture whose seed is the agent's name |
| AgentTab.SaveNeedsMoreThanButton | src/app/agent/components/Settings/AgentTab.tsx:151 | a save goes through exactly when the button is enabled and a voice is chosen, so an enabled button with no voice does nothing |
| AgentTab.CanSave | src/app/agent/components/Settings/AgentTab.tsx:151 | exactly a non-blank name, a persona and a voice; then the save button is enabled when not submitting |
| AgentTab.SaveButtonDisabled | src/app/agent/components/Settings/AgentTab.tsx:342 | always while submitting; enabled exactly with a non-blank name and a persona when not submitting |
| AgentTab.Form.constructor | src/app/agent/components/Settings/AgentTab.tsx:35-48 | every field at its initial value, not managing, not submitting |
| AgentTab.Form.ResetForm | src/app/agent/components/Settings/AgentTab.tsx:54-65 | every form field back to its default, out of create and edit mode; nothing else changes |
| AgentTab.Form.EditStart | src/app/agent/components/Settings/AgentTab.tsx:67-79 | the form takes the agent's values, missing text as "", missing visibility as public and a missing or empty status as active, and opens in edit mode |
| AgentTab.Form.SelectPersona | src/app/agent/components/Settings/AgentTab.tsx:284-290 | choosing a persona overwrites the persona, name, description, voice and avatar |
| AgentTab.Form.PrefillEffect | src/app/agent/components/Settings/AgentTab.tsx:139-148 | the first persona is applied only when creating, not editing, with no persona chosen; otherwise nothing changes |
| AgentTab.Form.StartCreate | src/app/agent/components/Settings/AgentTab.tsx:385 | create mode opens |
| AgentTab.Form.ToggleManaging | src/app/agent/components/Settings/AgentTab.tsx:370 | managing mode flips |
| AgentTab.Form.ChooseAgent | src/app/agent/components/Settings/AgentTab.tsx:235-239 | outside managing mode (the entries are disabled while managing), the chosen agent becomes active and is remembered as the last agent |
| AgentTab.Form.SaveBegin | src/app/agent/components/Settings/AgentTab.tsx:150-175 | nothing happens without a non-blank name, a persona and a voice; otherwise an update carrying the status in edit mode, or a create without status whose missing avatar and description get their defaults |
| AgentTab.Form.SaveSettle | src/app/agent/components/Settings/AgentTab.tsx:176-184 | success resets the form; failure keeps every form field; either way submitting ends and the managing view stays |
| AgentTab.Form.DeleteAgent | src/app/agent/components/Settings/AgentTab.tsx:187-229 | the given agent, or else the one being edited, is deleted once confirmed; deleting the active agent clears it and the stored last agent; deleting the edited agent resets the form; nothing else changes |
| Login.ButtonDisabled | src/app/login.tsx:140-149 | true exactly when the terms are agreed, the code has six characters and the phone has eleven |
| Login.IsPhoneValid | src/app/login.tsx:140-143 | valid exactly with eleven characters, and then the schema's phone rule passes |
| Login.LoginButtonDisabled | src/app/login.tsx:265 | enabled exactly when the terms are agreed, the code has six characters and the phone eleven; an enabled button implies the schema passes |
| Login.SendCodeDisabled | src/app/login.tsx:226 | enabled exactly when the phone has eleven characters and no countdown runs |
| Login.EnabledLoginPassesSchema | src/app/login.tsx:46-49 | whenever the login button is enabled the form schema accepts both fields and the phone is valid |
| Login.AfterLogin | src/app/login.tsx:119-123 | back exactly when the router can go back, otherwise dismiss to the home screen |
| Login.OnClose | src/app/login.tsx:126-132 | back exactly when the router can go back, otherwise replace with the home screen |
| Login.Screen.constructor | src/app/login.tsx:38-71 | empty phone and code, terms not agreed, countdown zero, no errors |
| Login.Screen.ChangePhone | src/app/login.tsx:196 | the phone field holds the trimmed input |
| Login.Screen.ChangeCode | src/app/login.tsx:215 | the code field holds the trimmed input |
| Login.Screen.ToggleAgreed | src/app/login.tsx:245 | agreement flips |
| Login.Screen.SendCodeSucceeded | src/app/login.tsx:88-90 | a successful send sets the countdown to sixty |
| Login.Screen.Tick | src/app/login.tsx:73-78 | a tick only happens while the countdown is positive and lowers it by one, keeping it within zero to sixty |
| Login.Screen.Submit | src/app/login.tsx:153-162 | schema failures are reported field by field; otherwise the errors are cleared and an invalid phone is refused with a phone error alone; a login is requested, with no error left, exactly when the code has six characters and the phone eleven, with those values |
| Login.RunCountdown | src/app/login.tsx:73-78 | after a successful send the countdown reaches zero, re-enabling the send button, after exactly sixty ticks |
| ProtectedRoute.Prefixes | src/shared/hooks/useProtectedRoute.ts:7 | a given list is used as it is; without the option no prefix is protected |
| ProtectedRoute.IsProtectedRoute | src/shared/hooks/useProtectedRoute.ts:11-13 | true exactly when some configured prefix starts the route |
| ProtectedRoute.ProtectionExtremes | src/shared/hooks/useProtectedRoute.ts:7-13 | with no prefixes nothing is protected; an empty prefix protects every route |
| ProtectedRoute.PathnameOf | src/shared/hooks/useProtectedRoute.ts:16-22 | a string target is its own pathname, an object gives its pathname field, anything else gives "" |
| ProtectedRoute.DeniedOnlySignedOutProtected | src/shared/hooks/useProtectedRoute.ts:24-31 | a signed-in user, an empty prefix list or a target without a pathname is never refused |
| ProtectedRoute.Router.constructor | src/shared/hooks/useProtectedRoute.ts:5-9 | the prefixes in force, the signed-in state and no router calls yet |
| ProtectedRoute.Router.CheckAuth | src/shared/hooks/useProtectedRoute.ts:15-32 | allowed exactly unless the pathname is non-empty, protected and there is no user; a refusal pushes the login screen, an allowance makes no call |
| ProtectedRoute.Router.GuardedPush | src/shared/hooks/useProtectedRoute.ts:34-38 | a refused target leads to the login screen only; an allowed one is pushed |
| ProtectedRoute.Router.GuardedReplace | src/shared/hooks/useProtectedRoute.ts:40-44 | a refused target leads to the login screen only; an allowed one replaces the current screen |
| ProtectedRoute.Router.GuardedNavigate | src/shared/hooks/useProtectedRoute.ts:46-50 | a refused target leads to the login screen only; an allowed one is navigated to |
| ProtectedRoute.Router.RouteTo | src/shared/hooks/useProtectedRoute.ts:52-54 | a route string is guarded and navigated to like any target |
| QueryData.Unwrap | src/shared/hooks/useQueryData.ts:13-21 | the response body, or its `data` member when the body has one |
| QueryData.UnwrapAgreesWithConversationList | src/shared/hooks/useQueryData.ts:13-52 | the single-query unwrap and the page unwrap are the same function |
| QueryData.UnwrapIsSingleLevel | src/shared/hooks/useQueryData.ts:18-20 | only one envelope is removed: a twice-wrapped body keeps its inner envelope |
| QueryData.PageItems | src/shared/hooks/useQueryData.ts:45-59 | a page contributes its `list` array, nothing for a falsy list, and a truthy non-array list as one item; without a `list` key an array body contributes itself and any other body nothing |
| QueryData.FlattenPages | src/shared/hooks/useQueryData.ts:45 | no pages give no items; one page gives exactly its own items |
| QueryData.InfiniteList | src/shared/hooks/useQueryData.ts:42-43 | no data gives the empty list; present pages give their items flattened page by page |
| QueryData.FlattenAppend | src/shared/hooks/useQueryData.ts:45-59 | loading more pages only appends: the items of earlier pages come first and are unchanged |
| Tracker.Find | src/shared/utils/tracker.ts:63-69 | absent exactly when no field has the key; a found value is stored under that key |
| Tracker.Stringify | src/shared/utils/tracker.ts:65-68 | every payload value is passed through `String(...)`, keys and order kept |
| Tracker.Without | src/shared/utils/tracker.ts:63-69 | the key is gone and every other key looks up as before |
| Tracker.EventPayload | src/shared/utils/tracker.ts:63-69 | `event` comes first and holds the event name unless the payload has its own `event`, which wins; every other key holds the payload's stringified value |
| Tracker.PayloadValueStringified | src/shared/utils/tracker.ts:63-69 | every payload value is found in the sent payload under its own key, stringified |
| Tracker.FindDistinct | src/shared/utils/tracker.ts:65-68 | with distinct keys each field's value is the one found under its key |
| Tracker.Tracker.constructor | src/shared/utils/tracker.ts:11-23 | empty queue and metadata, not sending, not started, no timer |
| Tracker.Tracker.ScheduleFlush | src/shared/utils/tracker.ts:80-86 | a timer is set exactly when none is pending and no send is in progress |
| Tracker.Tracker.Start | src/shared/utils/tracker.ts:35-40 | only the first call starts the tracker and asks for a flush; later calls change nothing |
| Tracker.Tracker.Track | src/shared/utils/tracker.ts:57-74 | exactly one event with that payload, id and timestamp is appended; the queue is otherwise unchanged |
| Tracker.Tracker.TrackPageView | src/shared/utils/tracker.ts:76-78 | a `page_view` event whose payload holds the page name |
| Tracker.Tracker.TimerFired | src/shared/utils/tracker.ts:82-83 | the timer clears itself before flushing |
| Tracker.Tracker.FlushStart | src/shared/utils/tracker.ts:88-91 | a flush proceeds exactly when started, not already sending and the queue is non-empty, and then marks sending |
| Tracker.Tracker.FlushSnapshot | src/shared/utils/tracker.ts:94-112 | metadata is read once; the whole queue, in order, becomes one batch carrying the app's fixed fields, each event with its own clock reading as send time; the queue is emptied |
| Tracker.Tracker.FlushFinish | src/shared/utils/tracker.ts:116-120 | sending ends; another flush is asked for exactly when events arrived meanwhile and no timer is pending, so queued events always have a timer |
| Tracker.Tracker.TrackAndSchedule | src/shared/utils/tracker.ts:57-86 | corrected `track`: the event is appended and a started tracker with events queued always has a timer or a send on the way |
| Tracker.EmptyFlushThenTrack | src/shared/utils/tracker.ts:57-91 | as written: after a timer fires on an empty queue, a tracked event is left with no timer and no send |
| Tracker.StalledStaysStalled | src/shared/utils/tracker.ts:35-78 | starting again, tracking and page views leave a stalled tracker stalled, with the new events queued |
| Tracker.FlushAll | src/shared/utils/tracker.ts:88-122 | with nothing tracked meanwhile every queued event is sent once, in order, the queue ends empty and no new timer is set |
| TailwindVars.NewKey | src/hooks/useTailwindVars.ts:24 | a name starting with "--" loses exactly those two characters; a name without "--" is kept |
| TailwindVars.SplitWs | src/hooks/useTailwindVars.ts:27 | at least one part, and no part holds white space; SplitSpaceless and SplitWordGap fix where the splits fall |
| TailwindVars.SplitSpaceless | src/hooks/useTailwindVars.ts:27 | a string without white space is a single part |
| TailwindVars.SplitWordGap | src/hooks/useTailwindVars.ts:27 | a word, a run of white space and the rest split into the word followed by the parts of the rest |
| TailwindVars.SplitTriple | src/hooks/useTailwindVars.ts:27 | three words with single spaces between them split into exactly those three words |
| TailwindVars.SplitKeepsCharacters | src/hooks/useTailwindVars.ts:27 | the parts put back together are exactly the value's non-space characters, in order |
| TailwindVars.ColorValue | src/hooks/useTailwindVars.ts:26-30 | a spaced value without "px" becomes "rgb(" + its components joined by commas + ")"; any other value is kept; ColorOfTriple fixes the components |
| TailwindVars.ColorOfTriple | src/hooks/useTailwindVars.ts:26-27 | an "R G B" value of digit runs becomes "rgb(R,G,B)" |
| TailwindVars.BackgroundColor | src/hooks/useTailwindVars.ts:26-27 | the dark theme's `--background`, "5 5 15", becomes "rgb(5,5,15)" |
| TailwindVars.ParseInt | src/hooks/useTailwindVars.ts:33-35 | a non-empty run of digits parses to its decimal value; with ParseIntReads and ParseIntNaN every input is covered |
| TailwindVars.ParseIntReads | src/hooks/useTailwindVars.ts:33-35 | leading white space is skipped, an optional sign is applied and the digits after it are read, whatever text follows them |
| TailwindVars.ParseIntNaN | src/hooks/useTailwindVars.ts:33-35 | NaN exactly when no digit follows the white space and the optional sign |
| TailwindVars.ParseIntSkipsSpace | src/hooks/useTailwindVars.ts:33-35 | white space before the text does not change the result |
| TailwindVars.ParseIntSigned | src/hooks/useTailwindVars.ts:33-35 | a sign, digits and any trailing text give the signed value of the digits |
| TailwindVars.FontSizeOf | src/hooks/useTailwindVars.ts:32-36 | a size exactly for values holding "px" or a space; a "px" value gives the integer of the value with "px" removed; a spaced value without "px" gives the integer of its text before the first space |
| TailwindVars.SpacedSize | src/hooks/useTailwindVars.ts:34-35 | `<digits> <rest>` without "px" gives the number written before the space |
| TailwindVars.BackgroundSize | src/hooks/useTailwindVars.ts:34-35 | the dark theme's `--background`, "5 5 15", also gets the font size 5 |
| TailwindVars.PixelSize | src/hooks/useTailwindVars.ts:32-33 | "<digits>px" gives the number written before "px" |
| TailwindVars.ColorsOf | src/hooks/useTailwindVars.ts:20-30 | the colour names are exactly the renamed variable names |
| TailwindVars.FontSizeOfEach | src/hooks/useTailwindVars.ts:32-36 | every variable holding "px" or a space gets a font size under its new name |
| TailwindVars.FontSizeOnlyThose | src/hooks/useTailwindVars.ts:32-36 | only such variables get one |
| TailwindVars.ColorOfEachVariable | src/hooks/useTailwindVars.ts:24-30 | with distinct new names each variable's colour is found under its new name |
| TailwindVars.Convert | src/hooks/useTailwindVars.ts:19-40 | the loop builds exactly the colour and font-size tables of the whole theme |
| TailwindVars.LegacyIsGreyTable | src/hooks/useTailwindVars.ts:43-50 | the six greys are distinct, none is a neutral, white or black, and every fallback is non-empty |
| TailwindVars.LegacyKeepsSetColors | src/hooks/useTailwindVars.ts:43-50 | a colour already set is never replaced by the legacy block |
| TailwindVars.LegacyWhiteBlack | src/hooks/useTailwindVars.ts:43-44 | white and black are always defined afterwards; a missing one gets its fixed colour |
| TailwindVars.LegacyGrey | src/hooks/useTailwindVars.ts:45-50 | each grey is its old value, else the neutral of the same rank, else its fixed colour |
| TailwindVars.LegacyAddsOnlyLegacyNames | src/hooks/useTailwindVars.ts:43-50 | no name other than white, black and the six greys is added |
| TailwindVars.UseTailwindVars | src/hooks/useTailwindVars.ts:3-53 | the theme's colours with the legacy names filled in, and its font sizes |
| TailwindVars.WithAlpha | src/hooks/useTailwindVars.ts:10-17 | a missing colour gives transparent-black with the alpha; an rgba or non-rgb colour is kept (an rgb colour: RgbGainsAlpha) |
| TailwindVars.RgbPrefixReplaced | src/hooks/useTailwindVars.ts:14 | "rgb(...)" is renamed to "rgba(...)" with its contents kept |
| TailwindVars.RgbGainsAlpha | src/hooks/useTailwindVars.ts:13-15 | an "rgb(...)" colour gains the alpha as a fourth component |
| ExpandableText.SliceTo | src/components/ui/ExpandableText.tsx:25 | a prefix of the string: the first `end` characters, the whole string for a long end, and for a negative end all but the last -end characters |
| ExpandableText.DisplayText | src/components/ui/ExpandableText.tsx:23-26 | the whole content when expanded or short enough; otherwise the first maxLength characters followed by "..." |
| ExpandableText.ShouldShowToggle | src/components/ui/ExpandableText.tsx:23 | exactly when the content is longer than the limit; never for empty content with a non-negative limit |
| ExpandableText.CollapsedIsPrefixPlusEllipsis | src/components/ui/ExpandableText.tsx:23-26 | a collapsed long text is a strictly shorter prefix of the content followed by "..." |
| ExpandableText.Render | src/components/ui/ExpandableText.tsx:21-61 | nothing exactly for a missing or empty content; otherwise the display text, with a toggle exactly when the content is longer than the limit, labelled collapse when expanded and view-all when not |
| ExpandableText.ShortTextUntouched | src/components/ui/ExpandableText.tsx:14-26 | with the default limit a text of at most 100 characters is shown whole and without a toggle |
| ExpandableText.Expandable.constructor | src/components/ui/ExpandableText.tsx:12-18 | the given props, collapsed |
| ExpandableText.Expandable.HandleToggle | src/components/ui/ExpandableText.tsx:28-41 | the expanded flag flips and the view is the one for the new flag |
| ExpandableText.ToggleTwice | src/components/ui/ExpandableText.tsx:28-41 | two completed toggles give back the same view |
| VideoPlayer.Player.constructor | src/components/VideoPlayer.tsx:24-30 | loading, no error, not playing, not ended, controls shown by default as given |
| VideoPlayer.Player.ButtonIcon | src/components/VideoPlayer.tsx:165-171 | replay exactly when the video ended; pause exactly when it is playing |
| VideoPlayer.Player.Paused | src/components/VideoPlayer.tsx:128 | playing exactly when active and playing locally; an inactive or ended video is paused |
| VideoPlayer.Player.ControlsVisible | src/components/VideoPlayer.tsx:151 | on screen exactly when controls are enabled, nothing is loading and no error is shown |
| VideoPlayer.Player.SetActive | src/components/VideoPlayer.tsx:33-38 | an inactive player stops, forgets that it ended and is paused; an active one keeps its state |
| VideoPlayer.Player.HandlePlayPause | src/components/VideoPlayer.tsx:40-50 | a press, possible only while the button is on screen: after the end the video plays again from the start; otherwise playing and paused swap |
| VideoPlayer.Player.HandleError | src/components/VideoPlayer.tsx:52-57 | the error state is set, loading ends and the controls disappear |
| VideoPlayer.Player.HandleLoad | src/components/VideoPlayer.tsx:59-64 | loading ends with no error and no end; the controls show exactly when enabled |
| VideoPlayer.Player.HandleLoadStart | src/components/VideoPlayer.tsx:66-70 | loading starts, errors and end are cleared, and the controls hide |
| VideoPlayer.Player.HandleEnd | src/components/VideoPlayer.tsx:72-75 | playback stops, the video counts as ended, is paused and shows the replay icon |
| VideoPlayer.PressTwice | src/components/VideoPlayer.tsx:40-50 | two presses on a video that has not ended leave its playing state as it was |
| VideoPlayer.PlayToEndAndReplay | src/components/VideoPlayer.tsx:40-50 | after the end a press seeks to the start once, shows the pause icon and plays unless the player is inactive |

## Findings

| source | as written | input that shows it | evidently intended | confidence | as-written member | corrected member |
|---|---|---|---|---|---|---|
| src/shared/utils/tracker.ts:57-74 | `track` only queues the event; a flush is scheduled only by `start` and by a flush that finishes with events left | start the tracker, let its first timer fire on an empty queue, then track an event: no timer is pending and no send runs, so the event is never sent | a started tracker schedules a flush when an event is tracked | medium, not executed | Tracker.EmptyFlushThenTrack | Tracker.Tracker.TrackAndSchedule |

## Left out

- Image decoding, `convert("RGBA")`, Lanczos resampling and PNG encoding in the screenshot script. The resize is a step whose result has the target size, and pixel values after it are not modelled. Creating the output directory, checking that it exists, and the console output are I/O.
- All HTTP and storage calls: the API modules, request interceptors, AsyncStorage and query invalidation. Each awaited call becomes a succeed/fail parameter. The data it returns is an input.
- Syncing the onboarding name to the profile after a login (`AsyncStorage` read and profile update), and refreshing the user, are network and storage calls. Only the navigation that follows is modelled.
- Timers and animations: the PHQ-9 advance delay, the ExpandableText fade, the tracker's timeouts and the login interval.
  - Each is modelled as the step that runs when it fires: `AutoCloseFired` for the iOS screen's automatic close, `TimerFired` for the tracker, `Tick` for the countdown, `HandleToggle` once the fade-out ends.
  - The delays themselves are not modelled.
- Randomness (`simpleId`) and the clock (`Date.now`) are parameters.
- Floating-point display maths is not modelled: progress percentages, chart bar heights and progress bars.
- Locale and calendar formatting (`toDateString`, `toLocaleTimeString`, `formatDate`, dayjs) depends on the host time zone. Dates are compared as millisecond counts.
- Numbers are integers. `Number(...)` and `parseInt` are modelled for an optional sign followed by digits. Decimals, exponents, hexadecimal and `Infinity` are not modelled.
- AssessmentHistory.TotalOf: reads a total that is not a JSON number as 0. This simplifies the source, where `total || 0` keeps a numeric string such as "25" and the `<` comparison reads it as a number, so such a total still gives a next page there but not in the model. A non-numeric string compares false in both, as 0 does.
- ConversationList.TotalOf: the same simplification for the conversation list's total.
- Object lookups do not model JavaScript prototype keys such as `toString`.
- The memory grouping keeps groups in first-occurrence order. JavaScript's `Object.entries` would list integer-like type names first, which is not modelled.
- ExpandableText.Expandable.HandleToggle: flips the current flag. The source's fade callback negates the `isExpanded` captured at render time, so the model assumes one toggle per render; a second press during the fade is not modelled.
- Onboarding.Screen.HandleNext: its precondition admits one press per step. A second tap during the step's fade animation, which the source does not block, is not modelled.
- String lengths count characters of the modelled string, not UTF-16 code units. White space is the set that `Strings.IsSpace` lists.
- GrowthReport.JsRem: for a negative dividend it states only that the remainder lies in (-b, 0]. Durations are never negative, so the exact value is not needed.
- Profile: the emotion statistics are not modelled. The initial empty edit form `{}` is modelled as all fields empty.
- The delete handlers of the events and memories pages only call the API and refresh, so they are not modelled.
- The AgentTab avatar picker and upload, and the voice filter, are not modelled.
- The login inputs' `maxLength` props limit typing in the native text field and are not modelled.
- TailwindVars: theme values that are not strings are skipped by the source and absent from the model's theme type. `UseTailwindVars` takes the theme as a parameter; the app always passes the dark variables (`TailwindVars.Dark`).
- ProtectedRoute: an object whose `pathname` is not a string is modelled as having no pathname.
- The saved assessment's `details` field (a JSON text of the route parameters) is not modelled.
- VideoPlayer: the parent's `onError` and `onLoad` callbacks and the console logging are not modelled.
- VideoPlayer.Player.HandlePlayPause: seeking to the start is modelled as a counter of seeks. It counts even when the native player reference is not yet attached, which is the only case where the source skips the seek.
- The product table's title is modelled as the translation key `payment.<id>`.
- Live voice sessions, sockets, audio playback and recording, and pure presentation components are not part of this model.
