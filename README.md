# Mission progress rules of the Team-E front end

This project models the mission-progress rules of the Team-E React front end and proves properties of them. The rules are:

- **Daily progress cache.** The mission page in `src/Pages/MissionPage/MissionPage.jsx` keeps three device-store keys: completed task ids, the last check-in day and an achievement tally.
  - A check-in on a new calendar day wipes the completed list.
  - A completion event arriving in the navigation state is merged at most once, then cleared.
- **Mission controller.** The remote-backed mission page in `src/Pages/MissionPage/index.jsx` loads a mission and mirrors its id and lock flag into the store. Its completion effect refetches a known current mission; on a fresh mount it sees no current mission and does nothing, so the mount's own fetch is the only one. Its swap guard refuses while the mission is locked.
- **Early mission page.** `src/Pages/MissionPage.jsx` recommends the first open task and counts completed tasks. It falls back to a built-in mission when the fetch fails.
- **Mission selector.** The selector dialog (`src/components/MissionSelector/`) disables a choice by the lock rule. In swap mode it hands the choice to its parent; otherwise it selects through the backend.
- **Hub page.** `src/Pages/FunPage/index.jsx` goes straight to a locked mission, or else opens the selector.
- **Start page.** The check-in on `src/Pages/InitialPage/index.jsx` forgets the locked mission only when the backend reset succeeds.
- **Location pages.** The two revisions of the location page (`src/Pages/LocationDetailPage/`) complete a task on the backend and send the completion back as a one-shot navigation payload. The payload's shape differs between the revisions.
- **Countdown.** The two countdown timers (`src/components/countdownTimer/`) split a millisecond difference into hours, minutes and seconds and format them as `HH:MM:SS`, or show an expiry label.

Modelling choices:

- The device store is the class `Storage.LocalStorage`, with one optional field per key.
- The router is `Navigation.Router`. Its location carries a single optional `state` slot (`Navigation.NavState`, one optional field per key any view uses), which is replaced on every navigation.
- Every remote call is a parameter giving its outcome: `FetchOutcome`, `CompleteOutcome`, `SwapOutcome`, `SelectOutcome` and `ResetOutcome`.
- The calendar day is the string the page compares, given as a parameter.
- The countdown takes the millisecond difference as its input.
- JavaScript truthiness of an optional string is `Domain.Truthy`: an absent value and `""` are both falsy.
- Components whose code updates state step by step are classes, each method proved against a pure function of the old state. Those classes are `DailyMissionPage`, `MissionPage`, `Selector`, `StartPage` and both `LocationPage`s.
- Pure decisions are functions with lemmas.

The files are separate revisions with different rules. Each is modelled as written, and none is reconciled with another.

Behaviours of the code the model keeps:

- `allTasksComplete` has no guard for an empty task list (`src/Pages/MissionPage/MissionPage.jsx:235`), so an empty mission counts as complete (`Domain.AllTasksCompleteIff`).
- Task t3 has type `sports` but bumps the `shopping` counter (`src/Pages/MissionPage/MissionPage.jsx:169`).
- The daily reset removes only `completedTasks`. The achievement tally is cumulative across days.
- The two selector files hold the same logic line for line and differ only in how class names are written. One module models both, and the table cites both.

## Model

| member | source | states |
|---|---|---|
| Domain.CountCompleted | src/Pages/MissionPage/MissionPage.jsx:211-213 | the number of completed tasks never exceeds the number of tasks |
| Domain.CompletedCount | src/Pages/MissionPage.jsx:92-94 | the completed count is 0 without a mission and at most the task count with one |
| Domain.CountCompletedFull | src/Pages/MissionPage/index.jsx:148-149 | the count equals the task count exactly when every task is completed |
| Domain.CountCompletedZero | src/Pages/MissionPage.jsx:92-94 | the count is 0 exactly when no task is completed |
| Domain.AllTasksCompleteIff | src/Pages/MissionPage/MissionPage.jsx:234-235 | "all complete" holds iff every task is completed, including for an empty task list (there is no `total > 0` guard) |
| DailyProgress.DummyMission | src/Pages/MissionPage/MissionPage.jsx:43-93 | the built-in mission is m1 with tasks t1, t2, t3, each flagged completed iff its id is in the list |
| DailyProgress.DummyProgress | src/Pages/MissionPage/MissionPage.jsx:211-213 | the completed count is the number of t1, t2, t3 present in the list, and the mission is complete iff all three are present |
| DailyProgress.Bump | src/Pages/MissionPage/MissionPage.jsx:152-173 | no counter decreases, and the total grows by one for a known task and by zero otherwise |
| DailyProgress.BumpByTask | src/Pages/MissionPage/MissionPage.jsx:155-169 | t1 adds 1 to entertainment, t2 to food, t3 (type sports) to shopping, and any other id changes nothing |
| DailyProgress.CheckInOutcomes | src/Pages/MissionPage/MissionPage.jsx:20-38 | a missing or different stored day stores the new day, removes the saved list and empties the list; the same day writes nothing, a malformed saved list yields an empty list and a parsed one is restored |
| DailyProgress.CheckInOncePerDay | src/Pages/MissionPage/MissionPage.jsx:20-38 | a second check-in on the same day neither resets nor changes anything |
| DailyProgress.PersistedInvariant | src/Pages/MissionPage/MissionPage.jsx:98-141 | merging and checking in keep the saved list equal to the in-memory list, so a reload on the same day restores the list |
| DailyProgress.MergeOutcomes | src/Pages/MissionPage/MissionPage.jsx:122-141 | an id already present changes nothing; a new id is appended, written back and tallied once; merging twice is merging once |
| DailyProgress.EventConsumedOnce | src/Pages/MissionPage/MissionPage.jsx:122-147 | after a completion event is handled, the state carries no completion, so handling the same navigation again changes nothing |
| DailyProgress.ReplayContents | src/Pages/MissionPage/MissionPage.jsx:122-147 | after any sequence of deliveries the list holds exactly the earlier ids and the delivered ones |
| DailyProgress.ReplayKnownIsNoOp | src/Pages/MissionPage/MissionPage.jsx:126-130 | delivering only ids already in the list changes nothing |
| DailyProgress.RedeliveryIsNoOp | src/Pages/MissionPage/MissionPage.jsx:126-130 | re-delivering a whole batch after it was merged changes nothing |
| DailyProgress.ReplayDistinct | src/Pages/MissionPage/MissionPage.jsx:132-141 | the completed list never gains a duplicate |
| DailyProgress.ReplayTally | src/Pages/MissionPage/MissionPage.jsx:132-141 | the tally grows by at most one per id added to the list, and by exactly one per added id when all ids are known tasks |
| DailyProgress.ThreeTaskScenario | src/Pages/MissionPage/MissionPage.jsx:20-235 | on a fresh day, t1, t1 again, t2, t3 give the list t1, t2, t3, every counter 1 and a complete mission |
| DailyProgress.TaskType | src/Pages/MissionPage/MissionPage.jsx:153-157 | definition, no contract: the `taskTypes` table |
| DailyProgress.ResetForNewDay | src/Pages/MissionPage/MissionPage.jsx:20-38 | definition, no contract: `checkAndResetForNewDay` on the page's state |
| DailyProgress.Restore | src/Pages/MissionPage/MissionPage.jsx:103-116 | definition, no contract: loading the saved list |
| DailyProgress.CheckIn | src/Pages/MissionPage/MissionPage.jsx:98-117 | definition, no contract: the mount-time effect |
| DailyProgress.Merge | src/Pages/MissionPage/MissionPage.jsx:126-142 | definition, no contract: the functional update of the completed list |
| DailyProgress.OnNavigation | src/Pages/MissionPage/MissionPage.jsx:122-147 | definition, no contract: the completion effect as a whole |
| DailyProgress.Replay | src/Pages/MissionPage/MissionPage.jsx:122-147 | definition, no contract: a sequence of completion deliveries |
| DailyProgress.DailyMissionPage.constructor | src/Pages/MissionPage/MissionPage.jsx:98-117 | the page starts loading, with an empty list and no mission |
| DailyProgress.DailyMissionPage.CheckAndResetForNewDay | src/Pages/MissionPage/MissionPage.jsx:20-38 | returns whether the stored day differs from the check-in's day, and updates the store and list as the reset function says |
| DailyProgress.DailyMissionPage.LoadProgress | src/Pages/MissionPage/MissionPage.jsx:98-117 | the mount-time load leaves the page in the state the check-in function gives |
| DailyProgress.DailyMissionPage.UpdateAchievements | src/Pages/MissionPage/MissionPage.jsx:152-173 | the stored tally becomes the stored one (or all zeros) bumped for the task |
| DailyProgress.DailyMissionPage.HandleCompletionEvent | src/Pages/MissionPage/MissionPage.jsx:122-147 | the page and the router end as the navigation function says: merge the carried id, then replace the state by `{}` |
| DailyProgress.DailyMissionPage.RefreshMission | src/Pages/MissionPage/MissionPage.jsx:178-194 | the mission shown is the built-in mission flagged by the current list, and loading ends |
| DailyProgress.DailyMissionPage.Activate | src/Pages/MissionPage/MissionPage.jsx:98-194 | mount, merge and refresh together: check in, handle the navigation, show the flagged mission |
| DailyProgress.DailyMissionPage.HandleTaskClick | src/Pages/MissionPage/MissionPage.jsx:199-209 | a completed task is ignored; another task opens its location page carrying the task and the mission id |
| MissionController.LockFlag | src/Pages/MissionPage/index.jsx:77-82 | the stored flag is "1" iff the mission is locked and "0" iff it is not |
| MissionController.SwapButtonShown | src/Pages/MissionPage/index.jsx:173-174 | the swap button is shown iff some task is not completed |
| MissionController.FetchOutcomes | src/Pages/MissionPage/index.jsx:34-51 | loading ends either way; success sets the mission and current id and mirrors them into the store; failure sets the error and leaves mission, current id and store as they were |
| MissionController.MirrorInvariant | src/Pages/MissionPage/index.jsx:77-82 | every operation keeps the stored id and lock flag equal to those of the loaded mission |
| MissionController.MountOutcomes | src/Pages/MissionPage/index.jsx:56-72 | a selected id is fetched, and the state is cleared unless it also carries a completion; with no selected and no current mission the no-selection error is set |
| MissionController.CompletionOutcomes | src/Pages/MissionPage/index.jsx:87-93 | a completion is acted on only with a current mission: that mission is refetched and the state replaced by `{}` |
| MissionController.SwapClickGuard | src/Pages/MissionPage/index.jsx:109-115 | a locked mission gives the locked alert and no dialog; an unlocked one opens the dialog |
| MissionController.SwapConfirmOutcomes | src/Pages/MissionPage/index.jsx:117-136 | `handleSwapConfirm` by itself fetches the new mission and closes the dialog only on success; a rejection tagged locked gives a different alert from other rejections |
| MissionController.SwapChoiceOutcomes | src/Pages/MissionPage/index.jsx:283-289 | through the page, the swap-mode selector hands every choice over and closes the dialog whatever the swap's answer; the mission, its id and the store change only when the swap reports success |
| MissionController.LockedMissionStays | src/Pages/MissionPage/index.jsx:109-115 | a locked mission never gets the swap dialog and keeps its current id |
| MissionController.SaveActive | src/Pages/MissionPage/index.jsx:77-82 | definition, no contract: the save effect |
| MissionController.Fetch | src/Pages/MissionPage/index.jsx:34-51 | definition, no contract: `fetchMission` with its save effect |
| MissionController.OnMount | src/Pages/MissionPage/index.jsx:56-72 | definition, no contract: the mount effect |
| MissionController.OnCompletion | src/Pages/MissionPage/index.jsx:87-93 | definition, no contract: the completion effect's body |
| MissionController.SwapClick | src/Pages/MissionPage/index.jsx:109-115 | definition, no contract: `handleSwapClick` |
| MissionController.SwapConfirm | src/Pages/MissionPage/index.jsx:117-136 | definition, no contract: `handleSwapConfirm` |
| MissionController.SwapChoice | src/Pages/MissionPage/index.jsx:283-289 | definition, no contract: a choice in the swap dialog |
| MissionController.MissionPage.constructor | src/Pages/MissionPage/index.jsx:56-72 | the page starts loading, with no mission, error, dialog or current id |
| MissionController.MissionPage.SaveActiveMission | src/Pages/MissionPage/index.jsx:77-82 | the store gets the loaded mission's id and lock flag |
| MissionController.MissionPage.FetchMission | src/Pages/MissionPage/index.jsx:34-51 | the page and store end as the fetch function says |
| MissionController.MissionPage.Mount | src/Pages/MissionPage/index.jsx:56-72 | the page, store and router end as the mount function says |
| MissionController.MissionPage.ReloadAfterCompletion | src/Pages/MissionPage/index.jsx:87-93 | the page, store and router end as the completion function says |
| MissionController.MissionPage.HandleTaskClick | src/Pages/MissionPage/index.jsx:98-104 | clicking an already completed task does nothing; another task opens its location page |
| MissionController.MissionPage.HandleSwapClick | src/Pages/MissionPage/index.jsx:109-115 | the page and alert are as the swap-click function says |
| MissionController.MissionPage.HandleSwapConfirm | src/Pages/MissionPage/index.jsx:117-136 | the page, store and alert are as the swap-confirm function says |
| MissionController.MissionPage.ChooseInSwapDialog | src/components/MissionSelector/MissionSelector.jsx:51-55 | the page, store and alert end as the swap-choice function says (`handleSwapConfirm` followed by `onClose`) |
| MissionController.MissionPage.SwapButton | src/Pages/MissionPage/index.jsx:204-213 | the button is shown iff some task is open and disabled iff the mission is locked |
| EarlyMissionPage.FallbackMission | src/Pages/MissionPage.jsx:32-80 | the fallback is mission m1 with three tasks, none completed |
| EarlyMissionPage.FirstIncomplete | src/Pages/MissionPage.jsx:88-90 | the position found holds an incomplete task and every earlier task is completed; none means all are completed |
| EarlyMissionPage.RecommendedTask | src/Pages/MissionPage.jsx:88-90 | the recommended task is an incomplete task of the mission, and there is none iff no mission is loaded or all tasks are completed |
| EarlyMissionPage.LoadedMission | src/Pages/MissionPage.jsx:16-27 | definition, no contract: the response data or the fallback mission |
| EarlyMissionPage.IsRecommended | src/Pages/MissionPage.jsx:161 | definition, no contract: the card's highlight |
| EarlyMissionPage.TaskClickTarget | src/Pages/MissionPage.jsx:82-86 | any task, completed or not, opens its location page carrying the task and the mission id |
| EarlyMissionPage.RecommendedCardUnique | src/Pages/MissionPage.jsx:161 | with distinct ids, a card is highlighted iff it is at the first incomplete position, so at most one is |
| EarlyMissionPage.FallbackProgress | src/Pages/MissionPage.jsx:16-27 | after a failed fetch the count is 0 and t1 is recommended |
| MissionSelector.IsActive | src/components/MissionSelector/MissionSelector.jsx:41 | definition, no contract: `isActive` |
| MissionSelector.IsDisabled | src/components/MissionSelector/MissionSelector.jsx:42-43 | definition, no contract: `isDisabled`, shared by the handler and the card |
| MissionSelector.Handle | src/components/MissionSelector/MissionSelector.jsx:38-58 | definition, no contract: which path `handleSelectMission` takes |
| MissionSelector.ButtonDisabled | src/components/MissionSelector/index.jsx:155 | definition, no contract: disabled while selecting or when `isDisabled` holds |
| MissionSelector.SelectedLocation | src/components/MissionSelector/MissionSelector.jsx:58-78 | navigation happens iff the backend reports success, and it carries the chosen id with `isNewMission: true` |
| MissionSelector.LockRule | src/components/MissionSelector/MissionSelector.jsx:41-48 | a choice is refused iff the mission is locked, the choice is not the active mission and swap mode is off |
| MissionSelector.LockExemptions | src/components/MissionSelector/index.jsx:41-48 | the active mission, swap mode and an unlocked mission are never refused |
| MissionSelector.ButtonMatchesHandler | src/components/MissionSelector/MissionSelector.jsx:106-109 | the button is disabled iff the handler would do nothing: busy or refused (index.jsx line 155 is the same) |
| MissionSelector.Selector.constructor | src/components/MissionSelector/index.jsx:11-18 | the dialog starts not selecting, with its props |
| MissionSelector.Selector.HandleSelectMission | src/components/MissionSelector/MissionSelector.jsx:38-79 | busy or refused changes nothing; swap mode with a callback hands the id over and closes; otherwise it navigates only on success, alerts on failure and ends not selecting (index.jsx lines 38-79 are the same) |
| FunPage.IsLocked | src/Pages/FunPage/index.jsx:16 | definition, no contract: the flag must be exactly "1" |
| FunPage.MissionsClickFromStore | src/Pages/FunPage/index.jsx:15-31 | definition, no contract: the button over the stored values |
| FunPage.SelectorProps | src/Pages/FunPage/index.jsx:64-70 | definition, no contract: the selector's id and lock props |
| FunPage.MissionsClick | src/Pages/FunPage/index.jsx:18-31 | going to the mission carries the stored id to the mission page and no completion |
| FunPage.ClickAndSelectorAgree | src/Pages/FunPage/index.jsx:15-31 | the selector gets the stored id and lock flag unchanged; the button goes to the mission iff those props name a locked mission with a usable id, and a selector it opens under a lock refuses every choice |
| FunPage.MissionsClickIff | src/Pages/FunPage/index.jsx:15-31 | the page goes to the mission iff the stored flag is exactly "1" and a non-empty id is stored; "true" counts as unlocked |
| FunPage.LockFlagRoundTrip | src/Pages/FunPage/index.jsx:15-16 | reading back the flag the mission page stores gives the mission's lock state, so a locked mission is reopened and an unlocked one opens the selector |
| FunPage.FreshCheckInUnlocks | src/Pages/FunPage/index.jsx:64-70 | after the start page removes both keys, the selector opens and it refuses no choice |
| FunPage.LockedWithoutIdRefusesAll | src/Pages/FunPage/index.jsx:20-30 | a stored lock without a usable id opens the selector in a state that refuses every choice |
| InitialPage.ResetSucceeded | src/Pages/InitialPage/index.jsx:33 | definition, no contract: status 200 and `data.success` |
| InitialPage.StartPage.constructor | src/Pages/InitialPage/index.jsx:9-14 | the page starts not resetting, with the selector closed |
| InitialPage.StartPage.HandleCheckIn | src/Pages/InitialPage/index.jsx:18-55 | while resetting, nothing happens. Otherwise only status 200 with success removes the two keys, opens the selector and hides the back image; any other outcome alerts and leaves store and selector as they were. The other three keys are never touched, and the buttons are enabled again afterwards |
| LocationDetailEarly.Completion | src/Pages/LocationDetailPage/LocationDetailPage.jsx:48-89 | definition, no contract: `handleTaskCompletion` |
| LocationDetailEarly.SuccessState | src/Pages/LocationDetailPage/LocationDetailPage.jsx:72-79 | definition, no contract: the success payload |
| LocationDetailEarly.CheckInShown | src/Pages/LocationDetailPage/LocationDetailPage.jsx:149 | definition, no contract: the button is rendered for any task |
| LocationDetailEarly.CheckInDisabled | src/Pages/LocationDetailPage/LocationDetailPage.jsx:153 | definition, no contract: `disabled={completing}` |
| LocationDetailEarly.CompletionOutcomes | src/Pages/LocationDetailPage/LocationDetailPage.jsx:48-89 | outside the guard the page returns to the mission page, carrying a completion iff task and mission id are present and the service succeeded, and alerting iff it failed |
| LocationDetailEarly.CompletionMerged | src/Pages/LocationDetailPage/LocationDetailPage.jsx:72-85 | delivered to the daily mission page, a successful check-in merges exactly that task and every other outcome merges nothing |
| LocationDetailEarly.ShownButMissingMission | src/Pages/LocationDetailPage/LocationDetailPage.jsx:149-161 | the button shows for any task and is disabled exactly while completing; an enabled press without a mission id returns with no state and no completion |
| LocationDetailEarly.DisabledWhileCompleting | src/Pages/LocationDetailPage/LocationDetailPage.jsx:55-58 | a press while the button is disabled (completing) with task and mission id is the guard path: nothing changes and no alert; an enabled press always leaves for the mission page |
| LocationDetailEarly.LocationPage.constructor | src/Pages/LocationDetailPage/LocationDetailPage.jsx:11-16 | the page starts not completing |
| LocationDetailEarly.LocationPage.HandleTaskCompletion | src/Pages/LocationDetailPage/LocationDetailPage.jsx:48-89 | the router and alert end as the completion function says, and the completing flag is what it was |
| LocationDetailEarly.LocationPage.GoBack | src/Pages/LocationDetailPage/LocationDetailPage.jsx:133-137 | back goes to the mission page with no state |
| LocationDetail.Completion | src/Pages/LocationDetailPage/index.jsx:48-102 | definition, no contract: `handleTaskCompletion` |
| LocationDetail.SuccessState | src/Pages/LocationDetailPage/index.jsx:78-87 | definition, no contract: the success payload |
| LocationDetail.BackLocation | src/Pages/LocationDetailPage/index.jsx:155-161 | definition, no contract: the back and failure destination |
| LocationDetail.CheckInShown | src/Pages/LocationDetailPage/index.jsx:176 | definition, no contract: task and mission id present |
| LocationDetail.CheckInDisabled | src/Pages/LocationDetailPage/index.jsx:180 | definition, no contract: `disabled={completing}` |
| LocationDetail.CompletionOutcomes | src/Pages/LocationDetailPage/index.jsx:48-102 | outside the guard the page returns to the mission page: with no state iff data is missing, otherwise naming the mission; a completion is carried iff the service succeeded, and an alert is shown otherwise |
| LocationDetail.ShownMeansComplete | src/Pages/LocationDetailPage/index.jsx:176-192 | the button is shown iff a press cannot take the missing-data path; a shown button is disabled exactly while completing, a press then changes nothing, and an enabled press leaves for the mission page naming the mission |
| LocationDetail.SuccessOnFreshMount | src/Pages/LocationDetailPage/index.jsx:78-87 | arriving at a fresh mission controller, the success payload makes the mount effect fetch the named mission and keep the state; the completion effect of the same commit sees no current mission and does nothing, so the completion stays in the state |
| LocationDetail.FailureReturnsToMission | src/Pages/LocationDetailPage/index.jsx:94-98 | a failure returns to the same mission with no completion: the controller fetches it, clears the state, and its completion effect does nothing |
| LocationDetail.MissingDataLandsOnError | src/Pages/LocationDetailPage/index.jsx:49-56 | the missing-data return makes a fresh mission controller report that no mission is selected |
| LocationDetail.LocationPage.constructor | src/Pages/LocationDetailPage/index.jsx:11-16 | the page starts not completing |
| LocationDetail.LocationPage.HandleTaskCompletion | src/Pages/LocationDetailPage/index.jsx:48-102 | the router and alert end as the completion function says, and the completing flag is what it was |
| LocationDetail.LocationPage.GoBack | src/Pages/LocationDetailPage/index.jsx:155-161 | back goes to the mission page naming the mission, with no completion |
| Countdown.Fields | src/components/countdownTimer/countdownTimer.jsx:18-20 | minutes and seconds are below 60, and the three fields account for the difference to within one second |
| Countdown.NatToString | src/components/countdownTimer/countdownTimer.jsx:22-26 | the decimal form is non-empty, all digits, with no leading zero, and has one digit iff the number is below 10 |
| Countdown.PadStart2 | src/components/countdownTimer/index.jsx:22-26 | the padded string has length max(2, original), ends with the original and is padded with '0' |
| Countdown.Display | src/components/countdownTimer/countdownTimer.jsx:22-26 | definition, no contract: the template string of the padded fields |
| Countdown.TimeLeft | src/components/countdownTimer/countdownTimer.jsx:8-27 | definition, no contract: `calculateTimeLeft` with its label as a parameter |
| Countdown.TimeLeftEn | src/components/countdownTimer/countdownTimer.jsx:13-16 | definition, no contract: the English timer |
| Countdown.TimeLeftJa | src/components/countdownTimer/index.jsx:13-16 | definition, no contract: the Japanese timer |
| Countdown.ParseClock | src/components/countdownTimer/countdownTimer.jsx:22-26 | definition, no contract: reads a display back, to state the round trip |
| Countdown.DigitsRoundTrip | src/components/countdownTimer/countdownTimer.jsx:22-26 | the decimal form reads back as the number |
| Countdown.LeadingZero | src/components/countdownTimer/countdownTimer.jsx:22-26 | a leading '0' does not change a digit string's value |
| Countdown.PadKeepsValue | src/components/countdownTimer/countdownTimer.jsx:22-26 | padding keeps the value, and hours of 10 or more keep all their digits unchanged |
| Countdown.ParseJoined | src/components/countdownTimer/countdownTimer.jsx:22-26 | three digit strings joined by ':' read back as their values |
| Countdown.DisplayRoundTrip | src/components/countdownTimer/countdownTimer.jsx:22-26 | a clock with minutes and seconds below 60 reads back from its display |
| Countdown.FormatRoundTrip | src/components/countdownTimer/countdownTimer.jsx:13-26 | a positive difference displays as a clock that reads back as its fields, and neither expiry label reads as a clock |
| Countdown.ExpiryLabelIff | src/components/countdownTimer/index.jsx:13-26 | each timer shows exactly its label ('EXPIRED' or '期限切れ') iff the difference is not positive, and both show the same clock otherwise |
| Countdown.SameDisplaySameSecond | src/components/countdownTimer/countdownTimer.jsx:18-26 | two positive differences with the same display fall in the same whole second |

## Left out

- `src/services/api.jsx` is not part of this model. Each of its calls is an outcome parameter. Async ordering between overlapping requests, and the stale closures of React handlers, are not modelled: the `completing`, `resetting` and `selecting` guards are plain fields.
- Rendering, CSS and StrictMode double invocation are left out. Effects are modelled as the methods that run them, without the scheduling implied by their dependency arrays.
- MissionController.MissionPage.ReloadAfterCompletion models the effect's body; when it runs is not modelled. In the source it runs in the first commit, seeing the first render's empty current mission, and runs again only when `completedTaskId` changes. `LocationDetail.SuccessOnFreshMount` states the first-commit case.
- Alert texts are returned as values or flags, and console output is dropped. The check-in button's DOM animation is left out.
- Date and time calls are left out. The calendar day and the millisecond difference are inputs, and the `setInterval` refresh loop is not modelled. A non-numeric expiry (a `NaN` difference) is also left out.
- JSON parsing is left out. A saved list is parsed ids, malformed text, or the empty string. A saved value that parses to something other than an array is left out.
- A malformed stored achievement tally is left out: the source's `JSON.parse` there is not caught.
- Location fetching on both location pages is left out (network and display only).
- The progress bar, task cards, achievement page, bottom bar, original app page and routing table are left out. They are presentation or routing only.
- DailyProgress.DailyMissionPage.HandleTaskClick, MissionController.MissionPage.HandleTaskClick, MissionController.MissionPage.HandleSwapClick and MissionController.MissionPage.SwapButton require a loaded mission: the source dereferences `mission` there and only renders these controls once one is loaded.
- InitialPage.StartPage.HandleCheckIn returns whether an alert was shown, but not the alert's text, which embeds the error message.
