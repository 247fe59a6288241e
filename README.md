# Mom_Verse: persistence layer and screen state machines

This project models the parts of the Mom_Verse web app that hold logic of their own. It has five modules:

- `Storage` (storage.ts): the local persistence layer. Four storage keys hold the users list, the current-user pointer, the feeding logs and the journal. Each key is a `Slot`, which is one of three things: nothing stored, a blob that does not parse, or a parsed value. The readers are fail-soft, so a missing or corrupt key reads as empty. `Store` is a class with one field per key. Its methods are the writers:
  - registration rejects an email that is already stored, using exact comparison;
  - login looks a user up by email only;
  - logout removes the pointer;
  - saving a feeding log or a journal entry prepends it, so the newest item is first.
- `FeedingTracker` (components/FeedingTracker.tsx): the nursing stopwatch (`Tracker`, with `Tick` standing for the one-second interval), rounding a session up to whole minutes, the `MM:SS` display with a reader proved to invert it, the bottle entry, the seven-bar chart, and the first-mount load with its demo seeding.
- `MomCare` (components/MomCare.tsx): the box-breathing exercise. It cycles through three four-second phases driven by a seconds counter, and shows a countdown from 4 to 1.
- `Journal` (components/Journal.tsx) and `TextTrim`: saving an entry is refused for text that is empty after `trim()`. Otherwise the entry is prepended through the store and the editor is reset. The mood-theme lookup falls back to `calm`.
- `Types` (types.ts): the records.

Ids and timestamps are parameters. So is the bottle amount typed into the prompt: `None` means the prompt was cancelled or answered with an empty string. Timestamps are abstract instants.

Pressing the other side while a nursing session runs only switches `activeSide`: no log is saved and the seconds keep counting (components/FeedingTracker.tsx:49-69). `ToggleTimer` states this case.

On a first mount with empty storage, the demo logs are generated newest first and then reversed (components/FeedingTracker.tsx:18-25), so the list on screen shows them oldest first. They are saved one by one in that order, and each save prepends, so the store holds them newest first. `Tracker.Mount` takes the reversed array and states both orders.

## Model

| member | source | states |
|---|---|---|
| `Storage.Store.GetStoredUsers` | services/storage.ts:11-18 | a missing or corrupt users key reads as the empty list, a parsed one as its value; it reads back the list `SaveUser` writes |
| `Storage.Store.GetCurrentUser` | services/storage.ts:52-58 | a missing or corrupt pointer reads as no user, a parsed one as that user; it reads back the user `SaveUser` or `LoginUser` made current, and no user after `LogoutUser` |
| `Storage.Store.GetFeedingLogs` | services/storage.ts:63-75 | a missing or corrupt logs key reads as the empty list, a parsed one as its value; after `SaveFeedingLog` it reads exactly the logs returned |
| `Storage.Store.GetJournalEntries` | services/storage.ts:86-97 | a missing or corrupt journal key reads as the empty list, a parsed one as its value; after `SaveJournalEntry` it reads exactly the entries returned |
| `Storage.FindByEmail` | services/storage.ts:23 | the result is the index of the first user whose email is exactly equal, or none exactly when no stored email is equal |
| `Storage.AppendKeepsDistinct` | services/storage.ts:23-26 | appending a user whose email is not stored keeps all stored emails pairwise distinct |
| `Storage.Store.constructor` | services/storage.ts:4-7 | the store starts with whatever each of the four keys already holds |
| `Storage.Store.SaveUser` | services/storage.ts:20-30 | it fails with "user already exists" exactly when some stored email is equal, and then nothing changes; otherwise the users key holds the old list with the user appended and the user becomes current; logs and journal are untouched; distinct emails stay distinct |
| `Storage.Store.LoginUser` | services/storage.ts:32-46 | it fails with "user not found" exactly when no stored email matches, and then the pointer is unchanged; otherwise it returns the first stored record with that email and makes it current; the password plays no part; only the pointer can change |
| `Storage.Store.LogoutUser` | services/storage.ts:48-50 | afterwards no user is current whatever the prior state; logging out when already logged out changes nothing, so two logouts equal one |
| `Storage.Store.SaveFeedingLog` | services/storage.ts:77-82 | the returned and stored logs are the new log followed by the previous logs: one longer, older ones in their old order; only the logs key changes |
| `Storage.Store.SaveJournalEntry` | services/storage.ts:99-104 | the returned and stored entries are the new entry followed by the previous entries; only the journal key changes |
| `FeedingTracker.CeilMinutes` | components/FeedingTracker.tsx:57 | the minutes m satisfy m*60 >= seconds > (m-1)*60, the smallest whole number of minutes covering the session; 0 seconds give 0 minutes |
| `FeedingTracker.NatToString` | components/FeedingTracker.tsx:46 | the decimal text of a number is non-empty, all digits, and reads back as that number; it has one digit exactly below 10, at most two exactly below 100 |
| `FeedingTracker.PadStart2` | components/FeedingTracker.tsx:46 | the padded text is two characters wide or as wide as the input if that is wider; it ends with the input and has only zeros in front of it |
| `FeedingTracker.LeadingZero` | components/FeedingTracker.tsx:46 | the zero that padding puts in front does not change the value a digit string reads as |
| `FeedingTracker.PadStart2Digits` | components/FeedingTracker.tsx:46 | a padded field is non-empty, all digits, holds no colon and reads back as its number |
| `FeedingTracker.FormatTime` | components/FeedingTracker.tsx:43-47 | reading the minutes and seconds off the display gives back the number of seconds displayed, for every count; the display is exactly five characters wide exactly when the count is below 6000 seconds, and never narrower |
| `FeedingTracker.ChartData` | components/FeedingTracker.tsx:86-90 | there are min(7, number of logs) bars, one per newest log in list order, each with that log's date and type; a bottle bar has its millilitres (possibly none), any other bar ten times its minutes, or 0 without minutes |
| `FeedingTracker.Tracker.constructor` | components/FeedingTracker.tsx:8-11 | the tracker starts with no logs, stopped, at 0 seconds and with no active side |
| `FeedingTracker.Tracker.Mount` | components/FeedingTracker.tsx:14-31 | with stored logs, those are shown and storage is untouched; with none, the seed array is shown as given and the store ends up holding exactly its elements with element k of the store being element length-1-k of the seed; an empty seed leaves storage untouched |
| `FeedingTracker.Tracker.Tick` | components/FeedingTracker.tsx:33-41 | a second adds one to the count only while running; otherwise nothing changes |
| `FeedingTracker.Tracker.ToggleTimer` | components/FeedingTracker.tsx:49-70 | pressing the running side saves exactly one breast log for that side with the rounded-up minutes, then stops, zeroes the count and clears the side; any other press runs on the pressed side with no log saved and the count unchanged; a side is active exactly while running, and a stopped count is 0 |
| `FeedingTracker.Tracker.AddBottleLog` | components/FeedingTracker.tsx:72-84 | an answered prompt prepends one bottle log with that amount and shows the store's result; a cancelled or empty one changes nothing |
| `MomCare.Countdown` | components/MomCare.tsx:223 | the number shown always lies in 1..4 |
| `MomCare.Phase` | components/MomCare.tsx:86-94 | a running exercise is never idle; `PhasePeriodic` and `PhaseAdvance` state how the phase moves with the counter |
| `MomCare.PhasePeriodic` | components/MomCare.tsx:86-94 | phase and countdown repeat every 12 seconds |
| `MomCare.PhaseAdvance` | components/MomCare.tsx:86-94 | one more second keeps the phase, except at a multiple of 4, where it moves inhale to hold to exhale to inhale |
| `MomCare.CountdownAdvance` | components/MomCare.tsx:223 | the countdown shows 4 exactly when a phase starts and drops by one each second within it |
| `MomCare.BoxBreathing.constructor` | components/MomCare.tsx:66-67 | the exercise starts idle at 0 |
| `MomCare.BoxBreathing.ToggleBreathing` | components/MomCare.tsx:97-105 | from idle it goes to inhale at 0; from any other state to idle at 0 |
| `MomCare.BoxBreathing.Tick` | components/MomCare.tsx:70-78 | a second adds one to the counter only when not idle |
| `MomCare.BoxBreathing.SyncPhase` | components/MomCare.tsx:80-95 | when idle the counter is forced to 0; otherwise the state becomes the phase of the counter, which is kept |
| `TextTrim.TrimStart` | components/Journal.tsx:112 | the result is a suffix of the text; everything cut is trimmable; it does not start with a trimmable character |
| `TextTrim.TrimEnd` | components/Journal.tsx:112 | the result is a prefix of the text; everything cut is trimmable; it does not end with a trimmable character |
| `TextTrim.Trim` | components/Journal.tsx:112 | trimming leaves nothing exactly when every character is white space or a line terminator |
| `TextTrim.TrimsToEmpty` | components/Journal.tsx:112 | the save guard is true exactly for text made only of white space and line terminators, the empty text included |
| `Journal.ThemeFor` | components/Journal.tsx:129 | a key naming one of the five moods selects that mood's theme; any other key selects calm's |
| `Journal.ThemeForName` | components/Journal.tsx:251 | an entry's stored mood always finds its own theme |
| `Journal.JournalView.constructor` | components/Journal.tsx:102-109 | the journal starts closed, with empty text, the calm mood and the stored entries loaded |
| `Journal.JournalView.CurrentTheme` | components/Journal.tsx:129 | the editor is drawn in the selected mood's theme |
| `Journal.JournalView.StartWriting` | components/Journal.tsx:233 | the editor opens |
| `Journal.JournalView.CloseEditor` | components/Journal.tsx:138 | the editor closes |
| `Journal.JournalView.EditText` | components/Journal.tsx:200 | the text becomes what was typed |
| `Journal.JournalView.SelectMood` | components/Journal.tsx:167 | the selected mood becomes the pressed one |
| `Journal.JournalView.HandleSave` | components/Journal.tsx:111-127 | blank text changes nothing; otherwise an entry with the untrimmed text and the selected mood is stored in front of the stored entries, the list shows the store's result, and the editor closes with empty text and the calm mood |

## Left out

- Rendering, styling, charts and icons: presentation only.
- The generative-AI service and the screens that only call it (cry analysis, symptom checker, wellness chat, meal plan): network calls into a foreign SDK, with audio and file capture.
- The login/sign-up screen's simulated delay and its `setTimeout`: timing only. Its logic is `SaveUser` and `LoginUser`.
- View routing and the navigation bar: plain view switching.
- The text and JSON form of storage. Each key is a typed slot with an explicit corrupt case. An empty-string blob behaves like a missing one. A blob that parses to a value of the wrong shape is not modelled (`null` for the users list, for example, would make registration throw).
- Rebuilding dates from stored text: a timestamp is an abstract instant that the store keeps as it is.
- Timers: `Tick` stands for one firing of `setInterval`, and the caller runs `SyncPhase` after each change, as React runs the effect.
- `Date.now()` ids, `new Date()` timestamps and weekday formatting of chart dates: ids and instants are parameters, and a chart point keeps the raw instant.
- The random content of the demo logs and the random affirmation on the dashboard. `Tracker.Mount` takes as a parameter the generated logs after `.reverse()`, that is oldest first.
- `prompt()` and `parseInt`: the bottle amount is an `Option<int>`, so a non-numeric answer (NaN) is not modelled.
- JavaScript numbers are doubles. Counters and amounts are unbounded integers here, and are never negative where `%` and `Math.floor` are applied, on which Dafny's operators agree with JavaScript's.
- `Journal.ThemeFor`: keys that a JavaScript object inherits (such as `toString`) would find a non-theme value. The model treats the table as exactly its five keys.
- `Journal.JournalView` stores the selected mood as a `Mood`. In the component it is a string, set only from the five mood ids and `'calm'`.
