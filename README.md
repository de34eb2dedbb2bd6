# Diario Mood — a verified model of the diary core

Diario Mood is a single-page mood diary whose logic lives in one browser class,
`DiarioMoodApp` (`script.js`). Behind the PIN screen the user writes full
entries (text, a mood from 1 to 5 and the question of the day) or quick
entries (text and mood only). The newest entries are listed, the last seven
days are charted as daily mood averages, and a weekly summary shows the
average face and the best day. Four colour themes can be cycled, and
everything is kept in the browser's storage.

This project models the part of that class that is state and arithmetic, and
proves what it does:

- `Text`: JavaScript's `String.prototype.trim`, over the WhiteSpace and
  LineTerminator code points of ECMA-262.
- `Moods`: the 1..5 mood scale and the emoji lookup.
- `Entries`: the entry record, the draft check both save buttons make, and the
  history view (first ten entries plus an "N more" count).
- `Lists`: `Array.prototype.indexOf`.
- `MoodChart`: per-day bucketing, the rounded mean `Math.round(sum / n)`, the
  value of one chart day, and the weekly average and best day.
- `DailyQuestion`: the Gregorian day of the year and the seven-question
  rotation.
- `Themes`: the theme list and the toggle.
- `Keypad`: what one press of the on-screen PIN keypad does to the PIN field.
- `App`: the class `DiarioMoodApp`. It holds the fields the source updates
  (`currentUser`, `entries`, `currentTheme`, the two picked moods, the question
  on display, the PIN field, which screen shows) and the three storage keys it
  writes. Its methods are the source's handlers, each stated against the
  functions above. `Last7DaysData` keeps the source's seven-step loop.

Decisions that shape the model:

- Calendar days are integers. An entry carries the local day it was created
  on, and the seven days of the chart are `today - 6 .. today`.
- The weekday labels of the chart are a function parameter.
- The clock is a parameter of each method that reads it: the id
  (`Date.now()`), the entry's day, and today's date plus the milliseconds
  already gone by today.
- `Math.round(sum / n)` for `n > 0` is the integer `(2 * sum + n) / (2 * n)`,
  which is the nearest integer with halves rounded up. Every contract states
  it by its meaning: `n * (2r - 1) <= 2 * sum < n * (2r + 1)`.
- Storage is three fields of the class:
  - `storedPin` holds 'diario_user';
  - `storedEntries` holds 'diario_entries', as missing, unparsable, or a list
    of entries;
  - `storedTheme` holds 'diario_theme'.
  Saving stores exactly the in-memory entries and theme.
- Behaviour of the code worth knowing:
  - On January 1 the question is the second of the pool (index 1). The day
    count starts from `new Date(year, 0, 0)`, which is December 31 of the
    year before (`script.js:418`).
  - Logout, and so "change PIN", deletes the stored PIN (`script.js:109`), so
    the next visit starts with a new setup.
  - At start-up the session user is read from storage (`script.js:40`), so a
    reload with a stored PIN opens the diary without asking for it.
  - Login with no stored PIN, or an empty one, is a setup (`script.js:91-94`).
- The keypad's `clear` action drops the last character and `delete` empties
  the field (`script.js:139-145`).
- When the stored entries do not parse, loading stops at that line: the
  entries stay empty and the stored theme is not read (`script.js:39-50`).

## Model

| member | source | states |
|---|---|---|
| Text.Trim | script.js:281 | the trimmed text is no longer than the input and has no whitespace at either end; it is empty exactly when the input is whitespace only |
| Text.TrimIsInfix | script.js:281 | what `trim` keeps is one contiguous slice of the input, and everything before and after it is whitespace |
| Text.TrimIdempotent | script.js:281 | trimming twice gives the same as trimming once |
| Text.TrimmedIsFixed | script.js:281 | a string with no whitespace at either end is its own trim |
| Moods.MoodEmoji | script.js:404-413 | the result is always one of the five faces; it is the neutral face exactly when the value is not 1, 2, 4 or 5 (missing, out of range, or 3) |
| Moods.MoodEmojiInjective | script.js:404-413 | distinct moods get distinct faces |
| Entries.Compose | script.js:280-298 | a draft is rejected exactly when its text is whitespace only and no mood is picked; an accepted draft becomes a well-formed record (trimmed text, text or mood present, a question exactly for full entries) with the given id, day, mood and kind, whose text is the trimmed input and which carries the question shown, for a full entry |
| Entries.HistoryView | script.js:346-402 | no entries gives the placeholder; otherwise the list shown is the first min(10, n) entries in stored order, and the "N more" line appears exactly when n > 10 and counts the n - 10 entries not shown |
| Entries.PushKeepsNewestFirst | script.js:300 | putting a newer record at the front keeps the list strictly newest first, and the new record heads the history |
| Lists.IndexOf | script.js:453 | -1 exactly when the value is absent; otherwise an index that holds the value with no earlier one that does |
| MoodChart.EntriesOn | script.js:537-540 | the entries of one day, never more than there are, each of that day |
| MoodChart.EntriesOnMembers | script.js:537-540 | an entry is among the day's entries exactly when it is stored and of that day |
| MoodChart.EntriesOnCount | script.js:537-540 | each stored entry of the day is kept as many times as it is stored, and no entry of another day is kept |
| MoodChart.EntriesOnNone | script.js:537-540 | a day nobody wrote on has no entries |
| MoodChart.MoodsOf | script.js:544 | the moods kept are at most one per entry and each lies in 1..5 |
| MoodChart.MoodsOfIsPresent | script.js:544 | the moods counted are, in order, the moods of the entries that have one, one per such entry |
| MoodChart.MoodsOfMembers | script.js:544 | every mood some entry recorded is counted |
| MoodChart.MoodsOfEmpty | script.js:544 | no mood is counted exactly when no entry has one |
| MoodChart.RoundedMean | script.js:546-547 | the result is the integer nearest to sum / n, halves rounded up |
| MoodChart.RoundedMeanBetween | script.js:546-547 | the rounded mean of values between two bounds lies between them |
| MoodChart.DayMood | script.js:543-553 | a chart day with a value has a mood in 1..5, the rounded mean of the moods recorded that day |
| MoodChart.DayMoodNone | script.js:543-553 | a chart day has no value exactly when none of its entries has a mood (including a day with no entries) |
| MoodChart.NoEntriesNoPoints | script.js:551-552 | with no entries every chart day is empty |
| MoodChart.TwoMoodsAverage | script.js:543-547 | a day with moods 2 and 4 shows 3 |
| MoodChart.Present | script.js:560 | the non-null daily values, at most one per day |
| MoodChart.PresentCount | script.js:560 | each value is kept once for every day that has it |
| MoodChart.PresentMembers | script.js:560 | a value is kept exactly when some day has it |
| MoodChart.PresentEmpty | script.js:560 | nothing is kept exactly when every day is null |
| MoodChart.Max | script.js:567 | `Math.max` is one of the values and no value exceeds it |
| MoodChart.WeekStats | script.js:559-576 | the summary is "no data" exactly when every day is null; otherwise the best day is a day with a value, no day has a higher one, no earlier day has the same one (ties go to the earliest day, so the `-1` guard never fires), and the average is the rounded mean of the non-null values |
| MoodChart.WeekAverageIsMood | script.js:562-563 | when every day's value is a mood, so is the weekly average |
| MoodChart.ExampleWeek | script.js:559-576 | the week [-, 3, -, 5, 5, -, 1] averages 4 and its best day is index 3, the first of the two fives |
| MoodChart.StatsText | script.js:559-576 | with no data the texts are the neutral face and "Sin datos"; otherwise they are the face of the weekly average and the label of the best day |
| DailyQuestion.DaysBeforeMonth | script.js:418 | January starts the year, and each month fits in the year after the days before it |
| DailyQuestion.MonthsFillYear | script.js:418 | the months lie end to end and fill the year exactly |
| DailyQuestion.Ordinal | script.js:418 | a valid date is day 1 to 365 (366 in a leap year) of its year |
| DailyQuestion.DayOfYear | script.js:418 | the whole days since the reference date equal the date's position in its year, whatever the time of day |
| DailyQuestion.QuestionIndex | script.js:419 | the question index is always an index into the pool |
| DailyQuestion.TodaysQuestion | script.js:416-422 | the question shown is one of the seven |
| DailyQuestion.SameDaySameQuestion | script.js:416-422 | the question depends on the calendar day only |
| DailyQuestion.NewYearShowsSecondQuestion | script.js:418-419 | January 1 shows the question at index 1 |
| DailyQuestion.NextDay | script.js:418 | the day after a valid date is valid; within a year it is one position later, and after December 31 it is January 1 of the next year |
| DailyQuestion.NextDayNextQuestion | script.js:418-419 | within a year the next day shows the next question of the pool, wrapping after the seventh |
| DailyQuestion.CommonYearEndRepeatsQuestion | script.js:418-419 | after a common year, December 31 and the next January 1 show the same question |
| Themes.NextTheme | script.js:451-456 | the next theme is always one of the four; an unknown current theme gives 'default'; a listed one gives the theme one position later, wrapping at the end |
| Themes.ThemeIndices | script.js:452-453 | the list has no repeats, so `indexOf` finds each theme at its own position |
| Themes.NextThemeAt | script.js:451-456 | the toggle goes default, dark, pastel, minimal, and from minimal back to default |
| Keypad.Press | script.js:139-145 | 'clear' drops the last character (an empty field stays empty); 'delete' empties the field; any other button changes the field exactly when it has a non-empty number and the field holds fewer than six characters, and then appends that number |
| Keypad.PressesKeepBound | script.js:143 | with single-digit buttons, no run of presses takes a field of at most six characters past six |
| Keypad.ClearUndoesDigit | script.js:139-145 | 'clear' takes back a digit typed on a field of fewer than six characters |
| Keypad.KeypadPinsAreShort | script.js:143 | digits typed on the keypad into an empty field give at most six characters |
| App.DiarioMoodApp.constructor | script.js:38-72 | the session user and the stored PIN are what storage holds; the entries are the parsed ones (else none); the theme is the stored one unless it is unset, empty or not read after a parse failure (then 'default'); the diary screen shows exactly when the PIN is a non-empty string; the question is today's; both moods and the PIN field are empty |
| App.DiarioMoodApp.SaveData | script.js:53-62 | storage then holds exactly the in-memory entries and theme |
| App.DiarioMoodApp.SetupAuth | script.js:74-85 | a PIN of four or more characters is stored, becomes the session user and opens the diary; a shorter one changes nothing; the gate's invariant holds |
| App.DiarioMoodApp.Login | script.js:87-105 | without a (non-empty) stored PIN it behaves as setup; a matching PIN opens the diary; a wrong one leaves the stored PIN, the session user and the screen as they were and empties the field |
| App.DiarioMoodApp.Logout | script.js:107-113 | the session user and the stored PIN are removed, the login screen shows and the field is empty |
| App.DiarioMoodApp.ChangePin | script.js:213-217 | once confirmed it is a logout; otherwise nothing changes |
| App.DiarioMoodApp.PressKeypad | script.js:133-147 | the field becomes what `Keypad.Press` gives for that button |
| App.DiarioMoodApp.SelectMood | script.js:263-269 | the diary tab's mood becomes the one picked |
| App.DiarioMoodApp.SelectMinimalMood | script.js:271-277 | the quick-entry tab's mood becomes the one picked |
| App.DiarioMoodApp.SaveEntry | script.js:280-303 | a blank draft without a mood is refused and nothing changes; otherwise the full record `Compose` builds goes to the front, the older entries follow in order, storage holds the new list, and the mood is cleared |
| App.DiarioMoodApp.SaveMinimalEntry | script.js:305-327 | as for `SaveEntry`, with the quick-entry mood, no question and the minimal kind |
| App.DiarioMoodApp.SetDailyQuestion | script.js:416-422 | the question on display becomes today's |
| App.DiarioMoodApp.SetTheme | script.js:437-449 | any theme name becomes current and is stored |
| App.DiarioMoodApp.CycleTheme | script.js:451-456 | the current theme becomes `NextTheme` of the old one, which is always a listed theme, and it is stored |
| App.DiarioMoodApp.Last7DaysData | script.js:524-557 | exactly seven labels and seven values; position k is day today - 6 + k, oldest first, and its value is that day's `DayMood` |
| App.ChartValuesAreMoods | script.js:543-563 | every value of the chart is empty or a mood in 1..5, and so is the weekly average |

## Left out

- Everything drawn on screen is not modelled, except which of the two screens
  shows: HTML building, tab switching, toasts, the selected-button styling,
  the character counter, the date line, the settings modal's interface.
- `localStorage` and `JSON.parse`/`JSON.stringify` are library calls.
  - Storage is modelled as three fields.
  - A parse is modelled by its outcome: missing, malformed, or a list of
    entries.
  - A parse that yields a value that is not a list is not modelled.
- The `settings` object and its three handlers (notifications, notification
  time, location) are left out, and so are the `diario_settings` key and
  `updateSettingsUI`. They are presentation and asynchronous browser APIs,
  and no part of the core reads them.
- Chart.js (`updateMoodChart`) is a foreign library. Only the data it is
  given (`Last7DaysData`) and the stats beside it are modelled.
- The Notification API, `setTimeout` re-arming, the service worker and data
  export are asynchronous browser plumbing or file download.
- `Date` internals are abstracted:
  - `Date.now()` is an integer.
  - The entry's ISO date string and `toDateString` are reduced to an integer
    local day.
  - `toLocaleDateString` labels are a function parameter.
  - Time zones and daylight-saving shifts are not modelled. A DST day is not
    24 hours long, which can move `Math.floor` by one.
- Floating point: the averages are the integer rounding formula, not IEEE
  doubles. The division chain `/ 1000 / 60 / 60 / 24` is a single integer
  division by the milliseconds in a day.
- Strings are sequences of Unicode code points, not UTF-16 code units. So
  `length` (the PIN's four-character minimum and six-character cap) counts a
  surrogate pair as one character, where JavaScript counts two.
- Typing into the PIN field with a physical keyboard (free text, no
  six-character cap) is not modelled: the field changes only through the
  keypad. The Enter key calls `login`, which is modelled.
- The 100-character limit of the quick-entry field is an HTML attribute, not
  script logic.
- The mood buttons' `parseInt(dataset.value)` is assumed to give 1..5, which
  are the values the page's buttons carry.
