# Multiplication drill and daily stamp calendar, modelled in Dafny

This project models the core of a children's multiplication drill. The drill is a React app. The model covers three parts:

- **The game** (`SimpleMathGame`). It draws a problem for one of four levels. A keypad builds an answer of at most two digits. The handlers then run the state machine: check, retry and next problem.
- **The daily progress hook** (`useDailyProgress`). It keeps a map from a local `YYYY-MM-DD` date key to `{count, stamped}`. It also keeps the `todayCount`/`todayStamped` fields and one storage slot. `incrementProgress` writes the whole map to that slot.
- **The stamp calendar** (`StampCalendar`). It derives things from the progress map: the bronze/silver/gold stamp for a day's count, what each day's cell shows, the goal banner, and the layout of the month grid.

Files:

- `decimal.dfy` (module `Decimal`) covers the JavaScript text functions the code relies on: `String(n)`, `padStart` and `parseInt` on digit strings. It also proves the round trip and length facts about them.
- `math_game.dfy` (module `MathGame`) holds `GenerateProblem`, the state as a value (`GameState`) and the pure handler functions. `Step`/`Run` replay taps on the rendered controls, and the lemmas are about those replays. The class `Game` has the component's four state fields, and its methods are the handlers. Each method is proved equal to its handler function.
- `daily_progress.dfy` (module `DailyProgress`) holds the date key, the map update `Incremented` and the lemmas about repeated increments. The class `Ledger` has `progress`, `todayCount`, `todayStamped` and the storage slot. Its methods are the load effect and `incrementProgress`.
- `stamp_calendar.dfy` (module `StampCalendar`) holds the tier step function, the cell rule, the calendar's date key, the goal predicate and the grid.
- `app.dfy` (module `App`) wires the game's `onCorrectAnswer` to the hook's `incrementProgress`, as `App` does.

How the inputs are modelled:

- `Math.random()` becomes a caller-supplied real `r` with `0 <= r < 1`. An operand is `Floor(r * span) + low`, computed with exact real arithmetic.
- The clock becomes the local year, the 0-based month index and the day of the month, passed in as numbers. `TodayString` turns them into the key that `getTodayString()` returns. The ledger's methods take that key as their `today` argument.
- `localStorage` becomes the field `Ledger.storage`, of type `Option<map>`. `None` means the slot is empty. The `parses` argument of `Load` is false when the stored text is not valid JSON.
- A tap on a control that is not rendered in the current state is a no-op in `Step`. The submit button is only rendered while there is no feedback and some input. "Next" is only rendered after a correct answer, and "retry" only after an incorrect one.

Behaviour of the code that the model keeps:

- After a wrong answer the typed input stays. The retry button only resets `feedback` (`SimpleMathGame.tsx:213`); `RetryKeepsProblemAndInput` proves it.
- A correct answer does not move on by itself. The learner taps "next" (`SimpleMathGame.tsx:194-199`), and only that draws a new problem.
- Each day's entry stores a `stamped` flag next to `count`. The flag is set once the count reaches `DAILY_GOAL` = 10, and the calendar never reads it (`CellIgnoresStampedFlag`). `IncrementKeepsConsistent` shows the flag stays in step with the count when it starts in step.
- `incrementProgress` does not catch an exception from `localStorage.setItem` (`useDailyProgress.ts:60`). The model treats the write as always succeeding.
- The hook has no getter for today's record. Callers read `todayCount` and `todayStamped`, or look up `progress[today]` in the map it returns (`useDailyProgress.ts:68`), as the calendar does (`StampCalendar.tsx:24-26`).

A property of the code as written: the keypad stops at two digits, so an answer of 100 or more can never be entered. That is every level-4 answer and most level-3 answers. `LargeAnswerUnanswerable` and `Level4Unanswerable` prove that such a problem is never marked correct and the score never moves. `SmallAnswerAnswerable` proves the converse: an answer below 100 is accepted after typing its digits and submitting.

## Model

| member | source | states |
|---|---|---|
| `Decimal.ParseInt` | src/features/simple-math/SimpleMathGame.tsx:48 | `parseInt` is NaN exactly when the text does not start with a digit; on a digit string it is the string's decimal value |
| `Decimal.ToDecimal` | src/hooks/useDailyProgress.ts:22 | `String(n)` is a non-empty digit string with no leading zero: it starts with `0` only for n = 0 |
| `Decimal.DecimalRoundTrip` | src/hooks/useDailyProgress.ts:22 | the digits `String(n)` prints read back as n |
| `Decimal.TwoDigitsBound` | src/features/simple-math/SimpleMathGame.tsx:152 | any input of at most two digits has value at most 99 |
| `Decimal.PadStart` | src/hooks/useDailyProgress.ts:22 | `padStart` has length max(len, width), ends with the original text and is filled with the pad character in front |
| `MathGame.Draw` | src/features/simple-math/SimpleMathGame.tsx:26-42 | `Math.floor(Math.random() * span) + low` lies in `[low, low + span - 1]` |
| `MathGame.GenerateProblem` | src/features/simple-math/SimpleMathGame.tsx:22-45 | every generated problem carries the requested level, `ans == a * b`, and operands in range: levels 1-2 a,b in 1..9; level 3 a in 10..99, b in 2..9; level 4 a,b in 10..99 |
| `MathGame.GenerateProblemCovers` | src/features/simple-math/SimpleMathGame.tsx:22-45 | every operand pair in the level's range is produced by some pair of random draws, so the ranges are exact, not just bounds |
| `MathGame.Level4AnswerAtLeast100` | src/features/simple-math/SimpleMathGame.tsx:40-43 | every level-4 answer is at least 100 |
| `MathGame.AnswerRanges` | src/features/simple-math/SimpleMathGame.tsx:24-44 | answers are 1..81 at levels 1-2, 20..891 at level 3 and 100..9801 at level 4 |
| `MathGame.Initial` | src/features/simple-math/SimpleMathGame.tsx:16-19 | the mounted state is at the level passed in, its problem is `generateProblem(level)` for the given draws (so well-formed for that level), with score 0, empty input and no feedback |
| `MathGame.Typed` | src/features/simple-math/SimpleMathGame.tsx:151-154 | a digit tap on a full buffer (two digits) leaves it unchanged; otherwise it appends the digit; the buffer stays at most two decimal digits |
| `MathGame.IsCorrect` | src/features/simple-math/SimpleMathGame.tsx:48-49 | an empty input (NaN) is never correct; a digit string is correct iff it is non-empty and its decimal value equals `ans` |
| `MathGame.Checked` | src/features/simple-math/SimpleMathGame.tsx:47-56 | feedback becomes correct iff `parseInt(input) == ans`, i.e. the input is non-empty and its decimal value equals `ans`; score rises by exactly 1 on correct and is unchanged otherwise; problem and input are untouched |
| `MathGame.Advanced` | src/features/simple-math/SimpleMathGame.tsx:58-62 | the next state holds the newly drawn problem, an empty input and no feedback; score and level are kept |
| `MathGame.CanSubmit` | src/features/simple-math/SimpleMathGame.tsx:171 | while the submit button is rendered over a well-formed state, the input is a non-empty digit string, so `parseInt` yields its value and never NaN |
| `MathGame.Step` | src/features/simple-math/SimpleMathGame.tsx:148-217 | every tap on a rendered control keeps the state well-formed (problem valid for the level, input 0-2 digits) and keeps the level |
| `MathGame.Run` | src/features/simple-math/SimpleMathGame.tsx:148-217 | any sequence of taps keeps the state well-formed and the level fixed |
| `MathGame.FourTimesSeven` | src/features/simple-math/SimpleMathGame.tsx:47-56 | for 4 x 7, "28" is marked correct, "27" and the empty input incorrect |
| `MathGame.AtMostOnePointPerProblem` | src/features/simple-math/SimpleMathGame.tsx:171-201 | without a tap on "next" the problem never changes and the score rises by at most 1; once correct, the score and the correct feedback stay until "next" |
| `MathGame.RetryKeepsProblemAndInput` | src/features/simple-math/SimpleMathGame.tsx:203-217 | retry after an incorrect answer resets feedback to null and keeps the problem and the typed input |
| `MathGame.LargeAnswerNeverCorrect` | src/features/simple-math/SimpleMathGame.tsx:151-154 | with at most two typed digits, a problem whose answer is 100 or more is never judged correct |
| `MathGame.LargeAnswerUnanswerable` | src/features/simple-math/SimpleMathGame.tsx:36-43 | from an unanswered problem with answer of 100 or more, no sequence of taps without "next" yields correct feedback or any score |
| `MathGame.Level4Unanswerable` | src/features/simple-math/SimpleMathGame.tsx:40-43 | over any sequence of taps, "next" included, a level-4 game that has no correct answer yet never marks one correct and its score never moves |
| `MathGame.TypeDigits` | src/features/simple-math/SimpleMathGame.tsx:151-154 | tapping digits while the buffer has room appends exactly those digits |
| `MathGame.DigitsThenSubmit` | src/features/simple-math/SimpleMathGame.tsx:151-176 | typing one or two digits into an empty, unjudged input and tapping submit judges exactly those digits |
| `MathGame.SmallAnswerAnswerable` | src/features/simple-math/SimpleMathGame.tsx:47-56 | an unanswered problem with answer below 100 is marked correct, scoring 1, after typing its digits and submitting |
| `MathGame.Game.constructor` | src/features/simple-math/SimpleMathGame.tsx:16-19 | the component's four state fields start as `Initial`: score 0, a fresh problem, empty input, no feedback |
| `MathGame.Game.PressDigit` | src/features/simple-math/SimpleMathGame.tsx:151-154 | the keypad handler updates only the input, as `Typed` |
| `MathGame.Game.ClearInput` | src/features/simple-math/SimpleMathGame.tsx:161 | clear empties the input and changes nothing else |
| `MathGame.Game.CheckAnswer` | src/features/simple-math/SimpleMathGame.tsx:47-56 | the handler's new state is `Checked` of the old; `onCorrectAnswer` fires exactly when the feedback becomes correct, together with the score's +1 |
| `MathGame.Game.NextProblem` | src/features/simple-math/SimpleMathGame.tsx:58-62 | a new well-formed problem at the same level, empty input, null feedback, score kept |
| `MathGame.Game.Retry` | src/features/simple-math/SimpleMathGame.tsx:213 | only the feedback is reset; score, problem and input are kept |
| `DailyProgress.Pad2` | src/hooks/useDailyProgress.ts:22 | `String(n).padStart(2, '0')` is all digits, reads back as `n`, and has length 2 for 1..99 |
| `DailyProgress.DateKey` | src/hooks/useDailyProgress.ts:22 | for a month and day in 1..99 and any year, the key is the year's digits followed by `-MM-DD`, and the two fields read back as the month and the day |
| `DailyProgress.TodayString` | src/hooks/useDailyProgress.ts:20-23 | for a four-digit year, month index 0..11 and date 1..31, the key has 10 characters and parses back to (year, monthIndex + 1, date): the month is written counted from 1 |
| `DailyProgress.ParseJoinedKey` | src/hooks/useDailyProgress.ts:22 | a 4-digit year and two 2-digit fields joined by '-' form a 10-character key that parses back into the three values |
| `DailyProgress.DateKeyRoundTrip` | src/hooks/useDailyProgress.ts:20-23 | for a 4-digit year and month and day in 1..99 the key has length 10 and parses back to (year, month, day) |
| `DailyProgress.DateKeyInjective` | src/hooks/useDailyProgress.ts:22 | distinct dates get distinct keys |
| `DailyProgress.Entry` | src/hooks/useDailyProgress.ts:46 | the stored entry for the key, or `{count: 0, stamped: false}` when the key is absent |
| `DailyProgress.Incremented` | src/hooks/useDailyProgress.ts:44-56 | today's count rises by exactly 1 (from 0 when absent); `stamped` becomes old stamped or new count >= `DAILY_GOAL`; only today's key is added; every other key keeps its entry |
| `DailyProgress.IncrementedTimesToday` | src/hooks/useDailyProgress.ts:46-48 | after n increments the count has risen by n, and the day is stamped iff it was already stamped or n > 0 and the count reached 10 |
| `DailyProgress.IncrementedTimesOtherDays` | src/hooks/useDailyProgress.ts:50-56 | increments on one day leave every other key, present or absent, unchanged |
| `DailyProgress.FreshDayAfterIncrements` | src/hooks/useDailyProgress.ts:4 | from an absent entry, n increments give `{count: n, stamped: n >= 10}` |
| `DailyProgress.StampIsSticky` | src/hooks/useDailyProgress.ts:48 | once today's `stamped` is true it stays true across any number of increments |
| `DailyProgress.IncrementKeepsConsistent` | src/hooks/useDailyProgress.ts:47-48 | if every stored flag agrees with its count reaching the goal, an increment keeps it so |
| `DailyProgress.Ledger.constructor` | src/hooks/useDailyProgress.ts:16-18 | the hook starts with an empty map, count 0 and not stamped, over the given storage |
| `DailyProgress.Ledger.Load` | src/hooks/useDailyProgress.ts:25-41 | for today's key: absent or unparsable storage leaves the state as it was (empty, 0, false after mount); parsed storage becomes the map, and the today fields copy today's entry when present and stay put otherwise; from the mounted state the today fields end in step with the map |
| `DailyProgress.Ledger.IncrementProgress` | src/hooks/useDailyProgress.ts:43-64 | for today's key, the map becomes `Incremented(old map, today)`, the today fields equal the new entry for today, and storage holds the new map |
| `DailyProgress.Remount` | src/hooks/useDailyProgress.ts:15-41 | after an increment has written the map, a newly mounted instance over the same storage loads exactly that map, with today's fields equal to its entry |
| `StampCalendar.StampTier` | src/features/simple-math/StampCalendar.tsx:194-200 | the tier's rank is the number of whole tens in the count, capped at 3: none below 10, bronze 10-19, silver 20-29, gold from 30 |
| `StampCalendar.StampTierMonotone` | src/features/simple-math/StampCalendar.tsx:194-200 | a larger count never yields a lower tier |
| `StampCalendar.CellFor` | src/features/simple-math/StampCalendar.tsx:211-223 | a count of 0 or less shows nothing, 1..9 shows the raw count, 10 or more shows the stamp of its tier |
| `StampCalendar.DayKey` | src/features/simple-math/StampCalendar.tsx:24-26 | for a four-digit year, month index 0..11 and day 1..31, the looked-up key parses back to (year, monthIndex + 1, day) |
| `StampCalendar.DayCount` | src/features/simple-math/StampCalendar.tsx:191 | the stored count for the key, 0 when the key is absent |
| `StampCalendar.DayKeyIsTodayString` | src/features/simple-math/StampCalendar.tsx:25 | the calendar's lookup key equals the hook's key for the same date, so a day's stored entry is found |
| `StampCalendar.MissingDayIsBlank` | src/features/simple-math/StampCalendar.tsx:189-191 | a date with no entry shows nothing |
| `StampCalendar.CellIgnoresStampedFlag` | src/features/simple-math/StampCalendar.tsx:191-200 | the cell depends only on the stored count, never on `stamped` |
| `StampCalendar.GoalMet` | src/features/simple-math/StampCalendar.tsx:171 | with the hook's goal of 10, the banner shows exactly when today's count earns a stamp tier |
| `StampCalendar.GoalBannerMatchesStamp` | src/features/simple-math/StampCalendar.tsx:171 | on a day without an entry, after n answers the banner (`todayCount >= dailyGoal`) is shown iff n >= 10 and iff the hook has stamped the day |
| `StampCalendar.DayAfterIncrements` | src/features/simple-math/StampCalendar.tsx:188-223 | a day without an entry that gets n answers shows `CellFor(n)` in the calendar; n < 10 none, 10-19 bronze, 20-29 silver, 30+ gold |
| `StampCalendar.CountElsewhereUnchanged` | src/features/simple-math/StampCalendar.tsx:189-191 | increments under today's key leave the count the calendar reads under every other key unchanged |
| `StampCalendar.DayKeysDiffer` | src/features/simple-math/StampCalendar.tsx:25 | two different days of the shown month (4-digit year) are looked up under different keys, so no day reads another's entry |
| `StampCalendar.OtherDaysUnchanged` | src/features/simple-math/StampCalendar.tsx:24-26 | answers recorded today leave every other day of the month showing what it showed |
| `StampCalendar.Blanks` | src/features/simple-math/StampCalendar.tsx:21 | exactly `firstDayOfWeek` empty slots |
| `StampCalendar.Days` | src/features/simple-math/StampCalendar.tsx:22 | one entry per day of the month, each between 1 and `daysInMonth` |
| `StampCalendar.DaysAreTheMonth` | src/features/simple-math/StampCalendar.tsx:22 | the day list holds exactly 1..daysInMonth, strictly increasing |
| `StampCalendar.Grid` | src/features/simple-math/StampCalendar.tsx:184-188 | the grid is the blanks followed by the days: slot `firstDayOfWeek + d - 1` holds day d |
| `StampCalendar.DayColumn` | src/features/simple-math/StampCalendar.tsx:178-188 | in the seven-column grid day d falls in column `(firstDayOfWeek + d - 1) % 7`; day 1 falls under the month's first weekday |
| `App.SubmitTap` | src/App.tsx:42 | a submit tap checks the answer; the ledger is incremented for today exactly when the score rises by 1, and is untouched otherwise |

## Left out

- Rendering: JSX, Tailwind classes, framer-motion animation, icons (`CatStampIcon`, `AppleIcon`), the apple hint grid and its show/hide toggle, the `operator` field (always '×'), the seasonal theme table, today's highlighted cell, and the back button. None of these affects the state, apart from the exit animation in the next line.
- Taps during an exit animation: the submit, next and retry buttons sit inside `<AnimatePresence mode="wait">` (`SimpleMathGame.tsx:170-220`), which keeps a leaving button mounted while it animates out. The model lets a button be tapped only while its render condition (`:171`, `:185`, `:203`) holds, so `Step` and the lemmas over `Run`, `AtMostOnePointPerProblem` among them, rest on that assumption. Whether the animation library accepts a tap on a leaving button is outside the repository.
- `Math.random`: only the range of each draw is modelled, not its distribution. Reals are exact, so the floating-point rounding of `Math.random() * span` is not modelled.
- JavaScript `Date`: the local year, month index and day, the month length and the first weekday are inputs. The calendar's `daysInMonth` and `firstDayOfWeek` are therefore not tied to a real calendar.
- `localStorage` and `JSON.parse`/`stringify`: storage is a map-valued field, and a parse failure is a flag. Odd JSON shapes that parse but are not a progress map are not modelled, and neither is the `console.error` call.
- `DailyProgress.Ledger.IncrementProgress`: the storage write always succeeds. A quota error from `setItem` is not modelled.
- `Decimal.ParseInt`: models `parseInt` on text that starts with digits. The leading whitespace, sign and radix-prefix rules are left out because the keypad only ever types digits.
- `DailyProgress.DateKeyRoundTrip`: the fixed 10-character shape is proved only for years 1000-9999. Other years print with a different number of digits.
- The progress bar width `Math.min(100, todayCount / dailyGoal * 100)` is floating-point division.
- React lifecycle: the two independent hook instances (in `App` and in the home screen) that meet only through storage, a state updater that React may run twice, and re-rendering.
- Screen routing in `App`, the level buttons on the home screen, the multiplication table component, the ten-frame component and the Tailwind configuration. These are presentation or configuration with no state to verify.
