# Notia front-end core in Dafny

Notia is a desktop and web notes application. A note's text carries `#tags` and
`@time text.` reminders; the front end parses them, schedules notifications,
shows reminders in calendars and timelines, keeps per-user activity statistics
and offers a markdown editor with formatting commands. This project models the
sequential logic of that front end, one Dafny module per source file, and
proves what each piece promises: the statistics and the activity heat map, the
note parser, the editor commands, the access-key formatting, search and
filtering, the in-memory stores, the reminder scheduler and the reminder views,
the calendar grids, the theme store, the font loader, the keyboard shortcuts
and the release-asset choice of the download page.

Conventions shared by all modules (module `Common`, `common.dfy`):

- A time is an integer number of milliseconds. The local time zone is taken
  to be folded into the timestamps, so a local day key (`toDateString()`,
  `format(d, 'yyyy-MM-dd')`) is the day number `t / 86400000` and `getDay()`
  is `(day + 4) % 7` (1970-01-01 was a Thursday). The dashboard calendar
  writes its day keys with `toISOString`, which gives the UTC date; there the
  zone's offset from UTC is a parameter and the UTC day of local time `t` is
  `(t - offset) / 86400000`.
  Civil dates use the proleptic Gregorian calendar.
- The clock (`new Date()`, `Date.now()`), random bytes
  (`crypto.getRandomValues`), `window.matchMedia`, `prompt()` and the native
  `search_notes` command are parameters of the operations that use them.
- Floating-point rates are exact `real`s; `Math.round` of a non-negative value
  is `floor(x + 1/2)`.
- Strings are sequences of characters; `toLowerCase` is modelled on ASCII
  letters, `trim` and `\s` use JavaScript's white-space set.
- A JavaScript `Set` filled from a sequence keeps first-occurrence order
  (`Dedupe`); `Array.prototype.sort` is a stable sort (`Sort`, an insertion
  sort over a total preorder).

Where the code and the project's own description or tests differ, the model
follows the code:

- The activity worker files a completed reminder under the day of its
  `updated_at` only; a reminder without `updated_at` adds to the counts but to
  no day, with no fallback to its `reminder_time`
  (src/workers/activityCalculator.worker.ts:33-38).
- The note parser's test expects `@내일 10시 미팅.` at 10:00, but the code moves
  a bare hour below 12 to the afternoon, so the model resolves it to 22:00 the
  next day (`NoteParser.TomorrowTenEval`).
- The theme store starts in the system theme with both `isDarkMode` and
  `isDeepDarkMode` taken from the system preference, so a dark system starts
  in deep dark (`ThemeStore.Store.constructor`).

## Model

| member | source | states |
|---|---|---|
| ActivityWorker.Calculate | src/workers/activityCalculator.worker.ts:19-67 | totals equal the number of notes, of reminders (a missing list counts as none) and of completed reminders; `tagsUsed` is the number of distinct tags; the rate is 0 without reminders and `completed*100/total` otherwise; the series has one entry per completion day, in strictly increasing date order, with that day's count (≥ 1) and level; its counts add up to at most the completed reminders |
| ActivityWorker.VisitReminders | src/workers/activityCalculator.worker.ts:31-40 | one note's reminder loop counts all reminders and the completed ones and adds each completed reminder with an update time to its day bucket |
| ActivityWorker.AddTags | src/workers/activityCalculator.worker.ts:30 | the tag set grows by exactly the note's tags |
| ActivityWorker.Level | src/workers/activityCalculator.worker.ts:54 | the level is in 0..4, 0 exactly for count 0, 4 exactly from count 7, otherwise `ceil(count/2)` |
| ActivityWorker.Rate | src/workers/activityCalculator.worker.ts:43-44 | 0 without reminders, otherwise `rate * total == completed * 100`, within 0..100 |
| ActivityWorker.CompletedTotal | src/workers/activityCalculator.worker.ts:33-34 | completed reminders never outnumber all reminders |
| ActivityWorker.CompletionDays | src/workers/activityCalculator.worker.ts:35-38 | at most one bucketed day per completed reminder |
| ActivityWorker.TagSetMembers | src/workers/activityCalculator.worker.ts:26-62 | a tag is counted iff some note carries exactly that string |
| ActivityWorker.BucketsCount | src/workers/activityCalculator.worker.ts:22-37 | a day has a bucket iff some completion fell on it, and the bucket holds the number of such completions |
| ActivityWorker.SeriesFacts | src/workers/activityCalculator.worker.ts:46-55 | sorting the buckets by date yields distinct, strictly increasing dates that cover every completion day, with counts summing to the number of completions |
| MyPage.Progress | src/pages/dashboard/myPage.tsx:131 | the bar value is clamped into [0,100] and a falsy value becomes 0 |
| MyPage.ProgressMonotone | src/pages/dashboard/myPage.tsx:131 | a larger value never gives a shorter bar |
| MyPage.CompletionDatesFacts | src/pages/dashboard/myPage.tsx:300-302 | the completion dates are strictly increasing and are exactly the days on which some reminder was completed |
| MyPage.Streak | src/pages/dashboard/myPage.tsx:304-330 | the streak is 0 unless the latest completion day is today or yesterday, and then it is the run of consecutive days ending at that day |
| MyPage.RunIsMaximal | src/pages/dashboard/myPage.tsx:316-328 | the counted run consists of consecutive days ending at the latest one, and the day before the run is not adjacent to it |
| MyPage.ComputeStats | src/pages/dashboard/myPage.tsx:291-357 | totals, distinct tag count, completion rate, today's completions, the weekly average `round(count/7)` and the streak |
| MyPage.CountCompletedOnDayFacts | src/pages/dashboard/myPage.tsx:362-367 | a day's count never exceeds the completed reminders and is positive exactly on completion days |
| MyPage.Tally | src/pages/dashboard/myPage.tsx:360-367 | the day map holds, for every day with completions, their number, and has no other keys |
| MyPage.YearActivity | src/pages/dashboard/myPage.tsx:369-380 | exactly 365 entries, oldest first, ending today, each with that day's count and level |
| MyPage.YearActivityFacts | src/pages/dashboard/myPage.tsx:369-380 | the dates increase strictly and end today; the level is 0 exactly on days without completions and never above 4 |
| MyPage.DayLevel | src/pages/dashboard/myPage.tsx:376 | the level with an explicit 0 case agrees with the worker's `min(4, ceil(count/2))` |
| MyPage.Achievements | src/pages/dashboard/myPage.tsx:383-434 | six badges, unlocked at > 0 notes, ≥ 100 notes, ≥ 50 completed, streak ≥ 7, rate ≥ 95 and ≥ 20 tags |
| MyPage.AchievementsMonotone | src/pages/dashboard/myPage.tsx:383-434 | larger statistics never lock a badge, and the 100-notes badge implies the first-note badge |
| MyPage.WeekStartDay | src/pages/dashboard/myPage.tsx:880-886 | the week starts on the Monday of the current week, at most six days back |
| MyPage.WindowRate | src/pages/dashboard/myPage.tsx:896-908 | a window rate is 0 for an empty window and within 0..100 |
| MyPage.WindowRateExtremes | src/pages/dashboard/myPage.tsx:896-912 | the rate is 0 when nothing in the window is completed and 100 when everything is |
| MyPage.CompletionRates | src/pages/dashboard/myPage.tsx:875-914 | both rates are 0 without reminders and always within 0..100 |
| DashboardActivityTab.LevelColor | src/components/features/dashboard/myPage/ActivityTab.tsx:33-42 | levels 1..4 get palette colours, anything else `bg-muted` |
| DashboardActivityTab.LevelColorInjective | src/components/features/dashboard/myPage/ActivityTab.tsx:33-42 | distinct levels in 1..4 get distinct colours |
| DashboardActivityTab.WeekRows | src/components/features/dashboard/myPage/ActivityTab.tsx:44-76 | an all-zero series gives the empty state; otherwise the seven rows of the grid |
| DashboardActivityTab.PadStart | src/components/features/dashboard/myPage/ActivityTab.tsx:57-62 | rows before the first day's weekday get exactly one blank |
| DashboardActivityTab.PlaceDays | src/components/features/dashboard/myPage/ActivityTab.tsx:64-67 | every day is appended to the row of its weekday, keeping series order |
| DashboardActivityTab.PadEnd | src/components/features/dashboard/myPage/ActivityTab.tsx:69-75 | every row is filled with blanks up to the longest row |
| DashboardActivityTab.GridFacts | src/components/features/dashboard/myPage/ActivityTab.tsx:57-75 | all rows share one length, the length of the longest unpadded row; each row is its leading blank, its weekday's days, then blanks |
| DashboardActivityTab.RowsPartition | src/components/features/dashboard/myPage/ActivityTab.tsx:64-67 | the seven rows together hold every day exactly once |
| DashboardActivityTab.MaxLen | src/components/features/dashboard/myPage/ActivityTab.tsx:69 | the maximum row length bounds every row and is attained by one |
| MyPageActivityTab.DaysToPad | src/components/features/myPage/ActivityTab.tsx:69-71 | the pad count lies in 0..6 and counting it on from the week start reaches the first day's weekday |
| MyPageActivityTab.StartLeadsCount | src/components/features/myPage/ActivityTab.tsx:73-79 | the `i`-th pad blank goes to row `(START + i) % 7`, one per row, and no other row gets one |
| MyPageActivityTab.WeekRows | src/components/features/myPage/ActivityTab.tsx:42-95 | an all-zero series gives the empty state; otherwise the padded rows, placed days and equal-length rows |
| MyPageActivityTab.SundayStartIsDashboardGrid | src/components/features/myPage/ActivityTab.tsx:55-94 | with weeks starting on Sunday the grid equals the dashboard's |
| Common.DigitsValue | src/utils/noteParser.ts:33-125 | `parseInt(t, 10)` of a digit string is below `10^|t|` |
| NoteParser.MatchHour | src/utils/noteParser.ts:169-173 | `\d{1,2}\s*시(\s*\d{1,2}\s*분)?` matches past its start with a one- or two-digit hour and an optional minute, keeping the meridiem it was given |
| NoteParser.OptionalClock | src/utils/noteParser.ts:169-170 | the optional clock group after a date or a day word either captures a valid clock or consumes nothing |
| NoteParser.MatchDate | src/utils/noteParser.ts:169 | the date pattern captures four year digits, one or two month and day digits and an optional clock, in a non-empty prefix |
| NoteParser.MatchDayWord | src/utils/noteParser.ts:170 | the day-word pattern captures one of the listed words and an optional clock, in a non-empty prefix |
| NoteParser.MatchMeridiemClock | src/utils/noteParser.ts:171 | the `오전/오후` clock pattern always carries a meridiem |
| NoteParser.MatchRelative | src/utils/noteParser.ts:172 | the relative pattern captures a non-empty digit run and the unit |
| NoteParser.MatchBareClock | src/utils/noteParser.ts:173 | the bare clock pattern never carries a meridiem |
| NoteParser.MatchTime | src/utils/noteParser.ts:168-184 | the first of the six patterns that matches gives a non-empty prefix and a well-formed expression; no match means all six failed |
| NoteParser.DateHour | src/utils/noteParser.ts:50-53 | 9 without a clock; otherwise the written hour modulo 12, as written without 오전/오후, morning for 오전 and afternoon for 오후 up to 12 |
| NoteParser.ClockHour | src/utils/noteParser.ts:76-114 | the written hour modulo 12, inside 0..23; below 12 it moves to the afternoon unless 오전 is given; 오전 12시 is midnight; from 12 on it is kept |
| NoteParser.DayOffset | src/utils/noteParser.ts:72-74 | 내일/명일 are one day on, 모레 two, 글피 three, any other word zero |
| NoteParser.AdjustPast | src/utils/noteParser.ts:23-28 | a time after `now` is kept, any other moves one day on |
| NoteParser.EvalRelative | src/utils/noteParser.ts:31-42 | `@N시간` / `@N분` is exactly N hours / minutes after the base date |
| NoteParser.AdjustPastAhead | src/utils/noteParser.ts:23-118 | a time of day moved past `now` lies after `now` and, for a real clock time, before the end of the next day |
| NoteParser.EvalTodayIsAhead | src/utils/noteParser.ts:91-119 | a bare clock time and a `오늘`/`금일` time resolve after the base date and before the end of the next day |
| NoteParser.EvalDayWordDay | src/utils/noteParser.ts:63-97 | any other day word resolves to a time on the day it names |
| NoteParser.TomorrowTenParse | src/utils/noteParser.ts:170 | `내일 10시 미팅` splits into the day word `내일` with a bare `10시` clock and the text after it |
| NoteParser.TomorrowTenEval | src/utils/noteParser.ts:76-91 | that time is 22:00 on the next day, because a bare hour below 12 moves to the afternoon |
| NoteParser.NextTag | src/utils/noteParser.ts:143-147 | `exec` of `#([^\s#@]+)` from `lastIndex` finds a `#` followed by a maximal non-empty run of tag characters |
| NoteParser.NextTagIsFirst | src/utils/noteParser.ts:147 | no tag starts between `lastIndex` and the match found, and none at all when nothing is found |
| NoteParser.TagTextsFacts | src/utils/noteParser.ts:143-149 | every captured tag is a non-empty run of tag characters that occurs in the note after a `#` |
| NoteParser.TagsOf | src/utils/noteParser.ts:151-154 | one tag object per distinct text, in order, with `originalText` `#text` |
| NoteParser.TagsFacts | src/utils/noteParser.ts:143-154 | the returned tags are exactly the captured texts, each once, each written `#text` in the note, in the order of their first occurrences |
| Common.DedupeFirstOccurrence | src/utils/noteParser.ts:143-154 | the `Set` of captured tag texts iterates in the order of their first occurrences |
| NoteParser.ParseTags | src/utils/noteParser.ts:143-154 | the tag loop with its `Set` returns `Tags(content)` |
| NoteParser.TagLoopStep | src/utils/noteParser.ts:147-148 | one round of the tag loop moves one match from the ones ahead to the ones seen |
| NoteParser.LazyStop | src/utils/noteParser.ts:158 | the lazy group stops at the first position where a terminator matches and crosses only reminder characters |
| NoteParser.HitFrom | src/utils/noteParser.ts:158 | the match includes its terminator unless that is the end of the text |
| NoteParser.NextReminder | src/utils/noteParser.ts:158-159 | `exec` of the reminder pattern from `lastIndex` finds a match at or after it |
| NoteParser.NextReminderIsFirst | src/utils/noteParser.ts:159 | no reminder can start between `lastIndex` and the match found, and none at all when nothing is found |
| NoteParser.ReminderMatchesSingle | src/utils/noteParser.ts:158-206 | `@text.` with a plain text has exactly one match, capturing `text` |
| NoteParser.LazyStopRun | src/utils/noteParser.ts:158 | the lazy group over plain characters stops at the first dot |
| NoteParser.ExistingDate | src/utils/noteParser.ts:138-187 | the map built from the existing reminders gives the date of the last entry with the original text, and nothing when none has it |
| NoteParser.ToReminder | src/utils/noteParser.ts:163-196 | a kept match has non-empty time and reminder texts, its whole match as original text and a date, which is the existing one when there is one |
| NoteParser.Split | src/utils/noteParser.ts:180-196 | the same guarantees for the split after the matched time prefix |
| NoteParser.ReminderDate | src/utils/noteParser.ts:187-188 | `existingDate ?? parseTimeExpression(timeText)`: the existing date when present, the resolved time otherwise |
| NoteParser.SplitKept | src/utils/noteParser.ts:180-186 | the time text is never empty, so a match is kept exactly when non-blank text follows the time prefix, and then the fields are the two trimmed parts |
| NoteParser.ToReminderKept | src/utils/noteParser.ts:177-186 | a match is kept exactly when some time pattern matches its trimmed text and non-blank text follows |
| NoteParser.KeptFacts | src/utils/noteParser.ts:159-197 | every returned reminder is what the loop body made of one of the matches |
| NoteParser.ReminderLoopStep | src/utils/noteParser.ts:159 | one round of the reminder loop moves one match from the ones ahead to the ones seen |
| NoteParser.KeptSnoc | src/utils/noteParser.ts:186-196 | a match adds its reminder at the end when kept and nothing otherwise |
| NoteParser.ParseReminders | src/utils/noteParser.ts:158-197 | the reminder loop returns `Reminders(content, baseDate, existing)` |
| NoteParser.ParseNoteContent | src/utils/noteParser.ts:132-200 | both loops: the de-duplicated tags and the kept reminders |
| NoteParser.ParseReminder | src/utils/noteParser.ts:202-211 | for a plain text, the reminder made of `@text.`; anything returned has time and reminder texts and a date |
| UseNoteParser.ClockHourAsWritten | src/hooks/useNoteParser.ts:81-118 | the hook's hour rule as written: 12 is added exactly when the hour is not 12 and it carries 오후 or is bare and not zero-padded, so a bare 13..23 becomes 25..35; 오전 12시 is 0; otherwise the written hour is kept |
| UseNoteParser.FifteenIsThreeAm | src/hooks/useNoteParser.ts:85-122 | under that rule `15시` is hour 27, and the hook's `@15시` resolves to 03:00 on the next day |
| UseNoteParser.ClockHour | src/hooks/useNoteParser.ts:81-118 | the corrected rule: the written hour modulo 12, inside 0..23, equal to the rule as written up to 12, a zero-padded bare hour kept, otherwise below 12 moved to the afternoon unless 오전 is given |
| UseNoteParser.HookDayOffset | src/hooks/useNoteParser.ts:75-76 | 내일 is one day on, 모레 two, anything else zero |
| UseNoteParser.EvalAgreesWithNoteParser | src/hooks/useNoteParser.ts:34-132 | relative times, dates and month-days resolve exactly as in the note parser |
| UseNoteParser.Eval | src/hooks/useNoteParser.ts:34-132 | `parseTimeExpression` as written, with the +12 rule: a bare clock time and a `오늘` time resolve after `now` and before the end of the next day |
| UseNoteParser.IntendedEval | src/hooks/useNoteParser.ts:34-132 | the same resolution with the corrected hour rule; a bare clock time still resolves after `now` and before the end of the next day |
| UseNoteParser.AdjustPastWithin | src/hooks/useNoteParser.ts:25-30 | a time of day up to 35:59 moved past `now` lies after `now` and before the end of the next day |
| UseNoteParser.EvalAgreesWithIntended | src/hooks/useNoteParser.ts:81-118 | the hook as written and the corrected hook resolve every expression alike when its written hour is at most 12 or carries 오전 |
| UseNoteParser.EvalDayWordDay | src/hooks/useNoteParser.ts:72-96 | as written, `내일` and `모레` resolve to the day they name, or to the day after it exactly when the +12 rule carries the hour to 24 or more (`내일 15시` is 03:00 the day after tomorrow) |
| UseNoteParser.IntendedEvalDayWordDay | src/hooks/useNoteParser.ts:72-96 | with the corrected hour rule `내일` and `모레` always resolve to the day they name |
| UseNoteParser.TagMatchesFacts | src/hooks/useNoteParser.ts:143-147 | the hook keeps every tag match, repeats included: the captured texts in order, each with original text `#text` |
| UseNoteParser.ToReminder | src/hooks/useNoteParser.ts:152-183 | a kept match has non-empty time and reminder texts and its whole match as original text |
| UseNoteParser.KeptSnoc | src/hooks/useNoteParser.ts:176-183 | a match adds its reminder at the end when kept and nothing otherwise |
| UseNoteParser.KeptFacts | src/hooks/useNoteParser.ts:152-183 | every kept reminder has a time text and a reminder text, and its original text is one of the matches |
| UseNoteParser.DotMatchesFacts | src/hooks/useNoteParser.ts:150-151 | every reminder match runs from an `@` to a dot, `@` + capture + `.` |
| UseNoteParser.UseNoteParser | src/hooks/useNoteParser.ts:137-188 | all tag matches and the kept dot-terminated reminders, dated by `Eval` as written (`@15시 회의.` at 03:00 the next day) |
| UseNoteParser.CollectTags | src/hooks/useNoteParser.ts:143-147 | the tag loop returns `TagMatches(content, 0)` |
| UseNoteParser.ParseDotReminders | src/hooks/useNoteParser.ts:150-184 | the reminder loop returns the kept reminders of all dot-terminated matches, each dated by the hook's `Eval` as written |
| DashboardReminder.HourMatch | src/components/features/dashboard/reminder.tsx:125 | the match of `(\d+)시` is a digit run starting a maximal run and followed by `시` |
| DashboardReminder.HourMatchIsFirst | src/components/features/dashboard/reminder.tsx:125 | `match` returns the leftmost position where `(\d+)시` matches, and `null` only when it matches nowhere |
| DashboardReminder.PushPast | src/components/features/dashboard/reminder.tsx:132-134 | a time at most a day in the past is moved to at or after `now`, by exactly one day or not at all |
| DashboardReminder.AtHourWindow | src/components/features/dashboard/reminder.tsx:129-134 | the hour rule gives a full hour no earlier than `now` and less than a day after it |
| DashboardReminder.ReminderTimeDefined | src/components/features/dashboard/reminder.tsx:114-146 | a segment becomes a reminder exactly when it is a day word, has `시` with a first `N시` of at most 23, or (without `시`) is a `YYYY-MM-DD` date |
| DashboardReminder.DayWordAtNine | src/components/features/dashboard/reminder.tsx:115-123 | 오늘, 내일 and 모레 give 09:00 of today, tomorrow and the day after |
| DashboardReminder.HourWithinDay | src/components/features/dashboard/reminder.tsx:124-136 | a `시` segment gives the next occurrence of that full hour, within a day of `now` |
| DashboardReminder.AfterLastDash | src/components/features/dashboard/reminder.tsx:148-150 | the text after the last `-` of an id holds no `-` |
| DashboardReminder.AfterLastDashOf | src/components/features/dashboard/reminder.tsx:148-150 | the part after the last `-` of an id is the decimal match index |
| DashboardReminder.IdsDiffer | src/components/features/dashboard/reminder.tsx:148-151 | ids built with different match indices differ, whatever note, text and time they carry |
| DashboardReminder.NoDashInDigits | src/components/features/dashboard/reminder.tsx:150 | a decimal index contains no `-` |
| DashboardReminder.Preview | src/components/features/dashboard/reminder.tsx:157 | the stored preview is the first 100 characters with tags removed, so at most 100 characters |
| DashboardReminder.Make | src/components/features/dashboard/reminder.tsx:146-162 | a match is kept exactly when its time rule gives a time; the reminder carries that time, the matched text, the note id, the id with the current match index and the stored switches with their defaults |
| DashboardReminder.Build | src/components/features/dashboard/reminder.tsx:109-164 | a note gives at most one reminder per match |
| DashboardReminder.AllNumberedCons | src/components/features/dashboard/reminder.tsx:151 | numbering continues by one from each kept reminder to the next |
| DashboardReminder.BuildFacts | src/components/features/dashboard/reminder.tsx:146-162 | the k-th kept reminder of a note carries match index k in its id, the note's id and its stored completion and switch |
| DashboardReminder.NoteIdsDistinct | src/components/features/dashboard/reminder.tsx:147-151 | two reminders of one note never share an id, even for repeated texts |
| DashboardReminder.ByTimeTotal | src/components/features/dashboard/reminder.tsx:167-169 | the comparator orders reminders totally by time |
| DashboardReminder.Extracted | src/components/features/dashboard/reminder.tsx:167-170 | the stored list is a permutation of every note's reminders, in ascending time |
| DashboardReminder.MatchesStep | src/components/features/dashboard/reminder.tsx:109 | each `exec` yields the next match and continues after it |
| DashboardReminder.BuildHead | src/components/features/dashboard/reminder.tsx:146-163 | a kept match adds one reminder and advances the index; a dropped one adds nothing |
| DashboardReminder.ExtractFromNote | src/components/features/dashboard/reminder.tsx:105-164 | the `while (exec)` loop of a note produces that note's reminders in match order |
| DashboardReminder.ExtractReminders | src/components/features/dashboard/reminder.tsx:100-171 | the effect produces every note's reminders sorted by time |
| DashboardReminder.NextDayStart | src/components/features/dashboard/reminder.tsx:177 | tomorrow's midnight is a day after today's |
| DashboardReminder.WithinDay | src/components/features/dashboard/reminder.tsx:187-195 | a midnight lies in a day's interval exactly when it falls on that day |
| DashboardReminder.ShownDays | src/components/features/dashboard/reminder.tsx:174-203 | the tabs show the uncompleted reminders of today, of tomorrow, of later days, and all of them |
| DashboardReminder.TabsDisjoint | src/components/features/dashboard/reminder.tsx:179-202 | today, tomorrow and upcoming share no reminder, and no tab shows a completed one |
| DashboardReminder.GroupDays | src/components/features/dashboard/reminder.tsx:216-238 | a reminder is overdue when its day is before today, otherwise in today, tomorrow or upcoming by its day; one earlier today is not overdue |
| DashboardReminder.InGroupCons | src/components/features/dashboard/reminder.tsx:216-238 | a reminder counts once in the group it falls in and in no other |
| DashboardReminder.InGroupSnoc | src/components/features/dashboard/reminder.tsx:216-238 | visiting one more reminder appends it to its own group only |
| DashboardReminder.PartitionBy | src/components/features/dashboard/reminder.tsx:211-238 | four groups chosen by any classifier together have the list's length |
| DashboardReminder.GroupsPartition | src/components/features/dashboard/reminder.tsx:206-246 | every reminder lands in exactly its group, and the group sizes add up to the list's |
| DashboardReminder.GroupsStep | src/components/features/dashboard/reminder.tsx:216-238 | one step of the `forEach` pushes the reminder onto its group |
| DashboardReminder.GroupReminders | src/components/features/dashboard/reminder.tsx:206-246 | the loop builds the four groups, each the filtered list's reminders of that group in order |
| DashboardReminder.SwitchesIndependent | src/components/features/dashboard/reminder.tsx:249-272 | marking sets that id's completion and keeps its switch; toggling sets its switch and keeps its completion; other ids unchanged |
| DashboardReminder.GlobalStates | src/components/features/dashboard/reminder.tsx:382-390 | the new entries cover exactly the listed ids, each with its completion and the new switch |
| DashboardReminder.GlobalSwitchFacts | src/components/features/dashboard/reminder.tsx:378-392 | after the global switch every listed reminder has the new switch and its old completion; other ids keep theirs |
| DashboardReminder.ToggleCalls | src/components/features/dashboard/reminder.tsx:389 | one `onToggleReminder` call per listed reminder, in order |
| DashboardReminder.GlobalStep | src/components/features/dashboard/reminder.tsx:384-388 | one step of the loop adds one entry |
| DashboardReminder.CallsStep | src/components/features/dashboard/reminder.tsx:389 | one step of the loop adds one call |
| DashboardReminder.SwitchAll | src/components/features/dashboard/reminder.tsx:382-390 | the loop builds exactly the new entries and calls |
| DashboardReminder.ReminderView.constructor | src/components/features/dashboard/reminder.tsx:84-97 | the view starts on the today tab with no reminders, no stored switches and notifications on |
| DashboardReminder.ReminderView.Refresh | src/components/features/dashboard/reminder.tsx:100-171 | the effect stores the sorted reminders and changes nothing else |
| DashboardReminder.ReminderView.MarkCompleted | src/components/features/dashboard/reminder.tsx:249-259 | `handleMarkCompleted` updates only that entry and reports the call |
| DashboardReminder.ReminderView.ToggleReminder | src/components/features/dashboard/reminder.tsx:262-272 | `handleToggleReminder` updates only that entry and reports the call |
| DashboardReminder.ReminderView.ToggleGlobal | src/components/features/dashboard/reminder.tsx:378-392 | the global switch sets the flag, merges the new entries over the old map and reports one call per reminder |
| KeyValidation.KeyOf | src/utils/keyValidation.ts:6-19 | a generated key has the requested length and only `A-Z0-9` characters |
| KeyValidation.GenerateRandomKey | src/utils/keyValidation.ts:6-19 | the loop picks character `values[i] % 36` of the alphabet for each position |
| KeyValidation.Clean | src/utils/keyValidation.ts:28 | the cleaned key has no hyphen and keeps every other character |
| KeyValidation.Grouped | src/utils/keyValidation.ts:30-37 | a key of at most four characters is left as it is |
| KeyValidation.FormatKey | src/utils/keyValidation.ts:26-40 | the loop writes the cleaned key in groups of four joined by `-` |
| KeyValidation.GroupedClean | src/utils/keyValidation.ts:28-39 | removing the hyphens of a grouped hyphen-free key gives it back |
| KeyValidation.FormatKeyClean | src/utils/keyValidation.ts:26-40 | removing the hyphens of `formatKey(k)` equals removing them from k |
| KeyValidation.FormatKeyIdempotent | src/utils/keyValidation.ts:26-40 | `formatKey` is idempotent |
| KeyValidation.GroupedShape | src/utils/keyValidation.ts:30-37 | the grouped key gains one hyphen per four characters after the first group, never begins or ends with one and never has two in a row |
| KeyValidation.SixteenGrouped | src/utils/keyValidation.ts:30-37 | a 16-character key becomes `XXXX-XXXX-XXXX-XXXX`, 19 characters |
| KeyValidation.GeneratedKeyValid | src/utils/keyValidation.ts:6-59 | a formatted 16-character generated key is always valid |
| KeyValidation.ValidIgnoresHyphens | src/utils/keyValidation.ts:47-59 | formatting a key never changes whether it is valid |
| Keys.GenerateRandomKey | src/utils/keys.ts:6-19 | the loop produces the same alphabet lookup as the other generator |
| Keys.FormatKeyOf | src/utils/keys.ts:26-35 | a key whose length is not 16 comes back unchanged; a 16-character key becomes 19 characters |
| Keys.FormatKey | src/utils/keys.ts:26-35 | the chunk loop and `join('-')` give the four chunks joined by `-` |
| Keys.CleanKey | src/utils/keys.ts:42-44 | `cleanKey` removes every `-` and keeps every other character |
| Keys.CleanFormatted | src/utils/keys.ts:26-44 | `cleanKey(formatKey(k)) == k` for any hyphen-free k |
| Keys.FormatKeyIdempotent | src/utils/keys.ts:27 | `formatKey` is idempotent, since a formatted key has 19 characters |
| Keys.AgreesWithKeyValidation | src/utils/keys.ts:26-35 | on a hyphen-free 16-character key both `formatKey` functions agree |
| InputOtpControl.DashEveryFour | Amnesia/src/components/ui/input-otp-control.tsx:8 | the first replace only inserts characters |
| InputOtpControl.DropTrailingDash | Amnesia/src/components/ui/input-otp-control.tsx:8 | the second replace never lengthens the text |
| InputOtpControl.DashEveryFourClean | Amnesia/src/components/ui/input-otp-control.tsx:8 | the first replace only inserts `-` |
| InputOtpControl.DashEveryFourEnd | Amnesia/src/components/ui/input-otp-control.tsx:8 | on a hyphen-free value the first replace ends with at most one `-` |
| InputOtpControl.FormatValueFacts | Amnesia/src/components/ui/input-otp-control.tsx:7-9 | removing the hyphens of `formatValue(v)` gives v back, and the result never ends with `-` |
| InputOtpControl.FormatValueIsGrouped | Amnesia/src/components/ui/input-otp-control.tsx:7-9 | on a single-line hyphen-free value the read-out is the key grouping of `formatKey` |
| InputOtpControl.SixteenReadsNineteen | Amnesia/src/components/ui/input-otp-control.tsx:7-9 | a 16-character code reads as 19 characters |
| InputOtpControl.Readout | Amnesia/src/components/ui/input-otp-control.tsx:49 | an empty value shows the prompt, any other value its formatted text |
| CheckboxPlugin.Boxes | src/components/features/dashboard/main/checkboxPlugin.ts:95-105 | each widget sits on a `- [ ]`/`- [x]` match and is checked exactly when the bracket holds `x` |
| CheckboxPlugin.MatcherExamples | src/components/features/dashboard/main/checkboxPlugin.ts:98-100 | `- [ ] Task` gives one unchecked box, `- [x] Done` one checked box, `- [] Invalid` none |
| CheckboxPlugin.Click | src/components/features/dashboard/main/checkboxPlugin.ts:77-82 | a click keeps the length, keeps the match, flips its state and changes no other character |
| CheckboxPlugin.ClickTwice | src/components/features/dashboard/main/checkboxPlugin.ts:78 | two clicks restore the document |
| CheckboxPlugin.ClickKeepsMatches | src/components/features/dashboard/main/checkboxPlugin.ts:77-82 | a click neither creates nor destroys a match anywhere |
| CheckboxPlugin.FlippedAtCons | src/components/features/dashboard/main/checkboxPlugin.ts:95-105 | widget lists that correspond stay so when one more widget is put in front |
| CheckboxPlugin.ClickedBoxes | src/components/features/dashboard/main/checkboxPlugin.ts:77-105 | after a click the decorator finds the same widgets with only the clicked one flipped |
| CheckboxPlugin.Document.constructor | src/components/features/dashboard/main/checkboxPlugin.ts:107-112 | the document holds the given text |
| CheckboxPlugin.Document.ClickBox | src/components/features/dashboard/main/checkboxPlugin.ts:65-83 | a click on a drawn widget replaces the one character three after its match start |
| EditorCommands.Apply | src/components/features/dashboard/toolbar/editorCommands.ts:34 | the document after a dispatched change has the old length minus the replaced range plus the inserted text |
| EditorCommands.ApplyParts | src/components/features/dashboard/toolbar/editorCommands.ts:34 | the text before the change and the text after it are kept, with the inserted text between them |
| EditorCommands.MapPosBound | src/components/features/dashboard/toolbar/editorCommands.ts:100-105 | a position carried through a change stays within the new document |
| EditorCommands.StepValid | src/components/features/dashboard/toolbar/editorCommands.ts:34 | dispatching a transaction that fits the document leaves a selection within the new document |
| EditorCommands.StepLocal | src/components/features/dashboard/toolbar/editorCommands.ts:34 | a dispatch edits only the changed range |
| EditorCommands.View.constructor | src/components/features/dashboard/toolbar/editorCommands.ts:1-3 | a new view holds the given document with the cursor at its start |
| EditorCommands.View.Dispatch | src/components/features/dashboard/toolbar/editorCommands.ts:34 | `dispatch` replaces the document by the changed one and the selection by the named one or the old one carried through the change, keeping the selection valid |
| EditorCommands.NoBreakAll | src/components/features/dashboard/toolbar/editorCommands.ts:41 | the recursive no-line-break test holds exactly when no character of the range is a line break |
| EditorCommands.LineStart | src/components/features/dashboard/toolbar/editorCommands.ts:41 | the start of the line at `p` is at or before `p` and is the document start or follows a line break |
| EditorCommands.LineEnd | src/components/features/dashboard/toolbar/editorCommands.ts:41 | the end of the line at `p` is at or after `p` and is the document end or a line break |
| EditorCommands.LineStartNoBreak | src/components/features/dashboard/toolbar/editorCommands.ts:41 | there is no line break between the line start and `p` |
| EditorCommands.LineEndNoBreak | src/components/features/dashboard/toolbar/editorCommands.ts:41 | there is no line break between `p` and the line end |
| EditorCommands.LineStartIs | src/components/features/dashboard/toolbar/editorCommands.ts:41 | any start of a line that reaches `p` without a break is the line start |
| EditorCommands.LineEndIs | src/components/features/dashboard/toolbar/editorCommands.ts:41 | any line end reached from `p` without a break is the line end |
| EditorCommands.LineAt | src/components/features/dashboard/toolbar/editorCommands.ts:41 | `lineAt(from)` returns bounds around `from` within the document |
| EditorCommands.LineAtIsLine | src/components/features/dashboard/toolbar/editorCommands.ts:41 | `lineAt` returns a whole line: bounded by the document edges or line breaks, with no break inside |
| EditorCommands.LineAfterPrefixEdit | src/components/features/dashboard/toolbar/editorCommands.ts:50-68 | replacing the start of a line by text without line breaks keeps the line start and moves the line end by the length difference |
| EditorCommands.LeadingRun | src/components/features/dashboard/toolbar/editorCommands.ts:121 | the leading run of matching characters is no longer than the text |
| EditorCommands.HeadingMatch | src/components/features/dashboard/toolbar/editorCommands.ts:44-45 | a match of `/^(#+)\s/` has at least one `#` and a white-space character after the run |
| EditorCommands.ChecklistMatch | src/components/features/dashboard/toolbar/editorCommands.ts:121-122 | a match of `/^(\s*)-\s\[([ x])\]\s/` leaves room for the six marker characters after the white space |
| EditorCommands.QuoteMatch | src/components/features/dashboard/toolbar/editorCommands.ts:152-153 | a match of `/^(\s*)>\s/` leaves room for the two marker characters after the white space |
| EditorCommands.HeadingSyntax | src/components/features/dashboard/toolbar/editorCommands.ts:42 | the heading prefix has `level` hashes and one space and no line break |
| EditorCommands.HeadingOfSyntax | src/components/features/dashboard/toolbar/editorCommands.ts:42-45 | a line that starts with the prefix of a positive level matches the heading pattern with that level |
| EditorCommands.LeadingRunExact | src/components/features/dashboard/toolbar/editorCommands.ts:44-45 | the leading run is exactly the length of a prefix of matching characters followed by a non-matching one |
| EditorCommands.InlineTr | src/components/features/dashboard/toolbar/editorCommands.ts:17-32 | the inline transaction fits the document and names a selection within the new one |
| EditorCommands.HeadingTr | src/components/features/dashboard/toolbar/editorCommands.ts:38-77 | the heading transaction fits the document and names a selection within the new one |
| EditorCommands.CodeBlockTr | src/components/features/dashboard/toolbar/editorCommands.ts:81-92 | the code block transaction fits the document and names a cursor within the new one |
| EditorCommands.LinkTrAsWritten | src/components/features/dashboard/toolbar/editorCommands.ts:96-105 | the link transaction, when there is one, fits the document |
| EditorCommands.LinkTr | src/components/features/dashboard/toolbar/editorCommands.ts:96-105 | the closed-link transaction, when there is one, fits the document |
| EditorCommands.ImageTr | src/components/features/dashboard/toolbar/editorCommands.ts:109-113 | the image transaction fits the document |
| EditorCommands.ChecklistTr | src/components/features/dashboard/toolbar/editorCommands.ts:117-145 | the checklist transaction fits the document and names a cursor within the new one |
| EditorCommands.QuoteTr | src/components/features/dashboard/toolbar/editorCommands.ts:148-176 | the quote transaction fits the document and names a cursor within the new one |
| EditorCommands.AfterInline | src/components/features/dashboard/toolbar/editorCommands.ts:17-35 | the state after `toggleInlineFormat` is valid |
| EditorCommands.AfterHeading | src/components/features/dashboard/toolbar/editorCommands.ts:38-78 | the state after `toggleHeading` is valid |
| EditorCommands.AfterCodeBlock | src/components/features/dashboard/toolbar/editorCommands.ts:81-93 | the state after `insertCodeBlock` is valid |
| EditorCommands.AfterLinkAsWritten | src/components/features/dashboard/toolbar/editorCommands.ts:96-106 | the state after `insertLink` as written is valid |
| EditorCommands.AfterLink | src/components/features/dashboard/toolbar/editorCommands.ts:96-106 | the state after the corrected `insertLink` is valid |
| EditorCommands.AfterImage | src/components/features/dashboard/toolbar/editorCommands.ts:109-114 | the state after `insertImageMarkdown` is valid |
| EditorCommands.AfterChecklist | src/components/features/dashboard/toolbar/editorCommands.ts:117-145 | the state after `insertChecklist` is valid |
| EditorCommands.AfterQuote | src/components/features/dashboard/toolbar/editorCommands.ts:148-176 | the state after `toggleQuote` is valid |
| EditorCommands.ChangeWithin | src/components/features/dashboard/toolbar/editorCommands.ts:34 | a change inside a range edits only that range |
| EditorCommands.LineCommandsStayLocal | src/components/features/dashboard/toolbar/editorCommands.ts:38-176 | the heading, checklist and quote commands keep all text outside the current line |
| EditorCommands.SelectionCommandsStayLocal | src/components/features/dashboard/toolbar/editorCommands.ts:17-114 | the inline and link commands keep all text outside the selection; the code block and image commands only insert at its start |
| EditorCommands.InlineFacts | src/components/features/dashboard/toolbar/editorCommands.ts:17-35 | an empty selection gets the doubled marker with the cursor between; a selection is wrapped and still spans the wrapped text; the document grows by twice the marker |
| EditorCommands.EditLineStart | src/components/features/dashboard/toolbar/editorCommands.ts:50-68 | replacing the first `k` characters of a line keeps the rest of the line and the document |
| EditorCommands.HeadingSameLevel | src/components/features/dashboard/toolbar/editorCommands.ts:49-58 | a heading of the same level is removed together with the white-space character after it |
| EditorCommands.HeadingRemoves | src/components/features/dashboard/toolbar/editorCommands.ts:49-58 | the same level leaves the line without its heading prefix |
| EditorCommands.HeadingReplaces | src/components/features/dashboard/toolbar/editorCommands.ts:59-68 | another level has its prefix replaced by the requested one |
| EditorCommands.HeadingAdds | src/components/features/dashboard/toolbar/editorCommands.ts:70-77 | a line without a heading gets the prefix at its start and the cursor after it |
| EditorCommands.PrefixLine | src/components/features/dashboard/toolbar/editorCommands.ts:70-77 | after a one-line prefix is inserted at a line start, the position after it lies on the same, longer line |
| EditorCommands.PrefixText | src/components/features/dashboard/toolbar/editorCommands.ts:70-77 | the line text gains the prefix in front |
| EditorCommands.PrefixUndone | src/components/features/dashboard/toolbar/editorCommands.ts:70-77 | deleting an inserted prefix gives the document back |
| EditorCommands.PrefixedLine | src/components/features/dashboard/toolbar/editorCommands.ts:70-77 | after a prefix insertion with the cursor after it, the cursor is on the same line, which grew by the prefix |
| EditorCommands.PrefixedText | src/components/features/dashboard/toolbar/editorCommands.ts:70-77 | and that line now reads the prefix followed by the old text |
| EditorCommands.HeadingTwice | src/components/features/dashboard/toolbar/editorCommands.ts:38-78 | toggling the same positive level twice on a line without a heading restores the document |
| EditorCommands.CodeBlockFacts | src/components/features/dashboard/toolbar/editorCommands.ts:81-93 | the block is inserted at the selection start and the cursor lands on the placeholder line |
| EditorCommands.LinkFacts | src/components/features/dashboard/toolbar/editorCommands.ts:96-106 | a cancelled or empty prompt changes nothing; otherwise the selection, or `link`, becomes the text of a closed link to the URL |
| EditorCommands.LinkIsLink | src/components/features/dashboard/toolbar/editorCommands.ts:103 | `[text](url)` is an inline link to `url` with text `text` |
| EditorCommands.LinkAsWrittenUnclosed | src/components/features/dashboard/toolbar/editorCommands.ts:103-105 | the as-written insertion lacks the closing parenthesis, so it is no link for a URL not ending in `)` |
| EditorCommands.ImageFacts | src/components/features/dashboard/toolbar/editorCommands.ts:109-114 | the image markdown is inserted at the selection start |
| EditorCommands.ChecklistOfBox | src/components/features/dashboard/toolbar/editorCommands.ts:121 | a line starting with `- [ ] ` matches the checklist pattern with no white space |
| EditorCommands.ChecklistAdds | src/components/features/dashboard/toolbar/editorCommands.ts:134-144 | a line without a box gets `- [ ] ` at its start and the cursor after it |
| EditorCommands.ChecklistRemoves | src/components/features/dashboard/toolbar/editorCommands.ts:124-133 | a box after leading white space is removed and the white space kept |
| EditorCommands.ChecklistSecond | src/components/features/dashboard/toolbar/editorCommands.ts:124-133 | a box at the very start of the line is removed |
| EditorCommands.ChecklistTwice | src/components/features/dashboard/toolbar/editorCommands.ts:117-145 | toggling the checklist twice on a line without a box restores the document |
| EditorCommands.QuoteOfMarker | src/components/features/dashboard/toolbar/editorCommands.ts:152 | a line starting with `> ` matches the quote pattern with no white space |
| EditorCommands.QuoteAdds | src/components/features/dashboard/toolbar/editorCommands.ts:165-175 | a line without a marker gets `> ` at its start and the cursor after it |
| EditorCommands.QuoteRemoves | src/components/features/dashboard/toolbar/editorCommands.ts:155-164 | a marker after leading white space is removed and the white space kept |
| EditorCommands.QuoteSecond | src/components/features/dashboard/toolbar/editorCommands.ts:155-164 | a marker at the very start of the line is removed |
| EditorCommands.QuoteTwice | src/components/features/dashboard/toolbar/editorCommands.ts:148-176 | toggling the quote twice on a line without a marker restores the document |
| EditorCommands.ToggleInlineFormat | src/components/features/dashboard/toolbar/editorCommands.ts:17-35 | the view ends in the state `AfterInline` describes |
| EditorCommands.ToggleHeading | src/components/features/dashboard/toolbar/editorCommands.ts:38-78 | the view ends in the state `AfterHeading` describes |
| EditorCommands.InsertCodeBlock | src/components/features/dashboard/toolbar/editorCommands.ts:81-93 | the view ends in the state `AfterCodeBlock` describes |
| EditorCommands.InsertLink | src/components/features/dashboard/toolbar/editorCommands.ts:96-106 | the view ends in the state of the as-written link command; a cancelled or empty prompt leaves it unchanged |
| EditorCommands.InsertImageMarkdown | src/components/features/dashboard/toolbar/editorCommands.ts:109-114 | the view ends in the state `AfterImage` describes |
| EditorCommands.InsertChecklist | src/components/features/dashboard/toolbar/editorCommands.ts:117-145 | the view ends in the state `AfterChecklist` describes |
| EditorCommands.ToggleQuote | src/components/features/dashboard/toolbar/editorCommands.ts:148-176 | the view ends in the state `AfterQuote` describes |
| EditorCommands.AfterCommand | src/components/features/dashboard/toolbar/editorCommands.ts:6-14 | every command leaves a valid state |
| EditorCommands.ExecuteCommand | src/components/features/dashboard/toolbar/editorCommands.ts:6-14 | without a view nothing happens; with one, the command runs on it |
| EditorToolbar.HeadingLine | src/components/features/dashboard/editorToolbar.tsx:67-83 | the rewritten line text has no line break when the line had none |
| EditorToolbar.HeadingLineTwice | src/components/features/dashboard/editorToolbar.tsx:63-90 | applying the same positive level twice to a line without that level gives the line back without its heading prefix, or unchanged when it had none |
| EditorToolbar.RewriteHeadingTr | src/components/features/dashboard/editorToolbar.tsx:85-89 | the whole-line transaction fits the document |
| EditorToolbar.AfterRewriteHeading | src/components/features/dashboard/editorToolbar.tsx:63-90 | the state after the toolbar `toggleHeading` is valid |
| EditorToolbar.MapSelInReplaced | src/components/features/dashboard/editorToolbar.tsx:85-89 | a selection starting in the replaced line starts inside the new line text once carried through |
| EditorToolbar.ReplacedLine | src/components/features/dashboard/editorToolbar.tsx:85-89 | after the line is replaced by text without breaks, the selection start is on that line, which spans the new text |
| EditorToolbar.RewriteHeadingState | src/components/features/dashboard/editorToolbar.tsx:85-89 | the toggle replaces the whole current line and names no selection |
| EditorToolbar.RewriteHeadingLine | src/components/features/dashboard/editorToolbar.tsx:63-90 | the document is the old one with the line text rewritten, and the selection start is on the rewritten line |
| EditorToolbar.RewriteHeadingDoc | src/components/features/dashboard/editorToolbar.tsx:63-90 | the document is the old one with the current line rewritten |
| EditorToolbar.SameDocumentRemoving | src/components/features/dashboard/editorToolbar.tsx:74-76 | removing the same level gives the same document as the command module |
| EditorToolbar.SameDocumentReplacing | src/components/features/dashboard/editorToolbar.tsx:77-79 | replacing another level gives the same document as the command module |
| EditorToolbar.SameDocumentAdding | src/components/features/dashboard/editorToolbar.tsx:80-83 | adding a heading gives the same document as the command module |
| EditorToolbar.SameDocumentAsCommands | src/components/features/dashboard/editorToolbar.tsx:63-90 | the whole-line rewrite and the prefix edit of the command module always leave the same document |
| EditorToolbar.RewriteHeadingTwiceDoc | src/components/features/dashboard/editorToolbar.tsx:63-90 | two toggles of one level rewrite the line with the line function applied twice |
| EditorToolbar.RewriteHeadingTwice | src/components/features/dashboard/editorToolbar.tsx:63-90 | on a line without a heading, toggling a positive level twice restores the document |
| EditorToolbar.RewriteHeadingTwiceOther | src/components/features/dashboard/editorToolbar.tsx:63-90 | on a line with another level, toggling twice leaves the line without its heading prefix |
| EditorToolbar.RewriteHeadingStaysLocal | src/components/features/dashboard/editorToolbar.tsx:85-89 | the toggle keeps all text outside the current line |
| EditorToolbar.RewriteHeading | src/components/features/dashboard/editorToolbar.tsx:63-90 | the view ends in the state `AfterRewriteHeading` describes |
| EditorToolbar.InsertClosedLink | src/components/features/dashboard/editorToolbar.tsx:108-118 | the view ends in the state of the closed-link command: `[text](url)`, `link` for an empty selection, no change for an empty or cancelled prompt |
| EditorToolbar.AfterItem | src/components/features/dashboard/editorToolbar.tsx:121-185 | every button leaves a valid state |
| EditorToolbar.QuoteItemIsHeadingOne | src/components/features/dashboard/editorToolbar.tsx:167-172 | the quote button does what the first heading button does and, on a plain line, inserts `# ` |
| EditorToolbar.Press | src/components/features/dashboard/editorToolbar.tsx:28-37 | without a view nothing happens; with one, the button's command runs on it |
| MainEditor.Pad2 | src/components/features/dashboard/main/Editor.tsx:122-125 | a padded number has at least two digits and, below 100, exactly two that read back as the number |
| MainEditor.FormatDate | src/components/features/dashboard/main/Editor.tsx:120-127 | no date gives the no-date text; a date gives text ending in a space, two digits reading back as the hour, a colon and two digits reading back as the minute |
| MainEditor.FormatDateReadsBack | src/components/features/dashboard/main/Editor.tsx:126 | the text before the slash reads back as the month and the text between slash and space as the day of the month |
| MainEditor.FormattingTr | src/components/features/dashboard/main/Editor.tsx:133-138 | the change replaces the selection with the marker, the selected text and the marker, and names no selection |
| MainEditor.AfterFormatting | src/components/features/dashboard/main/Editor.tsx:129-140 | the edited state is valid |
| MainEditor.FormattingFacts | src/components/features/dashboard/main/Editor.tsx:129-140 | the selection is wrapped, the document grows by twice the marker; a cursor stays in front of the markers, a range grows to cover the wrapped text |
| MainEditor.FormattingVsToolbar | src/components/features/dashboard/main/Editor.tsx:129-140 | the key binding writes the same document as the toolbar's inline toggle, and ends in the same state exactly when the selection is non-empty or the marker empty |
| MainEditor.ToggleMarkdownFormatting | src/components/features/dashboard/main/Editor.tsx:129-140 | the key is reported handled and the view ends in the wrapped state |
| MainEditor.AdjustViewMode | src/components/features/dashboard/main/Editor.tsx:189-195 | the layout ends settled (no editor-only on a desktop, no split off it), a settled layout is kept, and only editor-only and split are ever changed |
| MainEditor.AdjustViewModeSettles | src/components/features/dashboard/main/Editor.tsx:189-195 | a second run of the effect changes nothing |
| MainEditor.InitialViewMode | src/components/features/dashboard/main/Editor.tsx:186 | the first layout is settled and is not the preview |
| MainEditor.SplitLines | src/components/features/dashboard/main/Editor.tsx:204 | at least one piece, none containing a line break |
| MainEditor.JoinSplit | src/components/features/dashboard/main/Editor.tsx:204-206 | joining the pieces with line breaks gives the text back |
| MainEditor.SplitTitleFacts | src/components/features/dashboard/main/Editor.tsx:203-208 | the title is the text before the first line break and the body the text after it; without a line break the body is empty |
| MainEditor.SplitTitleRoundTrip | src/components/features/dashboard/main/Editor.tsx:203-208 | a title without line breaks, a line break and a body split back into that title and body |
| MainEditor.ExistingOf | src/components/features/dashboard/main/Editor.tsx:234-243 | one editor reminder per stored reminder, with its id, original text, time and done flag |
| MainEditor.AsExisting | src/components/features/dashboard/main/Editor.tsx:245-246 | the parser sees each reminder's original text and date |
| MainEditor.Find | src/components/features/dashboard/main/Editor.tsx:256-258 | the first reminder with the original text, or none when no reminder has it |
| MainEditor.ExistingMatchesFind | src/components/features/dashboard/main/Editor.tsx:245-258 | the parser knows a date for an original text exactly when the editor finds a reminder with it |
| MainEditor.TempId | src/components/features/dashboard/main/Editor.tsx:260 | a temporary id is non-empty and starts with `temp-` |
| MainEditor.Reconcile | src/components/features/dashboard/main/Editor.tsx:255-266 | a match keeps its done flag, its id unless empty, its switch (on when unset) and, while editing, its date; no match gives a temporary id, not done, switched on, the parsed date; text and original text come from the parse |
| MainEditor.Reconciled | src/components/features/dashboard/main/Editor.tsx:250-266 | the list is never longer than the parse |
| MainEditor.ReconciledFrom | src/components/features/dashboard/main/Editor.tsx:250-266 | every listed reminder is the reconciliation of a parsed reminder with a valid date |
| MainEditor.ReconciledAllDated | src/components/features/dashboard/main/Editor.tsx:250-266 | when every parsed reminder has a date, the list keeps them all in order |
| MainEditor.ParsedRemindersDated | src/components/features/dashboard/main/Editor.tsx:245-247 | every parsed reminder has a date, and a known original text brings the date of the last known reminder with that text |
| MainEditor.TagNames | src/components/features/dashboard/main/Editor.tsx:248 | the tag texts of the parsed tags, in order |
| MainEditor.ResetRemindersFacts | src/components/features/dashboard/main/Editor.tsx:229-269 | after loading, a matched reminder keeps the first match's done flag and id and takes the last stored date for its text; an unmatched one is new, not done and on |
| MainEditor.EditRemindersFacts | src/components/features/dashboard/main/Editor.tsx:286-325 | while editing, a matched reminder keeps everything of the match but its text; an unmatched one is new, not done and on |
| MainEditor.EditRemindersHaveIds | src/components/features/dashboard/main/Editor.tsx:305-319 | after a parse every reminder has a non-empty id and a set switch |
| MainEditor.ParseAgainst | src/components/features/dashboard/main/Editor.tsx:245-266 | the tags are the parsed tag texts and the reminders the reconciled parse |
| MainEditor.NoteEditor.constructor | src/components/features/dashboard/main/Editor.tsx:171-175 | the editor starts empty |
| MainEditor.NoteEditor.ResetFromNote | src/components/features/dashboard/main/Editor.tsx:229-269 | the buffer is the title line and the content; tags and reminders are the parse of it against the stored reminders, dates from the parse |
| MainEditor.NoteEditor.SetContent | src/components/features/dashboard/main/Editor.tsx:171 | only the buffer changes |
| MainEditor.NoteEditor.ParseEffect | src/components/features/dashboard/main/Editor.tsx:286-325 | the run right after loading is skipped; otherwise tags and reminders are the parse of the buffer against the current reminders, dates kept |
| MainEditor.NoteEditor.Save | src/components/features/dashboard/main/Editor.tsx:327-339 | the saved note is the title line, the body, the tags and the reminders |
| MainEditor.LoadThenSaveRoundTrip | src/components/features/dashboard/main/Editor.tsx:229-231 | saving right after loading a note whose title has no line break gives back its title and content |
| DashboardEditor.LastByText | src/components/features/dashboard/editor.tsx:177-180 | the last reminder with the text, or none exactly when no reminder has it |
| DashboardEditor.MergeOne | src/components/features/dashboard/editor.tsx:179-188 | a stored reminder with the same text lends its date; everything else is the parse's, and without one the parse is unchanged |
| DashboardEditor.Merged | src/components/features/dashboard/editor.tsx:174-189 | one entry per parsed reminder; with nothing stored, exactly the parsed reminders |
| DashboardEditor.MergedIdempotent | src/components/features/dashboard/editor.tsx:174-189 | merging again with the same stored reminders changes nothing |
| DashboardEditor.Fresh | src/components/features/dashboard/editor.tsx:219-226 | one editor reminder per fetched row, with its id, text, time, done flag and `@text.` |
| DashboardEditor.Drafts | src/components/features/dashboard/editor.tsx:234-243 | every draft has no id, the note's id, is not done and has a text |
| DashboardEditor.DraftsFrom | src/components/features/dashboard/editor.tsx:234-243 | every draft carries the text, date and original text of a parsed reminder with a text |
| DashboardEditor.DraftsKeepAll | src/components/features/dashboard/editor.tsx:234-243 | when every parsed reminder has a text, there is one draft per reminder, in order |
| DashboardEditor.Finalize | src/components/features/dashboard/editor.tsx:249-266 | a match by text gives the fetched id, done flag and date; otherwise the draft is unchanged |
| DashboardEditor.Finalized | src/components/features/dashboard/editor.tsx:248-266 | one saved reminder per draft, each finalized |
| DashboardEditor.SavedRemindersFacts | src/components/features/dashboard/editor.tsx:234-266 | a saved reminder has a text; unmatched ones have no id and are not done, matched ones take the fetched id, done flag and date |
| DashboardEditor.TagNames | src/components/features/dashboard/editor.tsx:233 | the parsed tag texts in order |
| DashboardEditor.SavedTags | src/components/features/dashboard/editor.tsx:165-233 | the saved tags are the content's tag texts in order of appearance, repeats included |
| DashboardEditor.ParseContent | src/components/features/dashboard/editor.tsx:165-189 | the tag texts of the hook and the hook's reminders, dated by its hour rule as written, merged with the stored ones |
| DashboardEditor.SavedOf | src/components/features/dashboard/editor.tsx:273-280 | the saved note has the note's id, the current title, content and tags, the finalized reminders and the save time |
| DashboardEditor.EveryParsedReminderSaved | src/components/features/dashboard/editor.tsx:234-243 | every reminder the hook finds makes a draft |
| DashboardEditor.NoteEditorPanel.constructor | src/components/features/dashboard/editor.tsx:162-164 | the fields show the note and nothing is edited |
| DashboardEditor.NoteEditorPanel.ShowNote | src/components/features/dashboard/editor.tsx:168-172 | another note resets both fields and the edited flag |
| DashboardEditor.NoteEditorPanel.EditTitle | src/components/features/dashboard/editor.tsx:436-438 | the title changes and the editor is marked edited |
| DashboardEditor.NoteEditorPanel.EditContent | src/components/features/dashboard/editor.tsx:544-546 | the content changes and the editor is marked edited |
| DashboardEditor.NoteEditorPanel.Save | src/components/features/dashboard/editor.tsx:191-287 | a failed fetch saves nothing and changes nothing; otherwise the saved note is built from the current fields and the fetched reminders, and the editor leaves the edit mode clean |
| DashboardEditor.NoteEditorPanel.Cancel | src/components/features/dashboard/editor.tsx:297-302 | the fields show the note again, the edited flag is cleared and the edit mode left |
| UseNotes.NotesStore.constructor | src/hooks/useNotes.ts:5 | the hook starts with an empty note list |
| UseNotes.NotesStore.AddNote | src/hooks/useNotes.ts:47-49 | the note is appended: one more note, the earlier ones unchanged and in place |
| UseNotes.NotesStore.UpdateNote | src/hooks/useNotes.ts:52-60 | the new list is `Updated`: same length, every note with the updated id replaced by the update stamped with the clock reading, every other note unchanged |
| UseNotes.Updated | src/hooks/useNotes.ts:53-59 | per index: a note with another id is kept, a note with the same id becomes the update with `updatedAt` = now; the length is kept |
| UseNotes.UpdateKeepsIds | src/hooks/useNotes.ts:52-60 | updating never changes the id at any position |
| UseNotes.UpdateIdempotent | src/hooks/useNotes.ts:52-60 | applying the same update twice equals applying it once |
| UseNotes.DeleteAfterUpdate | src/hooks/useNotes.ts:52-65 | deleting the updated id after an update gives what deleting it without the update gives, so the update touched no other note |
| UseNotes.NotesStore.DeleteNote | src/hooks/useNotes.ts:63-65 | the new list is `Deleted(old, id)` |
| UseNotes.Deleted | src/hooks/useNotes.ts:63-65 | a note survives iff it was there and its id differs; the survivors keep their order (subsequence) |
| UseNotes.DeleteAfterAdd | src/hooks/useNotes.ts:47-65 | deleting the id of a note just appended gives the same list as deleting it before the append |
| UseNotes.DeleteIdempotent | src/hooks/useNotes.ts:63-65 | deleting the same id twice equals deleting it once |
| UseNotes.NotesStore.GetNotesByTag | src/hooks/useNotes.ts:68-70 | a note is returned iff it is in the list and carries exactly that tag; list order is kept |
| UseNotes.NotesStore.GetNotesByDate | src/hooks/useNotes.ts:73-82 | a note is returned iff it was created on the same local day as the date; list order is kept |
| UseNotes.NotesStore.GetAllTags | src/hooks/useNotes.ts:85-91 | the result is the distinct tags in first-occurrence order: no duplicates, and a string is in it iff some note carries it |
| UseNotes.AllTagsMembership | src/hooks/useNotes.ts:85-91 | a string is among the concatenated tags iff some note carries it |
| UsePlans.PlansStore.constructor | src/hooks/usePlans.ts:5 | the hook starts with an empty plan list |
| UsePlans.PlansStore.AddPlan | src/hooks/usePlans.ts:45-47 | the plan is appended; earlier plans unchanged and in place |
| UsePlans.PlansStore.UpdatePlan | src/hooks/usePlans.ts:50-58 | the new list is `Updated(old, u)` |
| UsePlans.Updated | src/hooks/usePlans.ts:51-57 | per index: a plan with the updated id becomes the update, every other plan is kept; the length is kept |
| UsePlans.PlansStore.DeletePlan | src/hooks/usePlans.ts:61-63 | the new list is `Deleted(old, id)` |
| UsePlans.Deleted | src/hooks/usePlans.ts:61-63 | a plan survives iff it was there and its id differs; order kept |
| UsePlans.PlansStore.TogglePlanCompleted | src/hooks/usePlans.ts:66-74 | the new list is `Toggled(old, id)` |
| UsePlans.Toggled | src/hooks/usePlans.ts:67-73 | per index: a plan with that id has `completed` negated, every other plan is kept; the length is kept |
| UsePlans.ToggleTwice | src/hooks/usePlans.ts:66-74 | toggling the same id twice restores the list |
| UsePlans.ToggleOnlyCompletion | src/hooks/usePlans.ts:66-74 | a toggle changes no field other than `completed` |
| UsePlans.PlansStore.GetPlansByTag | src/hooks/usePlans.ts:77-79 | a plan is returned iff it carries exactly that tag; order kept |
| UsePlans.PlansStore.GetPlansByDate | src/hooks/usePlans.ts:82-95 | a plan is returned iff its start day <= the date's day <= its end day (local days, both ends inclusive); order kept |
| UsePlans.RunsOnDays | src/hooks/usePlans.ts:83-93 | comparing local midnights against 23:59:59.999 of the end day is the same as comparing day numbers |
| UsePlans.PlansStore.GetPlansByPriority | src/hooks/usePlans.ts:98-100 | a plan is returned iff it has that priority; order kept |
| UsePlans.PlansStore.GetPlansByCompletionStatus | src/hooks/usePlans.ts:103-105 | a plan is returned iff its `completed` equals the argument; order kept |
| UsePlans.CompletionSplit | src/hooks/usePlans.ts:103-105 | every plan is returned by exactly one of the two completion filters |
| UsePlans.PlansStore.GetAllTags | src/hooks/usePlans.ts:108-114 | the distinct plan tags in first-occurrence order: no duplicates, and a string is in it iff some plan carries it |
| UsePlans.AllTagsMembership | src/hooks/usePlans.ts:108-114 | a string is among the concatenated tags iff some plan carries it |
| UseSearch.TagPool | src/hooks/useSearch.ts:22-34 | the pooled tags have no duplicates, and a string is in the pool iff some note or some plan carries it |
| UseSearch.Search | src/hooks/useSearch.ts:37-75 | a blank query gives empty notes, plans and tags; otherwise a note is found iff its lowered title, content or some lowered tag contains the lowered query, a plan likewise on title, description or tag, and a tag iff it is in the pool and contains the query; found notes and plans keep input order, found tags are distinct |
| UseSearch.MatchedTagsAreCarried | src/hooks/useSearch.ts:64-68 | every found tag is carried by some note or some plan |
| UseSearch.SearchAgainFindsSame | src/hooks/useSearch.ts:50-62 | searching the found notes and plans again with the same query finds all of them again |
| UseSearch.SearchHook.constructor | src/hooks/useSearch.ts:14-19 | the hook starts with an empty query and empty results, consistent with its invariant |
| UseSearch.SearchHook.GetAllTags | src/hooks/useSearch.ts:22-34 | the loops over notes and then plans return exactly `TagPool` |
| UseSearch.SearchHook.PerformSearch | src/hooks/useSearch.ts:37-75 | the stored results become `Search(notes, plans, query)`; data and query are untouched |
| UseSearch.SearchHook.SetSearchQuery | src/hooks/useSearch.ts:77-80 | after a new query and its effect, the stored results are those of that query |
| UseSearch.SearchHook.SetData | src/hooks/useSearch.ts:77-87 | after new notes or plans and the effects, the stored results are those of the current query on the new data |
| AmnesiaUseSearch.SearchNotes | Amnesia/src/hooks/useSearch.ts:7-20 | a blank term returns the input unchanged; otherwise a note is kept iff its lowered title, content or some lowered tag contains the lowered term; the result is an order-preserving subsequence |
| AmnesiaUseSearch.SearchNotesIdempotent | Amnesia/src/hooks/useSearch.ts:7-20 | searching the result again with the same term changes nothing |
| AmnesiaUseSearchMemo.SearchResults | Amnesia/src/hooks/useSearch.tsx:7-23 | the memoised results never add a note and keep order (a subsequence of the notes); a blank term gives all notes |
| AmnesiaUseSearchMemo.ResultsKeepIff | Amnesia/src/hooks/useSearch.tsx:11-18 | a note is in the results iff it was given and the term is blank or its title, content or some tag contains the term case-insensitively |
| AmnesiaUseSearchMemo.ResultsStable | Amnesia/src/hooks/useSearch.tsx:7-23 | filtering the results again with the same term returns them unchanged |
| NoteListPanel.PinThenRecentTotal | src/components/features/dashboard/NoteList.tsx:44-47 | the pin-then-recency comparator is a total preorder, so the stable sort is well defined |
| NoteListPanel.Arranged | src/components/features/dashboard/NoteList.tsx:44-48 | the arranged list is a permutation of the input, pinned notes first, and within the same pin state newest first |
| NoteListPanel.ArrangedHits | src/components/features/dashboard/NoteList.tsx:60-66 | the arranged hits are exactly the notes the filter keeps, as a sub-multiset of the input, pinned first then newest first |
| NoteListPanel.Shown | src/components/features/dashboard/NoteList.tsx:40-98 | every stored list is pinned-first then newest-first and a sub-multiset of the notes; a blank term shows all notes; with the native answer a note is shown iff its id is in the returned list; otherwise iff its lowered title, preview (missing = empty) or some tag (missing = none) contains the lowered term |
| NoteListPanel.ShownNoDups | src/components/features/dashboard/NoteList.tsx:40-98 | no note is shown twice when none is listed twice |
| NoteListPanel.ContentPreview | src/components/features/dashboard/NoteList.tsx:100-103 | a missing or empty preview gives the placeholder; otherwise the text is kept as a prefix, with `...` appended iff it has at least 100 characters (noteList.tsx:36-39 is the same function) |
| NoteListPanel.NoteList.constructor | src/components/features/dashboard/NoteList.tsx:27-51 | after mounting and the first search effect the list shows every note, arranged |
| NoteListPanel.NoteList.Search | src/components/features/dashboard/NoteList.tsx:40-98 | the effect stores `Shown` for the debounced term and leaves the other fields alone |
| NoteListPanel.NoteList.SetSearchTerm | src/components/features/dashboard/NoteList.tsx:27-38 | typing changes only the typed term, not the shown list |
| NoteListPanel.NoteList.DebounceElapsed | src/components/features/dashboard/NoteList.tsx:33-38 | when the delay elapses the typed term becomes the debounced term and the shown list is recomputed for it |
| NoteListPanel.NoteList.SetNotes | src/components/features/dashboard/NoteList.tsx:97-98 | new notes rerun the search for the debounced term |
| PlainNoteList.RecentTotal | src/components/features/dashboard/noteList.tsx:34 | the recency comparator is a total preorder |
| PlainNoteList.FilteredNotes | src/components/features/dashboard/noteList.tsx:23-34 | a note is shown iff its lowered title, preview or some tag contains the lowered term (no blank-term shortcut); the list is newest first and a sub-multiset of the notes |
| PlainNoteList.EmptyTermKeepsAll | src/components/features/dashboard/noteList.tsx:23-34 | the empty term shows every note |
| PlanManager.FilteredPlans | src/components/features/dashboard/planManager.tsx:76-81 | `all` keeps every plan; `completed` keeps exactly the completed plans; `upcoming` keeps exactly the uncompleted plans starting at or after now; order kept |
| PlanManager.CompletedUpcomingDisjoint | src/components/features/dashboard/planManager.tsx:76-81 | no plan is kept by both the `completed` and the `upcoming` filter |
| PlanManager.Flipped | src/components/features/dashboard/planManager.tsx:121-126 | the submitted plan differs from the shown one in `completed` only, which is negated |
| PlanManager.FlippedUpdateIsToggle | src/components/features/dashboard/planManager.tsx:121-126 | when the shown plan is the stored one, submitting it flipped through `updatePlan` equals `togglePlanCompleted` on its id |
| PlanManager.BlankPlan | src/components/features/dashboard/planManager.tsx:64-73 | the default form: empty id, title and tags, not completed, medium priority, ending one hour after it starts |
| PlanManager.PlanManagerPanel.constructor | src/components/features/dashboard/planManager.tsx:60-74 | the view starts on `all`, with nothing being edited, the default form and the dialog closed |
| PlanManager.PlanManagerPanel.HandleCreatePlan | src/components/features/dashboard/planManager.tsx:95-112 | the form is sent with an id made from the clock reading, then the form is reset to its defaults and the dialog closes |
| PlanManager.PlanManagerPanel.ClickSave | src/components/features/dashboard/planManager.tsx:576 | while the title is empty the save button does nothing; otherwise it creates the plan |
| PlanManager.PlanManagerPanel.HandleUpdatePlan | src/components/features/dashboard/planManager.tsx:114-119 | with no plan being edited nothing is sent; otherwise the edited plan is sent and editing ends |
| PlanManager.PlanManagerPanel.TogglePlanCompletion | src/components/features/dashboard/planManager.tsx:121-126 | exactly one update request, carrying the flipped plan, is sent |
| AmnesiaPlanManager.CalculateProgress | Amnesia/src/components/features/PlanManager/PlanManager.tsx:10-14 | the progress is an integer in [0, 100]; 0 without tasks or when no task is done, 100 when every task is done |
| AmnesiaPlanManager.ShareBounds | Amnesia/src/components/features/PlanManager/PlanManager.tsx:12-13 | the exact share `done/total*100` lies in [0, 100], is 0 when nothing is done and 100 when everything is |
| AmnesiaPlanManager.RoundPercent | Amnesia/src/components/features/PlanManager/PlanManager.tsx:13 | `Math.round` of a value in [0, 100] stays in [0, 100] and keeps 0 and 100 |
| AmnesiaPlanManager.WithTask | Amnesia/src/components/features/PlanManager/PlanManager.tsx:19-31 | per index: a plan with that id gets the task appended to its tasks, every other plan is unchanged; the length is kept |
| AmnesiaPlanManager.AddedTaskIsOpen | Amnesia/src/components/features/PlanManager/PlanManager.tsx:19-31 | in each matching plan the task count grows by one while the completed count stays the same |
| AmnesiaPlanManager.TasksToggled | Amnesia/src/components/features/PlanManager/PlanManager.tsx:40-42 | per index: the task with that id has `completed` negated, every other task is unchanged |
| AmnesiaPlanManager.PlansTaskToggled | Amnesia/src/components/features/PlanManager/PlanManager.tsx:35-47 | per index: within a plan with that id the task list is `TasksToggled`, every other plan is unchanged |
| AmnesiaPlanManager.ToggleTaskTwice | Amnesia/src/components/features/PlanManager/PlanManager.tsx:35-47 | toggling the same task twice restores every plan |
| AmnesiaPlanManager.PlanBoard.constructor | Amnesia/src/components/features/PlanManager/PlanManager.tsx:6-7 | the board starts with no plans and an empty input |
| AmnesiaPlanManager.PlanBoard.SetNewTask | Amnesia/src/components/features/PlanManager/PlanManager.tsx:98 | typing changes only the input text |
| AmnesiaPlanManager.PlanBoard.AddTask | Amnesia/src/components/features/PlanManager/PlanManager.tsx:16-33 | with blank input nothing changes; otherwise one uncompleted task carrying the typed text is appended to the plans with that id only, and the input is cleared |
| AmnesiaPlanManager.PlanBoard.ToggleTask | Amnesia/src/components/features/PlanManager/PlanManager.tsx:35-47 | the plans become `PlansTaskToggled`; the input is untouched |
| AmnesiaEditor.AddedTag | Amnesia/src/components/features/Editor/Editor.tsx:53-60 | the trimmed input is appended iff it is non-empty and not yet present; otherwise the list is unchanged; membership is the old tags plus the accepted one |
| AmnesiaEditor.AddedTagNoDups | Amnesia/src/components/features/Editor/Editor.tsx:53-60 | a duplicate-free tag list stays duplicate-free after an add |
| AmnesiaEditor.RemovedTag | Amnesia/src/components/features/Editor/Editor.tsx:63-65 | every copy of the tag is gone, every other tag stays, in order |
| AmnesiaEditor.RemoveUndoesAdd | Amnesia/src/components/features/Editor/Editor.tsx:53-67 | removing a tag that was just added (and was not there before) restores the list |
| AmnesiaEditor.NoteEditor.constructor | Amnesia/src/components/features/Editor/Editor.tsx:25-29 | the editor starts from the note's title, content and tags, with an empty tag input and a clean state |
| AmnesiaEditor.NoteEditor.ShowNote | Amnesia/src/components/features/Editor/Editor.tsx:32-37 | a new note resets title, content and tags from it and clears the dirty flag |
| AmnesiaEditor.NoteEditor.HandleSave | Amnesia/src/components/features/Editor/Editor.tsx:40-50 | exactly one save request goes out, carrying the note with the current title, content and tags and `updatedAt` = now; the editor becomes clean |
| AmnesiaEditor.NoteEditor.ClickSave | Amnesia/src/components/features/Editor/Editor.tsx:91-96 | while the editor is clean the save button sends nothing |
| AmnesiaEditor.NoteEditor.ClickDelete | Amnesia/src/components/features/Editor/Editor.tsx:82-90 | one delete request for the note's id goes out; nothing else changes |
| AmnesiaEditor.NoteEditor.EditTitle | Amnesia/src/components/features/Editor/Editor.tsx:103-108 | the title changes and the editor becomes dirty |
| AmnesiaEditor.NoteEditor.EditContent | Amnesia/src/components/features/Editor/Editor.tsx:143-148 | the content changes and the editor becomes dirty |
| AmnesiaEditor.NoteEditor.EditNewTag | Amnesia/src/components/features/Editor/Editor.tsx:130-132 | only the tag input changes |
| AmnesiaEditor.NoteEditor.HandleAddTag | Amnesia/src/components/features/Editor/Editor.tsx:53-60 | the tags become `AddedTag`; an accepted tag clears the input and marks the editor dirty, a rejected one changes nothing |
| AmnesiaEditor.NoteEditor.HandleTagKeyDown | Amnesia/src/components/features/Editor/Editor.tsx:70-75 | Enter behaves like the add button; any other key changes nothing |
| AmnesiaEditor.NoteEditor.HandleRemoveTag | Amnesia/src/components/features/Editor/Editor.tsx:63-67 | the tags become `RemovedTag` and the editor is dirty |
| AmnesiaDb.HexKey | Amnesia/src/services/db.ts:61 | the key has one character per draw, each a lowercase hex digit, namely the digit of its draw |
| AmnesiaDb.OrElse | Amnesia/src/services/db.ts:32-36 | a present non-empty value is kept; a missing or empty one is replaced by the fallback |
| AmnesiaDb.NewUser | Amnesia/src/services/db.ts:28-37 | the new user carries the given id, email, social id and provider; the key defaults to the empty string and the creation time to the clock text |
| AmnesiaDb.WithMember | Amnesia/src/services/db.ts:113-118 | the user is a member afterwards; membership is the old members plus the user; nothing but the members changes, and an existing member changes nothing |
| AmnesiaDb.WithMemberIdempotent | Amnesia/src/services/db.ts:107-119 | adding the same member twice equals adding once |
| AmnesiaDb.WithMemberNoDups | Amnesia/src/services/db.ts:113-114 | a duplicate-free member list stays duplicate-free |
| AmnesiaDb.DatabaseService.constructor | Amnesia/src/services/db.ts:123-132 | with nothing stored both lists read as empty |
| AmnesiaDb.DatabaseService.CreateUser | Amnesia/src/services/db.ts:28-45 | exactly one user, `NewUser`, is appended and returned; the groups are unchanged |
| AmnesiaDb.DatabaseService.FindUserByKey | Amnesia/src/services/db.ts:48-52 | `None` iff no user has exactly that key; otherwise the first such user |
| AmnesiaDb.DatabaseService.FindOrCreate | Amnesia/src/services/db.ts:55-72 | an existing user with the same social id and provider is returned with nothing added; otherwise exactly one user is added, with a 16-digit hex key, that social id, provider and email |
| AmnesiaDb.DatabaseService.CreateGroup | Amnesia/src/services/db.ts:78-97 | one group is appended and returned; its key is 16 lowercase hex digits and the owner is its only member |
| AmnesiaDb.DatabaseService.FindGroupByKey | Amnesia/src/services/db.ts:100-104 | `None` iff no group has exactly that key; otherwise the first such group |
| AmnesiaDb.DatabaseService.AddMember | Amnesia/src/services/db.ts:107-119 | an unknown group gives `None` and changes nothing; otherwise only the first group with that id changes, to `WithMember`, and it is returned |
| AmnesiaDb.AddMemberTwice | Amnesia/src/services/db.ts:107-119 | a second `addMember` of the same user leaves the groups as the first one left them |
| DataStore.FormatEditorReminder | src/stores/dataStore.ts:9-15 | the reminder keeps the row's id, completion and time; its text is the row's text and its original text is that text between `@` and `.`, so dropping the first and last characters gives the text back |
| DataStore.RelatedReminders | src/stores/dataStore.ts:19-21 | a note gets exactly one reminder per reminder row whose note id is its id, in row order, each formatted from that row |
| DataStore.RelatedFromRows | src/stores/dataStore.ts:19-21 | every row of the note yields one of its reminders and every reminder of the note comes from such a row |
| DataStore.RelatedConcat | src/stores/dataStore.ts:19-21 | the reminders of two batches of rows are those of the first batch followed by those of the second |
| DataStore.OtherRowsIrrelevant | src/stores/dataStore.ts:19-21 | adding reminder rows of other notes leaves a note's reminders unchanged |
| DataStore.FormatNote | src/stores/dataStore.ts:17-38 | the note copies the row's fields, reads a missing `is_public` as false and missing tags as none, and carries the note's related reminders |
| DataStore.ErrorText | src/stores/dataStore.ts:89-91 | the stored error is the thrown message, or the default load-failure text when the message is missing or empty |
| DataStore.NoteStore.FetchInitialData | src/stores/dataStore.ts:70-93 | a failed notes or reminders query stores its error text and keeps the notes; otherwise the error is cleared and the stored notes are a permutation of the formatted rows ordered by last update, newest first; loading ends in both cases |
| ReminderScheduler.SecondsBetween | src/hooks/useReminderScheduler.ts:30 | the whole-second difference cuts the fraction toward zero: within one second of the millisecond difference, on the side of zero |
| ReminderScheduler.DueWindow | src/hooks/useReminderScheduler.ts:23-32 | a reminder is notified iff it is open, its time is readable, and that time is less than 60 s behind the clock or less than 1 s ahead of it |
| ReminderScheduler.NeverDue | src/hooks/useReminderScheduler.ts:23-32 | completed reminders, reminders without a readable time, and reminders a second or more ahead or a minute or more behind never fire |
| ReminderScheduler.Notify | src/hooks/useReminderScheduler.ts:39-44 | the notification's title is `리마인더: ` and the note title, its body the reminder text, its url the dashboard link with the note id, its tag the reminder id |
| ReminderScheduler.EntriesOf | src/hooks/useReminderScheduler.ts:19-22 | a note without a reminder list contributes nothing; otherwise each of its reminders once, in order, paired with the note |
| ReminderScheduler.RunOncePerId | src/hooks/useReminderScheduler.ts:34-48 | a check adds to the notified set exactly the ids it sends for, sends for no id already notified, and sends for no id twice |
| ReminderScheduler.RunSendsOnlyDue | src/hooks/useReminderScheduler.ts:22-44 | every notification sent is the notification of a due reminder of the notes |
| ReminderScheduler.RunCoversDue | src/hooks/useReminderScheduler.ts:32-48 | after a check every due reminder's id is in the notified set, and the set only grows |
| ReminderScheduler.CheckAgainSendsNothing | src/hooks/useReminderScheduler.ts:12-48 | a second check at the same moment over the same notes sends nothing |
| ReminderScheduler.Scheduler.constructor | src/hooks/useReminderScheduler.ts:12 | the session starts with no notified ids and nothing sent |
| ReminderScheduler.Scheduler.CheckReminders | src/hooks/useReminderScheduler.ts:15-55 | one check walks every reminder of every note in order, and leaves the notified set and the outbox as the specification walk does |
| ReminderScheduler.Scheduler.CheckNote | src/hooks/useReminderScheduler.ts:19-53 | the walk over one note's reminders continues the specification walk by that note's entries; a note without reminders changes nothing |
| NotificationSchedule.Schedule | src/utils/supabaseNotifications.ts:36-77 | the schedule opens with the entry at the reminder's time; the twenty- and ten-minute entries are present iff their time is still after the clock, with their titles, bodies and times; every entry carries the same user, note and reminder ids |
| NotificationSchedule.ScheduleShapes | src/utils/supabaseNotifications.ts:36-77 | the kinds are at-time alone, at-time then ten-minute, or at-time, twenty-minute, ten-minute; all three iff the reminder is more than twenty minutes away |
| NotificationSchedule.ScheduleTimes | src/utils/supabaseNotifications.ts:45-75 | no entry is later than the reminder and every early entry lies after the clock reading |
| MainReminderView.KeepsDays | src/components/features/dashboard/main/reminder.tsx:56-76 | recent keeps open reminders from now on whose day is today or one of the next two days; upcoming keeps open reminders from the third day on; overdue keeps open reminders before now; completed keeps the completed ones |
| MainReminderView.TabsDisjoint | src/components/features/dashboard/main/reminder.tsx:65-80 | no reminder is on two of the recent, upcoming and overdue tabs, and a reminder is on the completed tab iff it is completed and then on no other |
| MainReminderView.FilteredReminders | src/components/features/dashboard/main/reminder.tsx:56-89 | the list holds exactly the reminders the active tab keeps, none more often than given, ordered by time, earliest first |
| MainReminderView.CompletedTabExact | src/components/features/dashboard/main/reminder.tsx:77-78 | the completed tab lists exactly the completed reminders and the other tabs list none of them |
| MainReminderView.RecentPartition | src/components/features/dashboard/main/reminder.tsx:93-105 | the today, tomorrow and day-after groups hold no reminder more often than the list, and together hold the whole list when every reminder is on the recent tab |
| MainReminderView.OverduePartition | src/components/features/dashboard/main/reminder.tsx:106-121 | the today, yesterday, day-before-yesterday and older groups together hold every reminder of the list exactly as often as the list does |
| MainReminderView.GroupRecent | src/components/features/dashboard/main/reminder.tsx:93-105 | the recent tab's loop puts into each group exactly the reminders of that day, in list order |
| MainReminderView.GroupOverdue | src/components/features/dashboard/main/reminder.tsx:106-121 | the overdue tab's loop puts into each of the four groups exactly the reminders of that day (older: any other day), in list order, and into exactly one group each |
| MainReminderView.GroupedReminders | src/components/features/dashboard/main/reminder.tsx:91-124 | the recent and overdue tabs are grouped by day as above and the other tabs have no groups |
| MainReminderView.IsOverdue | src/components/features/dashboard/main/reminder.tsx:420-425 | a card is overdue iff its time is readable, it is open and its time is before now |
| MainReminderView.OverdueCardOnOverdueTab | src/components/features/dashboard/main/reminder.tsx:420-425 | a card marked overdue is kept by the overdue tab |
| MainReminderView.CompletedIds | src/components/features/dashboard/main/reminder.tsx:148-150 | an id is collected iff some completed reminder has it, in list order |
| MainReminderView.ReminderView.constructor | src/components/features/dashboard/main/reminder.tsx:43 | the panel opens on the recent tab with nothing requested |
| MainReminderView.ReminderView.SetActiveFilter | src/components/features/dashboard/main/reminder.tsx:43 | choosing a tab changes only the active tab |
| MainReminderView.ReminderView.DeleteAllCompleted | src/components/features/dashboard/main/reminder.tsx:147-152 | one delete request is sent per completed reminder, in list order, and a delete is requested for an id iff some completed reminder has it |
| Timeline.NewestTotal | src/components/features/dashboard/main/timelineView.tsx:204 | the newest-first comparator `b.date - a.date` is a total preorder (unreadable dates are placed last) |
| Timeline.Arranged | src/components/features/dashboard/main/timelineView.tsx:198-204 | the shown items are exactly the items the filter tab keeps (a permutation of the filtered list), dated items newest first |
| Timeline.KindSplit | src/components/features/dashboard/main/timelineView.tsx:198-202 | the notes tab and the reminders tab split the items between them; the all tab keeps every item in order |
| Timeline.Toggled | src/components/features/dashboard/main/timelineView.tsx:154-164 | toggling a date collapses it iff it was expanded and leaves every other date as it was |
| Timeline.ToggleTwice | src/components/features/dashboard/main/timelineView.tsx:154-164 | toggling the same date twice restores the collapsed set |
| Timeline.GroupStep | src/components/features/dashboard/main/timelineView.tsx:217-225 | pushing one item into its day's group keeps every group equal to the items so far dated on that day |
| Timeline.CollectByDay | src/components/features/dashboard/main/timelineView.tsx:215-225 | the group map has one nonempty entry per day that has a dated item, holding exactly that day's items in order |
| Timeline.GroupByDay | src/components/features/dashboard/main/timelineView.tsx:215-229 | the groups come newest day first with distinct days; each holds exactly the dated items of its day; every dated item is in exactly one group and undated items in none |
| Timeline.TimelinePanel.constructor | src/components/features/dashboard/main/timelineView.tsx:149-152 | the panel opens on the all tab with no date collapsed |
| Timeline.TimelinePanel.SetFilter | src/components/features/dashboard/main/timelineView.tsx:236-238 | choosing a tab changes the filter and nothing else |
| Timeline.TimelinePanel.ToggleDateGroup | src/components/features/dashboard/main/timelineView.tsx:154-164 | the collapsed set becomes its toggle at that date; the filter is unchanged |
| MainTimeline.NoteItem | src/components/features/dashboard/main/timelineView.tsx:171-182 | a note's item: id `note-` + id, note kind, dated by creation, content with tags stripped, tags |
| MainTimeline.ReminderItem | src/components/features/dashboard/main/timelineView.tsx:185-196 | a reminder's item: id `reminder-` + id, reminder kind, dated by creation, completion and note title carried |
| MainTimeline.AllItems | src/components/features/dashboard/main/timelineView.tsx:168-196 | all note items in order followed by all reminder items in order |
| MainTimeline.ItemsByKind | src/components/features/dashboard/main/timelineView.tsx:168-196 | the note-kind items are exactly the note items and the reminder-kind items exactly the reminder items |
| MainTimeline.TimelineData | src/components/features/dashboard/main/timelineView.tsx:166-213 | the memo equals the arranged items for the tab; the total is the number of reminders and the completed count the number of completed ones, never more than the total |
| DashboardTimeline.NoteItem | src/components/features/dashboard/timelineView.tsx:58-67 | a note's item: id `note-` + id, note kind, dated by its last update, content with tags stripped, tags |
| DashboardTimeline.ReminderItem | src/components/features/dashboard/timelineView.tsx:71-80 | a reminder's item: id `reminder-` + id, reminder kind, dated by the reminder time, carrying the owning note's id and title |
| DashboardTimeline.ReminderItems | src/components/features/dashboard/timelineView.tsx:70-85 | one item per reminder of the note, in order |
| DashboardTimeline.ItemsOf | src/components/features/dashboard/timelineView.tsx:56-86 | a note contributes its own item followed by its reminders' items |
| DashboardTimeline.CompletedTotal | src/components/features/dashboard/timelineView.tsx:81-84 | the completed count never exceeds the reminder count |
| DashboardTimeline.ItemsDated | src/components/features/dashboard/timelineView.tsx:105-115 | every item carries a date, so every item gets a day key |
| DashboardTimeline.TotalCountsReminderItems | src/components/features/dashboard/timelineView.tsx:56-86 | the reminder count is the number of reminder items and the note items are one per note |
| DashboardTimeline.ReminderStep | src/components/features/dashboard/timelineView.tsx:70-85 | one inner step appends the reminder's item and raises the completed count exactly when the reminder is completed |
| DashboardTimeline.AddNote | src/components/features/dashboard/timelineView.tsx:56-86 | one outer step appends the note's items and adds its reminder and completed counts |
| DashboardTimeline.TimelineData | src/components/features/dashboard/timelineView.tsx:50-103 | the memo equals the arranged items of all notes for the tab, with the total and completed reminder counts over all notes |
| ThemeStore.Toggled | src/stores/themeStore.ts:25-34 | the toggle swaps dark and light and sends deep dark and system to deep dark; it never yields system |
| ThemeStore.Store.constructor | src/stores/themeStore.ts:19-23 | the store starts on the system theme with both flags equal to the system preference, dashboard inactive, flags coherent |
| ThemeStore.Store.ToggleTheme | src/stores/themeStore.ts:25-34 | the theme becomes its toggle, dark is on unless light, deep dark only for deep dark; coherence kept |
| ThemeStore.Store.SetTheme | src/stores/themeStore.ts:36-44 | the theme is stored; deep dark iff the deep-dark theme; dark iff a dark theme or the system theme with a dark preference; coherence kept |
| ThemeStore.Store.UpdateThemeFromSystem | src/stores/themeStore.ts:46-54 | nothing changes unless the theme is system, and then dark follows the preference and deep dark is off; coherence kept |
| ThemeStore.Store.SetDashboardActive | src/stores/themeStore.ts:56-58 | only the dashboard flag changes |
| PageShortcuts.NextTab | src/hooks/usePageShortcuts.ts:38-45 | there is a next tab iff the active tab is listed, and it is the tab after the first occurrence, wrapping to the first |
| PageShortcuts.ThemeToggle | src/hooks/usePageShortcuts.ts:29 | `t` chooses light iff either dark flag is on and dark otherwise |
| PageShortcuts.Lookup | src/hooks/usePageShortcuts.ts:28-36 | exactly the seven mapped keys act; only `t` sets the theme, light when either dark flag is on and dark otherwise; `m`, `,` and `.` open the profile, activity and settings tabs of the my-page; `/` and `?` open help and escape returns to the dashboard |
| PageShortcuts.HandleKey | src/hooks/usePageShortcuts.ts:15-53 | keys in text fields do nothing; Tab selects the next listed tab or nothing for an unlisted tab; any other key acts as its lowered form in the map; a selected tab is always listed |
| PageShortcuts.CaseInsensitive | src/hooks/usePageShortcuts.ts:26 | a key and its lowered form have the same effect |
| PageShortcuts.PressedIndex | src/hooks/usePageShortcuts.ts:38-45 | with distinct tabs, k presses from index i reach index i + k, wrapping once |
| PageShortcuts.FullCycle | src/hooks/usePageShortcuts.ts:40-43 | with distinct tabs, one press per tab returns to the starting tab |
| ThemeStore.ToggleFixedPoint | src/stores/themeStore.ts:25-34 | deep dark is the only fixed point of the toggle; toggling twice restores every theme except system |
| HelpPage.ActiveTab | src/pages/dashboard/help.tsx:173 | a missing or empty `tab` parameter means the overview tab; any other value is used as given |
| HelpPage.NextTab | src/pages/dashboard/help.tsx:205-212 | Tab always lands on one of the four tabs: the one after a listed tab, wrapping, and the overview for an unlisted tab |
| HelpPage.TabCycle | src/pages/dashboard/help.tsx:207-210 | overview, guide, shortcuts and faq follow one another in a cycle |
| HelpPage.FourPresses | src/pages/dashboard/help.tsx:205-212 | four presses return to any listed tab, and one press reaches a listed tab from anywhere |
| HelpPage.HandleKey | src/pages/dashboard/help.tsx:182-221 | keys in text fields do nothing; Tab selects the next tab; any other key acts as its lowered form in the shared shortcut map |
| HelpPage.FilteredShortcuts | src/pages/dashboard/help.tsx:230-238 | an empty term gives the whole table; otherwise exactly the entries whose description or key contains the lowered term, in table order |
| HelpPage.FilteredMarkdownShortcuts | src/pages/dashboard/help.tsx:240-248 | an empty term gives the whole table; otherwise exactly the entries whose description or markdown contains the lowered term, in table order |
| HelpPage.TypingMoreNarrows | src/pages/dashboard/help.tsx:230-248 | extending a nonempty term never adds entries to either list |
| FontLoader.NormalizeFontFamily | src/utils/fontLoader.ts:11-28 | a listed alias maps to its family name and any other name is kept as it is |
| FontLoader.NormalizeIdempotent | src/utils/fontLoader.ts:11-28 | normalising twice gives the same name as normalising once |
| FontLoader.AliasesMatchSources | src/utils/fontLoader.ts:11-89 | every alias target has a font source, and every source name is its own alias |
| FontLoader.GetFontFormat | src/utils/fontLoader.ts:93-105 | the format is woff2, woff or opentype exactly when the lowered name ends in `.woff2`, `.woff` or `.otf`, and truetype otherwise |
| FontLoader.FormatIgnoresCase | src/utils/fontLoader.ts:93-94 | the format does not depend on the case of the file name |
| FontLoader.FaceRule | src/utils/fontLoader.ts:147-160 | each rule opens an `@font-face` block naming the family and the face's file |
| FontLoader.StyleText | src/utils/fontLoader.ts:147-162 | the style text is empty iff there are no faces, and otherwise begins with the first face's rule |
| FontLoader.Loader.constructor | src/utils/fontLoader.ts:91 | nothing is loaded and the head holds no font element |
| FontLoader.Loader.LoadFont | src/utils/fontLoader.ts:107-166 | an unknown family, a missing document or an already-loaded family change nothing; a stylesheet family already in the head is marked loaded, otherwise its link is added and loading waits; a face family gets its style element if missing and is marked loaded at once; the head stays consistent with what is loaded |
| FontLoader.Loader.StylesheetLoaded | src/utils/fontLoader.ts:130-133 | the stylesheet's load event marks its family loaded and changes nothing else |
| FontLoader.LoadTwice | src/utils/fontLoader.ts:114-116 | once a first call has resolved, a second call for the same family resolves and loads nothing more |
| DownloadPage.DefaultLink | src/pages/landing/Download.tsx:93-97 | a fixed link exists exactly for Windows, macOS and Linux |
| DownloadPage.GetDownloadLink | src/pages/landing/Download.tsx:92-114 | without a release the platform's fixed link or `#`; with a release the first installer asset's link, the fixed link when none fits, and undefined for an unknown platform |
| DownloadPage.PlatformsAlwaysLinked | src/pages/landing/Download.tsx:116-140 | the three platform cards always get a link |
| DownloadPage.ChosenAsset | src/pages/landing/Download.tsx:105-110 | a link from the release is that of the first asset with the platform's suffix and no `sig` |
| DashboardPage.Flatten | src/pages/dashboard/index.tsx:127-145 | an entry takes the reminder's id and completion and its note's id, owner and title; its text is `text` unless that is empty or missing, then `reminder_text`; its time is `date` when present, else `reminder_time`, and there is no entry when that time is unreadable; `enabled` is true unless explicitly false; missing timestamps become the clock reading |
| DashboardPage.NoteContent | src/pages/dashboard/index.tsx:144-145 | the note preview is a prefix of the tag-stripped content of exactly min(100, length) characters, empty when there is no content |
| DashboardPage.ReminderTime | src/pages/dashboard/index.tsx:132-135 | the reminder's `date` decides when present (an unreadable one throws); otherwise `reminder_time` does |
| DashboardPage.NoteEntries | src/pages/dashboard/index.tsx:127-146 | one entry per reminder of the note, in order, each the flattening of that reminder; none at all when any reminder's time throws |
| DashboardPage.AllReminders | src/pages/dashboard/index.tsx:126-148 | the flattened list exists exactly when every reminder of every note has a readable time |
| DashboardPage.AllRemindersShape | src/pages/dashboard/index.tsx:126-148 | the flattened list is as long as all reminder lists together, and every entry is the flattening of some reminder of some note, carrying that note's id and title |
| DashboardPage.DeleteReminder | src/pages/dashboard/index.tsx:218-230 | nothing is sent exactly when no note owns the reminder; otherwise the first owning note is sent back with a reminder list free of that id |
| DashboardPage.DeleteReminderKeepsOthers | src/pages/dashboard/index.tsx:224-228 | the rewritten note keeps its id and every other reminder in order, and loses at least one |
| DashboardPage.FilteredNotes | src/pages/dashboard/index.tsx:309-311 | with no (or an empty) selected tag every note is shown; otherwise exactly the notes carrying that tag, in order |
| DashboardPage.CountEach | src/pages/dashboard/index.tsx:497-501 | after counting a note's tags every tag seen so far is a key, in first-seen order, holding its number of occurrences |
| DashboardPage.CountTags | src/pages/dashboard/index.tsx:496-502 | the keys are the distinct tags in first-seen order and each count is the tag's number of occurrences over all notes |
| DashboardPage.PopularTags | src/pages/dashboard/index.tsx:495-506 | at most five distinct tags, as many as there are when fewer, with their true counts, in descending count order, and no omitted tag is used more often than any shown one |
| DashboardPage.PopularFacts | src/pages/dashboard/index.tsx:503-505 | sorting the entries and keeping five preserves true counts and distinct tags, and every left-out tag counts no more than each kept one |
| DashboardPage.Dashboard.constructor | src/pages/dashboard/index.tsx:109-123 | the page starts on the notes tab with Tab counter 0, no selection, no tag, not editing, the dialog closed and the sidebar visible |
| DashboardPage.Dashboard.SetNotes | src/pages/dashboard/index.tsx:160-165 | a selection whose note disappeared is dropped together with edit mode; otherwise the selection stays, so a selection always names a present note |
| DashboardPage.Dashboard.SelectNote | src/pages/dashboard/index.tsx:178-181 | selecting a note leaves edit mode |
| DashboardPage.Dashboard.SelectTag | src/pages/dashboard/index.tsx:540-549 | a sidebar tag selects that tag and switches to the notes tab |
| DashboardPage.Dashboard.ClearTag | src/pages/dashboard/index.tsx:348-352 | the clear button removes the tag filter and nothing else |
| DashboardPage.Dashboard.ConfirmDelete | src/pages/dashboard/index.tsx:212-216 | with a selection the note is deleted and the dialog closed; without one nothing happens |
| DashboardPage.Dashboard.HandleDeleteReminder | src/pages/dashboard/index.tsx:218-230 | sends the rewritten owning note, or nothing when no note owns the reminder; the page state is unchanged |
| DashboardPage.Dashboard.HandleKey | src/pages/dashboard/index.tsx:232-292 | in a text field only Tab and Ctrl/Cmd+S act; Tab advances the Tab counter modulo four and shows that tab; n creates a note; s saves only with Ctrl/Cmd while editing with a mounted editor; t asks for light when dark and dark otherwise; b toggles the sidebar; d or Delete opens the dialog only with a selection; / and ? open help; m, `,` and `.` open the my-page profile, activity and settings tabs; only Tab moves the tab, only b the sidebar, only d or Delete the dialog, and Tab, b, d and Delete send nothing; unmapped keys change nothing |
| DashboardPage.Dashboard.FourTabPresses | src/pages/dashboard/index.tsx:260-267 | four Tab presses bring the counter back and show the tab it names, sending nothing and leaving the rest of the page as it was |
| MainCalendar.NoteEvents | src/components/features/dashboard/main/calendar.tsx:45-51 | one note's reminders become events in order, each carrying its note, and a missing reminder list counts as empty |
| MainCalendar.GroupedFacts | src/components/features/dashboard/main/calendar.tsx:44-58 | every event is filed under its own local day, a day's list is exactly that day's events in visiting order, and no list is empty |
| MainCalendar.ExactlyOneKey | src/components/features/dashboard/main/calendar.tsx:47-56 | an event appears in a day's list if and only if that day is its own day |
| MainCalendar.EventDays | src/components/features/dashboard/main/calendar.tsx:47-50 | the date keys of the events, one per event, in visiting order |
| MainCalendar.DaysAreKeys | src/components/features/dashboard/main/calendar.tsx:53-55 | the keys of the grouping are exactly the days that some event falls on |
| MainCalendar.GroupedSnoc | src/components/features/dashboard/main/calendar.tsx:53-56 | pushing one more event appends it to its day's list, creating the list when the day is new, and leaves every other day alone |
| MainCalendar.GroupedTotal | src/components/features/dashboard/main/calendar.tsx:44-58 | the lists under the distinct days add up to the number of events, so grouping neither loses nor duplicates a reminder |
| MainCalendar.AddNoteEvents | src/components/features/dashboard/main/calendar.tsx:46-57 | the inner loop over one note's reminders leaves the map grouping everything seen so far plus that note's events |
| MainCalendar.GroupEvents | src/components/features/dashboard/main/calendar.tsx:42-58 | `eventsByDate` is the grouping of every note's reminders, visited note by note |
| MainCalendar.HolidayMap | src/components/features/dashboard/main/calendar.tsx:60-81 | the holiday map holds only dates of the shown year; the eight fixed holidays are always present with their names unless a 2025 entry replaces them; in 2025 the seven extra dates carry their names; in other years nothing but the fixed dates is present |
| MainCalendar.FixedHolidayMap | src/components/features/dashboard/main/calendar.tsx:62-71 | the eight fixed holidays of the year and nothing else |
| MainCalendar.Add2025 | src/components/features/dashboard/main/calendar.tsx:73-81 | the 2025 block adds its seven dates with their names and keeps every other entry unchanged |
| MainCalendar.ChildrensDay | src/components/features/dashboard/main/calendar.tsx:66-77 | 05-05 is in both tables, Children's Day in the fixed one and Buddha's Birthday in the 2025 one, and it is the only date they share |
| MainCalendar.WeekAligned | src/components/features/dashboard/main/calendar.tsx:36-39 | the grid runs from a Sunday to a Saturday, covers the whole month, starts and ends within a week of it, and spans four to six whole weeks |
| MainCalendar.WeekSpan | src/components/features/dashboard/main/calendar.tsx:38-39 | the Sunday on or before the first day and the Saturday on or after the last enclose a whole number of weeks, between four and six for a month-long range |
| MainCalendar.MakeCell | src/components/features/dashboard/main/calendar.tsx:109-170 | a cell is in the month exactly when its day lies between the month's first and last day; a day with a holiday name shows one event and any other day two, and the shown events are the first of the day's list with the rest counted as more |
| MainCalendar.RenderCalendar | src/components/features/dashboard/main/calendar.tsx:102-176 | the loop emits one cell per day of the grid, in order from its first Sunday, a whole number of weeks |
| MainCalendar.ThirtyFirstSkipsFebruary | src/components/features/dashboard/main/calendar.tsx:87-90 | as written, next month from 31 January 2025 shows 3 March and previous month from 31 March 2025 stays on 3 March |
| MainCalendar.ShiftMonth | src/components/features/dashboard/main/calendar.tsx:87-90 | the corrected move: to the adjacent month (the month number changes by exactly one), the day cut to the new month's length |
| MainCalendar.AsWrittenMatchesShift | src/components/features/dashboard/main/calendar.tsx:87-90 | on a day from 1 to 28 the arrows as written land on the same date as the corrected move |
| MainCalendar.ShiftThereAndBack | src/components/features/dashboard/main/calendar.tsx:87-90 | forward then back returns to the same month and, for days every month has, the same day |
| MainCalendar.MonthView.constructor | src/components/features/dashboard/main/calendar.tsx:31-32 | today is shown and selected |
| MainCalendar.MonthView.GoToPreviousMonth | src/components/features/dashboard/main/calendar.tsx:87-88 | the shown date becomes `new Date(y, m - 1, d)` as written, the day kept and rolled over when the month is shorter; the selection is untouched |
| MainCalendar.MonthView.GoToNextMonth | src/components/features/dashboard/main/calendar.tsx:89-90 | the shown date becomes `new Date(y, m + 1, d)` as written, the day kept and rolled over when the month is shorter (31 January goes to 3 March); the selection is untouched |
| MainCalendar.MonthView.GoToToday | src/components/features/dashboard/main/calendar.tsx:91-94 | today is shown and selected |
| MainCalendar.MonthView.HandleDateClick | src/components/features/dashboard/main/calendar.tsx:96-99 | clicking the selected day clears the selection, any other day becomes the selection, and the shown month is unchanged |
| PlanCalendar.Prev | src/components/features/calendar.tsx:49-56 | January goes to December of the year before; any other month to the month before in the same year |
| PlanCalendar.Next | src/components/features/calendar.tsx:59-66 | December goes to January of the year after; any other month to the month after in the same year |
| PlanCalendar.ArrowsAreInverse | src/components/features/calendar.tsx:49-66 | each arrow moves exactly one month and each undoes the other |
| PlanCalendar.FirstDayOfMonth | src/components/features/calendar.tsx:39-41 | the weekday of the first of the month, 0 (Sunday) to 6 |
| PlanCalendar.ColumnIsWeekday | src/components/features/calendar.tsx:119-164 | with the first-weekday blanks in front, day d of the month lands in the column of its own weekday |
| PlanCalendar.DayOfMonthOffset | src/components/features/calendar.tsx:125-126 | day d of a month is d - 1 days after its first |
| PlanCalendar.WeekdayShift | src/components/features/calendar.tsx:39-41 | k days later the weekday has moved on by k modulo seven |
| PlanCalendar.GetDatePlans | src/components/features/calendar.tsx:69-79 | exactly the plans that start on the given local day, in list order |
| PlanCalendar.DayCellFor | src/components/features/calendar.tsx:125-161 | a day cell shows at most the first two of that day's plans, in order, and counts the rest |
| PlanCalendar.Grid | src/components/features/calendar.tsx:119-161 | the month's cells are the first-weekday blanks followed by one cell per day of the month, in order |
| PlanCalendar.FlattenSnoc | src/components/features/calendar.tsx:164-179 | closing a row appends its cells after those of the earlier rows |
| PlanCalendar.PushCell | src/components/features/calendar.tsx:125-171 | pushing the next cell keeps the rows-so-far a chunking of the grid, closing a row exactly when the cell count reaches a multiple of seven |
| PlanCalendar.MonthView.constructor | src/components/features/calendar.tsx:25-26 | the shown month and year are those of the selected date |
| PlanCalendar.MonthView.PrevMonth | src/components/features/calendar.tsx:49-56 | the shown month and year become `Prev` of the old ones |
| PlanCalendar.MonthView.NextMonth | src/components/features/calendar.tsx:59-66 | the shown month and year become `Next` of the old ones |
| PlanCalendar.MonthView.RenderCalendar | src/components/features/calendar.tsx:92-181 | the rows, read in order, are exactly the month's grid; every row but the last holds seven cells and none is empty |
| DashboardCalendar.RemindersOn | src/components/features/dashboard/calendar.tsx:41-49 | as written: exactly the reminders whose UTC date (`toISOString`) is the UTC date of the given local time, in list order |
| DashboardCalendar.LocalRemindersOn | src/components/features/dashboard/calendar.tsx:41-49 | as intended: exactly the reminders due on the given local day, in list order |
| DashboardCalendar.RemindersOnAtUtc | src/components/features/dashboard/calendar.tsx:41-49 | in UTC itself a cell, looked up from its local midnight, lists exactly its local day's reminders |
| DashboardCalendar.CellShowsDayBefore | src/components/features/dashboard/calendar.tsx:41-49 | east of UTC, a cell lists the previous evening's reminders from the zone offset on, and loses its own day's reminders from the offset on |
| DashboardCalendar.Label | src/components/features/dashboard/calendar.tsx:128-130 | a text of at most 15 characters is shown whole; a longer one as its first 15 characters followed by `...` |
| DashboardCalendar.CurrentCell | src/components/features/dashboard/calendar.tsx:89-140 | a day cell shows the labels of the first two reminders its lookup finds, in order, and counts the rest |
| DashboardCalendar.LastDayOfPrevMonth | src/components/features/dashboard/calendar.tsx:21 | the length of the previous month, 28 to 31 |
| DashboardCalendar.LeadingCells | src/components/features/dashboard/calendar.tsx:75-86 | the last `startingDayOfWeek` days of the previous month, oldest first, ending on its last day |
| DashboardCalendar.CurrentCells | src/components/features/dashboard/calendar.tsx:88-141 | one cell per day of the month, day 1 first |
| DashboardCalendar.TrailingCells | src/components/features/dashboard/calendar.tsx:143-155 | the first days of the next month, counting from 1 |
| DashboardCalendar.Grid35 | src/components/features/dashboard/calendar.tsx:143-157 | always exactly 35 cells: the previous month's tail and the month's days keep their places as far as they fit, and the rest are next-month days counting from 1 |
| DashboardCalendar.MarchTwentyTwentyFiveLosesDays | src/components/features/dashboard/calendar.tsx:143-157 | as written, March 2025 (31 days from a Saturday) shows no cell for its 30th and 31st |
| DashboardCalendar.FullGrid | src/components/features/dashboard/calendar.tsx:143-157 | five rows, or six when the cells need them: the leading cells and the days stay whole and in place, and on five rows this is the 35-cell grid |
| DashboardCalendar.FullMonthCells | src/components/features/dashboard/calendar.tsx:143-157 | a whole number of weeks, at most six, with a cell for every day of the month |
| DashboardCalendar.NoteToOpen | src/components/features/dashboard/calendar.tsx:217-228 | a side-panel reminder opens its own note exactly when a note with that id is present, and nothing otherwise |
| DashboardCalendar.MonthView.constructor | src/components/features/dashboard/calendar.tsx:7-12 | the month of the given time is shown, nothing is selected, and the zone is kept |
| DashboardCalendar.MonthView.SelectedReminders | src/components/features/dashboard/calendar.tsx:52-54 | no selection lists nothing; a selection lists exactly the reminders on the selected time's UTC date, in list order |
| DashboardCalendar.MonthView.GoToPreviousMonth | src/components/features/dashboard/calendar.tsx:57-59 | the shown month becomes `Prev` of the old one, on its first day; the selection is untouched |
| DashboardCalendar.MonthView.GoToNextMonth | src/components/features/dashboard/calendar.tsx:61-63 | the shown month becomes `Next` of the old one, on its first day; the selection is untouched |
| DashboardCalendar.MonthView.GoToToday | src/components/features/dashboard/calendar.tsx:66-69 | the month of the given time is shown and that moment (not its midnight) is selected |
| DashboardCalendar.MonthView.SelectDate | src/components/features/dashboard/calendar.tsx:102-108 | clicking the cell of the selected date's day clears the selection, any other cell selects its local midnight, and the shown month is unchanged |
| DashboardCalendar.MonthView.RenderCalendarCells | src/components/features/dashboard/calendar.tsx:72-158 | the three loops and the final slice produce the 35-cell grid of the shown month |
| DashboardCalendar.PushDays | src/components/features/dashboard/calendar.tsx:89-141 | the day loop appends one cell per day of the month, in order |

## Left out

- Network and backend I/O: the Supabase queries, inserts and deletes, the
  authentication effects, the GitHub release fetch and the native
  `search_notes` command; their answers are inputs of the operations that
  use them.
- Persistence: `localStorage` loads and saves (the Amnesia user and group
  store keeps its two arrays as fields instead), zustand's `persist` and the
  SQLite and IndexedDB back ends.
- Timers and concurrency: `setInterval`, `setTimeout`, the search debounce,
  web-worker messaging, `useDeferredValue` and `async` handlers; each check or
  handler is one synchronous call.
- The clock and randomness are parameters, and so is the zone offset where
  the dashboard calendar needs it; daylight-saving changes (an offset that
  differs between two dates) are not modelled. `Date` rollover is written out
  where the source relies on it (`setHours` past 23 in `useNoteParser`,
  `setMonth` in the main calendar, `new Date(y, m ± 1, 1)` in both calendars).
- Timeline.CollectByDay, Timeline.GroupByDay: the source keys its day groups
  with `toISOString`, the UTC date; the model groups by the local day, which is
  the same key in UTC and otherwise moves the items within the zone offset of
  midnight into the neighbouring day's group. The grouping properties do not
  depend on which day function is used.
- Rendering: JSX layout, class names and colours (`getLevelColor` is modelled
  as a value, the calendars' today/selected highlighting and
  `getPriorityColor` are not), toasts, the mermaid and markdown previews,
  CodeMirror's widgets, decorations and key handling beyond the commands
  modelled, and `Intl`/date-fns display formatting (`format(time, 'p')` is a
  parameter).
- The browser APIs: `window.matchMedia` and its change listener, the
  Notification API, `prompt()` (its answer is a parameter), `preventDefault`,
  and the DOM nodes the font loader inserts (modelled as sets of families);
  a stylesheet's error event is not modelled.
- The dashboard page's authentication redirect
  (src/pages/dashboard/index.tsx:152-158), its timer that opens a newly
  created note (src/pages/dashboard/index.tsx:167-176) and the `isMobile`
  layout switch; note creation is a request to the notes hook.
- DashboardPage.PopularTags: `Object.entries` lists integer-like keys first;
  the contract (top five by count, true counts, distinct tags) does not depend
  on that order, and ties between equal counts are not fixed by it.
- DashboardCalendar.RemindersOn: a reminder whose time `toISOString` cannot
  write out makes the source throw; the model takes every reminder time to
  be readable, and a missing `reminder_text` (whose `.length` throws) is not
  modelled.
- ActivityWorker.Calculate: a completed reminder's `updated_at` is either
  absent or a readable time; a present but unreadable one makes `toISOString`
  throw a `RangeError` that ends the worker's pass, which is not modelled. Its
  day buckets are keyed by the local day, where the source writes the UTC date
  (`toISOString`); the counting properties do not depend on the day function.
- ActivityWorker.BucketsCount: keyed by the local day, as above.
- MainEditor.ExistingOf, DashboardEditor.Fresh, DataStore.FormatEditorReminder:
  a reminder time is a readable integer; `new Date(text)` of an unreadable
  `reminder_time` gives an invalid date, which these members cannot hold.
- NoteListPanel.PinThenRecent, NoteListPanel.PinThenRecentTotal, NoteListPanel.Arranged: `updated_at` is a
  readable time; an unreadable one makes the comparator answer `NaN`, leaving
  the order to the engine, and is not modelled.
- PlainNoteList.Recent, PlainNoteList.RecentTotal, PlainNoteList.FilteredNotes: `updated_at` is a
  readable time; an unreadable one makes the comparator answer `NaN`, which is
  not modelled.
- DataStore.Newest, DataStore.NoteStore.FetchInitialData: `updated_at` is a readable time; an
  unreadable one makes the newest-first comparator answer `NaN`, which is not
  modelled.
- MainCalendar.GroupEvents: `format` throws on an invalid reminder time; the
  model takes every reminder time to be readable.
- Timeline.Newest: the source comparator answers `NaN` for an unreadable date,
  which leaves the order to the engine; the model places such items last.
- The main reminder panel's global notification toggle
  (src/components/features/dashboard/main/reminder.tsx:154-184) only writes
  to the backend and is not modelled.
- `insertDivider`, which the toolbar and the slash menu call, is not defined
  in the command file modelled here and is not part of this model;
  `deleteLine` and `redo` in the main editor's key map are CodeMirror's own
  commands; the slash-command completion is not modelled; `\r` line breaks
  are not modelled.
- The Progressive Web App install prompt and the download page's platform
  detection from the user agent; the platform is an input.

## Findings

| source | as written | input that shows it | evidently intended | confidence | as-written member | corrected member |
|---|---|---|---|---|---|---|
| src/components/features/dashboard/toolbar/editorCommands.ts:103 | `insertLink` inserts `[text](url` without the closing parenthesis | any non-empty URL such as `https://a.b` | `[text](url)`, as the toolbar's own `insertLink` writes it | high, not executed | EditorCommands.LinkAsWrittenUnclosed | EditorCommands.LinkFacts |
| src/hooks/useNoteParser.ts:110-114 | a bare hour that is not zero-padded gets 12 added even when it is 13 or more | `@15시 회의.`, hour 27, which lands at 03:00 the next day | an hour from 13 to 23 kept as written | high, not executed | UseNoteParser.FifteenIsThreeAm | UseNoteParser.ClockHour |
| src/components/features/dashboard/calendar.tsx:41-49 | a cell looks up its reminders by the UTC date of its local midnight and of each reminder | in UTC+9, the cell of 15 March lists a reminder of 14 March 10:00 and not one of 15 March 10:00 | the reminders due on the cell's local day | high, not executed | DashboardCalendar.CellShowsDayBefore | DashboardCalendar.LocalRemindersOn |
| src/components/features/dashboard/calendar.tsx:144-157 | the grid is cut to 35 cells | March 2025 (31 days, starting on a Saturday) shows no cell for the 30th and 31st | a sixth row when the month needs it | high, not executed | DashboardCalendar.MarchTwentyTwentyFiveLosesDays | DashboardCalendar.FullMonthCells |
| src/components/features/dashboard/main/calendar.tsx:87-90 | `setMonth` keeps the day of the month, which rolls over when the new month is shorter | next month from 31 January 2025 shows 3 March, and previous month from 31 March 2025 stays in March | the adjacent month, with the day cut to its length | high, not executed | MainCalendar.ThirtyFirstSkipsFebruary | MainCalendar.ShiftMonth |
