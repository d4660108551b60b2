# TestLink front end — a Dafny model

This project models the logic of the TestLink front end, a React application in which
administrators compose question banks and generate time-limited test links. Candidates
register through such a link and take the test.

The centre of the model is the candidate's exam page (`TestPage.jsx`). It covers:

- the list of questions and the pointer into it;
- the answer map, the autosave on "next", and the resume merge at load time;
- the one-second countdown, and the call of the final submission when it reaches zero
  (dropped when a save is in flight at that moment, see "### Lost timeout");
- the two integrity signals (leaving fullscreen, hiding the tab), which submit the test;
- the final submission: an `isSaving` guard, a flush of the question on screen, then the
  submit post.

Around it sit five admin and candidate pages, each modelled with its state and its rules:

- the results hub: search, pagination, counters and badges;
- the test generator: the distribution of 15 questions over four types;
- the question bank form and the request body it posts;
- the candidate registration form;
- the positions list.

Each source file becomes one module. `Text` holds the JavaScript string operations the
pages use: ASCII `toLowerCase`, `includes`, `trim`, `padStart` and decimal rendering.
`Selection` holds the toggle of a letter in a list, which two pages write the same way.
`Common` holds `Option`, `Response` and the `Position` record the three admin pages share.

### How the asynchronous handlers are modelled

A handler that awaits a request is split at the await:

- Issuing the request appends it to `sent`. It also appends the code waiting on it to
  `inflight`.
- The event `Resolve(k, ok)` settles the k-th outstanding request, in any order, and runs
  the rest of its handler.
- `ExamSession.Step` gives the effect of every event on a `Session` value.
- The class `ExamSession.ExamPage` holds the same state in fields. Each of its methods is
  proved to change the fields exactly as `Step` changes the value.
- `ExamSession.Inv` is preserved by every step.

The remote service, the clock and the DOM are inputs: responses arrive as `Response`
values, and ticks and integrity signals arrive as events.

### Double submission

The code does not guarantee a single final submission:

- `handleFinalSubmit` returns early when `isSaving` is set. The finish button is
  disabled while `isSaving` holds, and the timer's effect reads the current state.
  So neither of them can start a second submission while the last question is being
  flushed.
- The nested `saveAnswer` clears `isSaving` in its `finally`, before the submit post is
  issued.
- Once the flush has settled, pressing the finish button again, or the timer reaching
  zero, starts a second submission while the first submit post is still outstanding.
- The fullscreen and visibility listeners never see `isSaving` set. They keep the
  `handleFinalSubmit` of the first render, which posts the submission at once without a
  flush (see "## Left out").

The model follows the code:

- `ExamSession.SubmitWindow` proves both halves for a state-reading trigger.
- `ExamSession.RepeatedFinishSubmitsTwice` proves that two presses of the finish button
  on any last question with a non-zero id post the flush and the submission twice.
- `ExamSession.TwoSubmissionsPossible` gives one concrete such run.

There is no arming delay on the integrity signals and no cap on submission retries.

### Lost timeout

The timer's effect calls `handleFinalSubmit` when the countdown reaches zero, and it
schedules no interval at that point. If a "save & next" save is in flight at that moment,
the `isSaving` guard drops the call. The effect's dependencies (`timeLeft`, `loading`)
never change again, so the test is not submitted automatically, and the clock stays at
0:00. Only a later trigger can still submit: the finish button, once the candidate is on
the last question, or an integrity signal. `ExamSession.TimeoutLost` proves the dropped
call and the idle state that follows.

## Model

| member | source | states |
|---|---|---|
| Text.LowerChar | src/pages/admin/results.jsx:77-81 | definition of `toLowerCase` on one character: A–Z to a–z, all else kept; see Text.Lower |
| Text.Contains | src/pages/admin/results.jsx:77-81 | definition of `includes`: the needle is a prefix of some suffix of the haystack; see Text.ContainsAt and Text.ContainsHasOffset |
| Text.IsJsWhitespace | src/pages/admin/Positions.jsx:34 | definition: the ECMAScript WhiteSpace and LineTerminator characters that `trim` removes; see Text.TrimEmptyIffBlank |
| Text.Trim | src/pages/admin/Positions.jsx:34 | definition of `trim()`: TrimEnd after TrimStart; see Text.TrimStart, Text.TrimEnd and Text.TrimEmptyIffBlank |
| Text.IntToString | src/pages/admin/Positions.jsx:126 | definition of `toString()` on an integer: a minus sign before the numeral of a negative; see Text.NatToDecimal and Text.DecimalRoundTrip |
| Text.Lower | src/pages/admin/results.jsx:77-81 | lower-casing keeps the length and maps every character through ASCII case folding |
| Text.ContainsAt | src/pages/admin/results.jsx:77-81 | an occurrence of the needle at any offset makes `includes` true |
| Text.ContainsHasOffset | src/pages/admin/results.jsx:77-81 | when `includes` is true there is an offset where the needle occurs |
| Text.TrimStart | src/pages/admin/Positions.jsx:34 | the result is a suffix; the dropped prefix is whitespace; the result starts with a non-whitespace character or is empty |
| Text.TrimEnd | src/pages/admin/Positions.jsx:34 | the result is a prefix; the dropped suffix is whitespace; the result ends with a non-whitespace character or is empty |
| Text.TrimEmptyIffBlank | src/pages/admin/Positions.jsx:34 | `trim()` is empty exactly for whitespace-only strings (ECMAScript whitespace and line terminators) |
| Text.NatToDecimal | src/pages/candidate/TestPage.jsx:86 | the rendering of a non-negative integer is a non-empty string of digits, with no leading zero unless the number is 0 |
| Text.DecimalRoundTrip | src/pages/candidate/TestPage.jsx:86 | reading the rendered digits back gives the number |
| Text.LeadingZero | src/pages/candidate/TestPage.jsx:86 | a zero put in front by padding does not change the value of the digits |
| Text.DecimalLength | src/pages/admin/Positions.jsx:126 | a number has one digit iff it is below 10, and three or more iff it is at least 100 |
| Text.PadStart | src/pages/candidate/TestPage.jsx:86 | the result has length max(len, width), ends with the input and is filled with the pad character in front |
| Selection.RemoveAll | src/pages/candidate/TestPage.jsx:242 | `filter(v => v !== value)` removes every occurrence of the value, keeps every other value and never grows |
| Selection.RemoveAbsent | src/pages/candidate/TestPage.jsx:242 | filtering out an absent value returns the list unchanged |
| Selection.RemoveAllAppend | src/pages/candidate/TestPage.jsx:242 | filtering distributes over concatenation |
| Selection.Toggle | src/pages/candidate/TestPage.jsx:238-245 | the value ends up selected iff it was not; other values keep their membership; an absent value is appended at the end |
| Selection.ToggleTwice | src/pages/candidate/TestPage.jsx:238-245 | toggling twice restores membership, and restores the list itself when the value was absent |
| ExamSession.JsRemainder | src/pages/candidate/TestPage.jsx:86 | definition of JavaScript `%` (the sign follows the dividend); see ExamSession.FormatTimeRoundTrip |
| ExamSession.FormatTime | src/pages/candidate/TestPage.jsx:85-86 | definition of formatTime: Math.floor minutes, a colon, seconds padded to two digits; see ExamSession.FormatTimeRoundTrip |
| ExamSession.SelectedLetters | src/pages/candidate/TestPage.jsx:219 | definition of `answers[q.id] \|\| []` on a multiple-choice question; see ExamSession.ToggleFlipsOneLetter |
| ExamSession.ResumedValue | src/pages/candidate/TestPage.jsx:48-53 | definition: a resume row gives selected_option, else selected_options, else written_answer, else nothing; see ExamSession.MergedLastWins |
| ExamSession.MergedAnswers | src/pages/candidate/TestPage.jsx:48-53 | definition of the resume merge as a left fold over the rows; see ExamSession.MergedKeys, ExamSession.MergedLastWins and ExamSession.MergeResumed |
| ExamSession.Press | src/pages/candidate/TestPage.jsx:300-324 | definition of a previous/next press with the disabled buttons; see ExamSession.WalkStaysInRange |
| ExamSession.Initial | src/pages/candidate/TestPage.jsx:22-27 | definition of the state at mount; see ExamSession.InitialInv |
| ExamSession.CurrentId | src/pages/candidate/TestPage.jsx:152 | definition of `questions[index]?.id`; see ExamSession.FlushThenSubmit |
| ExamSession.ChoiceValues | src/pages/candidate/TestPage.jsx:186-195 | definition of the values renderOptions offers: TRUE/FALSE, or the letters of the labelled options; see ExamSession.ToggleFlipsOneLetter |
| ExamSession.FinalSubmitStep | src/pages/candidate/TestPage.jsx:148-158 | definition of handleFinalSubmit up to its first await; see ExamSession.FlushThenSubmit, ExamSession.SubmitWindow and ExamSession.FinalSubmitInv |
| ExamSession.TimerEffect | src/pages/candidate/TestPage.jsx:69-83 | definition of the timer effect; see ExamSession.TimerRules, ExamSession.TimeoutLost and ExamSession.TimerEffectInv |
| ExamSession.LoadStep | src/pages/candidate/TestPage.jsx:34-64 | definition of fetchTest as one event; see ExamSession.StepInv and the LoadStep line under "## Left out" |
| ExamSession.ChooseStep | src/pages/candidate/TestPage.jsx:184-213 | definition of a radio click; see ExamSession.StepInv |
| ExamSession.ToggleStep | src/pages/candidate/TestPage.jsx:217-245 | definition of a checkbox click; see ExamSession.ToggleFlipsOneLetter |
| ExamSession.WriteStep | src/pages/candidate/TestPage.jsx:254-262 | definition of typing into a written answer; see ExamSession.FinishFlushesLastEdit |
| ExamSession.NextStep | src/pages/candidate/TestPage.jsx:140-143 | definition of handleNext up to its await; see ExamSession.NextThenAdvance |
| ExamSession.PreviousStep | src/pages/candidate/TestPage.jsx:300-302 | definition of the previous button; see ExamSession.WalkStaysInRange and ExamSession.StepInv |
| ExamSession.FinishStep | src/pages/candidate/TestPage.jsx:308-315 | definition of the finish button; see ExamSession.RepeatedFinishSubmitsTwice |
| ExamSession.TickStep | src/pages/candidate/TestPage.jsx:77-79 | definition of an interval tick; see ExamSession.TimerRules |
| ExamSession.ResolveStep | src/pages/candidate/TestPage.jsx:135-166 | definition of the code after each await; see ExamSession.FlushThenSubmit, ExamSession.NextThenAdvance, ExamSession.SubmitSettles and ExamSession.ResolveInv |
| ExamSession.Step | src/pages/candidate/TestPage.jsx:34-167 | definition of the effect of every event; see ExamSession.StepInv and ExamSession.RunInv |
| ExamSession.IdxToOpt | src/pages/candidate/TestPage.jsx:16 | index i in 0..3 maps to the one-letter string 'A' + i |
| ExamSession.IdxToOptInjective | src/pages/candidate/TestPage.jsx:16 | distinct indices give distinct letters |
| ExamSession.FormatTimeRoundTrip | src/pages/candidate/TestPage.jsx:85-86 | for s ≥ 0 the clock reads back as (s div 60, s mod 60), seconds below 60, and minutes·60 + seconds = s |
| ExamSession.Lookup | src/pages/candidate/TestPage.jsx:131 | `answers[qid] ?? null` is present exactly when the map has the key, and then holds its entry |
| ExamSession.UpdateAnswer | src/pages/candidate/TestPage.jsx:120-122 | the entry of qid becomes the value, and every other key and entry is unchanged |
| ExamSession.LastWriteWins | src/pages/candidate/TestPage.jsx:120-122 | a later write to the same question replaces the earlier one |
| ExamSession.MergedKeys | src/pages/candidate/TestPage.jsx:48-53 | a question gets a resumed answer iff some row for it has a truthy option, option list or written answer |
| ExamSession.MergedLastWins | src/pages/candidate/TestPage.jsx:48-53 | the resumed answer is the value of the last contributing row for that question, chosen as option, else option list, else written text |
| ExamSession.MergeResumed | src/pages/candidate/TestPage.jsx:48-53 | the forEach loop builds exactly the folded map `MergedAnswers` |
| ExamSession.NavStep | src/pages/candidate/TestPage.jsx:142 | forward from a valid index stays in range and moves by one unless on the last question; back subtracts one |
| ExamSession.WalkStaysInRange | src/pages/candidate/TestPage.jsx:300-324 | any sequence of next and enabled previous presses keeps the index in [0, n−1] |
| ExamSession.SavePayload | src/pages/candidate/TestPage.jsx:128-132 | the autosave carries the candidate, the question id, and the answer or null when there is none |
| ExamSession.InitialInv | src/pages/candidate/TestPage.jsx:22-27 | the mounted page satisfies the invariant, and timeLeft starts at duration_minutes·60 |
| ExamSession.FinalSubmitInv | src/pages/candidate/TestPage.jsx:148-158 | starting the final submission preserves the invariant |
| ExamSession.TimerEffectInv | src/pages/candidate/TestPage.jsx:69-83 | the timer effect preserves the invariant: an interval only on a positive countdown of a loaded page |
| ExamSession.ResolveInv | src/pages/candidate/TestPage.jsx:135-166 | settling any outstanding request preserves the invariant |
| ExamSession.StepInv | src/pages/candidate/TestPage.jsx:34-167 | every event preserves the invariant |
| ExamSession.RunInv | src/pages/candidate/TestPage.jsx:142 | after any sequence of events the index is on a question of the list, and at 0 while the list is empty |
| ExamSession.TimerRules | src/pages/candidate/TestPage.jsx:69-83 | the countdown never rises; nothing ticks while loading; a tick removes exactly one second; the tick reaching 0 calls handleFinalSubmit on that step (subject to its isSaving guard) and schedules no further tick; a page that loads with no time left calls it at once |
| ExamSession.TimeoutLost | src/pages/candidate/TestPage.jsx:69-83 | when the countdown reaches 0 during a "save & next" save, nothing is posted and no interval is scheduled; after the save settles the page stays running, idle and at 0:00, and ticks change nothing |
| ExamSession.FlushThenSubmit | src/pages/candidate/TestPage.jsx:148-158 | the guard returns at once while saving; with a truthy question id on screen that question is saved first, and once that settles the submission (candidate_id, test_id) is posted with isSaving already false; with no question on screen or a falsy id the submission is posted at once and isSaving stays set |
| ExamSession.SubmitSettles | src/pages/candidate/TestPage.jsx:155-166 | success clears the timer and routes to /thank-you; failure keeps the page with isSaving false, so a later trigger posts again |
| ExamSession.SubmitWindow | src/pages/candidate/TestPage.jsx:135-155 | triggers that read the current state are dropped during the flush; after the flush settles, the finish button on the last question or the timer's last tick starts a second submission although one is outstanding |
| ExamSession.RepeatedFinishSubmitsTwice | src/pages/candidate/TestPage.jsx:148-158 | two presses of finish & submit on the last question, with the flush settled between them, append save, submit, save, submit to the requests and leave both submit posts outstanding |
| ExamSession.TwoSubmissionsPossible | src/pages/candidate/TestPage.jsx:148-166 | a concrete run (load one question, finish, flush settles, finish again, flush settles) posts the submission twice |
| ExamSession.FinishFlushesLastEdit | src/pages/candidate/TestPage.jsx:152-153 | a written answer typed on the last question and never followed by "next" is the payload of the flush |
| ExamSession.ToggleFlipsOneLetter | src/pages/candidate/TestPage.jsx:238-245 | a checkbox click flips only its letter, keeps the other letters, and changes no other question |
| ExamSession.ExamPage.constructor | src/pages/candidate/TestPage.jsx:22-27 | the fields start as `Initial`: no questions, index 0, no answers, duration·60 seconds, loading |
| ExamSession.ExamPage.FinalSubmit | src/pages/candidate/TestPage.jsx:148-158 | the fields change as `FinalSubmitStep` says |
| ExamSession.ExamPage.RunTimerEffect | src/pages/candidate/TestPage.jsx:69-83 | the fields change as `TimerEffect` says |
| ExamSession.ExamPage.Loaded | src/pages/candidate/TestPage.jsx:34-64 | questions set after the start call; answers merged and loading ended only when the resume call also succeeds |
| ExamSession.ExamPage.Choose | src/pages/candidate/TestPage.jsx:190-208 | a radio click stores an offered value for a single or true/false question |
| ExamSession.ExamPage.ToggleChoice | src/pages/candidate/TestPage.jsx:217-245 | a checkbox click stores the toggled letter list of a multiple question |
| ExamSession.ExamPage.Write | src/pages/candidate/TestPage.jsx:254-262 | typing stores the text of a written question |
| ExamSession.NextThenAdvance | src/pages/candidate/TestPage.jsx:124-143 | off the last question and not saving, "save & next" posts `answers[qid] ?? null` for the question on screen and keeps the index; when that save settles, ok or not, the index is one further and isSaving is false; a falsy id moves on at once without a save |
| ExamSession.ExamPage.Next | src/pages/candidate/TestPage.jsx:140-143 | save and next: the save is issued (or the index advances at once for a falsy id) |
| ExamSession.ExamPage.Previous | src/pages/candidate/TestPage.jsx:300-302 | the index drops by one unless on the first question or while saving |
| ExamSession.ExamPage.Finish | src/pages/candidate/TestPage.jsx:308-315 | finish and submit on the last question starts the final submission |
| ExamSession.ExamPage.FullscreenChanged | src/pages/candidate/TestPage.jsx:94-99 | leaving fullscreen starts the final submission |
| ExamSession.ExamPage.VisibilityChanged | src/pages/candidate/TestPage.jsx:101-106 | hiding the page starts the final submission |
| ExamSession.ExamPage.Tick | src/pages/candidate/TestPage.jsx:77-79 | a tick of the running interval takes one second off and re-runs the timer effect |
| ExamSession.ExamPage.SettleNextSave | src/pages/candidate/TestPage.jsx:135-142 | after handleNext's save, isSaving is cleared and the index advances with the clamp |
| ExamSession.ExamPage.SettleFinalSave | src/pages/candidate/TestPage.jsx:135-158 | after the flush, isSaving is cleared and the submit post is issued |
| ExamSession.ExamPage.SettleSubmit | src/pages/candidate/TestPage.jsx:155-166 | after the submit post: timer cleared and routed on success, isSaving cleared either way |
| ExamSession.ExamPage.Resolve | src/pages/candidate/TestPage.jsx:124-167 | settling an outstanding request changes the fields as `Step` says |
| Results.SearchPosition | src/pages/admin/results.jsx:73-74 | definition of the applied position the search sees; see Results.PositionDefaults |
| Results.DisplayedPosition | src/pages/admin/results.jsx:128-129 | definition of the applied position the header shows; see Results.PositionDefaults |
| Results.MatchesSearch | src/pages/admin/results.jsx:76-82 | definition of the filter predicate; see Results.FilterResults, Results.FilterComplete and Results.FilterMultiplicity |
| Results.SliceBound | src/pages/admin/results.jsx:87 | a `slice` bound lies in [0, len]: a negative one counts from the end, then it is clamped |
| Results.JsSlice | src/pages/admin/results.jsx:87 | definition of `slice(start, end)`; see Results.PageShape |
| Results.PageOf | src/pages/admin/results.jsx:85-87 | definition of the records on page p; see Results.PageShape and Results.PagesReassemble |
| Results.IsWritten | src/pages/admin/results.jsx:132 | definition: the type lower-cases to "written"; see Results.CountWritten |
| Results.WrittenCount | src/pages/admin/results.jsx:132 | definition of `filter(...).length \|\| 0` on the optional review; see Results.CountWritten |
| Results.PressPage | src/pages/admin/results.jsx:257-285 | definition of a pagination press; see Results.PressesStayInRange |
| Results.FirstNamed | src/pages/admin/results.jsx:74 | the offset of the first review entry with a position name: all before it have none |
| Results.PositionDefaults | src/pages/admin/results.jsx:73-74 | with no named entry the search sees "" and the header (line 129) shows "General"; otherwise both use the first name |
| Results.FilterResults | src/pages/admin/results.jsx:72-83 | every kept record is from the list and matches the lower-cased term in name, applied position or father's name |
| Results.FilterComplete | src/pages/admin/results.jsx:72-83 | every matching record is kept |
| Results.FilterKeepsOrder | src/pages/admin/results.jsx:72 | the kept records appear in their original order |
| Results.FilterMultiplicity | src/pages/admin/results.jsx:72-83 | every copy of a matching record is kept and no copy of any other, so with the order the result is determined exactly |
| Results.EmptySearchKeepsAll | src/pages/admin/results.jsx:72-83 | an empty search keeps every record |
| Results.PageShape | src/pages/admin/results.jsx:85-87 | a page never holds more than ten records; page p ≥ 1 is records (p−1)·10 to p·10, clipped |
| Results.TotalPages | src/pages/admin/results.jsx:88 | the page count is the ceiling of n/10 |
| Results.PagesReassemble | src/pages/admin/results.jsx:85-88 | pages 1 to totalPages, joined, are the filtered list |
| Results.CountWritten | src/pages/admin/results.jsx:132 | at most the number of entries; zero iff no entry lower-cases to "written"; all iff every one does |
| Results.CountWrittenAppend | src/pages/admin/results.jsx:132 | the count of a concatenation is the sum of the counts |
| Results.StatusBadge | src/pages/admin/results.jsx:28-48 | "Correct" gives the correct badge, "Pending" the pending badge, anything else the incorrect one |
| Results.RenderAnswer | src/pages/admin/results.jsx:21-26 | a falsy text reads Not Answered, any other text is shown as it is |
| Results.CorrectAnswerCell | src/pages/admin/results.jsx:242-244 | written questions show the manual-check cell, others the rendered correct answer |
| Results.PressesStayInRange | src/pages/admin/results.jsx:257-285 | with more than one page, any sequence of button presses keeps the page in [1, totalPages] |
| Results.ResultsPage.constructor | src/pages/admin/results.jsx:54-57 | no results, loading, empty search, page 1 |
| Results.ResultsPage.Loaded | src/pages/admin/results.jsx:61-70 | rows replace the list on success; loading ends either way |
| Results.ResultsPage.Search | src/pages/admin/results.jsx:117-121 | the search term changes and the page returns to 1 |
| Results.ResultsPage.Press | src/pages/admin/results.jsx:257-285 | previous and next move by one, disabled at the ends and hidden with one page; the page stays in range |
| GenerateTest.Total | src/pages/admin/GenerateTest.jsx:31-34 | definition of totalSelected; see GenerateTest.SetTotal and GenerateTest.EditsKeepTotal |
| GenerateTest.GenerateEnabled | src/pages/admin/GenerateTest.jsx:176 | definition of the enabled generate button; see GenerateTest.EnabledIffNoWarning |
| GenerateTest.WarningShown | src/pages/admin/GenerateTest.jsx:166-170 | definition of the "Total must equal 15" warning; see GenerateTest.EnabledIffNoWarning |
| GenerateTest.Set | src/pages/admin/GenerateTest.jsx:147-150 | the edited count takes the value and the other three are unchanged |
| GenerateTest.SetTotal | src/pages/admin/GenerateTest.jsx:152-155 | the new total is the old total minus the old count plus the new value |
| GenerateTest.InitialDistribution | src/pages/admin/GenerateTest.jsx:24-29 | 7 + 4 + 2 + 2, summing to TOTAL_QUESTIONS = 15 |
| GenerateTest.EditDistribution | src/pages/admin/GenerateTest.jsx:145-160 | an edit is kept iff the new total is at most 15, changing only its key; otherwise nothing changes |
| GenerateTest.EditsKeepTotal | src/pages/admin/GenerateTest.jsx:152-159 | across any sequence of edits the total never exceeds 15 |
| GenerateTest.EnabledIffNoWarning | src/pages/admin/GenerateTest.jsx:166-176 | with a position chosen and nothing loading, generate is enabled iff the warning is hidden; never while loading |
| GenerateTest.GeneratePage.constructor | src/pages/admin/GenerateTest.jsx:17-29 | no positions, no position chosen, 30 minutes, no link, the initial distribution |
| GenerateTest.GeneratePage.PositionsLoaded | src/pages/admin/GenerateTest.jsx:36-38 | the positions are replaced on success, kept on failure |
| GenerateTest.GeneratePage.SelectPosition | src/pages/admin/GenerateTest.jsx:98-101 | the chosen position id changes, nothing else |
| GenerateTest.GeneratePage.SetDuration | src/pages/admin/GenerateTest.jsx:116-120 | the duration changes, nothing else |
| GenerateTest.GeneratePage.EditCount | src/pages/admin/GenerateTest.jsx:145-160 | the distribution changes as `EditDistribution` says and stays within 15 |
| GenerateTest.GeneratePage.Generate | src/pages/admin/GenerateTest.jsx:40-48 | a request is issued iff the button is enabled; it carries position_id, duration_minutes, total_questions = 15 and a distribution summing to 15 |
| GenerateTest.GeneratePage.GenerateSettled | src/pages/admin/GenerateTest.jsx:49-54 | the link is set on success; loading ends either way |
| Questions.OptionText | src/pages/admin/Questions.jsx:316 | definition of `q[`option_${key}`]`; see Questions.EditOption and Questions.OptionRows |
| Questions.Upper | src/pages/admin/Questions.jsx:320-321 | definition of `key.toUpperCase()` for the four keys; see Questions.IsCorrect |
| Questions.Row | src/pages/admin/Questions.jsx:315-341 | definition of one option row, none for an empty label; see Questions.OptionRows |
| Questions.SaveEnabled | src/pages/admin/Questions.jsx:257 | definition of the enabled save button; see Questions.QuestionsPage.BeginAdd |
| Questions.DefaultForm | src/pages/admin/Questions.jsx:32-38 | empty text and options, type single, correct "A", no correct letters |
| Questions.ToggleMultiple | src/pages/admin/Questions.jsx:60-67 | the letter flips in or out of the correct letters; other letters and fields are unchanged |
| Questions.ToggleMultipleTwice | src/pages/admin/Questions.jsx:60-67 | toggling twice restores the marked letters |
| Questions.ChangeType | src/pages/admin/Questions.jsx:174 | a new type resets correct to "A" and the letters to empty, keeping text and options |
| Questions.EditOption | src/pages/admin/Questions.jsx:195 | one option text changes, the others and all other fields stay |
| Questions.Payload | src/pages/admin/Questions.jsx:84-98 | correct_option is null for multiple and written and the form's answer otherwise; correct_options is the letters iff multiple, else null; other fields copied |
| Questions.PayloadAnswerFields | src/pages/admin/Questions.jsx:92-97 | written sends neither answer field, multiple only the list, single and true/false only the option |
| Questions.IsCorrect | src/pages/admin/Questions.jsx:319-321 | single compares correct_option with the upper-case key; others test membership in correct_options, a missing list marking nothing |
| Questions.OptionRows | src/pages/admin/Questions.jsx:313-341 | only single and multiple questions list options; one row per option with a label, each marked as isCorrect says |
| Questions.StoredQuestion | src/pages/admin/Questions.jsx:319-321 | the question the list reads back carries the posted type, option texts and both answer fields |
| Questions.MarksFollowForm | src/pages/admin/Questions.jsx:319-321 | the list marks as correct exactly what the form marked: its chosen letter for single-choice, its toggled letters for multiple-answer |
| Questions.LoadQuestions | src/pages/admin/Questions.jsx:47-55 | questions are requested for the id iff it is non-empty |
| Questions.QuestionsPage.constructor | src/pages/admin/Questions.jsx:26-38 | no positions, no position, no questions, not submitting, the default form |
| Questions.QuestionsPage.PositionsLoaded | src/pages/admin/Questions.jsx:43-45 | positions are replaced on success, kept on failure |
| Questions.QuestionsPage.SelectPosition | src/pages/admin/Questions.jsx:127-132 | the filter sets the position and requests its questions when it is non-empty |
| Questions.QuestionsPage.QuestionsLoaded | src/pages/admin/Questions.jsx:49-54 | questions are replaced on success, kept on failure |
| Questions.QuestionsPage.EditQuestionText | src/pages/admin/Questions.jsx:165 | only the question text changes |
| Questions.QuestionsPage.EditOptionText | src/pages/admin/Questions.jsx:195 | the form changes as `EditOption` says |
| Questions.QuestionsPage.SelectType | src/pages/admin/Questions.jsx:174 | the form changes as `ChangeType` says |
| Questions.QuestionsPage.PickCorrect | src/pages/admin/Questions.jsx:207-210 | only the single correct answer changes |
| Questions.QuestionsPage.PickCorrectMultiple | src/pages/admin/Questions.jsx:225-228 | the form changes as `ToggleMultiple` says |
| Questions.QuestionsPage.BeginAdd | src/pages/admin/Questions.jsx:79-98 | with save enabled (a position, not submitting) the payload of the form is posted, submitting starts and the position is kept for the reload; otherwise nothing |
| Questions.QuestionsPage.FinishAdd | src/pages/admin/Questions.jsx:100-111 | success resets the form to the default and reloads the position the add was posted for (kept by BeginAdd), even if the filter changed meanwhile; failure keeps the form; submitting ends either way |
| CandidateForm.AnyEmpty | src/pages/candidate/CandidateForm.jsx:37 | definition of `Object.values(form).some(v => !v)`; see CandidateForm.AnyEmptyIff |
| CandidateForm.EmptyDetails | src/pages/candidate/CandidateForm.jsx:20-26 | all five fields start empty |
| CandidateForm.SetField | src/pages/candidate/CandidateForm.jsx:31-33 | the named field takes the value and the other four are unchanged |
| CandidateForm.AnyEmptyIff | src/pages/candidate/CandidateForm.jsx:37 | the form is incomplete iff some field is empty |
| CandidateForm.FillingAllFields | src/pages/candidate/CandidateForm.jsx:31-40 | after all five fields are filled, the form passes the check |
| CandidateForm.CandidatePage.constructor | src/pages/candidate/CandidateForm.jsx:20-29 | empty form, no error, not submitting, still on the page |
| CandidateForm.CandidatePage.Change | src/pages/candidate/CandidateForm.jsx:31-33 | the form changes as `SetField` says |
| CandidateForm.CandidatePage.BeginSubmit | src/pages/candidate/CandidateForm.jsx:35-49 | an incomplete form sets the "complete all fields" error and posts nothing; a complete one clears the error, starts submitting and posts test_id with the five fields |
| CandidateForm.CandidatePage.FinishSubmit | src/pages/candidate/CandidateForm.jsx:51-61 | success routes to the terms page with the test and the returned candidate id; failure sets the connection error; submitting ends either way |
| Positions.IdLabel | src/pages/admin/Positions.jsx:126 | definition of the "ID-" label; see Positions.IdLabelShape |
| Positions.AddEnabled | src/pages/admin/Positions.jsx:84 | definition of the enabled add button; see Positions.AddEnabledIff |
| Positions.IdLabelShape | src/pages/admin/Positions.jsx:126 | "ID-" and at least three digits that read back as the id; ids of three or more digits unchanged, shorter ones zero-padded |
| Positions.AddEnabledIff | src/pages/admin/Positions.jsx:84 | the add button is enabled iff not submitting and the name is not whitespace only |
| Positions.PositionsPage.constructor | src/pages/admin/Positions.jsx:14-18 | no positions, empty name, loading, not submitting |
| Positions.PositionsPage.EditName | src/pages/admin/Positions.jsx:78 | only the name changes |
| Positions.PositionsPage.BeginLoad | src/pages/admin/Positions.jsx:20-21 | loading starts, nothing else changes |
| Positions.PositionsPage.LoadSettled | src/pages/admin/Positions.jsx:22-29 | positions replaced on success and kept on failure; loading ends either way |
| Positions.PositionsPage.BeginAdd | src/pages/admin/Positions.jsx:32-38 | a blank name (or a running submission) posts nothing; otherwise the name is posted and submitting starts |
| Positions.PositionsPage.FinishAdd | src/pages/admin/Positions.jsx:38-45 | success clears the name and starts a reload; failure keeps the name; submitting ends either way |

## Left out

- Rendering, styling, icons and the step indicator of every page. They are presentation only.
- The remote service. Every call is an `Ok`/`Failed` input to the model, and what the server does with a request is not visible.
- `alert`, `console.error`, `window.confirm`, `requestFullscreen` and the clipboard. They are host calls without state the pages read back.
- Adding and removing the DOM listeners, and wall-clock time. Integrity signals and interval ticks are events instead.
- React closure staleness. The fullscreen and visibility listeners are registered once at mount, so in the running program they call the first render's `handleFinalSubmit`. That closure sees `isSaving` false and no questions, so each integrity signal posts the submission at once, without a flush, and is never dropped. The model's handlers read the current state instead, so the lemmas about those two events describe the model rather than the running program.
- Batching of state updates. Two triggers in the same turn would both read the old `isSaving`; the model treats each event as seeing the updates of the previous one.
- ExamSession.LoadStep: `fetchTest`'s two awaits are one event, so a failed resume call and a failed start call differ only in whether the questions were set. The start and resume requests are not recorded in `sent`. The model also accepts a second `Loaded` event while `loading` holds, whereas `fetchTest` runs once, at mount.
- ExamSession.SelectedLetters: a string answer stored on a multiple-choice question is read as no letters. The running program would call `includes` on the string.
- Rendering with an empty question list after loading. The page dereferences an undefined question there.
- Full Unicode case folding. `Text.Lower` folds ASCII letters only.
- Numbers that are not integers, such as a fractional or NaN count typed into the generator. All counts and durations are `int`; `Number("")` is taken as 0 by the caller.
- HTML `required`, `min` and `max` attributes. The browser enforces them, not the page's code.
- The delete handlers for questions and positions. Each is a confirm dialog, a call and a reload.
- Questions.StoredQuestion: the server is assumed to store the posted fields as they are and to return them unchanged when the list is reloaded. The back end is not part of this model.
- Results.ResultsPage.Loaded: it requires `loading`, because only the request issued at mount is modelled. Refetching when the token changes is left out.
- `toLocaleDateString` of the date of birth, and the `setTimeout` that resets the "copied" flag in the generator.
- Routing, the dashboard, login, terms, thank-you, test assignment and the auth context. `App.jsx`, `Dashboard.jsx`, `Login.jsx`, `Terms.jsx`, `ThankYou.jsx`, `AssignTest.jsx` and `AuthContext.jsx` are not part of this model.
