/** The candidate's exam page: the question list, the pointer into it, the answers, the
    countdown and the final submission (src/pages/candidate/TestPage.jsx).

    The page's handlers are asynchronous: each awaited request splits a handler in two.
    The model makes that split explicit. Issuing a request appends it to `sent` and
    appends the code waiting for it to `inflight`; the event `Resolve(k, ok)` delivers the
    k-th outstanding response, in any order, and runs the rest of its handler. `Step`
    gives the effect of every event on the page's state; the class `ExamPage` below does
    the same work imperatively on fields and is proved to agree with `Step`. */
module ExamSession {
  import opened Common
  import opened Text
  import opened Selection

  /** Question ids as the service sends them; 0 is the one falsy id, which saveAnswer
      skips. */
  type QuestionId = int

  /** A question as the start call returns it; an empty label stands for a missing one. */
  datatype Question = Question(id: QuestionId, questionType: string,
                               optionA: string, optionB: string, optionC: string, optionD: string)

  /** A stored answer: one string (an option letter, "TRUE"/"FALSE" or a written text) or
      the list of letters ticked on a multiple-choice question. */
  datatype Answer = Scalar(value: string) | Multi(values: seq<string>)

  /** One row of the resume response. A null text field is "" (both are falsy); the
      letter list is an array, truthy even when it is empty. */
  datatype SavedAnswer = SavedAnswer(questionId: QuestionId, selectedOption: string,
                                     selectedOptions: Option<seq<string>>, writtenAnswer: string)

  /** The requests the page posts: an autosave and the final submission. */
  datatype Request =
    | SaveAnswer(candidateId: int, questionId: QuestionId, answer: Option<Answer>)
    | Submit(candidateId: int, testId: int)

  /** The code that waits on an outstanding request: handleNext after its save,
      handleFinalSubmit after its flush, handleFinalSubmit after the submit post. */
  datatype Pending = AwaitNextSave | AwaitFinalSave | AwaitSubmit

  /** Whether the page is still mounted or has routed to /thank-you. */
  datatype Outcome = Running | ThankYou

  datatype Nav = Forward | Back

  datatype Session = Session(
    candidateId: int, testId: int,
    questions: seq<Question>,
    index: int,
    answers: map<QuestionId, Answer>,
    timeLeft: int,
    loading: bool,
    isSaving: bool,
    ticking: bool,              // an interval is scheduled in timerRef
    outcome: Outcome,
    inflight: seq<Pending>,
    sent: seq<Request>)

  /** Everything that can happen to the page: the load finishing, the candidate's inputs,
      the two integrity signals, one interval tick and a request settling. */
  datatype Event =
    | Loaded(start: Response<Option<seq<Question>>>, resume: Response<Option<seq<SavedAnswer>>>)
    | Choose(choice: string)
    | ToggleChoice(letter: string)
    | Write(text: string)
    | NextPressed
    | PreviousPressed
    | FinishPressed
    | FullscreenChanged(inFullscreen: bool)
    | VisibilityChanged(hidden: bool)
    | Tick
    | Resolve(k: nat, ok: bool)

  // ===== helpers =====

  /** idxToOpt: the option letter of the i-th option. */
  function IdxToOpt(i: int): (r: string)
    requires 0 <= i < 4
    ensures r == [('A' as int + i) as char]
  {
    ["A", "B", "C", "D"][i]
  }

  lemma IdxToOptInjective(i: int, j: int)
    requires 0 <= i < 4 && 0 <= j < 4 && i != j
    ensures IdxToOpt(i) != IdxToOpt(j)
  {
    assert IdxToOpt(i)[0] != IdxToOpt(j)[0];
  }

  /** JavaScript's `a % b`: the remainder takes the sign of the dividend. */
  function JsRemainder(a: int, b: int): int
    requires b > 0
  {
    if a >= 0 then a % b else -((-a) % b)
  }

  /** formatTime: whole minutes (Math.floor), a colon and the seconds padded to two
      characters. */
  function FormatTime(s: int): string {
    IntToString(s / 60) + ":" + PadStart(IntToString(JsRemainder(s, 60)), 2, '0')
  }

  /** The position of the first colon, or |t| when there is none. */
  function ColonAt(t: string): (k: int)
    ensures 0 <= k <= |t|
    ensures forall j | 0 <= j < k :: t[j] != ':'
    ensures k < |t| ==> t[k] == ':'
  {
    if t == [] || t[0] == ':' then 0 else 1 + ColonAt(t[1..])
  }

  /** Reads a clock "m:ss" back into minutes and seconds. */
  function ParseClock(t: string): Option<(nat, nat)> {
    var k := ColonAt(t);
    if k < |t| && 0 < k && AllDigits(t[..k]) && |t[k + 1..]| == 2 && AllDigits(t[k + 1..])
    then Some((DecimalValue(t[..k]), DecimalValue(t[k + 1..])))
    else None
  }

  /** For a non-negative count of seconds the clock shows whole minutes and the seconds
      below 60, and reading it back gives the count. */
  lemma FormatTimeRoundTrip(s: int)
    requires s >= 0
    ensures ParseClock(FormatTime(s)) == Some((s / 60, s % 60))
    ensures s / 60 * 60 + s % 60 == s && s % 60 < 60
  {
    var m, sec := s / 60, s % 60;
    var a := NatToDecimal(m);
    var b := PadStart(NatToDecimal(sec), 2, '0');
    var t := a + ":" + b;
    assert JsRemainder(s, 60) == sec;
    assert FormatTime(s) == t;
    assert t[|a|] == ':';
    assert forall j | 0 <= j < |a| :: t[j] == a[j];
    assert ColonAt(t) == |a|;
    assert t[..|a|] == a;
    assert t[|a| + 1..] == b;
    DecimalRoundTrip(m);
    DecimalRoundTrip(sec);
    DecimalLength(sec);
    if sec < 10 {
      assert Repeat('0', 1) == "0";
      assert b == "0" + NatToDecimal(sec);
      LeadingZero(NatToDecimal(sec));
    } else {
      assert b == NatToDecimal(sec);
    }
  }

  // ===== the answer store =====

  /** `answers[qid] ?? null` */
  function Lookup(m: map<QuestionId, Answer>, qid: QuestionId): (r: Option<Answer>)
    ensures r.Some? <==> qid in m
    ensures r.Some? ==> r.value == m[qid]
  {
    if qid in m then Some(m[qid]) else None
  }

  /** updateAnswer: the entry of qid becomes v and no other entry changes. */
  function UpdateAnswer(m: map<QuestionId, Answer>, qid: QuestionId, v: Answer): (r: map<QuestionId, Answer>)
    ensures qid in r && r[qid] == v
    ensures forall k | k != qid :: (k in r <==> k in m) && (k in m ==> r[k] == m[k])
  {
    m[qid := v]
  }

  /** A later write to the same question replaces the earlier one. */
  lemma LastWriteWins(m: map<QuestionId, Answer>, qid: QuestionId, v1: Answer, v2: Answer)
    ensures UpdateAnswer(UpdateAnswer(m, qid, v1), qid, v2) == UpdateAnswer(m, qid, v2)
  {
  }

  /** `answers[q.id] || []`: the letters already ticked on a multiple-choice question. */
  function SelectedLetters(a: Option<Answer>): seq<string> {
    match a
    case Some(Multi(xs)) => xs
    case _ => []
  }

  // ===== the resume merge =====

  /** The value one resume row contributes: selected_option, else selected_options, else
      written_answer; none when all three are falsy. */
  function ResumedValue(a: SavedAnswer): Option<Answer> {
    if a.selectedOption != "" then Some(Scalar(a.selectedOption))
    else if a.selectedOptions.Some? then Some(Multi(a.selectedOptions.value))
    else if a.writtenAnswer != "" then Some(Scalar(a.writtenAnswer))
    else None
  }

  predicate Contributes(a: SavedAnswer, qid: QuestionId) {
    a.questionId == qid && ResumedValue(a).Some?
  }

  function Absorb(m: map<QuestionId, Answer>, a: SavedAnswer): map<QuestionId, Answer> {
    match ResumedValue(a)
    case None => m
    case Some(v) => m[a.questionId := v]
  }

  /** The answer map after the rows are folded in, in order. */
  function MergedAnswers(saved: seq<SavedAnswer>): map<QuestionId, Answer>
    decreases |saved|
  {
    if saved == [] then map[] else Absorb(MergedAnswers(saved[..|saved| - 1]), saved[|saved| - 1])
  }

  /** A question has a merged answer exactly when some row for it contributes a value;
      a row whose three fields are falsy adds no key. */
  lemma {:induction false} MergedKeys(saved: seq<SavedAnswer>, qid: QuestionId)
    ensures qid in MergedAnswers(saved) <==> exists i | 0 <= i < |saved| :: Contributes(saved[i], qid)
    decreases |saved|
  {
    if saved != [] {
      var init := saved[..|saved| - 1];
      MergedKeys(init, qid);
      if exists i | 0 <= i < |init| :: Contributes(init[i], qid) {
        var i :| 0 <= i < |init| && Contributes(init[i], qid);
        assert saved[i] == init[i];
      }
      if exists i | 0 <= i < |saved| :: Contributes(saved[i], qid) {
        var i :| 0 <= i < |saved| && Contributes(saved[i], qid);
        if i < |init| {
          assert init[i] == saved[i];
        }
      }
    }
  }

  /** The merged answer of a question is the value of the last row for it that
      contributes one. */
  lemma {:induction false} MergedLastWins(saved: seq<SavedAnswer>, j: int)
    requires 0 <= j < |saved| && ResumedValue(saved[j]).Some?
    requires forall i | j < i < |saved| :: !Contributes(saved[i], saved[j].questionId)
    ensures saved[j].questionId in MergedAnswers(saved)
    ensures MergedAnswers(saved)[saved[j].questionId] == ResumedValue(saved[j]).value
    decreases |saved|
  {
    var init := saved[..|saved| - 1];
    if j < |saved| - 1 {
      assert init[j] == saved[j];
      forall i | j < i < |init| ensures !Contributes(init[i], init[j].questionId) {
        assert init[i] == saved[i];
      }
      MergedLastWins(init, j);
    }
  }

  /** The forEach of fetchTest, writing each contributing row into the map. */
  method MergeResumed(saved: seq<SavedAnswer>) returns (m: map<QuestionId, Answer>)
    ensures m == MergedAnswers(saved)
  {
    m := map[];
    var i := 0;
    while i < |saved|
      invariant 0 <= i <= |saved|
      invariant m == MergedAnswers(saved[..i])
    {
      var a := saved[i];
      if a.selectedOption != "" {
        m := m[a.questionId := Scalar(a.selectedOption)];
      } else if a.selectedOptions.Some? {
        m := m[a.questionId := Multi(a.selectedOptions.value)];
      } else if a.writtenAnswer != "" {
        m := m[a.questionId := Scalar(a.writtenAnswer)];
      }
      assert saved[..i + 1][..i] == saved[..i];
      i := i + 1;
    }
    assert saved[..|saved|] == saved;
  }

  // ===== navigation =====

  /** The index update of handleNext (`Math.min(i + 1, questions.length - 1)`) and of the
      previous button (`i - 1`). */
  function NavStep(index: int, count: int, step: Nav): (r: int)
    ensures step == Forward && 0 <= index < count ==> 0 <= r < count && (r == index + 1 || r == index == count - 1)
    ensures step == Back ==> r == index - 1
  {
    match step
    case Forward => Min(index + 1, count - 1)
    case Back => index - 1
  }

  /** A button press: previous is disabled on the first question, next on the last. */
  function Press(index: int, count: int, step: Nav): int {
    match step
    case Forward => if index == count - 1 then index else NavStep(index, count, Forward)
    case Back => if index == 0 then index else NavStep(index, count, Back)
  }

  function Walk(index: int, count: int, steps: seq<Nav>): int
    decreases |steps|
  {
    if steps == [] then index else Walk(Press(index, count, steps[0]), count, steps[1..])
  }

  /** Any sequence of presses keeps the index on a question of a non-empty list. */
  lemma {:induction false} WalkStaysInRange(index: int, count: int, steps: seq<Nav>)
    requires 0 <= index < count
    ensures 0 <= Walk(index, count, steps) < count
    decreases |steps|
  {
    if steps != [] {
      WalkStaysInRange(Press(index, count, steps[0]), count, steps[1..]);
    }
  }

  // ===== the page as a state machine =====

  function Initial(candidateId: int, testId: int, durationMinutes: int): Session {
    Session(candidateId, testId, [], 0, map[], durationMinutes * 60,
            true, false, false, Running, [], [])
  }

  /** The question on screen exists only once loading is over. */
  predicate Shown(s: Session) {
    s.outcome == Running && !s.loading && 0 <= s.index < |s.questions|
  }

  /** `questions[index]?.id` */
  function CurrentId(s: Session): Option<QuestionId> {
    if 0 <= s.index < |s.questions| then Some(s.questions[s.index].id) else None
  }

  /** The body of saveAnswer's post. */
  function SavePayload(s: Session, qid: QuestionId): (r: Request)
    ensures r.SaveAnswer? && r.candidateId == s.candidateId && r.questionId == qid
    ensures r.answer.Some? <==> qid in s.answers
    ensures qid in s.answers ==> r.answer.value == s.answers[qid]
  {
    SaveAnswer(s.candidateId, qid, Lookup(s.answers, qid))
  }

  /** What renderOptions offers for a question: "TRUE"/"FALSE", or the letters of the
      options that have a label. */
  function ChoiceValues(q: Question): seq<string> {
    if q.questionType == "true_false" then ["TRUE", "FALSE"]
    else if q.questionType == "single" || q.questionType == "multiple" then
      (if q.optionA != "" then [IdxToOpt(0)] else [])
      + (if q.optionB != "" then [IdxToOpt(1)] else [])
      + (if q.optionC != "" then [IdxToOpt(2)] else [])
      + (if q.optionD != "" then [IdxToOpt(3)] else [])
    else []
  }

  /** handleFinalSubmit up to its first await: the isSaving guard, then the flush of the
      question on screen, or straight to the submit post when there is none. */
  function FinalSubmitStep(s: Session): Session {
    if s.isSaving then s
    else
      var lastQ := CurrentId(s);
      if lastQ.Some? && lastQ.value != 0 then
        s.(isSaving := true, sent := s.sent + [SavePayload(s, lastQ.value)],
           inflight := s.inflight + [AwaitFinalSave])
      else
        s.(isSaving := true, sent := s.sent + [Submit(s.candidateId, s.testId)],
           inflight := s.inflight + [AwaitSubmit])
  }

  /** The timer effect, run whenever timeLeft or loading changes: the previous interval
      is cleared; nothing is scheduled while loading; at zero or below the final
      submission starts instead of a new interval. */
  function TimerEffect(s: Session): Session {
    var cleared := s.(ticking := false);
    if cleared.loading then cleared
    else if cleared.timeLeft <= 0 then FinalSubmitStep(cleared)
    else cleared.(ticking := true)
  }

  /** fetchTest: the start call, then the resume call. A failure of either leaves the
      page loading; a success of both merges the saved answers and ends loading. */
  function LoadStep(s: Session, start: Response<Option<seq<Question>>>,
                    resume: Response<Option<seq<SavedAnswer>>>): Session {
    if !s.loading || s.outcome != Running || start.Failed? then s
    else
      var withQuestions := s.(questions := start.data.GetOr([]));
      if resume.Failed? then withQuestions
      else TimerEffect(withQuestions.(answers := MergedAnswers(resume.data.GetOr([])), loading := false))
  }

  function ChooseStep(s: Session, choice: string): Session {
    if !Shown(s) then s
    else
      var q := s.questions[s.index];
      if (q.questionType == "single" || q.questionType == "true_false") && choice in ChoiceValues(q)
      then s.(answers := UpdateAnswer(s.answers, q.id, Scalar(choice)))
      else s
  }

  /** The checkbox of a multiple-choice option: the letter is removed when ticked and
      appended otherwise. */
  function ToggleStep(s: Session, letter: string): Session {
    if !Shown(s) then s
    else
      var q := s.questions[s.index];
      if q.questionType == "multiple" && letter in ChoiceValues(q)
      then s.(answers := UpdateAnswer(s.answers, q.id,
                                      Multi(Toggle(SelectedLetters(Lookup(s.answers, q.id)), letter))))
      else s
  }

  function WriteStep(s: Session, text: string): Session {
    if !Shown(s) then s
    else
      var q := s.questions[s.index];
      if q.questionType == "written" then s.(answers := UpdateAnswer(s.answers, q.id, Scalar(text)))
      else s
  }

  /** handleNext, from the "save & next" button (shown off the last question, disabled
      while saving), up to its await. */
  function NextStep(s: Session): Session {
    if !Shown(s) || s.index == |s.questions| - 1 || s.isSaving then s
    else
      var qid := s.questions[s.index].id;
      if qid != 0 then
        s.(isSaving := true, sent := s.sent + [SavePayload(s, qid)],
           inflight := s.inflight + [AwaitNextSave])
      else s.(index := NavStep(s.index, |s.questions|, Forward))
  }

  function PreviousStep(s: Session): Session {
    if !Shown(s) || s.index == 0 || s.isSaving then s
    else s.(index := NavStep(s.index, |s.questions|, Back))
  }

  /** The "finish & submit" button, shown on the last question, disabled while saving. */
  function FinishStep(s: Session): Session {
    if !Shown(s) || s.index != |s.questions| - 1 || s.isSaving then s
    else FinalSubmitStep(s)
  }

  function TickStep(s: Session): Session {
    if s.outcome == Running && s.ticking then TimerEffect(s.(timeLeft := s.timeLeft - 1))
    else s
  }

  function RemoveAt(xs: seq<Pending>, k: nat): (r: seq<Pending>)
    requires k < |xs|
    ensures |r| == |xs| - 1
    ensures forall p | p in r :: p in xs
  {
    xs[..k] + xs[k + 1..]
  }

  /** The rest of a handler once its request settles. After the page has routed away,
      its state updates are lost, but the code after an await still runs. */
  function ResolveStep(s: Session, k: nat, ok: bool): Session {
    if k >= |s.inflight| then s
    else
      var rest := s.(inflight := RemoveAt(s.inflight, k));
      var live := s.outcome == Running;
      match s.inflight[k]
      case AwaitNextSave =>
        // saveAnswer's finally, then handleNext's index update; a failed save is only logged
        if live then rest.(isSaving := false, index := NavStep(rest.index, |rest.questions|, Forward))
        else rest
      case AwaitFinalSave =>
        // saveAnswer's finally clears isSaving before the submit post is issued
        var saved := if live then rest.(isSaving := false) else rest;
        saved.(sent := saved.sent + [Submit(s.candidateId, s.testId)],
               inflight := saved.inflight + [AwaitSubmit])
      case AwaitSubmit =>
        if !live then rest
        else if ok then rest.(ticking := false, outcome := ThankYou, isSaving := false)
        else rest.(isSaving := false)
  }

  function Step(s: Session, e: Event): Session {
    match e
    case Loaded(start, resume) => LoadStep(s, start, resume)
    case Choose(choice) => ChooseStep(s, choice)
    case ToggleChoice(letter) => ToggleStep(s, letter)
    case Write(text) => WriteStep(s, text)
    case NextPressed => NextStep(s)
    case PreviousPressed => PreviousStep(s)
    case FinishPressed => FinishStep(s)
    case FullscreenChanged(inFullscreen) =>
      if s.outcome == Running && !inFullscreen then FinalSubmitStep(s) else s
    case VisibilityChanged(hidden) =>
      if s.outcome == Running && hidden then FinalSubmitStep(s) else s
    case Tick => TickStep(s)
    case Resolve(k, ok) => ResolveStep(s, k, ok)
  }

  function Run(s: Session, events: seq<Event>): Session
    decreases |events|
  {
    if events == [] then s else Run(Step(s, events[0]), events[1..])
  }

  // ===== properties =====

  /** What every reachable state satisfies: the index is on a question (0 while none are
      loaded), a pending handleNext implies loaded questions, and an interval runs only
      on a positive countdown of a mounted, loaded page. */
  predicate Inv(s: Session) {
    && 0 <= s.index
    && (s.index == 0 || s.index < |s.questions|)
    && (s.loading ==> s.index == 0)
    && (AwaitNextSave in s.inflight ==> !s.loading && |s.questions| > 0)
    && (s.ticking ==> !s.loading && s.timeLeft > 0 && s.outcome == Running)
  }

  lemma InitialInv(candidateId: int, testId: int, durationMinutes: int)
    ensures Inv(Initial(candidateId, testId, durationMinutes))
    ensures Initial(candidateId, testId, durationMinutes).timeLeft == durationMinutes * 60
  {
  }

  lemma FinalSubmitInv(s: Session)
    requires Inv(s)
    ensures Inv(FinalSubmitStep(s))
  {
  }

  lemma TimerEffectInv(s: Session)
    requires Inv(s.(ticking := false)) && s.outcome == Running
    ensures Inv(TimerEffect(s))
  {
    FinalSubmitInv(s.(ticking := false));
  }

  lemma ResolveInv(s: Session, k: nat, ok: bool)
    requires Inv(s)
    ensures Inv(ResolveStep(s, k, ok))
  {
    if k < |s.inflight| {
      var rest := RemoveAt(s.inflight, k);
      assert AwaitNextSave in rest ==> AwaitNextSave in s.inflight;
      if s.inflight[k] == AwaitNextSave {
        assert AwaitNextSave in s.inflight;
      }
    }
  }

  lemma StepInv(s: Session, e: Event)
    requires Inv(s)
    ensures Inv(Step(s, e))
  {
    match e
    case Loaded(start, resume) =>
      if s.loading && s.outcome == Running && start.Ok? && resume.Ok? {
        var w := s.(questions := start.data.GetOr([]));
        TimerEffectInv(w.(answers := MergedAnswers(resume.data.GetOr([])), loading := false));
      }
    case FinishPressed => FinalSubmitInv(s);
    case FullscreenChanged(_) => FinalSubmitInv(s);
    case VisibilityChanged(_) => FinalSubmitInv(s);
    case Tick =>
      if s.outcome == Running && s.ticking {
        TimerEffectInv(s.(timeLeft := s.timeLeft - 1));
      }
    case Resolve(k, ok) => ResolveInv(s, k, ok);
    case _ =>
  }

  /** From the freshly mounted page, any sequence of events keeps the index on a question
      of the list, and at 0 while the list is empty. */
  lemma {:induction false} RunInv(s: Session, events: seq<Event>)
    requires Inv(s)
    ensures Inv(Run(s, events))
    ensures var t := Run(s, events); 0 <= t.index && (|t.questions| > 0 ==> t.index < |t.questions|)
    decreases |events|
  {
    if events != [] {
      StepInv(s, events[0]);
      RunInv(Step(s, events[0]), events[1..]);
    }
  }

  /** The countdown never goes up; nothing ticks while loading; a tick takes exactly one
      second off; the tick that reaches zero calls handleFinalSubmit on that same step
      (whose isSaving guard may drop it, see TimeoutLost) and schedules no further tick;
      a page that loads with no time left calls it at once. */
  lemma TimerRules(s: Session, e: Event)
    requires Inv(s)
    ensures Step(s, e).timeLeft <= s.timeLeft
    ensures s.loading ==> Step(s, Tick) == s
    ensures s.outcome == Running && s.ticking ==> Step(s, Tick).timeLeft == s.timeLeft - 1
    ensures s.outcome == Running && s.ticking && s.timeLeft == 1 ==>
      Step(s, Tick) == FinalSubmitStep(s.(timeLeft := 0, ticking := false)) && !Step(s, Tick).ticking
    ensures !s.loading && s.timeLeft <= 0 ==> TimerEffect(s) == FinalSubmitStep(s.(ticking := false))
  {
  }

  /** A lost timeout: when the countdown reaches zero while a "save & next" save is in
      flight, handleFinalSubmit returns at its guard and no interval is scheduled. Once
      the save settles the page is running, idle and at 0:00, and no tick ever comes; no
      automatic submission follows, and only a later trigger can still submit (the finish
      button once on the last question, or an integrity signal). */
  lemma TimeoutLost(s: Session, k: nat, ok: bool)
    requires Inv(s) && s.outcome == Running && s.isSaving && s.ticking && s.timeLeft == 1
    requires k < |s.inflight| && s.inflight[k] == AwaitNextSave
    ensures var s1 := Step(s, Tick);
      && s1.sent == s.sent && s1.inflight == s.inflight && !s1.ticking && s1.timeLeft == 0
      && var t := Step(s1, Resolve(k, ok));
         && t.outcome == Running && !t.isSaving && !t.ticking && t.timeLeft == 0
         && t.sent == s.sent && Step(t, Tick) == t
  {
  }

  /** handleNext: off the last question and not saving, the question on screen is saved
      first (payload `answers[qid] ?? null`) and the index moves on only when that save
      settles, whether it succeeded or not; a falsy id skips the save and moves on at
      once. */
  lemma NextThenAdvance(s: Session, ok: bool)
    requires Inv(s) && Shown(s) && !s.isSaving && s.index < |s.questions| - 1
    ensures var qid := s.questions[s.index].id;
      qid != 0 ==>
        var s1 := Step(s, NextPressed);
        var s2 := Step(s1, Resolve(|s.inflight|, ok));
        && s1.sent == s.sent + [SaveAnswer(s.candidateId, qid, Lookup(s.answers, qid))]
        && s1.index == s.index && s1.isSaving
        && s2.index == s.index + 1 && !s2.isSaving
        && s2.sent == s1.sent && s2.inflight == s.inflight
    ensures s.questions[s.index].id == 0 ==> Step(s, NextPressed) == s.(index := s.index + 1)
  {
    var s1 := Step(s, NextPressed);
    if s.questions[s.index].id != 0 {
      assert s1.inflight[|s.inflight|] == AwaitNextSave;
      assert RemoveAt(s1.inflight, |s.inflight|) == s.inflight;
    }
  }

  /** handleFinalSubmit returns at once while isSaving is set. Otherwise, with a question
      on screen whose id is truthy, it flushes that question (payload `answers[qid] ??
      null`) and, once that save settles, posts the submission with the candidate and
      test; isSaving is false again by then. With no question on screen (still loading)
      or a falsy id it posts the submission at once and keeps isSaving until it settles. */
  lemma FlushThenSubmit(s: Session, ok: bool)
    requires Inv(s) && s.outcome == Running
    ensures s.isSaving ==> FinalSubmitStep(s) == s
    ensures !s.isSaving && CurrentId(s).Some? && CurrentId(s).value != 0 ==>
      var qid := CurrentId(s).value;
      var s1 := FinalSubmitStep(s);
      var s2 := Step(s1, Resolve(|s.inflight|, ok));
      && s1.isSaving
      && s1.sent == s.sent + [SaveAnswer(s.candidateId, qid, Lookup(s.answers, qid))]
      && s2.sent == s1.sent + [Submit(s.candidateId, s.testId)]
      && s2.inflight == s.inflight + [AwaitSubmit]
      && !s2.isSaving
    ensures !s.isSaving && (CurrentId(s).None? || CurrentId(s).value == 0) ==>
      FinalSubmitStep(s) == s.(isSaving := true, sent := s.sent + [Submit(s.candidateId, s.testId)],
                               inflight := s.inflight + [AwaitSubmit])
  {
    if !s.isSaving && CurrentId(s).Some? && CurrentId(s).value != 0 {
      var s1 := FinalSubmitStep(s);
      assert s1.inflight[|s.inflight|] == AwaitFinalSave;
      assert RemoveAt(s1.inflight, |s.inflight|) == s.inflight;
    }
  }

  /** A settled submission: on success the timer is cleared and the page routes to
      /thank-you; on failure the page stays, isSaving is false and the next trigger posts
      again. */
  lemma SubmitSettles(s: Session, k: nat)
    requires Inv(s) && s.outcome == Running && k < |s.inflight| && s.inflight[k] == AwaitSubmit
    ensures var t := Step(s, Resolve(k, true)); t.outcome == ThankYou && !t.ticking && t.sent == s.sent
    ensures var t := Step(s, Resolve(k, false));
      && t.outcome == Running && !t.isSaving && t.sent == s.sent
      && |FinalSubmitStep(t).sent| == |t.sent| + 1
  {
  }

  /** While the flush of a final submission is in flight, every other trigger that reads
      the current isSaving (timer, finish button, and the integrity signals as modelled)
      is dropped; once the flush settles isSaving is false while the submit post is still
      outstanding, and the finish button on the last question, or the timer's last tick,
      then starts a second submission. */
  lemma SubmitWindow(s: Session, e: Event)
    requires Inv(s) && s.outcome == Running && !s.isSaving
    requires CurrentId(s).Some? && CurrentId(s).value != 0
    requires e == FinishPressed || e.FullscreenChanged? || e.VisibilityChanged? || e == Tick
    ensures var s1 := FinalSubmitStep(s); Step(s1, e).sent == s1.sent
    ensures var s2 := Step(FinalSubmitStep(s), Resolve(|s.inflight|, false));
      && AwaitSubmit in s2.inflight
      && (Shown(s) && s.index == |s.questions| - 1 ==> |Step(s2, FinishPressed).sent| == |s2.sent| + 1)
      && (s.ticking && s.timeLeft == 1 ==> |Step(s2, Tick).sent| == |s2.sent| + 1)
  {
    var s1 := FinalSubmitStep(s);
    FlushThenSubmit(s, false);
    if e == Tick && s1.ticking {
      assert TickStep(s1) == TimerEffect(s1.(timeLeft := s1.timeLeft - 1));
    }
    var s2 := Step(s1, Resolve(|s.inflight|, false));
    assert s2.inflight[|s.inflight|] == AwaitSubmit;
  }

  /** Pressing "finish & submit" on the last question, letting the flush settle and
      pressing it again posts the flush and the submission twice; both submit posts are
      then outstanding. */
  lemma RepeatedFinishSubmitsTwice(s: Session, ok1: bool, ok2: bool)
    requires Inv(s) && Shown(s) && s.index == |s.questions| - 1 && !s.isSaving
    requires CurrentId(s).Some? && CurrentId(s).value != 0
    ensures var qid := CurrentId(s).value;
      var save := SaveAnswer(s.candidateId, qid, Lookup(s.answers, qid));
      var submit := Submit(s.candidateId, s.testId);
      var t := Run(s, [FinishPressed, Resolve(|s.inflight|, ok1), FinishPressed, Resolve(|s.inflight| + 1, ok2)]);
      && t.sent == s.sent + [save, submit, save, submit]
      && t.inflight == s.inflight + [AwaitSubmit, AwaitSubmit]
  {
    var es := [FinishPressed, Resolve(|s.inflight|, ok1), FinishPressed, Resolve(|s.inflight| + 1, ok2)];
    var s1 := Step(s, es[0]);
    assert s1 == FinalSubmitStep(s);
    assert s1.inflight[|s.inflight|] == AwaitFinalSave;
    assert RemoveAt(s1.inflight, |s.inflight|) == s.inflight;
    var s2 := Step(s1, es[1]);
    assert s2.inflight == s.inflight + [AwaitSubmit];
    var s3 := Step(s2, es[2]);
    assert s3 == FinalSubmitStep(s2);
    assert s3.inflight == s.inflight + [AwaitSubmit, AwaitFinalSave];
    assert RemoveAt(s3.inflight, |s.inflight| + 1) == s.inflight + [AwaitSubmit];
    var s4 := Step(s3, es[3]);
    assert Run(s4, es[4..]) == s4;
    assert Run(s3, es[3..]) == s4;
    assert Run(s2, es[2..]) == s4;
    assert Run(s1, es[1..]) == s4;
  }

  function CountSubmits(rs: seq<Request>): nat {
    if rs == [] then 0 else (if rs[0].Submit? then 1 else 0) + CountSubmits(rs[1..])
  }

  /** The states of the run below: loaded, flushing, submitting, flushing again. */
  function ScenarioState(i: nat): Session
    requires 1 <= i <= 5
  {
    var save := SaveAnswer(7, 1, None);
    var loaded := Initial(7, 3, 30).(questions := [Question(1, "written", "", "", "", "")],
                                     loading := false, ticking := true);
    if i == 1 then loaded
    else if i == 2 then loaded.(isSaving := true, sent := [save], inflight := [AwaitFinalSave])
    else if i == 3 then loaded.(sent := [save, Submit(7, 3)], inflight := [AwaitSubmit])
    else if i == 4 then
      loaded.(isSaving := true, sent := [save, Submit(7, 3), save], inflight := [AwaitSubmit, AwaitFinalSave])
    else loaded.(sent := [save, Submit(7, 3), save, Submit(7, 3)], inflight := [AwaitSubmit, AwaitSubmit])
  }

  function ScenarioEvents(): seq<Event> {
    [Loaded(Ok(Some([Question(1, "written", "", "", "", "")])), Ok(Some([]))),
     FinishPressed, Resolve(0, true), FinishPressed, Resolve(1, true)]
  }

  lemma ScenarioFirstSubmission()
    ensures Step(Initial(7, 3, 30), ScenarioEvents()[0]) == ScenarioState(1)
    ensures Step(ScenarioState(1), ScenarioEvents()[1]) == ScenarioState(2)
    ensures Step(ScenarioState(2), ScenarioEvents()[2]) == ScenarioState(3)
  {
    assert MergedAnswers([]) == map[];
    assert RemoveAt([AwaitFinalSave], 0) == [];
  }

  lemma ScenarioSecondSubmission()
    ensures Step(ScenarioState(3), ScenarioEvents()[3]) == ScenarioState(4)
    ensures Step(ScenarioState(4), ScenarioEvents()[4]) == ScenarioState(5)
  {
    assert RemoveAt([AwaitSubmit, AwaitFinalSave], 1) == [AwaitSubmit];
  }

  /** One concrete run in which the page posts two submissions: "finish & submit" on the
      only question starts the first; once its flush settles the button is enabled again
      while the submit post is outstanding, and a second press starts the second. */
  lemma TwoSubmissionsPossible()
    ensures CountSubmits(Run(Initial(7, 3, 30), ScenarioEvents()).sent) == 2
  {
    var es := ScenarioEvents();
    ScenarioFirstSubmission();
    ScenarioSecondSubmission();
    var t := ScenarioState(5);
    assert Run(t, es[5..]) == t;
    assert Run(ScenarioState(4), es[4..]) == t;
    assert Run(ScenarioState(3), es[3..]) == t;
    assert Run(ScenarioState(2), es[2..]) == t;
    assert Run(ScenarioState(1), es[1..]) == t;
    assert Run(Initial(7, 3, 30), es) == t;
    var rs := t.sent;
    assert rs[1..][1..][1..][1..] == [];
    assert CountSubmits(rs[1..][1..][1..]) == 1;
    assert CountSubmits(rs[1..][1..]) == 1;
    assert CountSubmits(rs[1..]) == 2;
  }

  /** An edit of the last question that was never followed by "next" still reaches the
      service: finishing flushes exactly the edited value. */
  lemma FinishFlushesLastEdit(s: Session, text: string)
    requires Inv(s) && Shown(s) && !s.isSaving && s.index == |s.questions| - 1
    requires s.questions[s.index].questionType == "written" && s.questions[s.index].id != 0
    ensures var t := Step(Step(s, Write(text)), FinishPressed);
      t.sent == s.sent + [SaveAnswer(s.candidateId, s.questions[s.index].id, Some(Scalar(text)))]
  {
  }

  /** A multiple-choice tick flips exactly the ticked letter of the question on screen. */
  lemma ToggleFlipsOneLetter(s: Session, letter: string)
    requires Shown(s) && s.questions[s.index].questionType == "multiple"
    requires letter in ChoiceValues(s.questions[s.index])
    ensures var qid := s.questions[s.index].id;
      var before := SelectedLetters(Lookup(s.answers, qid));
      var t := ToggleStep(s, letter);
      && qid in t.answers && t.answers[qid].Multi?
      && (letter in t.answers[qid].values <==> letter !in before)
      && (forall w | w != letter :: w in t.answers[qid].values <==> w in before)
      && (forall k | k != qid :: (k in t.answers <==> k in s.answers) && (k in s.answers ==> t.answers[k] == s.answers[k]))
  {
  }

  // ===== the page as an object =====

  class ExamPage {
    const candidateId: int
    const testId: int
    var questions: seq<Question>
    var index: int
    var answers: map<QuestionId, Answer>
    var timeLeft: int
    var loading: bool
    var isSaving: bool
    var ticking: bool
    var outcome: Outcome
    var inflight: seq<Pending>
    var sent: seq<Request>

    function State(): Session
      reads this
    {
      Session(candidateId, testId, questions, index, answers, timeLeft, loading, isSaving,
              ticking, outcome, inflight, sent)
    }

    ghost predicate Valid()
      reads this
    {
      Inv(State())
    }

    /** Mounting the page: timeLeft starts at the test's duration in seconds. */
    constructor (candidateId: int, testId: int, durationMinutes: int)
      ensures State() == Initial(candidateId, testId, durationMinutes) && Valid()
    {
      this.candidateId := candidateId;
      this.testId := testId;
      questions := [];
      index := 0;
      answers := map[];
      timeLeft := durationMinutes * 60;
      loading := true;
      isSaving := false;
      ticking := false;
      outcome := Running;
      inflight := [];
      sent := [];
    }

    method FinalSubmit()
      requires Valid()
      modifies this
      ensures State() == FinalSubmitStep(old(State())) && Valid()
    {
      FinalSubmitInv(State());
      if isSaving {
        return;
      }
      isSaving := true;
      if 0 <= index < |questions| && questions[index].id != 0 {
        var lastQ := questions[index].id;
        sent := sent + [SaveAnswer(candidateId, lastQ, Lookup(answers, lastQ))];
        inflight := inflight + [AwaitFinalSave];
      } else {
        sent := sent + [Submit(candidateId, testId)];
        inflight := inflight + [AwaitSubmit];
      }
    }

    method RunTimerEffect()
      requires Inv(State().(ticking := false)) && outcome == Running
      modifies this
      ensures State() == TimerEffect(old(State())) && Valid()
    {
      TimerEffectInv(State());
      ticking := false;
      if loading {
        return;
      }
      if timeLeft <= 0 {
        FinalSubmit();
      } else {
        ticking := true;
      }
    }

    method Loaded(start: Response<Option<seq<Question>>>, resume: Response<Option<seq<SavedAnswer>>>)
      requires Valid()
      modifies this
      ensures State() == Step(old(State()), Event.Loaded(start, resume)) && Valid()
    {
      StepInv(State(), Event.Loaded(start, resume));
      if !loading || outcome != Running || start.Failed? {
        return;
      }
      questions := start.data.GetOr([]);
      if resume.Failed? {
        return;
      }
      answers := MergeResumed(resume.data.GetOr([]));
      loading := false;
      RunTimerEffect();
    }

    method Choose(choice: string)
      requires Valid()
      modifies this
      ensures State() == Step(old(State()), Event.Choose(choice)) && Valid()
    {
      if outcome == Running && !loading && 0 <= index < |questions| {
        var q := questions[index];
        if (q.questionType == "single" || q.questionType == "true_false") && choice in ChoiceValues(q) {
          answers := answers[q.id := Scalar(choice)];
        }
      }
    }

    method ToggleChoice(letter: string)
      requires Valid()
      modifies this
      ensures State() == Step(old(State()), Event.ToggleChoice(letter)) && Valid()
    {
      if outcome == Running && !loading && 0 <= index < |questions| {
        var q := questions[index];
        if q.questionType == "multiple" && letter in ChoiceValues(q) {
          var selected := SelectedLetters(Lookup(answers, q.id));
          answers := answers[q.id := Multi(Toggle(selected, letter))];
        }
      }
    }

    method Write(text: string)
      requires Valid()
      modifies this
      ensures State() == Step(old(State()), Event.Write(text)) && Valid()
    {
      if outcome == Running && !loading && 0 <= index < |questions| {
        var q := questions[index];
        if q.questionType == "written" {
          answers := answers[q.id := Scalar(text)];
        }
      }
    }

    method Next()
      requires Valid()
      modifies this
      ensures State() == Step(old(State()), NextPressed) && Valid()
    {
      if outcome != Running || loading || !(0 <= index < |questions|)
         || index == |questions| - 1 || isSaving {
        return;
      }
      var qid := questions[index].id;
      if qid != 0 {
        isSaving := true;
        sent := sent + [SaveAnswer(candidateId, qid, Lookup(answers, qid))];
        inflight := inflight + [AwaitNextSave];
      } else {
        index := Min(index + 1, |questions| - 1);
      }
    }

    method Previous()
      requires Valid()
      modifies this
      ensures State() == Step(old(State()), PreviousPressed) && Valid()
    {
      if outcome == Running && !loading && 0 <= index < |questions| && index != 0 && !isSaving {
        index := index - 1;
      }
    }

    method Finish()
      requires Valid()
      modifies this
      ensures State() == Step(old(State()), FinishPressed) && Valid()
    {
      if outcome == Running && !loading && 0 <= index < |questions|
         && index == |questions| - 1 && !isSaving {
        FinalSubmit();
      }
    }

    /** The fullscreenchange listener: leaving fullscreen submits the test. */
    method FullscreenChanged(inFullscreen: bool)
      requires Valid()
      modifies this
      ensures State() == Step(old(State()), Event.FullscreenChanged(inFullscreen)) && Valid()
    {
      if outcome == Running && !inFullscreen {
        FinalSubmit();
      }
    }

    /** The visibilitychange listener: a hidden page submits the test. */
    method VisibilityChanged(hidden: bool)
      requires Valid()
      modifies this
      ensures State() == Step(old(State()), Event.VisibilityChanged(hidden)) && Valid()
    {
      if outcome == Running && hidden {
        FinalSubmit();
      }
    }

    /** The interval fires: `t => t - 1`, after which the timer effect runs again. */
    method Tick()
      requires Valid()
      modifies this
      ensures State() == Step(old(State()), Event.Tick) && Valid()
    {
      if outcome == Running && ticking {
        timeLeft := timeLeft - 1;
        RunTimerEffect();
      }
    }

    /** handleNext after its save: saveAnswer's finally, then the index update. */
    method SettleNextSave(live: bool)
      modifies this
      ensures State() == if live then old(State()).(isSaving := false,
                                                   index := NavStep(old(index), |questions|, Forward))
                         else old(State())
    {
      if live {
        isSaving := false;
        index := Min(index + 1, |questions| - 1);
      }
    }

    /** handleFinalSubmit after its flush: saveAnswer's finally, then the submit post. */
    method SettleFinalSave(live: bool)
      modifies this
      ensures State() == var saved := if live then old(State()).(isSaving := false) else old(State());
                         saved.(sent := saved.sent + [Submit(candidateId, testId)],
                                inflight := saved.inflight + [AwaitSubmit])
    {
      if live {
        isSaving := false;
      }
      sent := sent + [Submit(candidateId, testId)];
      inflight := inflight + [AwaitSubmit];
    }

    /** handleFinalSubmit after the submit post: the timer is cleared and the page routes
        away on success; the finally clears isSaving. */
    method SettleSubmit(live: bool, ok: bool)
      modifies this
      ensures State() == if !live then old(State())
                         else if ok then old(State()).(ticking := false, outcome := ThankYou, isSaving := false)
                         else old(State()).(isSaving := false)
    {
      if live {
        if ok {
          ticking := false;
          outcome := ThankYou;
        }
        isSaving := false;
      }
    }

    method Resolve(k: nat, ok: bool)
      requires Valid()
      modifies this
      ensures State() == Step(old(State()), Event.Resolve(k, ok)) && Valid()
    {
      ghost var before := State();
      ResolveInv(before, k, ok);
      assert Step(before, Event.Resolve(k, ok)) == ResolveStep(before, k, ok);
      if k >= |inflight| {
        return;
      }
      var pending := inflight[k];
      var live := outcome == Running;
      inflight := inflight[..k] + inflight[k + 1..];
      assert State() == before.(inflight := RemoveAt(before.inflight, k));
      match pending
      case AwaitNextSave => SettleNextSave(live);
      case AwaitFinalSave => SettleFinalSave(live);
      case AwaitSubmit => SettleSubmit(live, ok);
    }
  }
}
