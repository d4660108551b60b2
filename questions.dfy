/** The admin question bank: the form that composes a question, the request body it
    posts, and the rule that marks the correct options of a stored question
    (src/pages/admin/Questions.jsx). */
module Questions {
  import opened Common
  import opened Selection

  datatype OptionTexts = OptionTexts(a: string, b: string, c: string, d: string)

  /** The form state. `correct` is an option letter or "TRUE"/"FALSE"; `correctMultiple`
      lists the letters of a multiple-answer question. */
  datatype QuestionForm = QuestionForm(question: string, questionType: string, options: OptionTexts,
                                       correct: string, correctMultiple: seq<string>)

  /** The form the page starts with and returns to after a save. */
  function DefaultForm(): (f: QuestionForm)
    ensures f.question == "" && f.questionType == "single" && f.options == OptionTexts("", "", "", "")
    ensures f.correct == "A" && f.correctMultiple == []
  {
    QuestionForm("", "single", OptionTexts("", "", "", ""), "A", [])
  }

  /** toggleMultiple: the letter flips in or out of the correct letters; the other
      letters and every other field stay. */
  function ToggleMultiple(f: QuestionForm, v: string): (r: QuestionForm)
    ensures v in r.correctMultiple <==> v !in f.correctMultiple
    ensures forall w | w != v :: w in r.correctMultiple <==> w in f.correctMultiple
    ensures r.(correctMultiple := f.correctMultiple) == f
  {
    f.(correctMultiple := Toggle(f.correctMultiple, v))
  }

  /** Toggling a letter twice restores which letters are marked. */
  lemma ToggleMultipleTwice(f: QuestionForm, v: string)
    ensures forall w :: w in ToggleMultiple(ToggleMultiple(f, v), v).correctMultiple <==> w in f.correctMultiple
    ensures v !in f.correctMultiple ==> ToggleMultiple(ToggleMultiple(f, v), v) == f
  {
    ToggleTwice(f.correctMultiple, v);
  }

  /** The type select: the type changes and both correct-answer fields are reset; the
      text and the options are kept. */
  function ChangeType(f: QuestionForm, t: string): (r: QuestionForm)
    ensures r.questionType == t && r.correct == "A" && r.correctMultiple == []
    ensures r.question == f.question && r.options == f.options
  {
    f.(questionType := t, correct := "A", correctMultiple := [])
  }

  datatype OptionKey = KeyA | KeyB | KeyC | KeyD

  function OptionText(o: OptionTexts, k: OptionKey): string {
    match k
    case KeyA => o.a
    case KeyB => o.b
    case KeyC => o.c
    case KeyD => o.d
  }

  /** An option input: one option text changes. */
  function EditOption(f: QuestionForm, k: OptionKey, text: string): (r: QuestionForm)
    ensures OptionText(r.options, k) == text
    ensures forall k2 | k2 != k :: OptionText(r.options, k2) == OptionText(f.options, k2)
    ensures r.(options := f.options) == f
  {
    var o := f.options;
    var o2 := match k
      case KeyA => o.(a := text)
      case KeyB => o.(b := text)
      case KeyC => o.(c := text)
      case KeyD => o.(d := text);
    f.(options := o2)
  }

  /** The body of the questions post. A null is None. */
  datatype QuestionPayload = QuestionPayload(
    positionId: string, question: string, questionType: string,
    optionA: string, optionB: string, optionC: string, optionD: string,
    correctOption: Option<string>, correctOptions: Option<seq<string>>)

  /** The request body: the single correct answer is sent except for multiple-answer and
      written questions; the list of letters only for multiple-answer ones. */
  function Payload(positionId: string, f: QuestionForm): (p: QuestionPayload)
    ensures p.correctOption.None? <==> f.questionType == "multiple" || f.questionType == "written"
    ensures p.correctOption.Some? ==> p.correctOption.value == f.correct
    ensures p.correctOptions.Some? <==> f.questionType == "multiple"
    ensures p.correctOptions.Some? ==> p.correctOptions.value == f.correctMultiple
    ensures p.positionId == positionId && p.question == f.question && p.questionType == f.questionType
    ensures p.optionA == f.options.a && p.optionB == f.options.b
    ensures p.optionC == f.options.c && p.optionD == f.options.d
  {
    QuestionPayload(
      positionId, f.question, f.questionType,
      f.options.a, f.options.b, f.options.c, f.options.d,
      if f.questionType == "multiple" || f.questionType == "written" then None else Some(f.correct),
      if f.questionType == "multiple" then Some(f.correctMultiple) else None)
  }

  /** Exactly one of the two answer fields is sent for single, true/false and multiple
      questions, and neither for written ones. */
  lemma PayloadAnswerFields(positionId: string, f: QuestionForm)
    ensures var p := Payload(positionId, f);
      && (f.questionType == "written" ==> p.correctOption.None? && p.correctOptions.None?)
      && (f.questionType == "multiple" ==> p.correctOption.None? && p.correctOptions.Some?)
      && (f.questionType == "single" || f.questionType == "true_false" ==>
            p.correctOption == Some(f.correct) && p.correctOptions.None?)
  {
  }

  /** A stored question as the list shows it; a missing option is "". */
  datatype BankQuestion = BankQuestion(id: int, questionType: string,
                                       options: OptionTexts,
                                       correctOption: Option<string>,
                                       correctOptions: Option<seq<string>>)

  /** `key.toUpperCase()` for the four option keys. */
  function Upper(k: OptionKey): string {
    match k
    case KeyA => "A"
    case KeyB => "B"
    case KeyC => "C"
    case KeyD => "D"
  }

  /** isCorrect: a single-choice question compares its correct option with the key's
      letter; any other question looks the letter up in its correct options, a missing
      list marking nothing. */
  function IsCorrect(q: BankQuestion, k: OptionKey): (b: bool)
    ensures q.questionType == "single" ==> (b <==> q.correctOption == Some(Upper(k)))
    ensures q.questionType != "single" ==>
      (b <==> q.correctOptions.Some? && Upper(k) in q.correctOptions.value)
  {
    if q.questionType == "single" then q.correctOption == Some(Upper(k))
    else q.correctOptions.Some? && Upper(k) in q.correctOptions.value
  }

  /** The question as the list reads it back, for a server that stores the posted fields
      as they are. */
  function StoredQuestion(id: int, p: QuestionPayload): (q: BankQuestion)
    ensures q.id == id && q.questionType == p.questionType
    ensures q.options == OptionTexts(p.optionA, p.optionB, p.optionC, p.optionD)
    ensures q.correctOption == p.correctOption && q.correctOptions == p.correctOptions
  {
    BankQuestion(id, p.questionType, OptionTexts(p.optionA, p.optionB, p.optionC, p.optionD),
                 p.correctOption, p.correctOptions)
  }

  /** The list marks as correct exactly the options the form marked: the chosen letter of
      a single-choice question, the toggled letters of a multiple-answer one. */
  lemma MarksFollowForm(positionId: string, id: int, f: QuestionForm, k: OptionKey)
    ensures var q := StoredQuestion(id, Payload(positionId, f));
      && (f.questionType == "single" ==> (IsCorrect(q, k) <==> f.correct == Upper(k)))
      && (f.questionType == "multiple" ==> (IsCorrect(q, k) <==> Upper(k) in f.correctMultiple))
  {
  }

  datatype OptionRow = OptionRow(key: OptionKey, caption: string, correct: bool)

  function Row(q: BankQuestion, k: OptionKey): seq<OptionRow> {
    if OptionText(q.options, k) == "" then [] else [OptionRow(k, OptionText(q.options, k), IsCorrect(q, k))]
  }

  /** The option rows of a stored single or multiple question: one per option with a
      label, each marked as isCorrect says. */
  function OptionRows(q: BankQuestion): (rows: seq<OptionRow>)
    ensures q.questionType != "single" && q.questionType != "multiple" ==> rows == []
    ensures forall r | r in rows :: r.caption != "" && r.caption == OptionText(q.options, r.key) && r.correct == IsCorrect(q, r.key)
    ensures forall k: OptionKey :: (exists r | r in rows :: r.key == k) <==>
      (q.questionType == "single" || q.questionType == "multiple") && OptionText(q.options, k) != ""
  {
    if q.questionType == "single" || q.questionType == "multiple" then
      var rows := Row(q, KeyA) + Row(q, KeyB) + Row(q, KeyC) + Row(q, KeyD);
      assert forall k: OptionKey :: OptionText(q.options, k) != "" ==> OptionRow(k, OptionText(q.options, k), IsCorrect(q, k)) in rows by {
        forall k: OptionKey | OptionText(q.options, k) != ""
          ensures OptionRow(k, OptionText(q.options, k), IsCorrect(q, k)) in rows
        {
          assert Row(q, k) == [OptionRow(k, OptionText(q.options, k), IsCorrect(q, k))];
        }
      }
      rows
    else []
  }

  /** The save button. */
  predicate SaveEnabled(positionId: string, isSubmitting: bool) {
    positionId != "" && !isSubmitting
  }

  /** loadQuestions: the position whose questions are fetched, none for an empty id. */
  method LoadQuestions(pid: string) returns (request: Option<string>)
    ensures request.Some? <==> pid != ""
    ensures request.Some? ==> request.value == pid
  {
    if pid == "" {
      return None;
    }
    request := Some(pid);
  }

  class QuestionsPage {
    var positions: seq<Position>
    var positionId: string
    var questions: seq<BankQuestion>
    var isSubmitting: bool
    var form: QuestionForm
    /** The position the running add posts for: `handleAdd`'s closure keeps the
        positionId of the render in which Add was pressed. */
    var addingFor: string

    constructor ()
      ensures positions == [] && positionId == "" && questions == [] && !isSubmitting
      ensures form == DefaultForm() && addingFor == ""
    {
      positions := [];
      positionId := "";
      questions := [];
      isSubmitting := false;
      form := DefaultForm();
      addingFor := "";
    }

    /** The positions request settles; a failure is not handled and changes nothing. */
    method PositionsLoaded(response: Response<seq<Position>>)
      modifies this
      ensures positions == (if response.Ok? then response.data else old(positions))
      ensures positionId == old(positionId) && questions == old(questions)
      ensures isSubmitting == old(isSubmitting) && form == old(form) && addingFor == old(addingFor)
    {
      if response.Ok? {
        positions := response.data;
      }
    }

    /** The position filter: the id changes and its questions are requested. */
    method SelectPosition(pid: string) returns (request: Option<string>)
      modifies this
      ensures positionId == pid
      ensures request.Some? <==> pid != ""
      ensures request.Some? ==> request.value == pid
      ensures positions == old(positions) && questions == old(questions)
      ensures isSubmitting == old(isSubmitting) && form == old(form) && addingFor == old(addingFor)
    {
      positionId := pid;
      request := LoadQuestions(pid);
    }

    /** A questions request settles; a failure is only logged. */
    method QuestionsLoaded(response: Response<seq<BankQuestion>>)
      modifies this
      ensures questions == (if response.Ok? then response.data else old(questions))
      ensures positions == old(positions) && positionId == old(positionId)
      ensures isSubmitting == old(isSubmitting) && form == old(form) && addingFor == old(addingFor)
    {
      if response.Ok? {
        questions := response.data;
      }
    }

    method EditQuestionText(text: string)
      modifies this
      ensures form == old(form).(question := text)
      ensures positions == old(positions) && positionId == old(positionId)
      ensures questions == old(questions) && isSubmitting == old(isSubmitting) && addingFor == old(addingFor)
    {
      form := form.(question := text);
    }

    method EditOptionText(k: OptionKey, text: string)
      modifies this
      ensures form == EditOption(old(form), k, text)
      ensures positions == old(positions) && positionId == old(positionId)
      ensures questions == old(questions) && isSubmitting == old(isSubmitting) && addingFor == old(addingFor)
    {
      form := EditOption(form, k, text);
    }

    method SelectType(t: string)
      modifies this
      ensures form == ChangeType(old(form), t)
      ensures positions == old(positions) && positionId == old(positionId)
      ensures questions == old(questions) && isSubmitting == old(isSubmitting) && addingFor == old(addingFor)
    {
      form := form.(questionType := t, correct := "A", correctMultiple := []);
    }

    /** The A-D buttons of a single-choice question and the TRUE/FALSE buttons. */
    method PickCorrect(v: string)
      modifies this
      ensures form == old(form).(correct := v)
      ensures positions == old(positions) && positionId == old(positionId)
      ensures questions == old(questions) && isSubmitting == old(isSubmitting) && addingFor == old(addingFor)
    {
      form := form.(correct := v);
    }

    /** The A-D buttons of a multiple-answer question. */
    method PickCorrectMultiple(v: string)
      modifies this
      ensures form == ToggleMultiple(old(form), v)
      ensures positions == old(positions) && positionId == old(positionId)
      ensures questions == old(questions) && isSubmitting == old(isSubmitting) && addingFor == old(addingFor)
    {
      var letters := form.correctMultiple;
      if v in letters {
        letters := RemoveAll(letters, v);
      } else {
        letters := letters + [v];
      }
      form := form.(correctMultiple := letters);
    }

    /** addQuestion up to its await: with the save button enabled, the page starts
        submitting and posts the payload of the form. */
    method BeginAdd() returns (request: Option<QuestionPayload>)
      modifies this
      ensures request.Some? <==> SaveEnabled(old(positionId), old(isSubmitting))
      ensures request.Some? ==> request.value == Payload(positionId, form) && isSubmitting && addingFor == positionId
      ensures request.None? ==> isSubmitting == old(isSubmitting) && addingFor == old(addingFor)
      ensures positions == old(positions) && positionId == old(positionId)
      ensures questions == old(questions) && form == old(form)
    {
      if positionId == "" || isSubmitting {
        return None;
      }
      isSubmitting := true;
      addingFor := positionId;
      request := Some(Payload(positionId, form));
    }

    /** The post settles. On success the form returns to its default and the questions
        of the position the add was posted for are reloaded, even when the filter has
        moved on since; a failure is not caught, so the form keeps what was typed. Either
        way submitting ends. */
    method FinishAdd(ok: bool) returns (reload: Option<string>)
      modifies this
      ensures !isSubmitting
      ensures form == (if ok then DefaultForm() else old(form))
      ensures reload.Some? <==> ok && old(addingFor) != ""
      ensures reload.Some? ==> reload.value == old(addingFor)
      ensures positions == old(positions) && positionId == old(positionId) && questions == old(questions)
      ensures addingFor == old(addingFor)
    {
      reload := None;
      if ok {
        form := QuestionForm("", "single", OptionTexts("", "", "", ""), "A", []);
        reload := LoadQuestions(addingFor);
      }
      isSubmitting := false;
    }
  }
}
