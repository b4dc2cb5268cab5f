/**
 * The refactored assessment panel (components/Content/AssessmentViewer.tsx):
 * it owns the question index and the selected options, shows the question
 * at that index, and hands the selection to the content view on Submit.
 */
module AssessmentViewer {
  import opened Wrappers
  import opened Lesson
  import opened Answering

  datatype PanelState = PanelState(questionIndex: int, selection: seq<string>)

  /** A freshly mounted panel: the first question, nothing selected. */
  const Mounted: PanelState := PanelState(0, [])

  /** An option click, through the viewer's updater. */
  function AfterClick(s: PanelState, option: string, question: Question): (r: PanelState)
    ensures r.questionIndex == s.questionIndex
    ensures question.multiSelect ==> (option in r.selection <==> option !in s.selection)
    ensures question.multiSelect ==> forall y :: y != option ==> (y in r.selection <==> y in s.selection)
    ensures !question.multiSelect ==> r.selection == [option]
    ensures NoDup(s.selection) ==> NoDup(r.selection)
  {
    s.(selection := ViewerToggle(s.selection, option, question.multiSelect))
  }

  /** The Previous button: disabled on the first question, otherwise
      `Math.max(i - 1, 0)`. */
  function AfterPrevious(s: PanelState): (r: PanelState)
    requires s.questionIndex >= 0
    ensures r.questionIndex >= 0
    ensures r.questionIndex == (if s.questionIndex == 0 then 0 else s.questionIndex - 1)
    ensures r.selection == s.selection
  {
    if s.questionIndex == 0 then s else s.(questionIndex := PreviousIndex(s.questionIndex))
  }

  /** The Submit button: disabled with nothing selected, otherwise the
      selection as it stands goes to `onSubmit`. */
  function Submission(s: PanelState): (submitted: Option<seq<string>>)
    ensures submitted.Some? <==> s.selection != []
    ensures submitted.Some? ==> submitted.value == s.selection
  {
    if SubmitEnabled(s.selection) then Some(s.selection) else None
  }

  datatype PanelEvent = Clicked(option: string, question: Question) | PreviousPressed

  function Apply(s: PanelState, e: PanelEvent): (r: PanelState)
    requires s.questionIndex >= 0
    ensures r.questionIndex >= 0
  {
    match e
    case Clicked(option, question) => AfterClick(s, option, question)
    case PreviousPressed => AfterPrevious(s)
  }

  function ApplyAll(s: PanelState, events: seq<PanelEvent>): (r: PanelState)
    requires s.questionIndex >= 0
    ensures r.questionIndex >= 0
    decreases |events|
  {
    if events == [] then s else ApplyAll(Apply(s, events[0]), events[1..])
  }

  /** Nothing in the panel moves to a later question, so from a freshly
      mounted panel the index stays at the first question and Previous stays
      disabled; and the selection never holds an option twice. */
  lemma {:induction false} PanelStaysOnFirstQuestion(s: PanelState, events: seq<PanelEvent>)
    requires s.questionIndex == 0 && NoDup(s.selection)
    ensures ApplyAll(s, events).questionIndex == 0
    ensures NoDup(ApplyAll(s, events).selection)
    decreases |events|
  {
    if events != [] {
      PanelStaysOnFirstQuestion(Apply(s, events[0]), events[1..]);
    }
  }

  /** Answering only single-select questions leaves at most one option
      selected. */
  lemma {:induction false} SingleSelectKeepsOne(s: PanelState, events: seq<PanelEvent>)
    requires s.questionIndex >= 0 && |s.selection| <= 1
    requires forall i :: 0 <= i < |events| ==> events[i].Clicked? ==> !events[i].question.multiSelect
    ensures |ApplyAll(s, events).selection| <= 1
    decreases |events|
  {
    if events != [] {
      SingleSelectKeepsOne(Apply(s, events[0]), events[1..]);
    }
  }

  /** Clicking the selected single-select option again does not clear it:
      Submit stays enabled and submits that option. */
  lemma ReclickKeepsSelection(s: PanelState, option: string, question: Question)
    requires !question.multiSelect
    ensures Submission(AfterClick(AfterClick(s, option, question), option, question)) == Some([option])
  {
  }

  /** The panel component. */
  class Panel {
    const questions: seq<Question>
    var questionIndex: int
    var selection: seq<string>

    function State(): PanelState
      reads this
    {
      PanelState(questionIndex, selection)
    }

    ghost predicate Valid()
      reads this
    {
      questionIndex >= 0 && NoDup(selection)
    }

    constructor (questions: seq<Question>)
      ensures Valid() && this.questions == questions
      ensures State() == Mounted
    {
      this.questions := questions;
      questionIndex := 0;
      selection := [];
    }

    /** `assessmentData[currentQuestionIndex]`, present only for an index in range. */
    function Shown(): (q: Option<Question>)
      reads this
      ensures q.Some? <==> 0 <= questionIndex < |questions|
      ensures q.Some? ==> q.value == questions[questionIndex]
    {
      DisplayedQuestion(questions, questionIndex)
    }

    method OptionClick(option: string, question: Question)
      requires Valid()
      modifies this
      ensures Valid()
      ensures State() == AfterClick(old(State()), option, question)
    {
      selection := ViewerToggle(selection, option, question.multiSelect);
    }

    method PreviousClick()
      requires Valid()
      modifies this
      ensures Valid()
      ensures State() == AfterPrevious(old(State()))
    {
      if questionIndex != 0 {
        questionIndex := PreviousIndex(questionIndex);
      }
    }

    /** Submit: what reaches `onSubmit`, or `None` while the button is disabled. */
    method SubmitClick() returns (submitted: Option<seq<string>>)
      ensures submitted == Submission(State())
      ensures submitted.Some? <==> selection != []
    {
      if |selection| == 0 {
        submitted := None;
      } else {
        submitted := Some(selection);
      }
    }
  }

  method PanelWalkthrough() {
    var choose := Question(1, true, ["p", "q", "r"]);
    var panel := new Panel([choose]);
    assert panel.Shown() == Some(choose);
    var nothing := panel.SubmitClick();
    assert nothing.None?;
    panel.OptionClick("p", choose);
    panel.OptionClick("q", choose);
    panel.OptionClick("p", choose);
    assert "q" in panel.selection && "p" !in panel.selection;
    panel.PreviousClick();
    assert panel.questionIndex == 0;
    var sent := panel.SubmitClick();
    assert sent == Some(panel.selection);
  }
}
