// The multiple-choice card (src/pages/Quiz/components/MultipleChoiceCard.tsx):
// pick one option by index, submit it, try again. Each handler returns the
// report it passes to `onStateChange`, or None when it does nothing.
module MultipleChoiceCard {
  import opened Wrappers
  import opened Content
  import opened QuizProgress

  /** How an answer option is drawn: before submitting (selected / idle) and after (success / error / neutral). */
  datatype OptionStyle = SelectedStyle | IdleStyle | SuccessStyle | ErrorStyle | NeutralStyle

  /** `getAnswerStyle(index)`. */
  function AnswerStyle(answers: seq<Answer>, selected: Option<nat>, submitted: bool, index: nat): (st: OptionStyle)
    requires index < |answers|
    ensures !submitted ==> (st == SelectedStyle <==> selected == Some(index)) && st in {SelectedStyle, IdleStyle}
    ensures submitted ==> (st == SuccessStyle <==> answers[index].isCorrect)
    ensures submitted ==> (st == ErrorStyle <==> selected == Some(index) && !answers[index].isCorrect)
    ensures submitted ==> st in {SuccessStyle, ErrorStyle, NeutralStyle}
  {
    if !submitted then
      if selected == Some(index) then SelectedStyle else IdleStyle
    else if answers[index].isCorrect then SuccessStyle
    else if selected == Some(index) then ErrorStyle
    else NeutralStyle
  }

  /** After submitting, at most one option is drawn as an error, and only the selected one. */
  lemma AtMostOneError(answers: seq<Answer>, selected: Option<nat>, i: nat, j: nat)
    requires i < |answers| && j < |answers|
    requires AnswerStyle(answers, selected, true, i) == ErrorStyle
    requires AnswerStyle(answers, selected, true, j) == ErrorStyle
    ensures i == j && selected == Some(i)
  {
  }

  class Card {
    var question: AnswerQuestion
    var selectedAnswer: Option<nat>
    var isSubmitted: bool

    /** A selection is always one of the rendered options. */
    ghost predicate Valid()
      reads this
    {
      selectedAnswer.Some? ==> selectedAnswer.value < |question.answers|
    }

    predicate CanSubmit()
      reads this
    {
      !isSubmitted && selectedAnswer.Some?
    }

    /** Whether the submitted selection is right: the message the card shows once submitted. */
    function SubmittedCorrect(): (ok: Option<bool>)
      requires Valid()
      reads this
      ensures ok.Some? <==> isSubmitted && selectedAnswer.Some?
      ensures ok.Some? ==> ok.value == question.answers[selectedAnswer.value].isCorrect
    {
      if isSubmitted && selectedAnswer.Some? then Some(question.answers[selectedAnswer.value].isCorrect) else None
    }

    constructor (q: AnswerQuestion)
      ensures Valid() && question == q && selectedAnswer == None && !isSubmitted
    {
      question := q;
      selectedAnswer := None;
      isSubmitted := false;
    }

    /** The effect on `question.id`: a different question clears the selection and the submission. */
    method ChangeQuestion(q: AnswerQuestion)
      requires Valid()
      requires q.id == question.id && selectedAnswer.Some? ==> selectedAnswer.value < |q.answers|
      modifies this
      ensures Valid() && question == q
      ensures q.id != old(question.id) ==> selectedAnswer == None && !isSubmitted
      ensures q.id == old(question.id) ==> selectedAnswer == old(selectedAnswer) && isSubmitted == old(isSubmitted)
    {
      if q.id != question.id {
        selectedAnswer := None;
        isSubmitted := false;
      }
      question := q;
    }

    /** `handleAnswerSelect`: the selection changes only while not submitted. */
    method Select(index: nat) returns (report: Option<Report>)
      requires Valid() && index < |question.answers|
      modifies this
      ensures Valid() && isSubmitted == old(isSubmitted) && question == old(question)
      ensures report.Some? <==> !old(isSubmitted)
      ensures report.Some? ==> selectedAnswer == Some(index) && report.value == ChoiceReport(Some(index), false, None)
                               && !Answered(report.value)
      ensures report.None? ==> selectedAnswer == old(selectedAnswer)
    {
      if !isSubmitted {
        selectedAnswer := Some(index);
        report := Some(ChoiceReport(Some(index), false, None));
      } else {
        report := None;
      }
    }

    /** `handleSubmit`: needs a selection, and reports whether the selected option is a correct one. */
    method Submit() returns (report: Option<Report>)
      requires Valid()
      modifies this
      ensures Valid() && selectedAnswer == old(selectedAnswer) && question == old(question)
      ensures report.Some? <==> old(selectedAnswer).Some?
      ensures report.Some? ==> isSubmitted && Answered(report.value)
                               && report.value == ChoiceReport(selectedAnswer, true,
                                                               Some(question.answers[selectedAnswer.value].isCorrect))
                               && (Correct(report.value) <==> question.answers[selectedAnswer.value].isCorrect)
      ensures report.None? ==> isSubmitted == old(isSubmitted)
    {
      if selectedAnswer.Some? {
        isSubmitted := true;
        report := Some(ChoiceReport(selectedAnswer, true, Some(question.answers[selectedAnswer.value].isCorrect)));
      } else {
        report := None;
      }
    }

    /** `handleReset` ("Try Again"): no selection, not submitted, `isCorrect: null`. */
    method Reset() returns (report: Report)
      requires Valid()
      modifies this
      ensures Valid() && selectedAnswer == None && !isSubmitted && question == old(question)
      ensures report == ChoiceReport(None, false, None) && !Answered(report) && !Correct(report)
    {
      selectedAnswer := None;
      isSubmitted := false;
      report := ChoiceReport(None, false, None);
    }
  }
}
