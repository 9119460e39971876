// What a quiz card reports about itself, and how the session aggregates those
// reports into its answered / correct counters (src/pages/Quiz/Quiz.tsx).
module QuizProgress {
  import opened Wrappers

  /**
    * The state record a card passes to `onStateChange`; one variant per card kind.
    * An optional field that a handler leaves out, or sets to null, is `None`.
    */
  datatype Report =
    | OpenReport(userAnswer: string, isSubmitted: bool, showCorrectAnswer: bool, isMarkedCorrect: bool,
                 isCorrect: Option<bool>)
    | ChoiceReport(selectedIndex: Option<nat>, isSubmitted: bool, isCorrect: Option<bool>)
    | BlankReport(selectedText: string, isSubmitted: bool, isCorrect: Option<bool>)
    | FlashcardReport(isFlipped: bool, viewCount: nat, hasSeenAnswer: bool)
    | ReelReport(timeSpent: nat, hasBeenRead: bool, isActive: bool)

  /** `s.isSubmitted || s.hasSeenAnswer || s.hasBeenRead`, where a field a record lacks reads as undefined. */
  predicate Answered(r: Report) {
    match r
    case OpenReport(_, submitted, _, _, _) => submitted
    case ChoiceReport(_, submitted, _) => submitted
    case BlankReport(_, submitted, _) => submitted
    case FlashcardReport(_, _, seen) => seen
    case ReelReport(_, read, _) => read
  }

  /** `s.isCorrect === true || s.isMarkedCorrect === true`. */
  predicate Correct(r: Report) {
    match r
    case OpenReport(_, _, _, marked, correct) => correct == Some(true) || marked
    case ChoiceReport(_, _, correct) => correct == Some(true)
    case BlankReport(_, _, correct) => correct == Some(true)
    case FlashcardReport(_, _, _) => false
    case ReelReport(_, _, _) => false
  }

  /** The ids whose latest report counts as answered. */
  function AnsweredIds(states: map<string, Report>): (ids: set<string>)
    ensures ids <= states.Keys
    ensures forall id :: id in ids <==> id in states && Answered(states[id])
  {
    set id | id in states && Answered(states[id])
  }

  /** The ids whose latest report counts as correct. */
  function CorrectIds(states: map<string, Report>): (ids: set<string>)
    ensures ids <= states.Keys
    ensures forall id :: id in ids <==> id in states && Correct(states[id])
  {
    set id | id in states && Correct(states[id])
  }

  /** `answeredQuestions`. */
  function AnsweredCount(states: map<string, Report>): nat {
    |AnsweredIds(states)|
  }

  /** `correctAnswers`. */
  function CorrectCount(states: map<string, Report>): nat {
    |CorrectIds(states)|
  }

  lemma {:induction false} SubsetCard<T>(a: set<T>, b: set<T>)
    requires a <= b
    ensures |a| <= |b|
  {
    if a != {} {
      var x :| x in a;
      SubsetCard(a - {x}, b - {x});
    }
  }

  /** Neither counter exceeds the number of distinct ids that have reported. */
  lemma CountsBounded(states: map<string, Report>)
    ensures AnsweredCount(states) <= |states|
    ensures CorrectCount(states) <= |states|
  {
    SubsetCard(AnsweredIds(states), states.Keys);
    SubsetCard(CorrectIds(states), states.Keys);
  }

  lemma AnsweredIdsUpdate(states: map<string, Report>, id: string, r: Report)
    ensures AnsweredIds(states[id := r]) == AnsweredIds(states - {id}) + (if Answered(r) then {id} else {})
    ensures id !in AnsweredIds(states - {id})
  {
    var after, rest := AnsweredIds(states[id := r]), AnsweredIds(states - {id});
    forall x ensures x in after <==> x in rest + (if Answered(r) then {id} else {}) {
      if x != id {
        assert x in states[id := r] <==> x in states - {id};
      }
    }
  }

  lemma CorrectIdsUpdate(states: map<string, Report>, id: string, r: Report)
    ensures CorrectIds(states[id := r]) == CorrectIds(states - {id}) + (if Correct(r) then {id} else {})
    ensures id !in CorrectIds(states - {id})
  {
    var after, rest := CorrectIds(states[id := r]), CorrectIds(states - {id});
    forall x ensures x in after <==> x in rest + (if Correct(r) then {id} else {}) {
      if x != id {
        assert x in states[id := r] <==> x in states - {id};
      }
    }
  }

  /** Recording a report for `id` counts `id` by that report alone, and every other id as before. */
  lemma UpdateCounts(states: map<string, Report>, id: string, r: Report)
    ensures AnsweredCount(states[id := r]) == AnsweredCount(states - {id}) + (if Answered(r) then 1 else 0)
    ensures CorrectCount(states[id := r]) == CorrectCount(states - {id}) + (if Correct(r) then 1 else 0)
  {
    AnsweredIdsUpdate(states, id, r);
    CorrectIdsUpdate(states, id, r);
  }

  /** Reporting the same state for the same id again leaves both counters where they were. */
  lemma RepeatedReportUnchanged(states: map<string, Report>, id: string, r: Report)
    ensures AnsweredCount(states[id := r][id := r]) == AnsweredCount(states[id := r])
    ensures CorrectCount(states[id := r][id := r]) == CorrectCount(states[id := r])
  {
    assert states[id := r][id := r] == states[id := r];
  }

  /**
    * Two items that share a question id share one entry: whatever the first reported,
    * only the later report is counted.
    */
  lemma SharedIdKeepsLatest(states: map<string, Report>, id: string, first: Report, later: Report)
    ensures AnsweredCount(states[id := first][id := later]) == AnsweredCount(states[id := later])
    ensures CorrectCount(states[id := first][id := later]) == CorrectCount(states[id := later])
  {
    assert states[id := first][id := later] == states[id := later];
  }
}
