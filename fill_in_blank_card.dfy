// The fill-in-the-blank card (src/pages/Quiz/components/FillInTheBlankCard.tsx):
// the question text is split around `{{...}}` placeholders, each placeholder
// shows the chosen word, and the learner picks, submits and resets.
module FillInTheBlankCard {
  import opened Wrappers
  import opened Content
  import opened QuizProgress
  import opened MultipleChoiceCard

  // ---------------------------------------------------------------------------
  // The placeholder pattern /\{\{[^}]+\}\}/

  /** The first index at or after `j` holding '}', or `|s|` if there is none. */
  function FirstClose(s: string, j: nat): (r: nat)
    requires j <= |s|
    ensures j <= r <= |s|
    ensures forall k :: j <= k < r ==> s[k] != '}'
    ensures r < |s| ==> s[r] == '}'
    decreases |s| - j
  {
    if j == |s| || s[j] == '}' then j else FirstClose(s, j + 1)
  }

  /** `s[i..e]` is a placeholder: two '{', at least one character other than '}', two '}'. */
  predicate BlankAt(s: string, i: nat, e: nat) {
    i + 5 <= e <= |s| && s[i] == '{' && s[i + 1] == '{' && s[e - 2] == '}' && s[e - 1] == '}'
    && forall k :: i + 2 <= k < e - 2 ==> s[k] != '}'
  }

  /** Where a placeholder starting at `i` ends, if one starts there; the greedy `[^}]+` leaves no choice. */
  function MatchAt(s: string, i: nat): (r: Option<nat>)
    requires i <= |s|
    ensures r.Some? ==> BlankAt(s, i, r.value)
    ensures forall e: nat :: BlankAt(s, i, e) ==> r == Some(e)
  {
    if i + 1 < |s| && s[i] == '{' && s[i + 1] == '{' then
      var j := FirstClose(s, i + 2);
      if j > i + 2 && j + 1 < |s| && s[j + 1] == '}' then Some(j + 2) else None
    else None
  }

  /** Whether a placeholder starts anywhere at or after `i`. */
  function HasMatchFrom(s: string, i: nat): (b: bool)
    requires i <= |s|
    ensures b <==> exists q :: i <= q < |s| && MatchAt(s, q).Some?
    decreases |s| - i
  {
    if i == |s| then false else MatchAt(s, i).Some? || HasMatchFrom(s, i + 1)
  }

  /** `part.match(/\{\{[^}]+\}\}/)` is truthy. */
  predicate HasMatch(s: string) {
    HasMatchFrom(s, 0)
  }

  function ConcatAll(parts: seq<string>): string {
    if parts == [] then "" else parts[0] + ConcatAll(parts[1..])
  }

  // ---------------------------------------------------------------------------
  // `question.split(/(\{\{[^}]+\}\})/)`

  /**
    * Splitting with a capturing pattern: scanning from `p`, the text since `start` is emitted
    * before each placeholder and the placeholder itself is kept; the rest of the string, possibly
    * empty, comes last.
    */
  function SplitFrom(s: string, start: nat, p: nat): seq<string>
    requires start <= p <= |s|
    decreases |s| - p
  {
    if p == |s| then [s[start..]]
    else
      match MatchAt(s, p)
      case Some(e) => [s[start..p], s[p..e]] + SplitFrom(s, e, e)
      case None => SplitFrom(s, start, p + 1)
  }

  function Parts(s: string): seq<string> {
    SplitFrom(s, 0, 0)
  }

  /** A match inside a substring is a match of the whole string. */
  lemma BlankInSlice(s: string, lo: nat, hi: nat, i: nat, e: nat)
    requires lo <= hi <= |s| && BlankAt(s[lo..hi], i, e)
    ensures BlankAt(s, lo + i, lo + e)
  {
    var t := s[lo..hi];
    assert t[i] == s[lo + i] && t[i + 1] == s[lo + i + 1] && t[e - 2] == s[lo + e - 2] && t[e - 1] == s[lo + e - 1];
    forall k | lo + i + 2 <= k < lo + e - 2 ensures s[k] != '}' {
      assert s[k] == t[k - lo];
    }
  }

  /** A stretch of `s` in which no placeholder starts holds no placeholder of its own. */
  lemma LiteralHasNoMatch(s: string, start: nat, p: nat)
    requires start <= p <= |s|
    requires forall q :: start <= q < p ==> MatchAt(s, q).None?
    ensures !HasMatch(s[start..p])
  {
    var t := s[start..p];
    if HasMatch(t) {
      var q :| 0 <= q < |t| && MatchAt(t, q).Some?;
      var e := MatchAt(t, q).value;
      BlankInSlice(s, start, p, q, e);
      var m := MatchAt(s, start + q);
      assert false;
    }
  }

  /** The pieces spell out the input, and there is an odd number of them: text, placeholder, ..., text. */
  lemma {:induction false} SplitConcat(s: string, start: nat, p: nat)
    requires start <= p <= |s|
    ensures |SplitFrom(s, start, p)| % 2 == 1
    ensures ConcatAll(SplitFrom(s, start, p)) == s[start..]
    decreases |s| - p
  {
    var r := SplitFrom(s, start, p);
    if p == |s| {
      assert ConcatAll(r) == s[start..] + ConcatAll([]);
    } else {
      match MatchAt(s, p)
      case Some(e) =>
        var rest := SplitFrom(s, e, e);
        SplitConcat(s, e, e);
        assert r == [s[start..p], s[p..e]] + rest;
        assert r[1..] == [s[p..e]] + rest && r[1..][1..] == rest;
        assert ConcatAll(r) == s[start..p] + (s[p..e] + ConcatAll(rest));
        assert s[start..] == s[start..p] + s[p..e] + s[e..];
      case None =>
        SplitConcat(s, start, p + 1);
    }
  }

  /** Every odd-numbered piece is a whole placeholder. */
  ghost predicate OddPiecesAreBlanks(r: seq<string>) {
    forall k :: 0 <= k < |r| && k % 2 == 1 ==> BlankAt(r[k], 0, |r[k]|)
  }

  /** No even-numbered piece contains a placeholder. */
  ghost predicate EvenPiecesAreLiteral(r: seq<string>) {
    forall k :: 0 <= k < |r| && k % 2 == 0 ==> !HasMatch(r[k])
  }

  lemma {:induction false} SplitBlanks(s: string, start: nat, p: nat)
    requires start <= p <= |s|
    ensures OddPiecesAreBlanks(SplitFrom(s, start, p))
    decreases |s| - p
  {
    var r := SplitFrom(s, start, p);
    if p < |s| {
      match MatchAt(s, p)
      case Some(e) =>
        var rest := SplitFrom(s, e, e);
        SplitBlanks(s, e, e);
        assert r == [s[start..p], s[p..e]] + rest;
        var blank := s[p..e];
        assert BlankAt(blank, 0, |blank|) by {
          forall k | 2 <= k < |blank| - 2 ensures blank[k] != '}' { assert blank[k] == s[p + k]; }
        }
        forall k | 0 <= k < |r| && k % 2 == 1 ensures BlankAt(r[k], 0, |r[k]|) {
          if k > 1 {
            assert r[k] == rest[k - 2] && (k - 2) % 2 == 1;
          }
        }
      case None =>
        SplitBlanks(s, start, p + 1);
        assert r == SplitFrom(s, start, p + 1);
    }
  }

  /** Putting a literal and any other piece in front keeps even pieces literal. */
  lemma EvenPiecesPrepend(a: string, b: string, rest: seq<string>)
    requires !HasMatch(a) && EvenPiecesAreLiteral(rest)
    ensures EvenPiecesAreLiteral([a, b] + rest)
  {
    var r := [a, b] + rest;
    forall k | 0 <= k < |r| && k % 2 == 0 ensures !HasMatch(r[k]) {
      if k > 0 {
        assert r[k] == rest[k - 2] && (k - 2) % 2 == 0;
      }
    }
  }

  lemma {:induction false} SplitLiterals(s: string, start: nat, p: nat)
    requires start <= p <= |s|
    requires forall q :: start <= q < p ==> MatchAt(s, q).None?
    ensures EvenPiecesAreLiteral(SplitFrom(s, start, p))
    decreases |s| - p
  {
    if p == |s| {
      LiteralHasNoMatch(s, start, p);
      assert s[start..p] == s[start..];
    } else {
      match MatchAt(s, p)
      case Some(e) =>
        LiteralHasNoMatch(s, start, p);
        SplitLiterals(s, e, e);
        EvenPiecesPrepend(s[start..p], s[p..e], SplitFrom(s, e, e));
      case None =>
        SplitLiterals(s, start, p + 1);
    }
  }

  /** Properties of the split of a question, as `parseQuestion` sees it. */
  lemma PartsShape(s: string)
    ensures var r := Parts(s);
      |r| % 2 == 1
      && ConcatAll(r) == s
      && (forall k :: 0 <= k < |r| && k % 2 == 1 ==> HasMatch(r[k]) && BlankAt(r[k], 0, |r[k]|))
      && (forall k :: 0 <= k < |r| && k % 2 == 0 ==> !HasMatch(r[k]))
  {
    SplitConcat(s, 0, 0);
    SplitBlanks(s, 0, 0);
    SplitLiterals(s, 0, 0);
    var r := Parts(s);
    forall k | 0 <= k < |r| && k % 2 == 1 ensures HasMatch(r[k]) {
      assert MatchAt(r[k], 0).Some?;
    }
  }

  /** A question without placeholders is one literal piece. */
  lemma {:induction false} NoPlaceholderOnePart(s: string, start: nat, p: nat)
    requires start <= p <= |s|
    requires forall q :: start <= q < |s| ==> MatchAt(s, q).None?
    ensures SplitFrom(s, start, p) == [s[start..]]
    decreases |s| - p
  {
    if p < |s| {
      NoPlaceholderOnePart(s, start, p + 1);
    }
  }

  /** A placeholder in the middle of a sentence becomes its own piece between two literal pieces. */
  lemma PartsExample()
    ensures Parts("a{{b}}c") == ["a", "{{b}}", "c"]
  {
    var s := "a{{b}}c";
    assert MatchAt(s, 0) == None;
    assert FirstClose(s, 3) == 4;
    assert MatchAt(s, 1) == Some(6);
    assert SplitFrom(s, 6, 6) == ["c"] by { assert MatchAt(s, 6) == None; }
    assert s[0..1] == "a" && s[1..6] == "{{b}}";
  }

  // ---------------------------------------------------------------------------
  // Rendering the question

  /** What a placeholder shows: the chosen word, or '___' while none is chosen. */
  function Fill(selected: string): string {
    if selected != "" then selected else "___"
  }

  /** `parts.map(...)`: a piece matching the pattern shows the fill, every other piece shows itself. */
  function Displays(parts: seq<string>, selected: string): (r: seq<string>)
    ensures |r| == |parts|
    ensures forall k :: 0 <= k < |parts| ==> r[k] == if HasMatch(parts[k]) then Fill(selected) else parts[k]
  {
    seq(|parts|, k requires 0 <= k < |parts| => if HasMatch(parts[k]) then Fill(selected) else parts[k])
  }

  /** The text of the rendered question. */
  function Render(question: string, selected: string): string {
    ConcatAll(Displays(Parts(question), selected))
  }

  /** Each placeholder shows the fill; the literal text around them is kept in order. */
  lemma RenderReplacesPlaceholders(question: string, selected: string)
    ensures var parts, shown := Parts(question), Displays(Parts(question), selected);
      |shown| == |parts| && |parts| % 2 == 1
      && (forall k :: 0 <= k < |parts| && k % 2 == 1 ==> shown[k] == Fill(selected) && BlankAt(parts[k], 0, |parts[k]|))
      && (forall k :: 0 <= k < |parts| && k % 2 == 0 ==> shown[k] == parts[k])
  {
    PartsShape(question);
  }

  /** A question without placeholders renders as written. */
  lemma RenderWithoutPlaceholders(question: string, selected: string)
    requires !HasMatch(question)
    ensures Render(question, selected) == question
  {
    NoPlaceholderOnePart(question, 0, 0);
    assert question[0..] == question;
    assert Parts(question) == [question];
    assert Displays([question], selected) == [question];
    assert ConcatAll([question]) == question + ConcatAll([]);
  }

  // ---------------------------------------------------------------------------
  // Matching a chosen word against the answers

  /** `answers.find(a => a.text === text)`, as an index. */
  function FindAnswer(answers: seq<Answer>, text: string): (r: Option<nat>)
    ensures r.Some? ==> r.value < |answers| && answers[r.value].text == text
                        && forall j :: 0 <= j < r.value ==> answers[j].text != text
    ensures r.None? ==> forall j :: 0 <= j < |answers| ==> answers[j].text != text
  {
    if answers == [] then None
    else if answers[0].text == text then Some(0)
    else match FindAnswer(answers[1..], text)
      case Some(k) => Some(k + 1)
      case None => None
  }

  /** `find(...)?.is_correct || false`: the first answer with that text decides; no such answer means wrong. */
  function IsCorrectChoice(answers: seq<Answer>, text: string): (ok: bool)
    ensures ok <==> exists k :: 0 <= k < |answers| && answers[k].text == text && answers[k].isCorrect
                                && forall j :: 0 <= j < k ==> answers[j].text != text
  {
    match FindAnswer(answers, text)
    case Some(k) => answers[k].isCorrect
    case None => false
  }

  /** `getButtonStyle(answerText)`. */
  function ButtonStyle(answers: seq<Answer>, selected: string, submitted: bool, answerText: string): (st: OptionStyle)
    ensures !submitted ==> (st == SelectedStyle <==> selected == answerText) && st in {SelectedStyle, IdleStyle}
    ensures submitted ==> (st == SuccessStyle <==> IsCorrectChoice(answers, answerText))
    ensures submitted ==> (st == ErrorStyle <==> selected == answerText && !IsCorrectChoice(answers, answerText))
    ensures submitted ==> st in {SuccessStyle, ErrorStyle, NeutralStyle}
  {
    if !submitted then
      if selected == answerText then SelectedStyle else IdleStyle
    else if IsCorrectChoice(answers, answerText) then SuccessStyle
    else if selected == answerText then ErrorStyle
    else NeutralStyle
  }

  /** How a placeholder is drawn. */
  datatype BlankLook = EmptyBlank | PendingBlank | RightBlank | WrongBlank

  function BlankStyle(answers: seq<Answer>, selected: string, submitted: bool): (look: BlankLook)
    ensures look == EmptyBlank <==> selected == ""
    ensures look == PendingBlank <==> selected != "" && !submitted
    ensures look == RightBlank <==> selected != "" && submitted && IsCorrectChoice(answers, selected)
  {
    if selected == "" then EmptyBlank
    else if !submitted then PendingBlank
    else if IsCorrectChoice(answers, selected) then RightBlank
    else WrongBlank
  }

  // ---------------------------------------------------------------------------
  // The card

  class Card {
    var question: AnswerQuestion
    var selectedAnswer: string
    var isSubmitted: bool

    /** Submitting needs a chosen word, and nothing clears it while submitted. */
    ghost predicate Valid()
      reads this
    {
      isSubmitted ==> selectedAnswer != ""
    }

    constructor (q: AnswerQuestion)
      ensures Valid() && question == q && selectedAnswer == "" && !isSubmitted
    {
      question := q;
      selectedAnswer := "";
      isSubmitted := false;
    }

    /** The effect on `question.id`: a different question clears the choice and the submission. */
    method ChangeQuestion(q: AnswerQuestion)
      requires Valid()
      modifies this
      ensures Valid() && question == q
      ensures q.id != old(question.id) ==> selectedAnswer == "" && !isSubmitted
      ensures q.id == old(question.id) ==> selectedAnswer == old(selectedAnswer) && isSubmitted == old(isSubmitted)
    {
      if q.id != question.id {
        selectedAnswer := "";
        isSubmitted := false;
      }
      question := q;
    }

    /** `handleAnswerSelect`: the choice changes only while not submitted. */
    method Select(answerText: string) returns (report: Option<Report>)
      requires Valid()
      modifies this
      ensures Valid() && isSubmitted == old(isSubmitted) && question == old(question)
      ensures report.Some? <==> !old(isSubmitted)
      ensures report.Some? ==> selectedAnswer == answerText && report.value == BlankReport(answerText, false, None)
                               && !Answered(report.value)
      ensures report.None? ==> selectedAnswer == old(selectedAnswer)
    {
      if !isSubmitted {
        selectedAnswer := answerText;
        report := Some(BlankReport(answerText, false, None));
      } else {
        report := None;
      }
    }

    /** `handleSubmit`: needs a chosen word; correct exactly when the first answer with that text is. */
    method Submit() returns (report: Option<Report>)
      requires Valid()
      modifies this
      ensures Valid() && selectedAnswer == old(selectedAnswer) && question == old(question)
      ensures report.Some? <==> old(selectedAnswer) != ""
      ensures report.Some? ==> isSubmitted && Answered(report.value)
                               && report.value == BlankReport(selectedAnswer, true,
                                                              Some(IsCorrectChoice(question.answers, selectedAnswer)))
                               && (Correct(report.value) <==> IsCorrectChoice(question.answers, selectedAnswer))
      ensures report.None? ==> isSubmitted == old(isSubmitted)
    {
      if selectedAnswer != "" {
        isSubmitted := true;
        report := Some(BlankReport(selectedAnswer, true, Some(IsCorrectChoice(question.answers, selectedAnswer))));
      } else {
        report := None;
      }
    }

    /** `handleReset` ("Try Again"): no choice, not submitted, `isCorrect: null`. */
    method Reset() returns (report: Report)
      requires Valid()
      modifies this
      ensures Valid() && selectedAnswer == "" && !isSubmitted && question == old(question)
      ensures report == BlankReport("", false, None) && !Answered(report) && !Correct(report)
    {
      selectedAnswer := "";
      isSubmitted := false;
      report := BlankReport("", false, None);
    }
  }
}
