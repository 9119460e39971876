// The quiz session engine of src/pages/Quiz/Quiz.tsx: flattening a stored
// question set into tagged items, shuffling them, navigating, and keeping the
// progress counters in step with the cards' reports.
module Quiz {
  import opened Wrappers
  import opened Text
  import opened Content
  import opened QuizProgress

  datatype QuestionType = OpenType | MultipleChoiceType | FillInBlankType | FlashcardType | MicroReelType

  /** The question an item shows, tagged by its kind. */
  datatype ItemData =
    | OpenData(open: OpenQuestion)
    | ChoiceData(choice: AnswerQuestion)
    | BlankData(blank: AnswerQuestion)
    | FlashcardData(card: Flashcard)
    | ReelData(reel: MicroReel)

  /** `QuestionItem`: the question's id, its type, its data and a per-instance key. */
  datatype QuestionItem = QuestionItem(id: string, kind: QuestionType, data: ItemData, instanceKey: string)

  function TypeOf(d: ItemData): QuestionType {
    match d
    case OpenData(_) => OpenType
    case ChoiceData(_) => MultipleChoiceType
    case BlankData(_) => FillInBlankType
    case FlashcardData(_) => FlashcardType
    case ReelData(_) => MicroReelType
  }

  function DataId(d: ItemData): string {
    match d
    case OpenData(q) => q.id
    case ChoiceData(q) => q.id
    case BlankData(q) => q.id
    case FlashcardData(f) => f.id
    case ReelData(m) => m.id
  }

  /** The instance-key prefix of each type. */
  function Prefix(t: QuestionType): string {
    match t
    case OpenType => "open"
    case MultipleChoiceType => "mc"
    case FillInBlankType => "fib"
    case FlashcardType => "fc"
    case MicroReelType => "mr"
  }

  /**
    * The item pushed for one question. `stamp` stands for the `${Date.now()}-${Math.random()}`
    * tail of the key, which the model takes as given.
    */
  function MakeItem(d: ItemData, stamp: string): (item: QuestionItem)
    ensures item.data == d && item.kind == TypeOf(d) && item.id == DataId(d)
    ensures IsPrefix(Prefix(item.kind) + "-" + item.id + "-", item.instanceKey)
  {
    var key := Prefix(TypeOf(d)) + "-" + DataId(d) + "-" + stamp;
    assert key[..|Prefix(TypeOf(d)) + "-" + DataId(d) + "-"|] == Prefix(TypeOf(d)) + "-" + DataId(d) + "-";
    QuestionItem(DataId(d), TypeOf(d), d, key)
  }

  /** `array?.forEach(...)` visits nothing when the array is missing. */
  function OrEmpty<T>(a: Option<seq<T>>): (s: seq<T>)
    ensures |s| == LengthOr0(a)
  {
    match a
    case Some(s) => s
    case None => []
  }

  function OpenDatas(qs: seq<OpenQuestion>): seq<ItemData> {
    seq(|qs|, k requires 0 <= k < |qs| => OpenData(qs[k]))
  }

  function ChoiceDatas(qs: seq<AnswerQuestion>): seq<ItemData> {
    seq(|qs|, k requires 0 <= k < |qs| => ChoiceData(qs[k]))
  }

  function BlankDatas(qs: seq<AnswerQuestion>): seq<ItemData> {
    seq(|qs|, k requires 0 <= k < |qs| => BlankData(qs[k]))
  }

  function FlashcardDatas(fs: seq<Flashcard>): seq<ItemData> {
    seq(|fs|, k requires 0 <= k < |fs| => FlashcardData(fs[k]))
  }

  function ReelDatas(ms: seq<MicroReel>): seq<ItemData> {
    seq(|ms|, k requires 0 <= k < |ms| => ReelData(ms[k]))
  }

  /** Every question of the set, in the fixed type order and each array in its own order. */
  function AllData(d: StoredData): seq<ItemData> {
    OpenDatas(OrEmpty(d.openQuestions)) + ChoiceDatas(OrEmpty(d.multipleChoiceQuestions))
    + BlankDatas(OrEmpty(d.fillInTheBlank)) + FlashcardDatas(OrEmpty(d.flashcards)) + ReelDatas(OrEmpty(d.microReels))
  }

  /** The items for `datas` when `offset` items precede them. */
  function Items(datas: seq<ItemData>, stamps: nat -> string, offset: nat): (r: seq<QuestionItem>)
    ensures |r| == |datas|
  {
    seq(|datas|, k requires 0 <= k < |datas| => MakeItem(datas[k], stamps(offset + k)))
  }

  lemma ItemsAppend(x: seq<ItemData>, y: seq<ItemData>, stamps: nat -> string, offset: nat)
    ensures Items(x + y, stamps, offset) == Items(x, stamps, offset) + Items(y, stamps, offset + |x|)
  {
    var l, r := Items(x + y, stamps, offset), Items(x, stamps, offset) + Items(y, stamps, offset + |x|);
    forall k | 0 <= k < |l| ensures l[k] == r[k] {
      if k >= |x| {
        assert (x + y)[k] == y[k - |x|];
      }
    }
  }

  lemma ItemsSnoc(x: seq<ItemData>, d: ItemData, stamps: nat -> string, offset: nat)
    ensures Items(x + [d], stamps, offset) == Items(x, stamps, offset) + [MakeItem(d, stamps(offset + |x|))]
  {
    ItemsAppend(x, [d], stamps, offset);
    assert Items([d], stamps, offset + |x|)[0] == MakeItem(d, stamps(offset + |x|));
  }

  /** The list `prepareQuestions` builds before shuffling; the k-th item's key tail is `stamps(k)`. */
  function Flatten(d: StoredData, stamps: nat -> string): seq<QuestionItem> {
    Items(AllData(d), stamps, 0)
  }

  /** One item per question: the flattened length is the sum of the five array lengths, a missing one adding 0. */
  lemma FlattenLength(d: StoredData, stamps: nat -> string)
    ensures |Flatten(d, stamps)| == LengthOr0(d.openQuestions) + LengthOr0(d.multipleChoiceQuestions)
              + LengthOr0(d.fillInTheBlank) + LengthOr0(d.flashcards) + LengthOr0(d.microReels)
  {
  }

  /**
    * Every question of the set is present once, in the fixed type order open, multiple choice,
    * fill in the blank, flashcard, micro reel, and each array keeps its own order.
    */
  lemma AllDataLayout(d: StoredData)
    ensures var a, o, c, b, fc, m := AllData(d), OrEmpty(d.openQuestions), OrEmpty(d.multipleChoiceQuestions),
                                     OrEmpty(d.fillInTheBlank), OrEmpty(d.flashcards), OrEmpty(d.microReels);
      |a| == |o| + |c| + |b| + |fc| + |m|
      && (forall k :: 0 <= k < |o| ==> a[k] == OpenData(o[k]))
      && (forall k :: 0 <= k < |c| ==> a[|o| + k] == ChoiceData(c[k]))
      && (forall k :: 0 <= k < |b| ==> a[|o| + |c| + k] == BlankData(b[k]))
      && (forall k :: 0 <= k < |fc| ==> a[|o| + |c| + |b| + k] == FlashcardData(fc[k]))
      && (forall k :: 0 <= k < |m| ==> a[|o| + |c| + |b| + |fc| + k] == ReelData(m[k]))
  {
  }

  /** The k-th flattened item is tagged with the k-th question: its data, its type and its id. */
  lemma FlattenItems(d: StoredData, stamps: nat -> string)
    ensures |Flatten(d, stamps)| == |AllData(d)|
    ensures forall k :: 0 <= k < |AllData(d)| ==>
      Flatten(d, stamps)[k].data == AllData(d)[k] && Flatten(d, stamps)[k].kind == TypeOf(AllData(d)[k])
      && Flatten(d, stamps)[k].id == DataId(AllData(d)[k])
  {
    var all, f := AllData(d), Flatten(d, stamps);
    forall k | 0 <= k < |all|
      ensures f[k].data == all[k] && f[k].kind == TypeOf(all[k]) && f[k].id == DataId(all[k])
    {
      assert f[k] == MakeItem(all[k], stamps(k));
    }
  }

  /** Every instance key starts with its type's prefix, a dash, the question id and a dash. */
  lemma InstanceKeysPrefixed(d: StoredData, stamps: nat -> string)
    ensures forall k :: 0 <= k < |Flatten(d, stamps)| ==>
      IsPrefix(Prefix(Flatten(d, stamps)[k].kind) + "-" + Flatten(d, stamps)[k].id + "-",
               Flatten(d, stamps)[k].instanceKey)
  {
  }

  /** The per-item push loop of one `forEach`: appends one item per question, in order. */
  method PushItems(all: seq<QuestionItem>, datas: seq<ItemData>, stamps: nat -> string) returns (r: seq<QuestionItem>)
    ensures r == all + Items(datas, stamps, |all|)
  {
    r := all;
    var i := 0;
    while i < |datas|
      invariant 0 <= i <= |datas|
      invariant |r| == |all| + i
      invariant r == all + Items(datas[..i], stamps, |all|)
    {
      ItemsSnoc(datas[..i], datas[i], stamps, |all|);
      assert datas[..i + 1] == datas[..i] + [datas[i]];
      r := r + [MakeItem(datas[i], stamps(|r|))];
      i := i + 1;
    }
    assert datas[..i] == datas;
  }

  /** Pushing the items of `y` after the items of `x` gives the items of `x + y`. */
  lemma PushStep(all: seq<QuestionItem>, x: seq<ItemData>, y: seq<ItemData>, stamps: nat -> string)
    requires all == Items(x, stamps, 0)
    ensures all + Items(y, stamps, |all|) == Items(x + y, stamps, 0)
  {
    ItemsAppend(x, y, stamps, 0);
  }

  /** `prepareQuestions`' five push loops, in type order, yield exactly the flattened list. */
  method BuildItems(d: StoredData, stamps: nat -> string) returns (all: seq<QuestionItem>)
    ensures all == Flatten(d, stamps)
  {
    var o, c, b := OpenDatas(OrEmpty(d.openQuestions)), ChoiceDatas(OrEmpty(d.multipleChoiceQuestions)),
                   BlankDatas(OrEmpty(d.fillInTheBlank));
    var f, m := FlashcardDatas(OrEmpty(d.flashcards)), ReelDatas(OrEmpty(d.microReels));
    all := PushItems([], o, stamps);
    assert all == Items(o, stamps, 0);
    var before := all;
    all := PushItems(all, c, stamps);
    PushStep(before, o, c, stamps);
    before := all;
    all := PushItems(all, b, stamps);
    PushStep(before, o + c, b, stamps);
    before := all;
    all := PushItems(all, f, stamps);
    PushStep(before, o + c + b, f, stamps);
    before := all;
    all := PushItems(all, m, stamps);
    PushStep(before, o + c + b + f, m, stamps);
  }

  /**
    * The shuffle: the source sorts with a random comparator, which yields some permutation.
    * Here each pass swaps position i with a position chosen by the injected draw.
    */
  method Shuffle(a: array<QuestionItem>, draws: seq<nat>)
    modifies a
    ensures multiset(a[..]) == multiset(old(a[..]))
  {
    var i := 0;
    while i < a.Length
      invariant 0 <= i <= a.Length
      invariant multiset(a[..]) == multiset(old(a[..]))
    {
      var j := if i < |draws| then i + draws[i] % (a.Length - i) else i;
      a[i], a[j] := a[j], a[i];
      i := i + 1;
    }
  }

  /** `getQuestionCounts`: the stored info when present, otherwise counts taken from the data. */
  function QuestionCountsOf(info: Option<QuestionInfo>, d: StoredData): (c: QuestionCounts)
    ensures c.total == c.openQuestions + c.multipleChoice + c.fillInTheBlank + c.flashcards + c.microReels
    ensures info.Some? ==> c.openQuestions == info.value.openQuestions
                           && c.multipleChoice == info.value.multipleChoiceQuestions
                           && c.fillInTheBlank == info.value.fillInTheBlank
                           && c.flashcards == info.value.flashcards && c.microReels == info.value.microReels
    ensures info.None? ==> c.openQuestions == LengthOr0(d.openQuestions)
                           && c.multipleChoice == LengthOr0(d.multipleChoiceQuestions)
                           && c.fillInTheBlank == LengthOr0(d.fillInTheBlank)
                           && c.flashcards == LengthOr0(d.flashcards) && c.microReels == LengthOr0(d.microReels)
  {
    match info
    case Some(i) =>
      QuestionCounts(i.openQuestions, i.multipleChoiceQuestions, i.fillInTheBlank, i.flashcards, i.microReels,
                     i.openQuestions + i.multipleChoiceQuestions + i.fillInTheBlank + i.flashcards + i.microReels)
    case None =>
      var o, c, b, f, m := LengthOr0(d.openQuestions), LengthOr0(d.multipleChoiceQuestions),
                           LengthOr0(d.fillInTheBlank), LengthOr0(d.flashcards), LengthOr0(d.microReels);
      QuestionCounts(o, c, b, f, m, o + c + b + f + m)
  }

  /** Without stored info, the counted total is the number of items a quiz over that data has. */
  lemma CountsMatchQuiz(d: StoredData, stamps: nat -> string)
    ensures QuestionCountsOf(None, d).total == |Flatten(d, stamps)|
  {
    FlattenLength(d, stamps);
  }

  /** The state of one quiz page. */
  class QuizSession {
    var questionSet: Option<StoredData>
    var quizStarted: bool
    var questions: seq<QuestionItem>
    var currentIndex: nat
    var states: map<string, Report>
    var totalQuestions: nat
    var answeredQuestions: nat
    var correctAnswers: nat
    var timeSpent: nat

    /** The counters always agree with the recorded reports and the item list. */
    ghost predicate Valid()
      reads this
    {
      totalQuestions == |questions|
      && answeredQuestions == AnsweredCount(states)
      && correctAnswers == CorrectCount(states)
    }

    constructor ()
      ensures Valid()
      ensures questionSet == None && !quizStarted && questions == [] && currentIndex == 0 && states == map[]
      ensures timeSpent == 0
    {
      questionSet := None;
      quizStarted := false;
      questions := [];
      currentIndex := 0;
      states := map[];
      totalQuestions := 0;
      answeredQuestions := 0;
      correctAnswers := 0;
      timeSpent := 0;
      new;
      assert AnsweredIds(states) == {};
      assert CorrectIds(states) == {};
    }

    /** `prepareQuestions`: the shuffled flattened list, and its length as the total. */
    method PrepareQuestions(d: StoredData, stamps: nat -> string, draws: seq<nat>)
      requires Valid()
      modifies this
      ensures Valid()
      ensures multiset(questions) == multiset(Flatten(d, stamps))
      ensures |questions| == |Flatten(d, stamps)| && totalQuestions == |questions|
      ensures questionSet == old(questionSet) && quizStarted == old(quizStarted)
      ensures currentIndex == old(currentIndex) && states == old(states) && timeSpent == old(timeSpent)
    {
      var all := BuildItems(d, stamps);
      var a := new QuestionItem[|all|](k requires 0 <= k < |all| => all[k]);
      assert a[..] == all;
      Shuffle(a, draws);
      questions := a[..];
      assert |multiset(questions)| == |multiset(all)|;
      totalQuestions := |questions|;
    }

    /** A successful fetch: the set is kept for restarts and its questions are prepared. */
    method Load(d: StoredData, stamps: nat -> string, draws: seq<nat>)
      requires Valid()
      modifies this
      ensures Valid()
      ensures questionSet == Some(d)
      ensures multiset(questions) == multiset(Flatten(d, stamps)) && totalQuestions == |Flatten(d, stamps)|
      ensures quizStarted == old(quizStarted) && currentIndex == old(currentIndex) && states == old(states)
    {
      questionSet := Some(d);
      PrepareQuestions(d, stamps, draws);
    }

    /** `handleQuestionStateChange` with `updateQuizProgress`: record the report, then recount. */
    method ReportState(id: string, r: Report)
      requires Valid()
      modifies this
      ensures Valid()
      ensures states == old(states)[id := r]
      ensures answeredQuestions == AnsweredCount(old(states) - {id}) + (if Answered(r) then 1 else 0)
      ensures correctAnswers == CorrectCount(old(states) - {id}) + (if Correct(r) then 1 else 0)
      ensures answeredQuestions <= |states| && correctAnswers <= |states|
      ensures questions == old(questions) && currentIndex == old(currentIndex) && quizStarted == old(quizStarted)
      ensures totalQuestions == old(totalQuestions) && timeSpent == old(timeSpent) && questionSet == old(questionSet)
    {
      states := states[id := r];
      answeredQuestions := AnsweredCount(states);
      correctAnswers := CorrectCount(states);
      UpdateCounts(old(states), id, r);
      CountsBounded(states);
    }

    /** `startQuiz`. */
    method Start()
      requires Valid()
      modifies this
      ensures Valid()
      ensures quizStarted && currentIndex == 0 && states == map[]
      ensures answeredQuestions == 0 && correctAnswers == 0 && timeSpent == 0
      ensures questions == old(questions) && totalQuestions == old(totalQuestions) && questionSet == old(questionSet)
    {
      quizStarted := true;
      currentIndex := 0;
      states := map[];
      answeredQuestions := 0;
      correctAnswers := 0;
      timeSpent := 0;
      assert AnsweredIds(states) == {};
      assert CorrectIds(states) == {};
    }

    /** `goToNextQuestion`: moves only when there is a next item. */
    method Next()
      modifies this
      ensures currentIndex == if old(currentIndex) + 1 < |questions| then old(currentIndex) + 1 else old(currentIndex)
      ensures old(currentIndex) < |questions| ==> currentIndex < |questions|
      ensures questions == old(questions) && states == old(states) && quizStarted == old(quizStarted)
      ensures totalQuestions == old(totalQuestions) && answeredQuestions == old(answeredQuestions)
      ensures correctAnswers == old(correctAnswers) && timeSpent == old(timeSpent) && questionSet == old(questionSet)
    {
      if currentIndex < |questions| - 1 {
        currentIndex := currentIndex + 1;
      }
    }

    /** `goToPreviousQuestion`: moves only when not at the first item. */
    method Previous()
      modifies this
      ensures currentIndex == if old(currentIndex) > 0 then old(currentIndex) - 1 else 0
      ensures old(currentIndex) < |questions| ==> currentIndex < |questions|
      ensures questions == old(questions) && states == old(states) && quizStarted == old(quizStarted)
      ensures totalQuestions == old(totalQuestions) && answeredQuestions == old(answeredQuestions)
      ensures correctAnswers == old(correctAnswers) && timeSpent == old(timeSpent) && questionSet == old(questionSet)
    {
      if currentIndex > 0 {
        currentIndex := currentIndex - 1;
      }
    }

    /** `restartQuiz`: back to the start screen with fresh counters, re-preparing the items if a set is loaded. */
    method Restart(stamps: nat -> string, draws: seq<nat>)
      requires Valid()
      modifies this
      ensures Valid()
      ensures !quizStarted && currentIndex == 0 && states == map[]
      ensures answeredQuestions == 0 && correctAnswers == 0 && timeSpent == 0
      ensures questionSet == old(questionSet)
      ensures questionSet.Some? ==> multiset(questions) == multiset(Flatten(questionSet.value, stamps))
      ensures questionSet.None? ==> questions == old(questions)
    {
      quizStarted := false;
      currentIndex := 0;
      states := map[];
      answeredQuestions := 0;
      correctAnswers := 0;
      timeSpent := 0;
      assert AnsweredIds(states) == {};
      assert CorrectIds(states) == {};
      if questionSet.Some? {
        PrepareQuestions(questionSet.value, stamps, draws);
      }
    }

    /** The item `renderCurrentQuestion` shows: none when the list is empty or the index is past its end. */
    function CurrentQuestion(): (q: Option<QuestionItem>)
      reads this
      ensures q.Some? <==> currentIndex < |questions|
      ensures q.Some? ==> q.value in questions
    {
      if currentIndex < |questions| then Some(questions[currentIndex]) else None
    }
  }
}
