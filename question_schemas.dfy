// The structural schema of a question bundle (src/utils/validation/questionSchemas.ts):
// item schemas, the base bundle schema that collects every issue, and the
// transform that fills in a version-4-shaped set id when none is given.
module QuestionSchemas {
  import opened Wrappers
  import opened Text
  import opened JsonValue
  import opened Content

  type Parsed<T> = Result<T, seq<Issue>>

  /** The issues of a parse outcome; none when it succeeded. */
  function IssuesOf<T>(r: Parsed<T>): seq<Issue> {
    match r
    case Success(_) => []
    case Failure(e) => e
  }

  /** A parser that never fails silently: every failure carries at least one issue. */
  ghost predicate ReportsIssues<T>(elem: (Json, Path) -> Parsed<T>) {
    forall j, p :: elem(j, p).Failure? ==> elem(j, p).error != []
  }

  /** A parser whose verdict does not depend on the path it reports under. */
  ghost predicate PathIndependent<T>(elem: (Json, Path) -> Parsed<T>) {
    forall j, p, q :: elem(j, p).Success? ==> elem(j, q) == elem(j, p)
  }

  // ---------------------------------------------------------------------------
  // Leaf schemas: `z.string().min(1, msg)` and `z.boolean()`

  function ParseText(v: Option<Json>, path: Path, minMessage: string): (r: Parsed<string>)
    ensures r.Success? <==> v.Some? && v.value.JString? && |v.value.s| >= 1
    ensures r.Success? ==> r.value == v.value.s
    ensures r.Failure? ==> |r.error| == 1 && r.error[0].path == path
    ensures r.Failure? && v.Some? && v.value.JString? ==> r.error[0].message == minMessage
  {
    match v
    case Some(JString(s)) =>
      if |s| >= 1 then Success(s) else Failure([Issue(path, minMessage)])
    case _ => Failure([Issue(path, TypeMessage("string", v))])
  }

  function ParseBool(v: Option<Json>, path: Path): (r: Parsed<bool>)
    ensures r.Success? <==> v.Some? && v.value.JBool?
    ensures r.Success? ==> r.value == v.value.b
    ensures r.Failure? ==> r.error == [Issue(path, TypeMessage("boolean", v))]
  {
    match v
    case Some(JBool(b)) => Success(b)
    case _ => Failure([Issue(path, TypeMessage("boolean", v))])
  }

  // ---------------------------------------------------------------------------
  // Arrays: `z.array(elem)` with an optional `.min(n, msg)`

  /** Parses `items[from..]` element by element, collecting every element's issues in order. */
  function ParseItems<T>(items: seq<Json>, path: Path, from: nat, elem: (Json, Path) -> Parsed<T>): (r: Parsed<seq<T>>)
    requires from <= |items|
    ensures r.Success? <==> forall i :: from <= i < |items| ==> elem(items[i], path + [Index(i)]).Success?
    ensures r.Success? ==> |r.value| == |items| - from
                           && forall i :: from <= i < |items| ==> r.value[i - from] == elem(items[i], path + [Index(i)]).value
    ensures ReportsIssues(elem) && r.Failure? ==> r.error != []
    decreases |items| - from
  {
    if from == |items| then Success([])
    else
      var head := elem(items[from], path + [Index(from)]);
      var tail := ParseItems(items, path, from + 1, elem);
      if head.Success? && tail.Success? then Success([head.value] + tail.value)
      else Failure(IssuesOf(head) + IssuesOf(tail))
  }

  /** `z.array(elem).min(minLength, minMessage)`: the length issue comes before the elements' issues. */
  function ParseArray<T>(v: Option<Json>, path: Path, elem: (Json, Path) -> Parsed<T>,
                         minLength: nat, minMessage: string): (r: Parsed<seq<T>>)
    ensures r.Success? <==> v.Some? && v.value.JArray? && |v.value.items| >= minLength
                            && forall i :: 0 <= i < |v.value.items| ==> elem(v.value.items[i], path + [Index(i)]).Success?
    ensures r.Success? ==> |r.value| == |v.value.items|
                           && forall i :: 0 <= i < |v.value.items| ==> r.value[i] == elem(v.value.items[i], path + [Index(i)]).value
    ensures ReportsIssues(elem) && r.Failure? ==> r.error != []
  {
    match v
    case Some(JArray(items)) =>
      var sizeIssues := if |items| < minLength then [Issue(path, minMessage)] else [];
      var parsed := ParseItems(items, path, 0, elem);
      if sizeIssues == [] && parsed.Success? then parsed
      else Failure(sizeIssues + IssuesOf(parsed))
    case _ => Failure([Issue(path, TypeMessage("array", v))])
  }

  // ---------------------------------------------------------------------------
  // What a conforming document looks like, stated without the parsers

  predicate IsText(v: Option<Json>) {
    v.Some? && v.value.JString? && |v.value.s| >= 1
  }

  predicate IsBool(v: Option<Json>) {
    v.Some? && v.value.JBool?
  }

  predicate ConformsAnswer(j: Json) {
    j.JObject? && IsText(Get(j.fields, "text")) && IsBool(Get(j.fields, "is_correct"))
  }

  predicate ConformsOpenQuestion(j: Json) {
    j.JObject? && IsText(Get(j.fields, "id")) && IsText(Get(j.fields, "question"))
    && IsText(Get(j.fields, "answer"))
  }

  /** A multiple-choice or fill-in-the-blank item: at least one answer, every answer conforming. */
  predicate ConformsAnswerQuestion(j: Json) {
    j.JObject? && IsText(Get(j.fields, "id")) && IsText(Get(j.fields, "question"))
    && var answers := Get(j.fields, "answers");
       answers.Some? && answers.value.JArray? && |answers.value.items| >= 1
       && forall i :: 0 <= i < |answers.value.items| ==> ConformsAnswer(answers.value.items[i])
  }

  predicate ConformsFlashcard(j: Json) {
    j.JObject? && IsText(Get(j.fields, "id")) && IsText(Get(j.fields, "front")) && IsText(Get(j.fields, "back"))
  }

  predicate ConformsMicroReel(j: Json) {
    j.JObject? && IsText(Get(j.fields, "id")) && IsText(Get(j.fields, "text"))
  }

  /** An array (of any length, empty included) whose every element satisfies `p`. */
  predicate IsArrayOf(v: Option<Json>, p: Json -> bool) {
    v.Some? && v.value.JArray? && forall i :: 0 <= i < |v.value.items| ==> p(v.value.items[i])
  }

  /** A bundle document: the five arrays present and conforming, and an id that is absent or a non-empty string. */
  predicate ConformsBundle(j: Json) {
    j.JObject?
    && (Get(j.fields, "id").None? || IsText(Get(j.fields, "id")))
    && IsArrayOf(Get(j.fields, "open_questions"), ConformsOpenQuestion)
    && IsArrayOf(Get(j.fields, "multiple_choice_questions"), ConformsAnswerQuestion)
    && IsArrayOf(Get(j.fields, "fill_in_the_blank"), ConformsAnswerQuestion)
    && IsArrayOf(Get(j.fields, "flashcards"), ConformsFlashcard)
    && IsArrayOf(Get(j.fields, "micro_reels"), ConformsMicroReel)
  }

  // ---------------------------------------------------------------------------
  // What a validated value guarantees, stated on the typed data

  predicate ValidAnswer(a: Answer) {
    a.text != ""
  }

  predicate ValidOpenQuestion(q: OpenQuestion) {
    q.id != "" && q.question != "" && q.answer != ""
  }

  predicate ValidAnswerQuestion(q: AnswerQuestion) {
    q.id != "" && q.question != "" && |q.answers| >= 1
    && forall k :: 0 <= k < |q.answers| ==> ValidAnswer(q.answers[k])
  }

  predicate ValidFlashcard(f: Flashcard) {
    f.id != "" && f.front != "" && f.back != ""
  }

  predicate ValidMicroReel(m: MicroReel) {
    m.id != "" && m.text != ""
  }

  predicate ValidBundle(b: QuestionBundle) {
    (b.id.Some? ==> b.id.value != "")
    && (forall k :: 0 <= k < |b.openQuestions| ==> ValidOpenQuestion(b.openQuestions[k]))
    && (forall k :: 0 <= k < |b.multipleChoiceQuestions| ==> ValidAnswerQuestion(b.multipleChoiceQuestions[k]))
    && (forall k :: 0 <= k < |b.fillInTheBlank| ==> ValidAnswerQuestion(b.fillInTheBlank[k]))
    && (forall k :: 0 <= k < |b.flashcards| ==> ValidFlashcard(b.flashcards[k]))
    && (forall k :: 0 <= k < |b.microReels| ==> ValidMicroReel(b.microReels[k]))
  }

  // ---------------------------------------------------------------------------
  // The item schemas

  /** `AnswerSchema`. */
  function ParseAnswer(j: Json, path: Path): (r: Parsed<Answer>)
    ensures r.Success? <==> ConformsAnswer(j)
    ensures r.Success? ==> ValidAnswer(r.value)
                           && r.value == Answer(Get(j.fields, "text").value.s, Get(j.fields, "is_correct").value.b)
    ensures r.Failure? ==> r.error != []
  {
    match j
    case JObject(m) =>
      var text := ParseText(Get(m, "text"), path + [Key("text")], "Answer text is required");
      var isCorrect := ParseBool(Get(m, "is_correct"), path + [Key("is_correct")]);
      if text.Success? && isCorrect.Success? then Success(Answer(text.value, isCorrect.value))
      else Failure(IssuesOf(text) + IssuesOf(isCorrect))
    case _ => Failure([Issue(path, TypeMessage("object", Some(j)))])
  }

  /** `OpenQuestionSchema`. */
  function ParseOpenQuestion(j: Json, path: Path): (r: Parsed<OpenQuestion>)
    ensures r.Success? <==> ConformsOpenQuestion(j)
    ensures r.Success? ==> ValidOpenQuestion(r.value)
                           && r.value == OpenQuestion(Get(j.fields, "id").value.s, Get(j.fields, "question").value.s,
                                                      Get(j.fields, "answer").value.s)
    ensures r.Failure? ==> r.error != []
  {
    match j
    case JObject(m) =>
      var id := ParseText(Get(m, "id"), path + [Key("id")], "Question ID is required");
      var question := ParseText(Get(m, "question"), path + [Key("question")], "Question text is required");
      var answer := ParseText(Get(m, "answer"), path + [Key("answer")], "Answer is required");
      if id.Success? && question.Success? && answer.Success? then
        Success(OpenQuestion(id.value, question.value, answer.value))
      else Failure(IssuesOf(id) + IssuesOf(question) + IssuesOf(answer))
    case _ => Failure([Issue(path, TypeMessage("object", Some(j)))])
  }

  /** `MultipleChoiceQuestionSchema` and `FillInTheBlankSchema`, which are the same schema. */
  function ParseAnswerQuestion(j: Json, path: Path): (r: Parsed<AnswerQuestion>)
    ensures r.Success? <==> ConformsAnswerQuestion(j)
    ensures r.Success? ==> ValidAnswerQuestion(r.value)
                           && r.value.id == Get(j.fields, "id").value.s
                           && r.value.question == Get(j.fields, "question").value.s
                           && |r.value.answers| == |Get(j.fields, "answers").value.items|
                           && forall k :: 0 <= k < |r.value.answers| ==>
                                r.value.answers[k] == ParseAnswer(Get(j.fields, "answers").value.items[k], []).value
    ensures r.Failure? ==> r.error != []
  {
    match j
    case JObject(m) =>
      var id := ParseText(Get(m, "id"), path + [Key("id")], "Question ID is required");
      var question := ParseText(Get(m, "question"), path + [Key("question")], "Question text is required");
      AnswerParserReportsIssues();
      var answers := ParseArray(Get(m, "answers"), path + [Key("answers")], ParseAnswer, 1,
                                "At least one answer is required");
      if id.Success? && question.Success? && answers.Success? then
        Success(AnswerQuestion(id.value, question.value, answers.value))
      else Failure(IssuesOf(id) + IssuesOf(question) + IssuesOf(answers))
    case _ => Failure([Issue(path, TypeMessage("object", Some(j)))])
  }

  /** `FlashcardSchema`. */
  function ParseFlashcard(j: Json, path: Path): (r: Parsed<Flashcard>)
    ensures r.Success? <==> ConformsFlashcard(j)
    ensures r.Success? ==> ValidFlashcard(r.value)
                           && r.value == Flashcard(Get(j.fields, "id").value.s, Get(j.fields, "front").value.s,
                                                   Get(j.fields, "back").value.s)
    ensures r.Failure? ==> r.error != []
  {
    match j
    case JObject(m) =>
      var id := ParseText(Get(m, "id"), path + [Key("id")], "Flashcard ID is required");
      var front := ParseText(Get(m, "front"), path + [Key("front")], "Front text is required");
      var back := ParseText(Get(m, "back"), path + [Key("back")], "Back text is required");
      if id.Success? && front.Success? && back.Success? then Success(Flashcard(id.value, front.value, back.value))
      else Failure(IssuesOf(id) + IssuesOf(front) + IssuesOf(back))
    case _ => Failure([Issue(path, TypeMessage("object", Some(j)))])
  }

  /** `MicroReelSchema`. */
  function ParseMicroReel(j: Json, path: Path): (r: Parsed<MicroReel>)
    ensures r.Success? <==> ConformsMicroReel(j)
    ensures r.Success? ==> ValidMicroReel(r.value)
                           && r.value == MicroReel(Get(j.fields, "id").value.s, Get(j.fields, "text").value.s)
    ensures r.Failure? ==> r.error != []
  {
    match j
    case JObject(m) =>
      var id := ParseText(Get(m, "id"), path + [Key("id")], "Micro reel ID is required");
      var text := ParseText(Get(m, "text"), path + [Key("text")], "Text is required");
      if id.Success? && text.Success? then Success(MicroReel(id.value, text.value))
      else Failure(IssuesOf(id) + IssuesOf(text))
    case _ => Failure([Issue(path, TypeMessage("object", Some(j)))])
  }

  lemma AnswerParserReportsIssues()
    ensures ReportsIssues(ParseAnswer)
  {
  }

  // ---------------------------------------------------------------------------
  // The bundle schemas

  /** `id: z.string().min(1, ...).optional()`. */
  function ParseSetId(v: Option<Json>, path: Path): (r: Parsed<Option<string>>)
    ensures r.Success? <==> v.None? || IsText(v)
    ensures r.Success? ==> (r.value.None? <==> v.None?) && (r.value.Some? ==> r.value.value == v.value.s != "")
    ensures r.Failure? ==> r.error != []
  {
    match v
    case None => Success(None)
    case Some(_) =>
      var s := ParseText(v, path, "Questions set ID is required");
      if s.Success? then Success(Some(s.value)) else Failure(s.error)
  }

  function ParseOpenQuestions(v: Option<Json>): (r: Parsed<seq<OpenQuestion>>)
    ensures r.Success? <==> IsArrayOf(v, ConformsOpenQuestion)
    ensures r.Success? ==> |r.value| == |v.value.items|
                           && forall k :: 0 <= k < |r.value| ==>
                                ValidOpenQuestion(r.value[k]) && r.value[k] == ParseOpenQuestion(v.value.items[k], []).value
    ensures r.Failure? ==> r.error != []
  {
    ParseArray(v, [Key("open_questions")], ParseOpenQuestion, 0, "")
  }

  /** Both `multiple_choice_questions` and `fill_in_the_blank`. */
  function ParseAnswerQuestions(v: Option<Json>, key: string): (r: Parsed<seq<AnswerQuestion>>)
    ensures r.Success? <==> IsArrayOf(v, ConformsAnswerQuestion)
    ensures r.Success? ==> |r.value| == |v.value.items|
                           && forall k :: 0 <= k < |r.value| ==>
                                ValidAnswerQuestion(r.value[k]) && r.value[k] == ParseAnswerQuestion(v.value.items[k], []).value
    ensures r.Failure? ==> r.error != []
  {
    ParseArray(v, [Key(key)], ParseAnswerQuestion, 0, "")
  }

  function ParseFlashcards(v: Option<Json>): (r: Parsed<seq<Flashcard>>)
    ensures r.Success? <==> IsArrayOf(v, ConformsFlashcard)
    ensures r.Success? ==> |r.value| == |v.value.items|
                           && forall k :: 0 <= k < |r.value| ==>
                                ValidFlashcard(r.value[k]) && r.value[k] == ParseFlashcard(v.value.items[k], []).value
    ensures r.Failure? ==> r.error != []
  {
    ParseArray(v, [Key("flashcards")], ParseFlashcard, 0, "")
  }

  function ParseMicroReels(v: Option<Json>): (r: Parsed<seq<MicroReel>>)
    ensures r.Success? <==> IsArrayOf(v, ConformsMicroReel)
    ensures r.Success? ==> |r.value| == |v.value.items|
                           && forall k :: 0 <= k < |r.value| ==>
                                ValidMicroReel(r.value[k]) && r.value[k] == ParseMicroReel(v.value.items[k], []).value
    ensures r.Failure? ==> r.error != []
  {
    ParseArray(v, [Key("micro_reels")], ParseMicroReel, 0, "")
  }

  /** Combines the six field outcomes: the bundle if all succeeded, otherwise all issues in key order. */
  function Assemble(id: Parsed<Option<string>>, opens: Parsed<seq<OpenQuestion>>,
                    choices: Parsed<seq<AnswerQuestion>>, blanks: Parsed<seq<AnswerQuestion>>,
                    cards: Parsed<seq<Flashcard>>, reels: Parsed<seq<MicroReel>>): Parsed<QuestionBundle> {
    if id.Success? && opens.Success? && choices.Success? && blanks.Success? && cards.Success? && reels.Success? then
      Success(QuestionBundle(id.value, opens.value, choices.value, blanks.value, cards.value, reels.value))
    else
      Failure(IssuesOf(id) + IssuesOf(opens) + IssuesOf(choices) + IssuesOf(blanks) + IssuesOf(cards)
              + IssuesOf(reels))
  }

  /** `BaseQuestionsSchema`: every field is checked and every issue is kept, in the schema's key order. */
  function ParseBaseQuestions(j: Json): (r: Parsed<QuestionBundle>)
    ensures r.Success? <==> ConformsBundle(j)
    ensures r.Success? ==> ValidBundle(r.value)
    ensures r.Success? ==>
              r.value.id == ParseSetId(Get(j.fields, "id"), [Key("id")]).value
              && r.value.openQuestions == ParseOpenQuestions(Get(j.fields, "open_questions")).value
              && r.value.multipleChoiceQuestions
                 == ParseAnswerQuestions(Get(j.fields, "multiple_choice_questions"), "multiple_choice_questions").value
              && r.value.fillInTheBlank == ParseAnswerQuestions(Get(j.fields, "fill_in_the_blank"), "fill_in_the_blank").value
              && r.value.flashcards == ParseFlashcards(Get(j.fields, "flashcards")).value
              && r.value.microReels == ParseMicroReels(Get(j.fields, "micro_reels")).value
    ensures r.Failure? && j.JObject? ==>
              r.error == IssuesOf(ParseSetId(Get(j.fields, "id"), [Key("id")]))
                         + IssuesOf(ParseOpenQuestions(Get(j.fields, "open_questions")))
                         + IssuesOf(ParseAnswerQuestions(Get(j.fields, "multiple_choice_questions"),
                                                         "multiple_choice_questions"))
                         + IssuesOf(ParseAnswerQuestions(Get(j.fields, "fill_in_the_blank"), "fill_in_the_blank"))
                         + IssuesOf(ParseFlashcards(Get(j.fields, "flashcards")))
                         + IssuesOf(ParseMicroReels(Get(j.fields, "micro_reels")))
    ensures !j.JObject? ==> r == Failure([Issue([], TypeMessage("object", Some(j)))])
    ensures r.Failure? ==> r.error != []
  {
    match j
    case JObject(m) =>
      Assemble(ParseSetId(Get(m, "id"), [Key("id")]),
               ParseOpenQuestions(Get(m, "open_questions")),
               ParseAnswerQuestions(Get(m, "multiple_choice_questions"), "multiple_choice_questions"),
               ParseAnswerQuestions(Get(m, "fill_in_the_blank"), "fill_in_the_blank"),
               ParseFlashcards(Get(m, "flashcards")),
               ParseMicroReels(Get(m, "micro_reels")))
    case _ => Failure([Issue([], TypeMessage("object", Some(j)))])
  }

  // ---------------------------------------------------------------------------
  // Encoding typed content back into a document, and the round trip

  function EncodeAnswer(a: Answer): Json {
    JObject(map["text" := JString(a.text), "is_correct" := JBool(a.isCorrect)])
  }

  function EncodeOpenQuestion(q: OpenQuestion): Json {
    JObject(map["id" := JString(q.id), "question" := JString(q.question), "answer" := JString(q.answer)])
  }

  function EncodeAnswerQuestion(q: AnswerQuestion): Json {
    JObject(map["id" := JString(q.id), "question" := JString(q.question),
                "answers" := JArray(seq(|q.answers|, k requires 0 <= k < |q.answers| => EncodeAnswer(q.answers[k])))])
  }

  function EncodeFlashcard(f: Flashcard): Json {
    JObject(map["id" := JString(f.id), "front" := JString(f.front), "back" := JString(f.back)])
  }

  function EncodeMicroReel(m: MicroReel): Json {
    JObject(map["id" := JString(m.id), "text" := JString(m.text)])
  }

  function EncodeOpenQuestions(xs: seq<OpenQuestion>): Json {
    JArray(seq(|xs|, k requires 0 <= k < |xs| => EncodeOpenQuestion(xs[k])))
  }

  function EncodeAnswerQuestions(xs: seq<AnswerQuestion>): Json {
    JArray(seq(|xs|, k requires 0 <= k < |xs| => EncodeAnswerQuestion(xs[k])))
  }

  function EncodeFlashcards(xs: seq<Flashcard>): Json {
    JArray(seq(|xs|, k requires 0 <= k < |xs| => EncodeFlashcard(xs[k])))
  }

  function EncodeMicroReels(xs: seq<MicroReel>): Json {
    JArray(seq(|xs|, k requires 0 <= k < |xs| => EncodeMicroReel(xs[k])))
  }

  function EncodeBundle(b: QuestionBundle): Json {
    var fields := map[
      "open_questions" := EncodeOpenQuestions(b.openQuestions),
      "multiple_choice_questions" := EncodeAnswerQuestions(b.multipleChoiceQuestions),
      "fill_in_the_blank" := EncodeAnswerQuestions(b.fillInTheBlank),
      "flashcards" := EncodeFlashcards(b.flashcards),
      "micro_reels" := EncodeMicroReels(b.microReels)];
    JObject(if b.id.Some? then fields["id" := JString(b.id.value)] else fields)
  }

  lemma AnswerRoundTrip(a: Answer, path: Path)
    requires ValidAnswer(a)
    ensures ParseAnswer(EncodeAnswer(a), path) == Success(a)
  {
  }

  lemma AnswerQuestionRoundTrip(q: AnswerQuestion, path: Path)
    requires ValidAnswerQuestion(q)
    ensures ParseAnswerQuestion(EncodeAnswerQuestion(q), path) == Success(q)
  {
    var j := EncodeAnswerQuestion(q);
    var items := Get(j.fields, "answers").value.items;
    forall k | 0 <= k < |items|
      ensures ParseAnswer(items[k], []) == Success(q.answers[k])
    {
      AnswerRoundTrip(q.answers[k], []);
    }
    assert ConformsAnswerQuestion(j);
    var r := ParseAnswerQuestion(j, path);
    assert r.value.answers == q.answers;
  }

  lemma OpenQuestionRoundTrip(q: OpenQuestion)
    requires ValidOpenQuestion(q)
    ensures ParseOpenQuestion(EncodeOpenQuestion(q), []) == Success(q)
  {
  }

  lemma OpenQuestionsRoundTrip(xs: seq<OpenQuestion>)
    requires forall k :: 0 <= k < |xs| ==> ValidOpenQuestion(xs[k])
    ensures ParseOpenQuestions(Some(EncodeOpenQuestions(xs))) == Success(xs)
  {
    var items := EncodeOpenQuestions(xs).items;
    forall k | 0 <= k < |xs| ensures ParseOpenQuestion(items[k], []) == Success(xs[k]) {
      OpenQuestionRoundTrip(xs[k]);
    }
    var r := ParseOpenQuestions(Some(EncodeOpenQuestions(xs)));
    assert r.Success?;
    assert r.value == xs;
  }

  lemma AnswerQuestionsRoundTrip(xs: seq<AnswerQuestion>, key: string)
    requires forall k :: 0 <= k < |xs| ==> ValidAnswerQuestion(xs[k])
    ensures ParseAnswerQuestions(Some(EncodeAnswerQuestions(xs)), key) == Success(xs)
  {
    forall k | 0 <= k < |xs|
      ensures ParseAnswerQuestion(EncodeAnswerQuestion(xs[k]), []) == Success(xs[k])
    {
      AnswerQuestionRoundTrip(xs[k], []);
    }
    var r := ParseAnswerQuestions(Some(EncodeAnswerQuestions(xs)), key);
    assert r.Success?;
    assert r.value == xs;
  }

  lemma FlashcardRoundTrip(f: Flashcard)
    requires ValidFlashcard(f)
    ensures ParseFlashcard(EncodeFlashcard(f), []) == Success(f)
  {
  }

  lemma FlashcardsRoundTrip(xs: seq<Flashcard>)
    requires forall k :: 0 <= k < |xs| ==> ValidFlashcard(xs[k])
    ensures ParseFlashcards(Some(EncodeFlashcards(xs))) == Success(xs)
  {
    var items := EncodeFlashcards(xs).items;
    forall k | 0 <= k < |xs| ensures ParseFlashcard(items[k], []) == Success(xs[k]) {
      FlashcardRoundTrip(xs[k]);
    }
    var r := ParseFlashcards(Some(EncodeFlashcards(xs)));
    assert r.Success?;
    assert r.value == xs;
  }

  lemma MicroReelsRoundTrip(xs: seq<MicroReel>)
    requires forall k :: 0 <= k < |xs| ==> ValidMicroReel(xs[k])
    ensures ParseMicroReels(Some(EncodeMicroReels(xs))) == Success(xs)
  {
    var r := ParseMicroReels(Some(EncodeMicroReels(xs)));
    assert r.Success?;
    assert r.value == xs;
  }

  /** The fields of an encoded bundle hold the encoded arrays, and the id exactly when there is one. */
  lemma EncodeBundleFields(b: QuestionBundle)
    ensures EncodeBundle(b).JObject?
    ensures Get(EncodeBundle(b).fields, "open_questions") == Some(EncodeOpenQuestions(b.openQuestions))
    ensures Get(EncodeBundle(b).fields, "multiple_choice_questions")
            == Some(EncodeAnswerQuestions(b.multipleChoiceQuestions))
    ensures Get(EncodeBundle(b).fields, "fill_in_the_blank") == Some(EncodeAnswerQuestions(b.fillInTheBlank))
    ensures Get(EncodeBundle(b).fields, "flashcards") == Some(EncodeFlashcards(b.flashcards))
    ensures Get(EncodeBundle(b).fields, "micro_reels") == Some(EncodeMicroReels(b.microReels))
    ensures Get(EncodeBundle(b).fields, "id") == if b.id.Some? then Some(JString(b.id.value)) else None
  {
  }

  /** Every well-formed bundle survives encoding and validation unchanged. */
  lemma BundleRoundTrip(b: QuestionBundle)
    requires ValidBundle(b)
    ensures ParseBaseQuestions(EncodeBundle(b)) == Success(b)
  {
    EncodeBundleFields(b);
    OpenQuestionsRoundTrip(b.openQuestions);
    AnswerQuestionsRoundTrip(b.multipleChoiceQuestions, "multiple_choice_questions");
    AnswerQuestionsRoundTrip(b.fillInTheBlank, "fill_in_the_blank");
    FlashcardsRoundTrip(b.flashcards);
    MicroReelsRoundTrip(b.microReels);
    var m := EncodeBundle(b).fields;
    assert ParseSetId(Get(m, "id"), [Key("id")]) == Success(b.id);
  }

  /** An empty object is missing all five arrays, and each one is reported as required, in key order. */
  lemma EmptyObjectIssues()
    ensures ParseBaseQuestions(JObject(map[])) == Failure([
              Issue([Key("open_questions")], "Required"),
              Issue([Key("multiple_choice_questions")], "Required"),
              Issue([Key("fill_in_the_blank")], "Required"),
              Issue([Key("flashcards")], "Required"),
              Issue([Key("micro_reels")], "Required")])
  {
    var m: map<string, Json> := map[];
    assert ParseSetId(Get(m, "id"), [Key("id")]) == Success(None);
    assert ParseOpenQuestions(Get(m, "open_questions")) == Failure([Issue([Key("open_questions")], "Required")]);
    assert ParseAnswerQuestions(Get(m, "multiple_choice_questions"), "multiple_choice_questions")
        == Failure([Issue([Key("multiple_choice_questions")], "Required")]);
    assert ParseAnswerQuestions(Get(m, "fill_in_the_blank"), "fill_in_the_blank")
        == Failure([Issue([Key("fill_in_the_blank")], "Required")]);
    assert ParseFlashcards(Get(m, "flashcards")) == Failure([Issue([Key("flashcards")], "Required")]);
    assert ParseMicroReels(Get(m, "micro_reels")) == Failure([Issue([Key("micro_reels")], "Required")]);
    assert ParseBaseQuestions(JObject(m)) == Assemble(ParseSetId(Get(m, "id"), [Key("id")]),
               ParseOpenQuestions(Get(m, "open_questions")),
               ParseAnswerQuestions(Get(m, "multiple_choice_questions"), "multiple_choice_questions"),
               ParseAnswerQuestions(Get(m, "fill_in_the_blank"), "fill_in_the_blank"),
               ParseFlashcards(Get(m, "flashcards")),
               ParseMicroReels(Get(m, "micro_reels")));
    var i1, i2, i3 := Issue([Key("open_questions")], "Required"), Issue([Key("multiple_choice_questions")], "Required"),
                      Issue([Key("fill_in_the_blank")], "Required");
    var i4, i5 := Issue([Key("flashcards")], "Required"), Issue([Key("micro_reels")], "Required");
    assert [] + [i1] + [i2] + [i3] + [i4] + [i5] == [i1, i2, i3, i4, i5];
  }

  /** An open question with empty text and an empty answer yields one issue for each, under its own path. */
  lemma BrokenOpenQuestionIssues()
    ensures ParseOpenQuestions(Some(JArray([JObject(map["id" := JString("q"), "question" := JString(""),
                                                        "answer" := JString("")])])))
            == Failure([Issue([Key("open_questions"), Index(0), Key("question")], "Question text is required"),
                        Issue([Key("open_questions"), Index(0), Key("answer")], "Answer is required")])
  {
    var question := JObject(map["id" := JString("q"), "question" := JString(""), "answer" := JString("")]);
    var items := [question];
    var i2 := Issue([Key("open_questions"), Index(0), Key("question")], "Question text is required");
    var i3 := Issue([Key("open_questions"), Index(0), Key("answer")], "Answer is required");
    var path := [Key("open_questions")] + [Index(0)];
    assert path + [Key("question")] == [Key("open_questions"), Index(0), Key("question")];
    assert path + [Key("answer")] == [Key("open_questions"), Index(0), Key("answer")];
    assert [] + [i2] + [i3] == [i2, i3];
    assert ParseOpenQuestion(items[0], path) == Failure([i2, i3]);
    assert ParseItems(items, [Key("open_questions")], 1, ParseOpenQuestion) == Success([]);
    assert ParseItems(items, [Key("open_questions")], 0, ParseOpenQuestion) == Failure([i2, i3] + []);
    assert [] + ([i2, i3] + []) == [i2, i3];
  }

  /** A bundle broken in its first and its last field: an empty set id, and micro reels that are a number. */
  const BrokenBundle: map<string, Json> := map[
    "id" := JString(""),
    "open_questions" := JArray([]),
    "multiple_choice_questions" := JArray([]),
    "fill_in_the_blank" := JArray([]),
    "flashcards" := JArray([]),
    "micro_reels" := JNumber(3)]

  /** What each field of the broken bundle contributes on its own. */
  lemma BrokenBundleFields()
    ensures ParseSetId(Get(BrokenBundle, "id"), [Key("id")])
            == Failure([Issue([Key("id")], "Questions set ID is required")])
    ensures ParseOpenQuestions(Get(BrokenBundle, "open_questions")) == Success([])
    ensures ParseAnswerQuestions(Get(BrokenBundle, "multiple_choice_questions"), "multiple_choice_questions")
            == Success([])
    ensures ParseAnswerQuestions(Get(BrokenBundle, "fill_in_the_blank"), "fill_in_the_blank") == Success([])
    ensures ParseFlashcards(Get(BrokenBundle, "flashcards")) == Success([])
    ensures ParseMicroReels(Get(BrokenBundle, "micro_reels"))
            == Failure([Issue([Key("micro_reels")], TypeMessage("array", Some(JNumber(3))))])
  {
  }

  /**
    * Every issue is collected: a bundle broken in two fields reports both, in key order, not only the
    * first.
    */
  lemma AllIssuesCollected()
    ensures IssuesOf(ParseBaseQuestions(JObject(BrokenBundle)))
            == [Issue([Key("id")], "Questions set ID is required"),
                Issue([Key("micro_reels")], TypeMessage("array", Some(JNumber(3))))]
  {
    BrokenBundleFields();
    var i1 := Issue([Key("id")], "Questions set ID is required");
    var i4 := Issue([Key("micro_reels")], TypeMessage("array", Some(JNumber(3))));
    assert [i1] + [] + [] + [] + [] + [i4] == [i1, i4];
  }

  // ---------------------------------------------------------------------------
  // The id transform

  /** A hexadecimal digit value: what `Math.random() * 16 | 0` yields. */
  newtype Nibble = x: int | 0 <= x < 16

  const UuidTemplate: string := "xxxxxxxx-xxxx-4xxx-yxxx-xxxxxxxxxxxx"

  /** `v.toString(16)` for a single digit. */
  function HexDigit(v: Nibble): (c: char)
    ensures IsLowerHex(c)
  {
    "0123456789abcdef"[v]
  }

  predicate IsLowerHex(c: char) {
    ('0' <= c <= '9') || ('a' <= c <= 'f')
  }

  /** What the replacement may put in place of template character `t`. */
  predicate Replaces(t: char, c: char) {
    if t == 'x' then IsLowerHex(c)
    else if t == 'y' then c == '8' || c == '9' || c == 'a' || c == 'b'
    else c == t
  }

  /**
    * `t.replace(/[xy]/g, ...)` where the k-th replaced character uses the k-th random draw `rnd(k)`:
    * an 'x' becomes that digit, a 'y' becomes `(r & 0x3 | 0x8)`, anything else is kept.
    */
  function FillTemplate(t: string, rnd: nat -> Nibble, k: nat): (r: string)
    ensures |r| == |t|
    ensures forall i :: 0 <= i < |t| ==> Replaces(t[i], r[i])
  {
    if t == [] then []
    else
      var c := if t[0] == 'x' then HexDigit(rnd(k))
               else if t[0] == 'y' then HexDigit((rnd(k) % 4 + 8) as Nibble)
               else t[0];
      var rest := FillTemplate(t[1..], rnd, if t[0] == 'x' || t[0] == 'y' then k + 1 else k);
      assert forall i :: 1 <= i < |t| ==> t[i] == t[1..][i - 1] && ([c] + rest)[i] == rest[i - 1];
      [c] + rest
  }

  /** The shape of a version-4 UUID in lower-case hexadecimal: 8-4-4-4-12 digits, '4' and a variant digit fixed. */
  predicate IsUuidV4Shape(s: string) {
    |s| == 36
    && forall i :: 0 <= i < 36 ==>
         if i == 8 || i == 13 || i == 18 || i == 23 then s[i] == '-'
         else if i == 14 then s[i] == '4'
         else if i == 19 then s[i] == '8' || s[i] == '9' || s[i] == 'a' || s[i] == 'b'
         else IsLowerHex(s[i])
  }

  /** The template character at each position: dashes between the groups, the version digit, the variant slot. */
  function TemplateChar(i: int): char {
    if i == 8 || i == 13 || i == 18 || i == 23 then '-'
    else if i == 14 then '4'
    else if i == 19 then 'y'
    else 'x'
  }

  lemma UuidTemplateChars()
    ensures |UuidTemplate| == 36
    ensures forall i :: 0 <= i < 36 ==> UuidTemplate[i] == TemplateChar(i)
  {
  }

  /** Whatever follows the template character by character has the UUID shape. */
  lemma ShapeFromTemplate(r: string)
    requires |r| == 36 && forall i :: 0 <= i < 36 ==> Replaces(TemplateChar(i), r[i])
    ensures IsUuidV4Shape(r)
  {
  }

  lemma FilledFollowsTemplate(rnd: nat -> Nibble)
    ensures var r := FillTemplate(UuidTemplate, rnd, 0);
            |r| == 36 && forall i :: 0 <= i < 36 ==> Replaces(TemplateChar(i), r[i])
  {
    UuidTemplateChars();
  }

  /** The id generated when a bundle has none. */
  function GenerateSetId(rnd: nat -> Nibble): (r: string)
    ensures IsUuidV4Shape(r)
  {
    var r := FillTemplate(UuidTemplate, rnd, 0);
    FilledFollowsTemplate(rnd);
    ShapeFromTemplate(r);
    r
  }

  /**
    * The transform: a missing id (`!data.id`, which an empty id also meets) is replaced by a generated
    * one; nothing else changes.
    */
  function FillSetId(b: QuestionBundle, rnd: nat -> Nibble): (r: QuestionBundle)
    ensures r.id.Some? && r.id.value != ""
    ensures b.id.Some? && b.id.value != "" ==> r == b
    ensures b.id.None? || b.id == Some("") ==> r == b.(id := Some(GenerateSetId(rnd)))
  {
    if b.id.None? || b.id == Some("") then b.(id := Some(GenerateSetId(rnd))) else b
  }

  /** `QuestionsSchema.parse`: the base schema followed by the id transform. */
  function ParseQuestions(j: Json, rnd: nat -> Nibble): (r: Parsed<QuestionBundle>)
    ensures r.Success? <==> ConformsBundle(j)
    ensures r.Success? ==> r.value.id.Some? && ValidBundle(r.value)
    ensures r.Success? ==> r.value == FillSetId(ParseBaseQuestions(j).value, rnd)
    ensures r.Failure? ==> r == ParseBaseQuestions(j)
  {
    match ParseBaseQuestions(j)
    case Success(b) => Success(FillSetId(b, rnd))
    case Failure(e) => Failure(e)
  }

  /** A bundle that already carries an id passes the full schema unchanged, whatever the random source. */
  lemma QuestionsRoundTrip(b: QuestionBundle, rnd: nat -> Nibble)
    requires ValidBundle(b) && b.id.Some?
    ensures ParseQuestions(EncodeBundle(b), rnd) == Success(b)
  {
    BundleRoundTrip(b);
  }

  /** Without an id, the full schema returns the same content under a freshly generated UUID-shaped id. */
  lemma QuestionsGenerateId(b: QuestionBundle, rnd: nat -> Nibble)
    requires ValidBundle(b) && b.id.None?
    ensures ParseQuestions(EncodeBundle(b), rnd).Success?
    ensures var r := ParseQuestions(EncodeBundle(b), rnd).value;
            r.id.Some? && IsUuidV4Shape(r.id.value) && r == b.(id := r.id)
  {
    BundleRoundTrip(b);
  }
}
