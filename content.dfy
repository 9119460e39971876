// The entities of a question bundle, as the type declarations describe
// them (src/types/questions.ts), and the per-type counts stored beside it.
module Content {
  import opened Wrappers

  datatype Answer = Answer(text: string, isCorrect: bool)

  datatype OpenQuestion = OpenQuestion(id: string, question: string, answer: string)

  /** A question with answer options; multiple-choice and fill-in-the-blank items have this same shape. */
  datatype AnswerQuestion = AnswerQuestion(id: string, question: string, answers: seq<Answer>)

  type MultipleChoiceQuestion = AnswerQuestion
  type FillInTheBlank = AnswerQuestion

  datatype Flashcard = Flashcard(id: string, front: string, back: string)

  datatype MicroReel = MicroReel(id: string, text: string)

  /** A validated question bundle: an optional set id and the five typed arrays. */
  datatype QuestionBundle = QuestionBundle(
    id: Option<string>,
    openQuestions: seq<OpenQuestion>,
    multipleChoiceQuestions: seq<MultipleChoiceQuestion>,
    fillInTheBlank: seq<FillInTheBlank>,
    flashcards: seq<Flashcard>,
    microReels: seq<MicroReel>)

  /** The `data` of a stored question set as it is read back: every array may be missing. */
  datatype StoredData = StoredData(
    openQuestions: Option<seq<OpenQuestion>>,
    multipleChoiceQuestions: Option<seq<MultipleChoiceQuestion>>,
    fillInTheBlank: Option<seq<FillInTheBlank>>,
    flashcards: Option<seq<Flashcard>>,
    microReels: Option<seq<MicroReel>>)

  /** A validated bundle seen as stored data: every array present. */
  function AsStored(b: QuestionBundle): StoredData
  {
    StoredData(Some(b.openQuestions), Some(b.multipleChoiceQuestions), Some(b.fillInTheBlank),
               Some(b.flashcards), Some(b.microReels))
  }

  /** The per-type counts stored with a question set (its `info` column). */
  datatype QuestionInfo = QuestionInfo(
    openQuestions: nat,
    multipleChoiceQuestions: nat,
    fillInTheBlank: nat,
    flashcards: nat,
    microReels: nat)

  /** The six numbers a question set's overview shows. */
  datatype QuestionCounts = QuestionCounts(
    openQuestions: nat,
    multipleChoice: nat,
    fillInTheBlank: nat,
    flashcards: nat,
    microReels: nat,
    total: nat)

  /** `array?.length || 0`. */
  function LengthOr0<T>(a: Option<seq<T>>): nat {
    match a
    case Some(s) => |s|
    case None => 0
  }
}
