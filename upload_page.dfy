// The upload page (src/pages/Upload/Upload.tsx): the question-set form, the
// two input modes and their lock, text validation, the counts shown for the
// validated data, and the row stored on upload.
module UploadPage {
  import opened Wrappers
  import opened Text
  import opened JsonValue
  import opened Content
  import opened QuestionSchemas
  import opened ValidationErrors
  import FileUploader
  import Quiz

  datatype InputMode = FileMode | TextMode

  /** A visible toast; its timed dismissal is `HideToast`. */
  datatype Toast = Toast(message: string, isError: bool)

  /** The row inserted into the question-set table. */
  datatype QuestionSetRow = QuestionSetRow(
    bucketId: Option<string>,
    name: string,
    data: QuestionBundle,
    info: QuestionInfo,
    question: string,
    answer: string)

  /** The shortest name, question and answer the form accepts. */
  const MinLength: nat := 5

  /** The message under a field: shown exactly while the raw value has between one and four characters. */
  function FieldError(value: string, field: string): (e: string)
    ensures e != "" <==> 0 < Utf16Length(value) < MinLength
    ensures e != "" ==> e == field + " must be at least 5 characters long"
  {
    if 0 < Utf16Length(value) < MinLength then field + " must be at least 5 characters long" else ""
  }

  /** `extractQuestionInfo`: the number of items of each type, 0 for a missing array. */
  function ExtractQuestionInfo(d: StoredData): QuestionInfo {
    QuestionInfo(LengthOr0(d.openQuestions), LengthOr0(d.multipleChoiceQuestions), LengthOr0(d.fillInTheBlank),
                 LengthOr0(d.flashcards), LengthOr0(d.microReels))
  }

  /** `getQuestionCounts`: the same five numbers and their sum. */
  function GetQuestionCounts(d: StoredData): (c: QuestionCounts)
    ensures c.total == c.openQuestions + c.multipleChoice + c.fillInTheBlank + c.flashcards + c.microReels
  {
    var o, m, b, f, r := LengthOr0(d.openQuestions), LengthOr0(d.multipleChoiceQuestions),
                         LengthOr0(d.fillInTheBlank), LengthOr0(d.flashcards), LengthOr0(d.microReels);
    QuestionCounts(o, m, b, f, r, o + m + b + f + r)
  }

  /**
    * The info stored with a set agrees with the page's counts, and a quiz reading that info shows the
    * same numbers as one counting the data itself.
    */
  lemma StoredInfoAgreesWithCounts(d: StoredData)
    ensures var i, c := ExtractQuestionInfo(d), GetQuestionCounts(d);
            i.openQuestions == c.openQuestions && i.multipleChoiceQuestions == c.multipleChoice
            && i.fillInTheBlank == c.fillInTheBlank && i.flashcards == c.flashcards && i.microReels == c.microReels
    ensures Quiz.QuestionCountsOf(Some(ExtractQuestionInfo(d)), d) == GetQuestionCounts(d)
    ensures Quiz.QuestionCountsOf(None, d) == GetQuestionCounts(d)
  {
  }

  /** For validated data every array is present, so the total is the number of items. */
  lemma CountsOfBundle(b: QuestionBundle)
    ensures GetQuestionCounts(AsStored(b)).total ==
              |b.openQuestions| + |b.multipleChoiceQuestions| + |b.fillInTheBlank| + |b.flashcards| + |b.microReels|
  {
  }

  /** `isFormValid`. */
  predicate FormValid(data: Option<QuestionBundle>, result: ValidationResult<QuestionBundle>,
                      name: string, nameError: string, question: string, questionError: string,
                      answer: string, answerError: string)
  {
    data.Some? && result.isValid
    && Utf16Length(Trim(name)) >= MinLength && nameError == ""
    && Utf16Length(Trim(question)) >= MinLength && questionError == ""
    && Utf16Length(Trim(answer)) >= MinLength && answerError == ""
  }

  /** The toast after a stored upload; it quotes the name as typed. */
  function SuccessToast(name: string): Toast {
    Toast("Questions uploaded successfully! \"" + name + "\"", false)
  }

  /** The toast after a refused upload: the backend's message, or a generic one when it gives none. */
  function FailureToast(message: string): Toast {
    Toast("Failed to upload questions: " + (if message != "" then message else "Unknown error"), true)
  }

  /**
    * While the field messages are in step with the fields, they never decide the form's validity: the
    * trimmed-length checks already exclude every value that shows a message.
    */
  lemma FormValidByTrimmedLengths(data: Option<QuestionBundle>, result: ValidationResult<QuestionBundle>,
                                  name: string, question: string, answer: string)
    ensures FormValid(data, result, name, FieldError(name, "Name"), question, FieldError(question, "Question"),
                      answer, FieldError(answer, "Answer"))
            <==> data.Some? && result.isValid && Utf16Length(Trim(name)) >= MinLength && Utf16Length(Trim(question)) >= MinLength
                 && Utf16Length(Trim(answer)) >= MinLength
  {
    Utf16LengthTrim(name);
    Utf16LengthTrim(question);
    Utf16LengthTrim(answer);
  }

  /**
    * A value padded with spaces to five characters shows no message, yet the form stays invalid: the
    * lengths the form demands are trimmed, the ones the messages look at are not.
    */
  lemma PaddedValueFailsSilently(data: Option<QuestionBundle>, result: ValidationResult<QuestionBundle>,
                                 name: string, question: string, answer: string)
    requires Utf16Length(name) >= MinLength && Utf16Length(Trim(name)) < MinLength
    ensures FieldError(name, "Name") == ""
    ensures !FormValid(data, result, name, FieldError(name, "Name"), question, FieldError(question, "Question"),
                       answer, FieldError(answer, "Answer"))
  {
  }

  class Page {
    var inputMode: InputMode
    var validatedData: Option<QuestionBundle>
    var validationResult: ValidationResult<QuestionBundle>
    var questionSetName: string
    var nameError: string
    var question: string
    var questionError: string
    var answer: string
    var answerError: string
    var jsonText: string
    var showBeautified: bool
    var toast: Option<Toast>

    /**
      * Each field message is the one its field calls for, and validated data is kept exactly while the
      * result is valid, as that result's data.
      */
    ghost predicate Valid()
      reads this
    {
      nameError == FieldError(questionSetName, "Name")
      && questionError == FieldError(question, "Question")
      && answerError == FieldError(answer, "Answer")
      && (validatedData.Some? <==> validationResult.isValid)
      && (validationResult.isValid ==> validationResult.errors == [] && validationResult.data == validatedData)
    }

    constructor ()
      ensures Valid()
      ensures inputMode == FileMode && validatedData.None? && validationResult == Cleared()
      ensures questionSetName == "" && question == "" && answer == "" && jsonText == ""
      ensures !showBeautified && toast.None?
    {
      inputMode := FileMode;
      validatedData := None;
      validationResult := Cleared();
      questionSetName, nameError := "", "";
      question, questionError := "", "";
      answer, answerError := "", "";
      jsonText := "";
      showBeautified := false;
      toast := None;
    }

    /** `canSwitchMode`; under the invariant it only asks whether the result is valid. */
    predicate CanSwitchMode()
      reads this
      ensures Valid() ==> (CanSwitchMode() <==> !validationResult.isValid)
    {
      validatedData.None? && !validationResult.isValid
    }

    /** `hasInputData`: whether the clear button shows. */
    predicate HasInputData()
      reads this
    {
      (inputMode == FileMode && validatedData.Some?) || (inputMode == TextMode && Trim(jsonText) != "")
    }

    predicate IsFormValid()
      reads this
    {
      FormValid(validatedData, validationResult, questionSetName, nameError, question, questionError,
                answer, answerError)
    }

    /** `handleNameChange`. */
    method ChangeName(value: string)
      requires Valid()
      modifies this
      ensures Valid() && questionSetName == value && nameError == FieldError(value, "Name")
      ensures question == old(question) && answer == old(answer) && jsonText == old(jsonText)
      ensures validatedData == old(validatedData) && validationResult == old(validationResult)
      ensures inputMode == old(inputMode) && toast == old(toast) && showBeautified == old(showBeautified)
    {
      questionSetName := value;
      nameError := FieldError(value, "Name");
    }

    /** `handleQuestionChange`. */
    method ChangeQuestion(value: string)
      requires Valid()
      modifies this
      ensures Valid() && question == value && questionError == FieldError(value, "Question")
      ensures questionSetName == old(questionSetName) && answer == old(answer) && jsonText == old(jsonText)
      ensures validatedData == old(validatedData) && validationResult == old(validationResult)
      ensures inputMode == old(inputMode) && toast == old(toast) && showBeautified == old(showBeautified)
    {
      question := value;
      questionError := FieldError(value, "Question");
    }

    /** `handleAnswerChange`. */
    method ChangeAnswer(value: string)
      requires Valid()
      modifies this
      ensures Valid() && answer == value && answerError == FieldError(value, "Answer")
      ensures questionSetName == old(questionSetName) && question == old(question) && jsonText == old(jsonText)
      ensures validatedData == old(validatedData) && validationResult == old(validationResult)
      ensures inputMode == old(inputMode) && toast == old(toast) && showBeautified == old(showBeautified)
    {
      answer := value;
      answerError := FieldError(value, "Answer");
    }

    /**
      * `handleModeSwitch`: refused once anything validated; otherwise the mode changes and the text, the
      * result and the data are cleared. `clearsUploader` says whether the file uploader is told to drop
      * its file (the switch to text while it is shown).
      */
    method SwitchMode(mode: InputMode) returns (clearsUploader: bool)
      requires Valid()
      modifies this
      ensures Valid()
      ensures !old(CanSwitchMode()) ==>
                inputMode == old(inputMode) && jsonText == old(jsonText) && validatedData == old(validatedData)
                && validationResult == old(validationResult) && showBeautified == old(showBeautified)
                && !clearsUploader
      ensures old(CanSwitchMode()) ==>
                inputMode == mode && jsonText == "" && validationResult == Cleared() && validatedData.None?
                && !showBeautified && (clearsUploader <==> mode == TextMode && old(inputMode) == FileMode)
      ensures questionSetName == old(questionSetName) && question == old(question) && answer == old(answer)
      ensures toast == old(toast)
    {
      if validatedData.Some? || validationResult.isValid {
        return false;
      }
      clearsUploader := mode == TextMode && inputMode == FileMode;
      inputMode := mode;
      jsonText := "";
      validationResult := Cleared();
      validatedData := None;
      showBeautified := false;
    }

    /** `clearCurrentInput`: drops the file or the text, then the result and the data. */
    method ClearCurrentInput() returns (clearsUploader: bool)
      requires Valid()
      modifies this
      ensures Valid()
      ensures validationResult == Cleared() && validatedData.None? && CanSwitchMode()
      ensures clearsUploader <==> old(inputMode) == FileMode
      ensures old(inputMode) == TextMode ==> jsonText == "" && !showBeautified
      ensures old(inputMode) == FileMode ==> jsonText == old(jsonText) && showBeautified == old(showBeautified)
      ensures inputMode == old(inputMode) && questionSetName == old(questionSetName)
      ensures question == old(question) && answer == old(answer) && toast == old(toast)
    {
      clearsUploader := inputMode == FileMode;
      if inputMode == TextMode {
        jsonText := "";
        showBeautified := false;
      }
      validationResult := Cleared();
      validatedData := None;
    }

    /**
      * The file uploader's callbacks for one selection, in the order it makes them:
      * `handleValidationChange`, `handleFileUpload`, then `handleUploadError`.
      */
    method ReceiveSelection(o: FileUploader.Outcome)
      requires Valid()
      requires o.notified == Some(o.result)
      requires o.result.isValid ==> o.result.errors == [] && o.result.data.Some? && o.delivered == o.result.data
      requires !o.result.isValid ==> o.delivered.None?
      modifies this
      ensures Valid()
      ensures validationResult == o.result && validatedData == o.delivered
      ensures o.error.Some? ==> toast == Some(Toast(o.error.value, true))
      ensures o.error.None? ==> toast == old(toast)
      ensures inputMode == old(inputMode) && jsonText == old(jsonText) && questionSetName == old(questionSetName)
      ensures question == old(question) && answer == old(answer)
    {
      validationResult := o.notified.value;
      if !o.notified.value.isValid {
        validatedData := None;
      }
      if o.delivered.Some? {
        validatedData := o.delivered;
      }
      if o.error.Some? {
        toast := Some(Toast(o.error.value, true));
      }
    }

    /** `handleJsonTextChange`: new text invalidates any earlier verdict. */
    method ChangeJsonText(value: string)
      requires Valid()
      modifies this
      ensures Valid() && jsonText == value
      ensures !validationResult.isValid && validationResult.errors == [] && validatedData.None?
      ensures old(validationResult.isValid || |validationResult.errors| > 0) ==> validationResult == Cleared()
      ensures !old(validationResult.isValid || |validationResult.errors| > 0) ==>
                validationResult == old(validationResult)
      ensures inputMode == old(inputMode) && questionSetName == old(questionSetName)
      ensures question == old(question) && answer == old(answer) && toast == old(toast)
      ensures showBeautified == old(showBeautified)
    {
      jsonText := value;
      if validationResult.isValid || |validationResult.errors| > 0 {
        validationResult := Cleared();
        validatedData := None;
      }
    }

    /**
      * `handleValidateText`: the trimmed text, when there is any, is parsed (`parse`) and checked against
      * the question schema (whose generated ids come from `rnd`).
      */
    method ValidateText(parse: string -> Result<Json, string>, rnd: nat -> Nibble)
      requires Valid()
      modifies this
      ensures Valid()
      ensures Trim(old(jsonText)) == "" ==>
                validationResult == old(validationResult) && validatedData == old(validatedData)
      ensures Trim(old(jsonText)) != "" ==>
                validationResult == ValidationErrors.ValidateText(parse, j => QuestionsSchemaParse(rnd, j), Trim(jsonText))
                && validatedData == validationResult.data
      ensures jsonText == old(jsonText) && inputMode == old(inputMode) && questionSetName == old(questionSetName)
      ensures question == old(question) && answer == old(answer) && toast == old(toast)
    {
      var text := Trim(jsonText);
      if text != "" {
        var r := ValidationErrors.ValidateText(parse, j => QuestionsSchemaParse(rnd, j), text);
        SetResult(r);
      }
    }

    /** Shows a text validation's verdict and keeps its data. */
    method SetResult(r: ValidationResult<QuestionBundle>)
      requires Valid()
      requires r.isValid <==> r.data.Some?
      requires r.isValid ==> r.errors == []
      modifies this
      ensures Valid() && validationResult == r && validatedData == r.data
      ensures jsonText == old(jsonText) && inputMode == old(inputMode) && questionSetName == old(questionSetName)
      ensures question == old(question) && answer == old(answer) && toast == old(toast)
    {
      validationResult := r;
      validatedData := r.data;
    }

    /**
      * `handleUploadToServer` with the signed-in check (`signedIn`), the route's bucket id and the
      * backend's answer (`insertError`, `None` on success) passed in. A complete form yields the row
      * whose insert is attempted, trimmed; success resets the form and tells the file uploader to drop
      * its file (`clearsUploader`), failure keeps both.
      */
    method UploadToServer(signedIn: bool, bucketId: Option<string>, insertError: Option<string>)
      returns (row: Option<QuestionSetRow>, clearsUploader: bool)
      requires Valid()
      modifies this
      ensures Valid()
      ensures row.Some? <==> old(IsFormValid()) && signedIn
      ensures row.None? ==>
                validatedData == old(validatedData) && validationResult == old(validationResult)
                && questionSetName == old(questionSetName) && question == old(question) && answer == old(answer)
                && jsonText == old(jsonText) && toast == old(toast)
      ensures row.Some? ==>
                row.value == QuestionSetRow(bucketId, Trim(old(questionSetName)), old(validatedData).value,
                                            ExtractQuestionInfo(AsStored(old(validatedData).value)),
                                            Trim(old(question)), Trim(old(answer)))
                && Utf16Length(row.value.name) >= MinLength && Utf16Length(row.value.question) >= MinLength
                && Utf16Length(row.value.answer) >= MinLength
      ensures row.Some? && insertError.None? ==>
                toast == Some(SuccessToast(old(questionSetName)))
                && validatedData.None? && validationResult == Cleared()
                && questionSetName == "" && question == "" && answer == "" && jsonText == "" && !showBeautified
      ensures row.Some? && insertError.Some? ==>
                toast == Some(FailureToast(insertError.value))
                && validatedData == old(validatedData) && validationResult == old(validationResult)
                && questionSetName == old(questionSetName) && question == old(question) && answer == old(answer)
      ensures clearsUploader <==> row.Some? && insertError.None?
      ensures inputMode == old(inputMode)
    {
      if !IsFormValid() || !signedIn {
        return None, false;
      }
      var data := validatedData.value;
      row := Some(QuestionSetRow(bucketId, Trim(questionSetName), data, ExtractQuestionInfo(AsStored(data)),
                                 Trim(question), Trim(answer)));
      match insertError
      case None =>
        toast := Some(SuccessToast(questionSetName));
        ResetForm();
        clearsUploader := true;
      case Some(message) =>
        toast := Some(FailureToast(message));
        clearsUploader := false;
    }

    /** The reset after a successful upload: every field, message, text and verdict back to empty. */
    method ResetForm()
      requires Valid()
      modifies this
      ensures Valid()
      ensures validatedData.None? && validationResult == Cleared()
      ensures questionSetName == "" && question == "" && answer == "" && jsonText == "" && !showBeautified
      ensures inputMode == old(inputMode) && toast == old(toast)
    {
      ChangeName("");
      ChangeQuestion("");
      ChangeAnswer("");
      validatedData, validationResult := None, Cleared();
      jsonText, showBeautified := "", false;
    }

    /** The toast's timer running out. */
    method HideToast()
      requires Valid()
      modifies this
      ensures Valid() && toast.None?
      ensures validatedData == old(validatedData) && validationResult == old(validationResult)
      ensures questionSetName == old(questionSetName) && question == old(question) && answer == old(answer)
      ensures jsonText == old(jsonText) && inputMode == old(inputMode)
    {
      toast := None;
    }
  }
}
