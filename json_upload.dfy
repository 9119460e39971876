// The JSON upload panel (src/pages/Upload/components/JsonUpload.tsx): the
// same two input modes and lock as the upload page, validating pasted text
// against the learning-content schema and handing validated data to its
// parent. That schema is not part of this model: it is passed in, as is
// `JSON.parse`, and the panel is generic in the data it produces.
module JsonUpload {
  import opened Wrappers
  import opened Text
  import opened JsonValue
  import opened ValidationErrors
  import FileUploader

  datatype InputMode = FileMode | TextMode

  /** The arguments the file uploader calls `onFileUpload` with: the file, then its validated content. */
  datatype UploadCall<D> = UploadCall(file: FileUploader.File, content: D)

  /** The JavaScript value that `handleFileUpload`'s one parameter receives. */
  datatype HandlerArgument<D> = FileObject(file: FileUploader.File) | ContentValue(content: D)

  /** As written, the handler is passed as `onFileUpload` itself, so its parameter takes the first argument. */
  function BindAsWritten<D>(call: UploadCall<D>): HandlerArgument<D> {
    FileObject(call.file)
  }

  /** Passed as `(file, content) => handleFileUpload(content)`, the parameter takes the content. */
  function Bind<D>(call: UploadCall<D>): HandlerArgument<D> {
    ContentValue(call.content)
  }

  /**
    * As written, what the panel keeps and hands to `onJsonReady` is never the validated content: it is
    * the `File` the content was read from. Bound to the content, it is the content.
    */
  lemma HandlerGetsFileAsWritten<D>(call: UploadCall<D>)
    ensures BindAsWritten(call) == FileObject(call.file) && BindAsWritten(call) != ContentValue(call.content)
    ensures Bind(call) == ContentValue(call.content)
  {
  }

  class Panel<D> {
    var inputMode: InputMode
    var jsonText: string
    var validatedData: Option<D>
    var validationResult: ValidationResult<D>

    /**
      * A valid verdict always carries the kept data and no message, and only pasted text is ever
      * validated here: in file mode the verdict is never valid.
      */
    ghost predicate Valid()
      reads this
    {
      (validationResult.isValid ==>
         validationResult.errors == [] && validationResult.data.Some? && validatedData == validationResult.data)
      && (inputMode == FileMode ==> !validationResult.isValid)
    }

    constructor ()
      ensures Valid()
      ensures inputMode == FileMode && jsonText == "" && validatedData.None? && validationResult == Cleared()
    {
      inputMode := FileMode;
      jsonText := "";
      validatedData := None;
      validationResult := Cleared();
    }

    /** `canSwitchMode`: nothing validated and nothing kept. */
    predicate CanSwitchMode()
      reads this
      ensures Valid() ==> (CanSwitchMode() <==> validatedData.None?)
    {
      validatedData.None? && !validationResult.isValid
    }

    /** `hasInputData`. */
    predicate HasInputData()
      reads this
    {
      (inputMode == FileMode && validatedData.Some?) || (inputMode == TextMode && Trim(jsonText) != "")
    }

    /**
      * `handleFileUpload`, called by the file uploader, which is shown only in file mode, with the
      * content bound as `Bind` does: keeps the uploaded data, which locks the mode, and passes it on
      * (`ready`, for `onJsonReady`).
      */
    method HandleFileUpload(content: D) returns (ready: D)
      requires Valid() && inputMode == FileMode
      modifies this
      ensures Valid() && !CanSwitchMode()
      ensures validatedData == Some(content) && ready == content
      ensures validationResult == old(validationResult) && inputMode == old(inputMode) && jsonText == old(jsonText)
    {
      validatedData := Some(content);
      ready := content;
    }

    /**
      * `handleModeSwitch`: refused while locked; otherwise changes the mode and clears the text, the
      * verdict and the data. `clearsUploader` tells whether the file uploader is told to drop its file.
      */
    method SwitchMode(mode: InputMode) returns (clearsUploader: bool)
      requires Valid()
      modifies this
      ensures Valid()
      ensures !old(CanSwitchMode()) ==>
                inputMode == old(inputMode) && jsonText == old(jsonText) && validatedData == old(validatedData)
                && validationResult == old(validationResult) && !clearsUploader
      ensures old(CanSwitchMode()) ==>
                inputMode == mode && jsonText == "" && validationResult == Cleared() && validatedData.None?
                && (clearsUploader <==> mode == TextMode && old(inputMode) == FileMode)
    {
      if validatedData.Some? || validationResult.isValid {
        return false;
      }
      clearsUploader := mode == TextMode && inputMode == FileMode;
      inputMode := mode;
      jsonText := "";
      validationResult := Cleared();
      validatedData := None;
    }

    /** `clearCurrentInput`: always ends unlocked, with no verdict and no data. */
    method ClearCurrentInput() returns (clearsUploader: bool)
      requires Valid()
      modifies this
      ensures Valid() && CanSwitchMode()
      ensures validationResult == Cleared() && validatedData.None?
      ensures clearsUploader <==> old(inputMode) == FileMode
      ensures old(inputMode) == TextMode ==> jsonText == ""
      ensures old(inputMode) == FileMode ==> jsonText == old(jsonText)
      ensures inputMode == old(inputMode)
    {
      clearsUploader := inputMode == FileMode;
      if inputMode == TextMode {
        jsonText := "";
      }
      validationResult := Cleared();
      validatedData := None;
    }

    /** `handleJsonTextChange`: new text drops any earlier verdict together with the data. */
    method ChangeJsonText(value: string)
      requires Valid()
      modifies this
      ensures Valid() && jsonText == value && inputMode == old(inputMode)
      ensures !validationResult.isValid && validationResult.errors == []
      ensures old(validationResult.isValid || |validationResult.errors| > 0) ==>
                validationResult == Cleared() && validatedData.None?
      ensures !old(validationResult.isValid || |validationResult.errors| > 0) ==>
                validationResult == old(validationResult) && validatedData == old(validatedData)
    {
      jsonText := value;
      if validationResult.isValid || |validationResult.errors| > 0 {
        validationResult := Cleared();
        validatedData := None;
      }
    }

    /**
      * `handleValidateText`, whose button is shown only in text mode: when the trimmed text is not
      * empty, `validateJsonText` runs on it; the data is passed on (`ready`) exactly when it validated.
      */
    method ValidateText(parse: string -> Result<Json, string>, schema: Json -> Result<D, Thrown>)
      returns (ready: Option<D>)
      requires Valid() && inputMode == TextMode
      modifies this
      ensures Valid()
      ensures Trim(old(jsonText)) == "" ==>
                ready.None? && validationResult == old(validationResult) && validatedData == old(validatedData)
      ensures Trim(old(jsonText)) != "" ==>
                validationResult == ValidationErrors.ValidateText(parse, schema, Trim(jsonText))
                && validatedData == validationResult.data && ready == validatedData
      ensures jsonText == old(jsonText) && inputMode == old(inputMode)
    {
      var text := Trim(jsonText);
      if text == "" {
        return None;
      }
      var r := ValidationErrors.ValidateText(parse, schema, text);
      SetResult(r);
      ready := r.data;
    }

    /** Shows a text validation's verdict and keeps its data. */
    method SetResult(r: ValidationResult<D>)
      requires Valid() && (inputMode == FileMode ==> !r.isValid)
      requires r.isValid <==> r.data.Some?
      requires r.isValid ==> r.errors == []
      modifies this
      ensures Valid() && validationResult == r && validatedData == r.data
      ensures jsonText == old(jsonText) && inputMode == old(inputMode)
    {
      validationResult := r;
      validatedData := r.data;
    }
  }
}
