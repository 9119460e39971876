// The file uploader (src/components/ui/FileUploader/FileUploader.tsx): the
// extension and size gate, schema validation of the parsed file, and what
// the component keeps and tells its parent after a selection.
module FileUploader {
  import opened Wrappers
  import opened Text
  import opened JsonValue
  import opened Content
  import opened QuestionSchemas
  import opened ValidationErrors

  /** A dropped or chosen file: its name, its size in bytes and its text. */
  datatype File = File(name: string, size: nat, text: string)

  const DefaultAcceptedFileTypes: seq<string> := [".json"]
  /** In megabytes. */
  const DefaultMaxFileSize: nat := 5
  const BytesPerMegabyte: nat := 1024 * 1024
  const InvalidJsonMessage: string := "Invalid JSON file. Please check the file format."

  /** `name.split('.').pop()`: the longest suffix without a dot. */
  function LastPart(name: string): (r: string)
    ensures |r| <= |name| && r == name[|name| - |r|..]
    ensures forall i :: 0 <= i < |r| ==> r[i] != '.'
    ensures |r| < |name| ==> name[|name| - |r| - 1] == '.'
  {
    if name == [] || name[|name| - 1] == '.' then []
    else
      var init := LastPart(name[..|name| - 1]);
      assert name[..|name| - 1][|name| - 1 - |init|..] == name[|name| - 1 - |init|..|name| - 1];
      init + [name[|name| - 1]]
  }

  /** The extension the type check compares: a dot and the lower-cased last part. */
  function Extension(name: string): string {
    "." + ToLower(LastPart(name))
  }

  /** With a dot at `k` and none after it, the extension is what follows that dot. */
  lemma ExtensionAfterLastDot(name: string, k: nat)
    requires k < |name| && name[k] == '.'
    requires forall i :: k < i < |name| ==> name[i] != '.'
    ensures Extension(name) == "." + ToLower(name[k + 1..])
  {
    var r := LastPart(name);
    assert r == name[k + 1..];
  }

  /** A name without any dot is its own extension: a file named `json` passes as `.json`. */
  lemma ExtensionWithoutDot(name: string)
    requires forall i :: 0 <= i < |name| ==> name[i] != '.'
    ensures Extension(name) == "." + ToLower(name)
  {
    var r := LastPart(name);
    assert r == name[0..];
  }

  /** `validateFile`: the type check first, then the size limit; `None` when the file may be read. */
  function ValidateFile(f: File, acceptedFileTypes: seq<string>, maxFileSize: nat): (r: Option<string>)
    ensures r.None? <==> Extension(f.name) in acceptedFileTypes && f.size <= maxFileSize * BytesPerMegabyte
    ensures Extension(f.name) !in acceptedFileTypes ==>
              r == Some("Only " + Join(acceptedFileTypes, ", ") + " files are allowed")
    ensures Extension(f.name) in acceptedFileTypes && f.size > maxFileSize * BytesPerMegabyte ==>
              r == Some("File size must be less than " + NatToString(maxFileSize) + "MB")
  {
    if Extension(f.name) !in acceptedFileTypes then Some("Only " + Join(acceptedFileTypes, ", ") + " files are allowed")
    else if f.size > maxFileSize * BytesPerMegabyte then
      Some("File size must be less than " + NatToString(maxFileSize) + "MB")
    else None
  }

  /** With the defaults, a file passes exactly when its extension is `.json` and it has at most 5 MiB. */
  lemma DefaultGate(f: File)
    ensures ValidateFile(f, DefaultAcceptedFileTypes, DefaultMaxFileSize).None?
            <==> Extension(f.name) == ".json" && f.size <= 5242880
  {
    assert DefaultMaxFileSize * BytesPerMegabyte == 5242880;
  }

  /** `validateJsonSchema`: the question schema applied to the parsed file. */
  function ValidateJsonSchema(data: Json, rnd: nat -> Nibble): (r: ValidationResult<QuestionBundle>)
    ensures r.isValid <==> ConformsBundle(data)
    ensures r.isValid ==> r.errors == [] && r.data == Some(ParseQuestions(data, rnd).value)
    ensures !r.isValid ==> r.data.None? && r.errors != []
                           && r.errors == SchemaErrors(Some(ParseBaseQuestions(data).error))
  {
    match ParseQuestions(data, rnd)
    case Success(b) => ValidationResult(true, [], Some(b))
    case Failure(issues) => Rejected(SchemaErrors(Some(issues)))
  }

  /**
    * What handling a selection leaves and emits: the result shown, the file kept, the result passed to
    * `onValidationChange`, the data passed to `onFileUpload`, and the message passed to `onError`.
    */
  datatype Outcome = Outcome(
    result: ValidationResult<QuestionBundle>,
    uploadedFile: Option<File>,
    notified: Option<ValidationResult<QuestionBundle>>,
    delivered: Option<QuestionBundle>,
    error: Option<string>)

  /** The parent is told about the shown result exactly when it passed a listener. */
  function Notify(listens: bool, r: ValidationResult<QuestionBundle>): Option<ValidationResult<QuestionBundle>> {
    if listens then Some(r) else None
  }

  /**
    * `processFile` for a file that passed the gate: a file that does not parse is dropped with one fixed
    * message, a non-conforming one is dropped with the schema messages, a conforming one is kept and
    * its data delivered. Without a listener the parent is simply not told.
    */
  function ProcessFile(f: File, parse: string -> Result<Json, string>, rnd: nat -> Nibble, listens: bool)
    : (o: Outcome)
    ensures o.delivered.Some? <==> parse(f.text).Success? && ConformsBundle(parse(f.text).value)
    ensures o.result.isValid <==> o.delivered.Some?
    ensures o.result.isValid ==> o.result.errors == [] && o.result.data == o.delivered && o.uploadedFile == Some(f)
    ensures !o.result.isValid ==> o.uploadedFile.None? && o.result.errors != [] && o.error.Some?
    ensures o.result.isValid ==> o.error.None?
    ensures parse(f.text).Failure? ==> o.result.errors == [InvalidJsonMessage] && o.error == Some(InvalidJsonMessage)
    ensures parse(f.text).Success? ==> o.result == ValidateJsonSchema(parse(f.text).value, rnd)
    ensures parse(f.text).Success? && !o.result.isValid ==>
              o.error == Some("Schema validation failed: " + Join(o.result.errors, ", "))
    ensures o.notified == Notify(listens, o.result)
  {
    match parse(f.text)
    case Failure(_) =>
      var r := Rejected([InvalidJsonMessage]);
      Outcome(r, None, Notify(listens, r), None, Some(InvalidJsonMessage))
    case Success(j) =>
      var v := ValidateJsonSchema(j, rnd);
      if v.isValid then Outcome(v, Some(f), Notify(listens, v), v.data, None)
      else Outcome(v, None, Notify(listens, v), None, Some("Schema validation failed: " + Join(v.errors, ", ")))
  }

  /**
    * `handleFileSelect`: nothing for an empty selection, otherwise the outcome for the first file; a
    * valid result always comes with a kept file and data.
    */
  function Select(files: seq<File>, acceptedFileTypes: seq<string>, maxFileSize: nat,
                  parse: string -> Result<Json, string>, rnd: nat -> Nibble, current: Option<File>, listens: bool)
    : (o: Option<Outcome>)
    ensures o.None? <==> files == []
    ensures o.Some? && o.value.result.isValid ==>
              o.value.uploadedFile.Some? && o.value.result.errors == [] && o.value.result.data.Some?
    ensures o.Some? ==> o.value.notified == Notify(listens, o.value.result)
  {
    if files == [] then None
    else
      match ValidateFile(files[0], acceptedFileTypes, maxFileSize)
      case Some(e) => Some(Outcome(Rejected([e]), current, Notify(listens, Rejected([e])), None, Some(e)))
      case None => Some(ProcessFile(files[0], parse, rnd, listens))
  }

  /**
    * Only the first file is looked at; a file refused by the gate shows the gate's message, keeps the
    * file kept so far and delivers nothing; a file the gate lets through is processed.
    */
  lemma SelectFirstFile(files: seq<File>, acceptedFileTypes: seq<string>, maxFileSize: nat,
                        parse: string -> Result<Json, string>, rnd: nat -> Nibble, current: Option<File>, listens: bool)
    requires files != []
    ensures var o := Select(files, acceptedFileTypes, maxFileSize, parse, rnd, current, listens).value;
            match ValidateFile(files[0], acceptedFileTypes, maxFileSize)
            case Some(e) => o == Outcome(Rejected([e]), current, Notify(listens, Rejected([e])), None, Some(e))
            case None => o == ProcessFile(files[0], parse, rnd, listens)
  {
  }

  /** Files after the first of a selection play no part. */
  lemma OnlyFirstFileCounts(files: seq<File>, more: seq<File>, acceptedFileTypes: seq<string>, maxFileSize: nat,
                            parse: string -> Result<Json, string>, rnd: nat -> Nibble, current: Option<File>,
                            listens: bool)
    requires files != []
    ensures Select(files + more, acceptedFileTypes, maxFileSize, parse, rnd, current, listens)
            == Select(files[..1], acceptedFileTypes, maxFileSize, parse, rnd, current, listens)
  {
    assert (files + more)[0] == files[..1][0];
  }

  // ---------------------------------------------------------------------------
  // The same handlers as written, for a parent that passes no `onValidationChange`.

  /**
    * `handleFileSelect` as written when `onValidationChange` is missing: the unguarded call throws, so
    * after the result is set nothing else happens. In `processFile` the throw lands in the `catch`
    * block, which replaces the result with the invalid-JSON message and throws again before it clears
    * the file or calls `onError`.
    */
  function SelectWithoutListenerAsWritten(files: seq<File>, acceptedFileTypes: seq<string>, maxFileSize: nat,
                                          parse: string -> Result<Json, string>, current: Option<File>)
    : (o: Option<Outcome>)
    ensures o.None? <==> files == []
    ensures o.Some? ==> o.value.delivered.None? && o.value.error.None? && !o.value.result.isValid
    ensures o.Some? && ValidateFile(files[0], acceptedFileTypes, maxFileSize).None? ==>
              o.value.result == Rejected([InvalidJsonMessage])
    ensures o.Some? ==> o.value.uploadedFile == current
  {
    if files == [] then None
    else
      match ValidateFile(files[0], acceptedFileTypes, maxFileSize)
      case Some(e) => Some(Outcome(Rejected([e]), current, None, None, None))
      case None => Some(Outcome(Rejected([InvalidJsonMessage]), current, None, None, None))
  }

  /**
    * A well-formed, conforming file that passes the gate is never delivered by the handler as written
    * without a listener, and is reported as invalid JSON; with the call guarded it is delivered.
    */
  lemma MissingListenerLosesValidFile(f: File, acceptedFileTypes: seq<string>, maxFileSize: nat,
                                      parse: string -> Result<Json, string>, rnd: nat -> Nibble, current: Option<File>)
    requires ValidateFile(f, acceptedFileTypes, maxFileSize).None?
    requires parse(f.text).Success? && ConformsBundle(parse(f.text).value)
    ensures var o := SelectWithoutListenerAsWritten([f], acceptedFileTypes, maxFileSize, parse, current).value;
            o.delivered.None? && o.result.errors == [InvalidJsonMessage]
    ensures var o := Select([f], acceptedFileTypes, maxFileSize, parse, rnd, current, false).value;
            o.delivered == Some(ParseQuestions(parse(f.text).value, rnd).value) && o.result.isValid
  {
  }

  /** The uploader's own state. */
  class Uploader {
    const acceptedFileTypes: seq<string>
    const maxFileSize: nat
    /** Whether the parent passed `onValidationChange`. */
    const listens: bool
    var uploadedFile: Option<File>
    var validationResult: ValidationResult<QuestionBundle>

    /** A valid result always comes with the kept file and the data, and shows no message. */
    ghost predicate Valid()
      reads this
    {
      validationResult.isValid ==>
        uploadedFile.Some? && validationResult.errors == [] && validationResult.data.Some?
    }

    constructor (acceptedFileTypes: seq<string>, maxFileSize: nat, listens: bool)
      ensures Valid()
      ensures this.acceptedFileTypes == acceptedFileTypes && this.maxFileSize == maxFileSize
      ensures this.listens == listens
      ensures uploadedFile.None? && validationResult == Cleared()
    {
      this.acceptedFileTypes := acceptedFileTypes;
      this.maxFileSize := maxFileSize;
      this.listens := listens;
      uploadedFile := None;
      validationResult := Cleared();
    }

    /** `handleFileSelect` (and `handleDrop`, which forwards to it), with the listener call guarded. */
    method HandleFileSelect(files: seq<File>, parse: string -> Result<Json, string>, rnd: nat -> Nibble)
      returns (o: Option<Outcome>)
      requires Valid()
      modifies this
      ensures Valid()
      ensures o == Select(files, acceptedFileTypes, maxFileSize, parse, rnd, old(uploadedFile), listens)
      ensures o.None? ==> uploadedFile == old(uploadedFile) && validationResult == old(validationResult)
      ensures o.Some? ==> uploadedFile == o.value.uploadedFile && validationResult == o.value.result
    {
      o := Select(files, acceptedFileTypes, maxFileSize, parse, rnd, uploadedFile, listens);
      Apply(o);
    }

    /** Keeps what a selection's outcome says is shown and kept. */
    method Apply(o: Option<Outcome>)
      requires o.Some? && o.value.result.isValid ==>
                 o.value.uploadedFile.Some? && o.value.result.errors == [] && o.value.result.data.Some?
      requires Valid()
      modifies this
      ensures Valid()
      ensures o.None? ==> uploadedFile == old(uploadedFile) && validationResult == old(validationResult)
      ensures o.Some? ==> uploadedFile == o.value.uploadedFile && validationResult == o.value.result
    {
      if o.Some? {
        uploadedFile := o.value.uploadedFile;
        validationResult := o.value.result;
      }
    }

    /** `handleRemoveFile`, which is also the `clearFile` the parent calls through its ref. */
    method RemoveFile() returns (notified: Option<ValidationResult<QuestionBundle>>)
      requires Valid()
      modifies this
      ensures Valid()
      ensures uploadedFile.None? && validationResult == Cleared()
      ensures notified == Notify(listens, Cleared())
    {
      uploadedFile := None;
      validationResult := Cleared();
      notified := Notify(listens, Cleared());
    }
  }
}
