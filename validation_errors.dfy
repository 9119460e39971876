// The validation result shown by the upload screens and the way a thrown
// error becomes its list of messages, shared by src/pages/Upload/Upload.tsx,
// src/pages/Upload/components/JsonUpload.tsx and
// src/components/ui/FileUploader/FileUploader.tsx.
module ValidationErrors {
  import opened Wrappers
  import opened Text
  import opened JsonValue
  import opened Content
  import opened QuestionSchemas

  /** `QuestionsValidationResult`: the verdict, the messages to show and, on success, the data. */
  datatype ValidationResult<D> = ValidationResult(isValid: bool, errors: seq<string>, data: Option<D>)

  /** `{ isValid: false, errors: [] }`: nothing validated, nothing to complain about. */
  function Cleared<D>(): ValidationResult<D> {
    ValidationResult(false, [], None)
  }

  /** A failed validation showing `errors`. */
  function Rejected<D>(errors: seq<string>): ValidationResult<D> {
    ValidationResult(false, errors, None)
  }

  /** What a `catch` block sees of an error: its name, its message and, for a schema error, its issue list. */
  datatype Thrown = Thrown(name: string, message: string, issues: Option<seq<Issue>>)

  /** What `JSON.parse` throws for text that is not JSON. */
  function SyntaxError(message: string): Thrown {
    Thrown("SyntaxError", message, None)
  }

  /** What a schema's `parse` throws; the message is never read when the issue list is there. */
  function SchemaError(issues: seq<Issue>): Thrown {
    Thrown("ZodError", "", Some(issues))
  }

  /** `` `${err.path.join(".")}: ${err.message}` ``. */
  function FormatIssue(i: Issue): (r: string)
    ensures IsPrefix(JoinPath(i.path) + ": ", r)
    ensures r[|JoinPath(i.path)| + 2..] == i.message
  {
    JoinPath(i.path) + ": " + i.message
  }

  /** One formatted message per issue, in the issues' order. */
  function FormatIssues(issues: seq<Issue>): (r: seq<string>)
    ensures |r| == |issues|
    ensures forall k :: 0 <= k < |issues| ==> r[k] == FormatIssue(issues[k])
  {
    seq(|issues|, k requires 0 <= k < |issues| => FormatIssue(issues[k]))
  }

  /**
    * The `catch` block of `validateJsonText`: a syntax error shows its own message, a schema error one
    * message per issue, anything else its message or "Unknown validation error".
    */
  function ErrorsOf(t: Thrown): (r: seq<string>)
    ensures t.name == "SyntaxError" ==> r == [t.message]
    ensures t.name != "SyntaxError" && t.issues.Some? ==> r == FormatIssues(t.issues.value)
    ensures t.name != "SyntaxError" && t.issues.None? ==> |r| == 1 && r[0] != ""
    ensures t.name != "SyntaxError" && t.issues.None? && t.message != "" ==> r == [t.message]
  {
    if t.name == "SyntaxError" then [t.message]
    else if t.issues.Some? then FormatIssues(t.issues.value)
    else [if t.message != "" then t.message else "Unknown validation error"]
  }

  /** The `catch` block of the file uploader's `validateJsonSchema`: issues, or a fixed fallback. */
  function SchemaErrors(issues: Option<seq<Issue>>): (r: seq<string>)
    ensures issues.None? ==> r == ["Invalid schema format"]
    ensures issues.Some? ==> r == FormatIssues(issues.value)
  {
    match issues
    case Some(list) => FormatIssues(list)
    case None => ["Invalid schema format"]
  }

  /** For a schema failure the pages and the file uploader show the same messages. */
  lemma SchemaMessagesAgree(issues: seq<Issue>)
    ensures ErrorsOf(SchemaError(issues)) == SchemaErrors(Some(issues))
    ensures |ErrorsOf(SchemaError(issues))| == |issues|
  {
  }

  /** A message about the top-level value starts with the separator alone, since its path is empty. */
  lemma RootIssueMessage(message: string)
    ensures FormatIssue(Issue([], message)) == ": " + message
  {
    assert JoinPath([]) == "";
  }

  /**
    * `validateJsonText` of both upload pages with `JSON.parse` (`parse`, failing with the syntax error's
    * message) and the schema's `parse` (`schema`) passed in.
    */
  function ValidateText<D>(parse: string -> Result<Json, string>, schema: Json -> Result<D, Thrown>, text: string)
    : (r: ValidationResult<D>)
    ensures r.isValid <==> parse(text).Success? && schema(parse(text).value).Success?
    ensures r.isValid ==> r.errors == [] && r.data == Some(schema(parse(text).value).value)
    ensures !r.isValid ==> r.data.None?
    ensures parse(text).Failure? ==> r.errors == [parse(text).error]
    ensures parse(text).Success? && schema(parse(text).value).Failure? ==>
              r.errors == ErrorsOf(schema(parse(text).value).error)
  {
    match parse(text)
    case Failure(message) => Rejected(ErrorsOf(SyntaxError(message)))
    case Success(j) =>
      match schema(j)
      case Success(d) => ValidationResult(true, [], Some(d))
      case Failure(t) => Rejected(ErrorsOf(t))
  }

  /** `QuestionsSchema.parse` as a thrower: its issues become a schema error. */
  function QuestionsSchemaParse(rnd: nat -> Nibble, j: Json): (r: Result<QuestionBundle, Thrown>)
    ensures r.Success? <==> ConformsBundle(j)
    ensures r.Success? ==> r == Success(ParseQuestions(j, rnd).value)
    ensures r.Failure? ==> r.error == SchemaError(ParseBaseQuestions(j).error)
  {
    match ParseQuestions(j, rnd)
    case Success(b) => Success(b)
    case Failure(issues) => Failure(SchemaError(issues))
  }

  /**
    * Validating pasted text against the question schema: valid exactly when the text parses to a
    * conforming bundle, and a rejected bundle shows one message per issue, never none.
    */
  lemma QuestionTextOutcome(parse: string -> Result<Json, string>, rnd: nat -> Nibble, text: string)
    requires parse(text).Success?
    ensures var r := ValidateText(parse, j => QuestionsSchemaParse(rnd, j), text);
            (r.isValid <==> ConformsBundle(parse(text).value))
            && (r.isValid ==> r.data == Some(ParseQuestions(parse(text).value, rnd).value))
            && (!r.isValid ==> r.errors == FormatIssues(ParseBaseQuestions(parse(text).value).error) && r.errors != [])
  {
  }
}
