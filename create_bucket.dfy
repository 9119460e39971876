// The create-bucket page (src/pages/Buckets/CreateBucket.tsx): its schema
// and what submitting a validated form stores and shows.
module CreateBucket {
  import opened Wrappers
  import opened Text
  import opened JsonValue
  import opened BucketSchema

  /**
    * The values the form hands the schema, as JavaScript values. The two text inputs and the two
    * selects always give a string (`""` while untouched or on the placeholder option); the radio group
    * for visibility gives `null` until one radio is checked. `None` is `undefined`, which the schema
    * reports as "Required" although this page never produces it.
    */
  datatype CreateBucketInput = CreateBucketInput(
    name: Option<Json>,
    subject: Option<Json>,
    level: Option<Json>,
    trainingType: Option<Json>,
    visibility: Option<Json>)

  datatype CreateBucketData = CreateBucketData(
    name: string,
    subject: string,
    level: string,
    trainingType: string,
    visibility: string)

  /** The values as this page produces them: four strings, and the checked radio's value or `null`. */
  function PageValues(name: string, subject: string, level: string, trainingType: string,
                      visibility: Option<string>): CreateBucketInput {
    CreateBucketInput(Some(JString(name)), Some(JString(subject)), Some(JString(level)), Some(JString(trainingType)),
                      Some(if visibility.Some? then JString(visibility.value) else JNull))
  }

  predicate IsString(v: Option<Json>) {
    v.Some? && v.value.JString?
  }

  /** `z.string().min(min, message)` on one field: a type issue for a non-string, the message for a short one. */
  function StringMinIssue(key: string, v: Option<Json>, min: nat, message: string): (r: Option<Issue>)
    ensures r.None? <==> IsString(v) && Utf16Length(v.value.s) >= min
    ensures r.Some? ==> r.value.path == [Key(key)]
    ensures IsString(v) && Utf16Length(v.value.s) < min ==> r == Some(Issue([Key(key)], message))
    ensures !IsString(v) ==> r == Some(Issue([Key(key)], TypeMessage("string", v)))
  {
    match v
    case Some(JString(s)) => if Utf16Length(s) < min then Some(Issue([Key(key)], message)) else None
    case _ => Some(Issue([Key(key)], TypeMessage("string", v)))
  }

  /** What makes the form's values acceptable: five strings, with lengths of the raw strings. */
  predicate ConformsCreateBucket(input: CreateBucketInput) {
    IsString(input.name) && Utf16Length(input.name.value.s) >= 5
    && IsString(input.subject) && Utf16Length(input.subject.value.s) >= 5
    && IsString(input.level) && input.level.value.s != ""
    && IsString(input.trainingType) && input.trainingType.value.s != ""
    && IsString(input.visibility) && input.visibility.value.s != ""
  }

  /** Each field's issue, in the schema's field order. */
  function FieldIssues(input: CreateBucketInput): seq<Option<Issue>> {
    [StringMinIssue("name", input.name, 5, "Name must be at least 5 characters long"),
     StringMinIssue("subject", input.subject, 5, "Subject must be at least 5 characters long"),
     StringMinIssue("level", input.level, 1, "Please select a level"),
     StringMinIssue("training_type", input.trainingType, 1, "Please select a training type"),
     StringMinIssue("visibility", input.visibility, 1, "Please select visibility")]
  }

  /** `createBucketSchema.parse`: the five strings, or one issue per wrong field in field order. */
  function ParseCreateBucket(input: CreateBucketInput): (r: Result<CreateBucketData, seq<Issue>>)
    ensures r.Success? <==> ConformsCreateBucket(input)
    ensures r.Success? ==>
              r.value == CreateBucketData(input.name.value.s, input.subject.value.s, input.level.value.s,
                                          input.trainingType.value.s, input.visibility.value.s)
    ensures r.Failure? ==> r.error == Issues(FieldIssues(input)) && r.error != []
    ensures IsString(input.name) && 0 < Utf16Length(input.name.value.s) < 5 ==>
              r.Failure? && r.error[0] == Issue([Key("name")], "Name must be at least 5 characters long")
  {
    var all := FieldIssues(input);
    var issues := Issues(all);
    if issues == [] then
      assert all[0].None? && all[1].None? && all[2].None? && all[3].None? && all[4].None?;
      Success(CreateBucketData(input.name.value.s, input.subject.value.s, input.level.value.s,
                               input.trainingType.value.s, input.visibility.value.s))
    else
      assert !ConformsCreateBucket(input) by {
        var k :| 0 <= k < 5 && all[k].Some?;
      }
      Failure(issues)
  }

  /**
    * On the page's own values the form is accepted exactly when name and subject have five units, a
    * level and a training type are chosen and a visibility radio is checked; with none checked the
    * visibility issue is the type issue for `null`, not the form's own message.
    */
  lemma PageValuesAccepted(name: string, subject: string, level: string, trainingType: string,
                           visibility: Option<string>)
    ensures ParseCreateBucket(PageValues(name, subject, level, trainingType, visibility)).Success?
            <==> Utf16Length(name) >= 5 && Utf16Length(subject) >= 5 && level != "" && trainingType != ""
                 && visibility.Some? && visibility.value != ""
    ensures visibility.None? ==>
              var r := ParseCreateBucket(PageValues(name, subject, level, trainingType, visibility));
              r.Failure? && Issue([Key("visibility")], "Expected string, received null") in r.error
  {
    if visibility.None? {
      var all := FieldIssues(PageValues(name, subject, level, trainingType, visibility));
      assert TypeMessage("string", Some(JNull)) == "Expected string, received null";
      IssueListed(all, 4);
    }
  }

  /**
    * A form submitted untouched reports the four fields' own messages, in field order, and the type
    * issue for the unchecked visibility radios.
    */
  lemma EmptyFormIssues()
    ensures ParseCreateBucket(PageValues("", "", "", "", None))
            == Failure([Issue([Key("name")], "Name must be at least 5 characters long"),
                        Issue([Key("subject")], "Subject must be at least 5 characters long"),
                        Issue([Key("level")], "Please select a level"),
                        Issue([Key("training_type")], "Please select a training type"),
                        Issue([Key("visibility")], "Expected string, received null")])
  {
    var input := PageValues("", "", "", "", None);
    var i0 := Issue([Key("name")], "Name must be at least 5 characters long");
    var i1 := Issue([Key("subject")], "Subject must be at least 5 characters long");
    var i2 := Issue([Key("level")], "Please select a level");
    var i3 := Issue([Key("training_type")], "Please select a training type");
    var i4 := Issue([Key("visibility")], "Expected string, received null");
    assert Utf16Length("") == 0;
    assert TypeMessage("string", Some(JNull)) == "Expected string, received null";
    assert FieldIssues(input) == [Some(i0), Some(i1), Some(i2), Some(i3), Some(i4)];
    IssuesOfFive(i0, i1, i2, i3, i4);
  }

  /** Five reported issues are collected as they are. */
  lemma IssuesOfFive(i0: Issue, i1: Issue, i2: Issue, i3: Issue, i4: Issue)
    ensures Issues([Some(i0), Some(i1), Some(i2), Some(i3), Some(i4)]) == [i0, i1, i2, i3, i4]
  {
    var all := [Some(i0), Some(i1), Some(i2), Some(i3), Some(i4)];
    assert Issues(all[5..]) == [];
    assert Issues(all[4..]) == [i4];
    assert Issues(all[3..]) == [i3] + Issues(all[4..]);
    assert Issues(all[2..]) == [i2] + Issues(all[3..]);
    assert Issues(all[1..]) == [i1] + Issues(all[2..]);
  }

  /** The inserted row. */
  datatype BucketRow = BucketRow(name: string, subject: string, level: string, trainingType: string, visibility: string)

  /** What one submission leaves: the row sent, the success toast, or the form-level error. */
  datatype SubmitOutcome = SubmitOutcome(row: Option<BucketRow>, toast: Option<string>, rootError: Option<string>)

  /**
    * `onSubmit` with the signed-in check (`signedIn`) and the backend's answer (`insertError`, `None` on
    * success) passed in: no row without a user; the row has trimmed name and subject and the other
    * values as chosen; the toast quotes the name as typed.
    */
  function Submit(data: CreateBucketData, signedIn: bool, insertError: Option<string>): (o: SubmitOutcome)
    ensures o.row.Some? <==> signedIn
    ensures o.row.Some? ==>
              o.row.value.name == Trim(data.name) && o.row.value.subject == Trim(data.subject)
              && o.row.value.level == data.level && o.row.value.trainingType == data.trainingType
              && o.row.value.visibility == data.visibility
    ensures o.toast.Some? <==> signedIn && insertError.None?
    ensures o.toast.Some? ==> o.toast.value == "Bucket \"" + data.name + "\" created successfully!"
    ensures o.rootError.Some? <==> o.toast.None?
    ensures !signedIn ==> o.rootError == Some("You must be logged in to create a bucket")
    ensures signedIn && insertError.Some? ==>
              o.rootError == Some(if insertError.value != "" then insertError.value
                                  else "Failed to create bucket. Please try again.")
  {
    if !signedIn then SubmitOutcome(None, None, Some("You must be logged in to create a bucket"))
    else
      var row := BucketRow(Trim(data.name), Trim(data.subject), data.level, data.trainingType, data.visibility);
      match insertError
      case None => SubmitOutcome(Some(row), Some("Bucket \"" + data.name + "\" created successfully!"), None)
      case Some(message) =>
        SubmitOutcome(Some(row), None, Some(if message != "" then message else "Failed to create bucket. Please try again."))
  }

  /**
    * The lengths are checked before trimming: a name of five or more spaces passes the schema and is
    * stored empty.
    */
  lemma BlankNameStoredEmpty(input: CreateBucketInput, insertError: Option<string>)
    requires ConformsCreateBucket(input) && AllSpace(input.name.value.s)
    ensures Submit(ParseCreateBucket(input).value, true, insertError).row.value.name == ""
  {
    TrimEmptyIffAllSpace(input.name.value.s);
  }
}
