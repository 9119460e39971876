// The bucket form's schema (src/pages/Buckets/BucketCreate/validator/formSchema.ts):
// which submitted values make a bucket, and the issues reported otherwise.
module BucketSchema {
  import opened Wrappers
  import opened Text
  import opened JsonValue

  datatype Visibility = Public | Private

  datatype ExperienceLevel = NoExperience | Basic | Intermediate | Advanced

  function VisibilityName(v: Visibility): string {
    match v
    case Public => "public"
    case Private => "private"
  }

  function LevelName(l: ExperienceLevel): string {
    match l
    case NoExperience => "none"
    case Basic => "basic"
    case Intermediate => "intermediate"
    case Advanced => "advanced"
  }

  /** The enum check for visibility: one of the two names. */
  function ParseVisibility(s: string): (r: Option<Visibility>)
    ensures r.Some? ==> VisibilityName(r.value) == s
    ensures (exists v :: VisibilityName(v) == s) ==> r.Some?
  {
    if s == "public" then Some(Public) else if s == "private" then Some(Private) else None
  }

  /** The enum check for the experience level: one of the four names. */
  function ParseLevel(s: string): (r: Option<ExperienceLevel>)
    ensures r.Some? ==> LevelName(r.value) == s
    ensures (exists l :: LevelName(l) == s) ==> r.Some?
  {
    if s == "none" then Some(NoExperience)
    else if s == "basic" then Some(Basic)
    else if s == "intermediate" then Some(Intermediate)
    else if s == "advanced" then Some(Advanced)
    else None
  }

  /** `BucketData`: a validated bucket. */
  datatype BucketData = BucketData(
    name: string,
    subject: string,
    visibility: Visibility,
    experienceLevel: ExperienceLevel,
    progressiveDifficulty: Option<bool>,
    keyConcepts: Option<string>,
    learningGoal: Option<string>,
    character: Option<string>)

  /** The submitted values; a missing required one is `None`. */
  datatype BucketInput = BucketInput(
    name: Option<string>,
    subject: Option<string>,
    visibility: Option<string>,
    experienceLevel: Option<string>,
    progressiveDifficulty: Option<bool>,
    keyConcepts: Option<string>,
    learningGoal: Option<string>,
    character: Option<string>)

  const VisibilityOptionsText: string := "'public' | 'private'"
  const LevelOptionsText: string := "'none' | 'basic' | 'intermediate' | 'advanced'"

  /** A required string with a minimum length and its own message for a short value. */
  function MinLengthIssue(key: string, v: Option<string>, min: nat, message: string): (r: Option<Issue>)
    ensures r.None? <==> v.Some? && Utf16Length(v.value) >= min
    ensures r.Some? ==> r.value.path == [Key(key)]
    ensures v.Some? && Utf16Length(v.value) < min ==> r == Some(Issue([Key(key)], message))
  {
    match v
    case None => Some(Issue([Key(key)], "Required"))
    case Some(s) => if Utf16Length(s) < min then Some(Issue([Key(key)], message)) else None
  }

  /** An enum field: its own message when missing, the library's listing of the options otherwise. */
  function EnumIssue(key: string, v: Option<string>, valid: bool, options: string, requiredMessage: string)
    : (r: Option<Issue>)
    ensures r.None? <==> v.Some? && valid
    ensures r.Some? ==> r.value.path == [Key(key)]
    ensures v.None? ==> r == Some(Issue([Key(key)], requiredMessage))
  {
    match v
    case None => Some(Issue([Key(key)], requiredMessage))
    case Some(s) =>
      if valid then None
      else Some(Issue([Key(key)], "Invalid enum value. Expected " + options + ", received '" + s + "'"))
  }

  function Issues(issues: seq<Option<Issue>>): (r: seq<Issue>)
    ensures r == [] <==> forall k :: 0 <= k < |issues| ==> issues[k].None?
  {
    if issues == [] then []
    else (if issues[0].Some? then [issues[0].value] else []) + Issues(issues[1..])
  }

  /** Every field's issue is among the reported ones. */
  lemma {:induction false} IssueListed(issues: seq<Option<Issue>>, k: nat)
    requires k < |issues| && issues[k].Some?
    ensures issues[k].value in Issues(issues)
  {
    if k > 0 {
      IssueListed(issues[1..], k - 1);
    }
  }

  /** The name's issue, if any. */
  function NameIssue(input: BucketInput): Option<Issue> {
    MinLengthIssue("name", input.name, 5, "Bucket name must be at least 5 characters")
  }

  function SubjectIssue(input: BucketInput): Option<Issue> {
    MinLengthIssue("subject", input.subject, 1, "Subject is required")
  }

  function VisibilityIssue(input: BucketInput): Option<Issue> {
    EnumIssue("visibility", input.visibility,
              input.visibility.Some? && ParseVisibility(input.visibility.value).Some?,
              VisibilityOptionsText, "Visibility is required")
  }

  function LevelIssue(input: BucketInput): Option<Issue> {
    EnumIssue("experience_level", input.experienceLevel,
              input.experienceLevel.Some? && ParseLevel(input.experienceLevel.value).Some?,
              LevelOptionsText, "Experience level is required")
  }

  /** What makes submitted values a bucket. */
  predicate ConformsBucket(input: BucketInput) {
    input.name.Some? && Utf16Length(input.name.value) >= 5
    && input.subject.Some? && input.subject.value != ""
    && input.visibility.Some? && input.visibility.value in {"public", "private"}
    && input.experienceLevel.Some? && input.experienceLevel.value in {"none", "basic", "intermediate", "advanced"}
  }

  /**
    * `bucketSchema.parse`: the values as a bucket, or one issue for each of name, subject, visibility
    * and level that is wrong, in that order; the four optional fields pass through.
    */
  function ParseBucket(input: BucketInput): (r: Result<BucketData, seq<Issue>>)
    ensures r.Success? <==> ConformsBucket(input)
    ensures r.Success? ==>
              r.value.name == input.name.value && r.value.subject == input.subject.value
              && VisibilityName(r.value.visibility) == input.visibility.value
              && LevelName(r.value.experienceLevel) == input.experienceLevel.value
              && r.value.progressiveDifficulty == input.progressiveDifficulty
              && r.value.keyConcepts == input.keyConcepts && r.value.learningGoal == input.learningGoal
              && r.value.character == input.character
    ensures r.Failure? ==>
              r.error == Issues([NameIssue(input), SubjectIssue(input), VisibilityIssue(input), LevelIssue(input)])
              && r.error != []
  {
    var all := [NameIssue(input), SubjectIssue(input), VisibilityIssue(input), LevelIssue(input)];
    var issues := Issues(all);
    if issues == [] then
      assert all[0].None? && all[1].None? && all[2].None? && all[3].None?;
      Success(BucketData(input.name.value, input.subject.value, ParseVisibility(input.visibility.value).value,
                         ParseLevel(input.experienceLevel.value).value, input.progressiveDifficulty,
                         input.keyConcepts, input.learningGoal, input.character))
    else
      assert !ConformsBucket(input) by {
        var k :| 0 <= k < 4 && all[k].Some?;
      }
      Failure(issues)
  }

  /** The values a bucket is submitted with. */
  function AsInput(d: BucketData): BucketInput {
    BucketInput(Some(d.name), Some(d.subject), Some(VisibilityName(d.visibility)), Some(LevelName(d.experienceLevel)),
                d.progressiveDifficulty, d.keyConcepts, d.learningGoal, d.character)
  }

  /** A bucket whose name and subject are long enough is accepted and comes back unchanged. */
  lemma BucketRoundTrip(d: BucketData)
    requires Utf16Length(d.name) >= 5 && d.subject != ""
    ensures ParseBucket(AsInput(d)) == Success(d)
  {
    var r := ParseBucket(AsInput(d));
    assert ConformsBucket(AsInput(d)) by {
      match d.visibility
      case Public =>
      case Private =>
    }
    assert r.value.visibility == d.visibility by {
      match d.visibility
      case Public =>
      case Private =>
    }
    assert r.value.experienceLevel == d.experienceLevel by {
      match d.experienceLevel
      case NoExperience =>
      case Basic =>
      case Intermediate =>
      case Advanced =>
    }
  }

  /** An empty submission reports the four required fields, in schema order. */
  lemma EmptySubmissionIssues()
    ensures ParseBucket(BucketInput(None, None, None, None, None, None, None, None))
            == Failure([Issue([Key("name")], "Required"), Issue([Key("subject")], "Required"),
                        Issue([Key("visibility")], "Visibility is required"),
                        Issue([Key("experience_level")], "Experience level is required")])
  {
    var input := BucketInput(None, None, None, None, None, None, None, None);
    var all := [NameIssue(input), SubjectIssue(input), VisibilityIssue(input), LevelIssue(input)];
    assert Issues(all[3..]) == [LevelIssue(input).value] by {
      assert all[3..][1..] == [];
    }
    assert Issues(all[2..]) == [VisibilityIssue(input).value] + Issues(all[3..]) by {
      assert all[2..][1..] == all[3..];
    }
    assert Issues(all[1..]) == [SubjectIssue(input).value] + Issues(all[2..]) by {
      assert all[1..][1..] == all[2..];
    }
    assert Issues(all) == [NameIssue(input).value] + Issues(all[1..]);
    assert [NameIssue(input).value] + ([SubjectIssue(input).value] + ([VisibilityIssue(input).value]
           + [LevelIssue(input).value]))
           == [NameIssue(input).value, SubjectIssue(input).value, VisibilityIssue(input).value,
               LevelIssue(input).value];
  }
}
