// The bucket creation page (src/pages/Buckets/BucketCreate/BucketCreate.tsx):
// the payload built from a validated bucket form, with its defaults.
module BucketCreate {
  import opened Wrappers
  import opened BucketSchema

  /** The prompt settings stored with a bucket; every field is present. */
  datatype PromptSettings = PromptSettings(
    subject: string,
    experienceLevel: string,
    progressiveDifficulty: bool,
    keyConcepts: string,
    learningGoal: string,
    character: string)

  /** What is sent to create a bucket. */
  datatype BucketPayload = BucketPayload(name: string, promptSettings: PromptSettings, visibility: string)

  /** `value || false` for an optional flag. */
  function FlagOrFalse(b: Option<bool>): (r: bool)
    ensures r <==> b == Some(true)
  {
    b.Some? && b.value
  }

  /** `value || ""` for an optional string: a missing or empty value becomes the empty string. */
  function TextOrEmpty(s: Option<string>): (r: string)
    ensures s.Some? ==> r == s.value
    ensures s.None? ==> r == ""
  {
    if s.Some? then s.value else ""
  }

  /** `onSubmit`'s payload. */
  function ToPayload(d: BucketData): (p: BucketPayload)
    ensures p.name == d.name && p.visibility == VisibilityName(d.visibility)
    ensures p.promptSettings.subject == d.subject
    ensures p.promptSettings.experienceLevel == LevelName(d.experienceLevel)
    ensures p.promptSettings.progressiveDifficulty <==> d.progressiveDifficulty == Some(true)
    ensures p.promptSettings.keyConcepts == d.keyConcepts.GetOr("")
    ensures p.promptSettings.learningGoal == d.learningGoal.GetOr("")
    ensures p.promptSettings.character == d.character.GetOr("")
  {
    BucketPayload(d.name,
                  PromptSettings(d.subject, LevelName(d.experienceLevel), FlagOrFalse(d.progressiveDifficulty),
                                 TextOrEmpty(d.keyConcepts), TextOrEmpty(d.learningGoal), TextOrEmpty(d.character)),
                  VisibilityName(d.visibility))
  }

  /** The payload determines the bucket up to its defaults: values that differ only in absent-versus-default map alike. */
  lemma PayloadForgetsOnlyDefaults(d: BucketData)
    ensures ToPayload(d) == ToPayload(d.(progressiveDifficulty := Some(FlagOrFalse(d.progressiveDifficulty)),
                                         keyConcepts := Some(TextOrEmpty(d.keyConcepts)),
                                         learningGoal := Some(TextOrEmpty(d.learningGoal)),
                                         character := Some(TextOrEmpty(d.character))))
  {
  }

  /** The payload's visibility and level are names the bucket schema accepts again. */
  lemma PayloadNamesParse(d: BucketData)
    ensures ParseVisibility(ToPayload(d).visibility) == Some(d.visibility)
    ensures ParseLevel(ToPayload(d).promptSettings.experienceLevel) == Some(d.experienceLevel)
  {
    match d.visibility
    case Public =>
    case Private =>
  }
}
