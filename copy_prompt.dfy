// The "copy prompt" button of a bucket's page
// (src/pages/Buckets/BucketDetails/components/CopyPromptButton.tsx): the stored prompt settings are
// merged over defaults and written into the variable header of the generated prompt.
module CopyPrompt {
  import opened Wrappers
  import opened BucketCreate

  /** Settings as stored with a bucket; a key that is missing is `None`. */
  datatype PartialSettings = PartialSettings(
    subject: Option<string>,
    experienceLevel: Option<string>,
    progressiveDifficulty: Option<bool>,
    keyConcepts: Option<string>,
    learningGoal: Option<string>,
    character: Option<string>)

  const Defaults: PromptSettings := PromptSettings(
    "general knowledge",
    "none",
    true,
    "fundamental concepts and practical understanding",
    "develop comprehensive understanding",
    "a knowledgeable and patient teacher")

  /** `{ ...base, ...given }`: each key the caller gives wins, every other key keeps the base value. */
  function Merge(base: PromptSettings, given: PartialSettings): (s: PromptSettings)
    ensures s.subject == given.subject.GetOr(base.subject)
    ensures s.experienceLevel == given.experienceLevel.GetOr(base.experienceLevel)
    ensures s.progressiveDifficulty == given.progressiveDifficulty.GetOr(base.progressiveDifficulty)
    ensures s.keyConcepts == given.keyConcepts.GetOr(base.keyConcepts)
    ensures s.learningGoal == given.learningGoal.GetOr(base.learningGoal)
    ensures s.character == given.character.GetOr(base.character)
  {
    PromptSettings(given.subject.GetOr(base.subject), given.experienceLevel.GetOr(base.experienceLevel),
                   given.progressiveDifficulty.GetOr(base.progressiveDifficulty),
                   given.keyConcepts.GetOr(base.keyConcepts), given.learningGoal.GetOr(base.learningGoal),
                   given.character.GetOr(base.character))
  }

  /** The settings with every key present. */
  function AsPartial(s: PromptSettings): PartialSettings {
    PartialSettings(Some(s.subject), Some(s.experienceLevel), Some(s.progressiveDifficulty), Some(s.keyConcepts),
                    Some(s.learningGoal), Some(s.character))
  }

  const Nothing: PartialSettings := PartialSettings(None, None, None, None, None, None)

  /** With no key given, the prompt uses the defaults. */
  lemma MergeNothingIsDefaults()
    ensures Merge(Defaults, Nothing) == Defaults
    ensures Merge(Defaults, Nothing).subject == "general knowledge"
    ensures Merge(Defaults, Nothing).progressiveDifficulty
  {
  }

  /** Settings written by the bucket page carry every key, so the defaults never show through them. */
  lemma CompleteSettingsWin(base: PromptSettings, s: PromptSettings)
    ensures Merge(base, AsPartial(s)) == s
  {
  }

  /** Merging is idempotent: merging the merged settings over the same base changes nothing. */
  lemma MergeIdempotent(base: PromptSettings, given: PartialSettings)
    ensures Merge(base, AsPartial(Merge(base, given))) == Merge(base, given)
  {
    CompleteSettingsWin(base, Merge(base, given));
  }

  /** A quoted variable line, `{{NAME}}="value"`. */
  function QuotedLine(name: string, value: string): string {
    "{{" + name + "}}=\"" + value + "\""
  }

  /** An unquoted variable line, `{{NAME}}=value`. */
  function PlainLine(name: string, value: string): string {
    "{{" + name + "}}=" + value
  }

  function BoolText(b: bool): string {
    if b then "true" else "false"
  }

  const FixedLines: seq<string> := [
    "",
    "## Question Variables",
    PlainLine("TITLE_MAX_LENGTH", "7"),
    PlainLine("MIN_CORRECTNESS_PERCENT", "70"),
    PlainLine("CONCEPTS_PER_QUESTION", "2"),
    "",
    "### Quiz Variables",
    PlainLine("OPEN_QUESTION_NUMBER", "5"),
    PlainLine("FILL_IN_THE_BLANK_NUMBER", "5"),
    PlainLine("FLASHCARD_NUMBER", "5"),
    PlainLine("MICRO_REEL_NUMBER", "5"),
    PlainLine("MULTIPLE_CHOICE_QUESTION_NUMBER", "5")]

  /** The variable header of the generated prompt, line by line, for the given stored settings. */
  function HeaderLines(given: PartialSettings): (lines: seq<string>)
    ensures |lines| == 21 && lines[9..] == FixedLines
  {
    var s := Merge(Defaults, given);
    ["", "## VARIABLES", "### Subject Variables",
     QuotedLine("CHARACTER", s.character),
     QuotedLine("SUBJECT", s.subject),
     QuotedLine("EXPERIENCE_LEVEL", s.experienceLevel),
     QuotedLine("KEY_CONCEPTS", s.keyConcepts),
     QuotedLine("LEARNING_GOAL", s.learningGoal),
     PlainLine("PROGRESSIVE_DIFFICULTY", BoolText(s.progressiveDifficulty))] + FixedLines
  }

  /** The value of a quoted variable line for `name`, if the line is one. */
  function ReadQuoted(name: string, line: string): (r: Option<string>)
    ensures r.Some? ==> QuotedLine(name, r.value) == line
  {
    var head := "{{" + name + "}}=\"";
    if |line| > |head| && line[..|head|] == head && line[|line| - 1] == '"' then
      var v := line[|head|..|line| - 1];
      assert QuotedLine(name, v) == head + v + "\"";
      assert line == line[..|head|] + v + [line[|line| - 1]];
      Some(v)
    else None
  }

  lemma ReadQuotedLine(name: string, value: string)
    ensures ReadQuoted(name, QuotedLine(name, value)) == Some(value)
  {
    var head := "{{" + name + "}}=\"";
    var line := QuotedLine(name, value);
    assert line == head + value + "\"";
    assert line[..|head|] == head;
    assert line[|head|..|line| - 1] == value;
  }

  /** The value of the progressive-difficulty line: exactly the two literals are flags. */
  function ReadFlag(line: string): (r: Option<bool>)
    ensures r.Some? ==> PlainLine("PROGRESSIVE_DIFFICULTY", BoolText(r.value)) == line
  {
    if line == PlainLine("PROGRESSIVE_DIFFICULTY", "true") then Some(true)
    else if line == PlainLine("PROGRESSIVE_DIFFICULTY", "false") then Some(false)
    else None
  }

  /** The settings a header states, read back from its subject lines. */
  function ReadSettings(lines: seq<string>): (r: Option<PromptSettings>)
    ensures r.Some? ==> |lines| >= 9
  {
    if |lines| < 9 then None
    else
      match (ReadQuoted("CHARACTER", lines[3]), ReadQuoted("SUBJECT", lines[4]),
             ReadQuoted("EXPERIENCE_LEVEL", lines[5]), ReadQuoted("KEY_CONCEPTS", lines[6]),
             ReadQuoted("LEARNING_GOAL", lines[7]), ReadFlag(lines[8]))
      case (Some(character), Some(subject), Some(level), Some(concepts), Some(goal), Some(flag)) =>
        Some(PromptSettings(subject, level, flag, concepts, goal, character))
      case _ => None
  }

  /**
    * The header states the merged settings: reading its lines back gives each variable's merged value,
    * the five quoted ones in order CHARACTER, SUBJECT, EXPERIENCE_LEVEL, KEY_CONCEPTS, LEARNING_GOAL
    * and the flag as the literal true or false.
    */
  lemma HeaderRoundTrip(given: PartialSettings)
    ensures ReadSettings(HeaderLines(given)) == Some(Merge(Defaults, given))
  {
    var s := Merge(Defaults, given);
    ReadQuotedLine("CHARACTER", s.character);
    ReadQuotedLine("SUBJECT", s.subject);
    ReadQuotedLine("EXPERIENCE_LEVEL", s.experienceLevel);
    ReadQuotedLine("KEY_CONCEPTS", s.keyConcepts);
    ReadQuotedLine("LEARNING_GOAL", s.learningGoal);
    assert ReadFlag(HeaderLines(given)[8]) == Some(s.progressiveDifficulty) by {
      assert PlainLine("PROGRESSIVE_DIFFICULTY", "true") != PlainLine("PROGRESSIVE_DIFFICULTY", "false") by {
        assert |PlainLine("PROGRESSIVE_DIFFICULTY", "true")| != |PlainLine("PROGRESSIVE_DIFFICULTY", "false")|;
      }
    }
  }

  /** The flag line says true exactly when the merged flag is set. */
  lemma FlagLineTrueIff(given: PartialSettings)
    ensures HeaderLines(given)[8] == PlainLine("PROGRESSIVE_DIFFICULTY", "true")
            <==> Merge(Defaults, given).progressiveDifficulty
  {
    HeaderRoundTrip(given);
  }

  /** Two headers differ at most in their subject variables. */
  lemma FixedPartIndependent(a: PartialSettings, b: PartialSettings)
    ensures HeaderLines(a)[..3] == HeaderLines(b)[..3]
    ensures HeaderLines(a)[9..] == HeaderLines(b)[9..]
  {
  }
}
