// The bucket creation form (src/pages/Buckets/BucketCreate/components/BucketCreateForm.tsx):
// the values it holds, how choosing a level constrains progressive difficulty, and what a
// submission hands on.
module BucketCreateForm {
  import opened Wrappers
  import opened Text
  import opened JsonValue
  import opened BucketSchema
  import BucketCreate

  /** The free-text inputs of the form. */
  datatype TextField = NameField | SubjectField | KeyConceptsField | LearningGoalField | CharacterField

  const AdvancedHelp: string := "Not available for advanced level (already at highest difficulty)"
  const HelpHead: string := "Gradually increase difficulty from "
  const HelpTail: string := " to advanced throughout the session"

  /**
    * The hint under the progressive-difficulty checkbox: a refusal for the advanced level, and
    * otherwise the range from the chosen level ("basic" for no experience) up to advanced.
    */
  function HelperText(level: string): (r: string)
    ensures level == "advanced" ==> r == AdvancedHelp
    ensures level != "advanced" ==>
              var from := if level == "none" then "basic" else level;
              |r| == |HelpHead| + |from| + |HelpTail|
              && IsPrefix(HelpHead, r) && r[|HelpHead|..|HelpHead| + |from|] == from
              && r[|HelpHead| + |from|..] == HelpTail
  {
    if level == "advanced" then AdvancedHelp
    else if level == "none" then HelpHead + "basic" + HelpTail
    else HelpHead + level + HelpTail
  }

  /** Any level but advanced and no experience is named in its hint. */
  lemma HintNamesLevel(level: string)
    requires level != "advanced" && level != "none"
    ensures Contains(HelperText(level), level)
  {
    ContainsIffOccurs(HelperText(level), level);
    assert OccursAt(HelperText(level), level, |HelpHead|);
  }

  /**
    * What a radio input without a `value` attribute reports when it is checked: the visibility cards
    * register such an input, so choosing either card stores this.
    */
  const RadioDefaultValue: string := "on"

  /** The values of the form as the schema sees them: every field is present. */
  function FormInput(name: string, subject: string, visibility: string, level: string, progressive: bool,
                     keyConcepts: string, learningGoal: string, character: string): BucketInput {
    BucketInput(Some(name), Some(subject), Some(visibility), Some(level), Some(progressive),
                Some(keyConcepts), Some(learningGoal), Some(character))
  }

  /**
    * With visibility and level chosen from the radio options, the schema accepts the form exactly
    * when the name has five characters and the subject is not empty.
    */
  lemma FormAcceptedIffNameAndSubject(name: string, subject: string, v: Visibility, l: ExperienceLevel,
                                      progressive: bool, keyConcepts: string, learningGoal: string,
                                      character: string)
    ensures ParseBucket(FormInput(name, subject, VisibilityName(v), LevelName(l), progressive, keyConcepts,
                                  learningGoal, character)).Success?
            <==> Utf16Length(name) >= 5 && subject != ""
  {
    match v
    case Public =>
    case Private =>
  }

  /** A clicked visibility card leaves the value the schema rejects with its listing of the options. */
  lemma ClickedVisibilityRejected(name: string, subject: string, l: ExperienceLevel, progressive: bool,
                                  keyConcepts: string, learningGoal: string, character: string)
    ensures var r := ParseBucket(FormInput(name, subject, RadioDefaultValue, LevelName(l), progressive,
                                           keyConcepts, learningGoal, character));
            r.Failure?
            && Issue([Key("visibility")], "Invalid enum value. Expected 'public' | 'private', received 'on'") in r.error
  {
    var input := FormInput(name, subject, RadioDefaultValue, LevelName(l), progressive, keyConcepts, learningGoal,
                           character);
    var all := [NameIssue(input), SubjectIssue(input), VisibilityIssue(input), LevelIssue(input)];
    assert ParseVisibility(RadioDefaultValue).None?;
    var message := "Invalid enum value. Expected " + VisibilityOptionsText + ", received '" + RadioDefaultValue + "'";
    assert all[2] == Some(Issue([Key("visibility")], message));
    assert message == "Invalid enum value. Expected 'public' | 'private', received 'on'";
    IssueListed(all, 2);
  }

  class Form {
    var name: string
    var subject: string
    var visibility: string
    var experienceLevel: string
    var progressiveDifficulty: bool
    var keyConcepts: string
    var learningGoal: string
    var character: string

    /**
      * The level is always one of the offered options and visibility one of them or what a clicked
      * card stores; advanced is never progressive.
      */
    ghost predicate Valid()
      reads this
    {
      (visibility == RadioDefaultValue || ParseVisibility(visibility).Some?) && ParseLevel(experienceLevel).Some?
      && (experienceLevel == "advanced" ==> !progressiveDifficulty)
    }

    /** Whether the checkbox can be ticked. */
    predicate ProgressiveEnabled()
      reads this
    {
      experienceLevel != "advanced"
    }

    function Values(): BucketInput
      reads this
    {
      FormInput(name, subject, visibility, experienceLevel, progressiveDifficulty, keyConcepts, learningGoal,
                character)
    }

    /** The default values: public, no experience, not progressive, every text empty. */
    constructor()
      ensures Valid()
      ensures name == "" && subject == "" && visibility == "public" && experienceLevel == "none"
      ensures !progressiveDifficulty && keyConcepts == "" && learningGoal == "" && character == ""
    {
      name, subject, visibility, experienceLevel := "", "", "public", "none";
      progressiveDifficulty := false;
      keyConcepts, learningGoal, character := "", "", "";
    }

    /** Back to the default values. */
    method Reset()
      modifies this
      ensures Valid()
      ensures name == "" && subject == "" && visibility == "public" && experienceLevel == "none"
      ensures !progressiveDifficulty && keyConcepts == "" && learningGoal == "" && character == ""
    {
      name, subject, visibility, experienceLevel := "", "", "public", "none";
      progressiveDifficulty := false;
      keyConcepts, learningGoal, character := "", "", "";
    }

    /** Typing into one of the text inputs changes that value only. */
    method EditText(field: TextField, value: string)
      requires Valid()
      modifies this
      ensures Valid()
      ensures name == (if field == NameField then value else old(name))
      ensures subject == (if field == SubjectField then value else old(subject))
      ensures keyConcepts == (if field == KeyConceptsField then value else old(keyConcepts))
      ensures learningGoal == (if field == LearningGoalField then value else old(learningGoal))
      ensures character == (if field == CharacterField then value else old(character))
      ensures visibility == old(visibility) && experienceLevel == old(experienceLevel)
      ensures progressiveDifficulty == old(progressiveDifficulty)
    {
      match field
      case NameField => name := value;
      case SubjectField => subject := value;
      case KeyConceptsField => keyConcepts := value;
      case LearningGoalField => learningGoal := value;
      case CharacterField => character := value;
    }

    /** The card drawn as selected: the one whose option equals the stored value. */
    predicate Highlighted(v: Visibility)
      reads this
    {
      visibility == VisibilityName(v)
    }

    /**
      * Clicking a visibility card as the form is written: whichever card it is, the value stored is
      * the radio's default, so neither card is then drawn as selected.
      */
    method ClickVisibilityAsWritten(v: Visibility)
      requires Valid()
      modifies this
      ensures Valid()
      ensures visibility == RadioDefaultValue
      ensures forall o :: !Highlighted(o)
      ensures Values() == old(Values()).(visibility := Some(RadioDefaultValue))
    {
      visibility := RadioDefaultValue;
    }

    /** Clicking a visibility card once the radio carries its option's value: that option is stored. */
    method SelectVisibility(v: Visibility)
      requires Valid()
      modifies this
      ensures Valid()
      ensures visibility == VisibilityName(v)
      ensures Highlighted(v) && forall o :: Highlighted(o) <==> o == v
      ensures Values() == old(Values()).(visibility := Some(VisibilityName(v)))
    {
      visibility := VisibilityName(v);
    }

    /** Choosing advanced also clears progressive difficulty; any other level leaves it alone. */
    method SelectLevel(l: ExperienceLevel)
      requires Valid()
      modifies this
      ensures Valid()
      ensures experienceLevel == LevelName(l)
      ensures progressiveDifficulty == (if l == Advanced then false else old(progressiveDifficulty))
      ensures Values() == old(Values()).(experienceLevel := Some(LevelName(l)),
                                         progressiveDifficulty := Some(progressiveDifficulty))
    {
      experienceLevel := LevelName(l);
      if l == Advanced {
        progressiveDifficulty := false;
      }
    }

    /** The checkbox; it is disabled at the advanced level. */
    method SetProgressive(b: bool)
      requires Valid() && ProgressiveEnabled()
      modifies this
      ensures Valid()
      ensures progressiveDifficulty == b
      ensures Values() == old(Values()).(progressiveDifficulty := Some(b))
    {
      progressiveDifficulty := b;
    }

    /**
      * Submitting the form, followed by the page's payload: nothing is sent unless the name has five
      * UTF-16 units, the subject is not empty and visibility is still an option (not a clicked card's
      * default); what is sent carries the form's values, and an
      * advanced bucket is never progressive.
      */
    method Submit() returns (payload: Option<BucketCreate.BucketPayload>)
      requires Valid()
      ensures payload.Some? <==> Utf16Length(name) >= 5 && subject != "" && visibility != RadioDefaultValue
      ensures payload.Some? ==>
                payload.value.name == name && payload.value.visibility == visibility
                && payload.value.promptSettings.subject == subject
                && payload.value.promptSettings.experienceLevel == experienceLevel
                && payload.value.promptSettings.progressiveDifficulty == progressiveDifficulty
                && payload.value.promptSettings.keyConcepts == keyConcepts
                && payload.value.promptSettings.learningGoal == learningGoal
                && payload.value.promptSettings.character == character
      ensures payload.Some? && experienceLevel == "advanced" ==> !payload.value.promptSettings.progressiveDifficulty
    {
      var l := ParseLevel(experienceLevel).value;
      if visibility == RadioDefaultValue {
        ClickedVisibilityRejected(name, subject, l, progressiveDifficulty, keyConcepts, learningGoal, character);
      } else {
        var v := ParseVisibility(visibility).value;
        FormAcceptedIffNameAndSubject(name, subject, v, l, progressiveDifficulty, keyConcepts, learningGoal,
                                      character);
      }
      var r := ParseBucket(Values());
      if r.Success? {
        payload := Some(BucketCreate.ToPayload(r.value));
      } else {
        payload := None;
      }
    }
  }
}
