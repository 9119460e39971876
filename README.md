# MindSpark quiz content, modelled in Dafny

MindSpark is a React/TypeScript app for learning from "buckets" (study topics). A bucket holds question sets. Each question set is a JSON bundle of open questions, multiple-choice questions, fill-in-the-blank items, flashcards and micro reels. This project models the app's core logic and proves properties of the model:

- **Content validation** (`QuestionSchemas`, `ValidationErrors`, `JsonValue`). The schema of a question bundle is written over an abstract JSON value, together with the set-id transform that fills in a version-4 UUID. Issues are collected Zod-style, and validation results are turned into the messages the upload screens show.
- **Upload flow**:
  - `FileUploader`: the extension and size gate and the outcome of processing a file.
  - `JsonUpload`: the file/text panel with its mode lock.
  - `UploadPage`: the upload page's fields, form validity, per-type counts and post-upload reset.
- **Quiz session** (`Quiz`, `QuizProgress`):
  - flattening a question set into tagged items with type-prefixed instance keys;
  - the shuffle (a permutation);
  - progress counting over the map of reported states;
  - navigation, start and restart;
  - the info-versus-data count fallback.
- **The five quiz cards** (`OpenQuestionCard`, `MultipleChoiceCard`, `FillInTheBlankCard`, `FlashcardCard`, `MicroReelCard`). Each is a class whose methods are the component's handlers. The timers are the explicit methods `Tick` and `AnimationDone`.
- **Buckets**:
  - search and visibility filtering (`Buckets`);
  - the bucket form schema and form (`BucketSchema`, `BucketCreateForm`);
  - the two payload mappings (`BucketCreate`, `CreateBucket`);
  - the prompt-settings merge and prompt header (`CopyPrompt`);
  - the questions page's counts (`QuestionsPage`);
  - the accordion (`Accordion`).
- **Shared modules**: `Wrappers` (Option/Result), `Text` (trim, ASCII lower-casing, `includes`, decimal rendering, `padStart`, `join`, and `length` in UTF-16 code units, which is what every minimum-length check in the app counts) and `Content` (the entity records).

Pure code is modelled as functions with lemmas. React state is modelled as classes, one field per `useState`, with one method per handler. Each method's contract gives the handler's whole new state and what it reports.

Where the code and the written design disagree, the model follows the code. The schema asks for at least one answer per multiple-choice or fill-in-the-blank item, not four. It also accepts empty arrays.

## Model

| member | source | states |
|---|---|---|
| QuestionSchemas.ParseText | src/utils/validation/questionSchemas.ts:4-34 | accepts exactly a non-empty string and yields it; otherwise exactly one issue under the field's path, with the schema's message when a string was too short |
| QuestionSchemas.ParseBool | src/utils/validation/questionSchemas.ts:5 | accepts exactly a boolean and yields it; otherwise one type issue under the field's path |
| QuestionSchemas.ParseItems | src/utils/validation/questionSchemas.ts:17-44 | succeeds exactly when every element parses, yields one value per element, and a failure carries at least one issue |
| QuestionSchemas.ParseArray | src/utils/validation/questionSchemas.ts:17-44 | accepts exactly an array of at least the minimum length whose elements all parse; one value per element; a failure carries at least one issue |
| QuestionSchemas.ParseAnswer | src/utils/validation/questionSchemas.ts:3-6 | accepts exactly a conforming answer object, yields a valid answer, and never fails without an issue |
| QuestionSchemas.ParseOpenQuestion | src/utils/validation/questionSchemas.ts:8-12 | accepts exactly a conforming open question, yields a valid one, and never fails without an issue |
| QuestionSchemas.ParseAnswerQuestion | src/utils/validation/questionSchemas.ts:14-24 | accepts exactly an item with id, question and at least one conforming answer, yields a valid one, and never fails without an issue |
| QuestionSchemas.ParseFlashcard | src/utils/validation/questionSchemas.ts:26-30 | accepts exactly a conforming flashcard, yields a valid one, and never fails without an issue |
| QuestionSchemas.ParseMicroReel | src/utils/validation/questionSchemas.ts:32-35 | accepts exactly a conforming micro reel, yields a valid one, and never fails without an issue |
| QuestionSchemas.AnswerParserReportsIssues | src/utils/validation/questionSchemas.ts:3-6 | the answer parser never rejects without saying why |
| QuestionSchemas.ParseSetId | src/utils/validation/questionSchemas.ts:39 | accepts an absent id or a non-empty string, keeping absence as absence; otherwise reports an issue |
| QuestionSchemas.ParseOpenQuestions | src/utils/validation/questionSchemas.ts:40 | accepts exactly an array, empty included, of conforming open questions, one value per element |
| QuestionSchemas.ParseAnswerQuestions | src/utils/validation/questionSchemas.ts:41-42 | accepts exactly an array, empty included, of conforming multiple-choice or fill-in-the-blank items, one value per element |
| QuestionSchemas.ParseFlashcards | src/utils/validation/questionSchemas.ts:43 | accepts exactly an array, empty included, of conforming flashcards, one value per element |
| QuestionSchemas.ParseMicroReels | src/utils/validation/questionSchemas.ts:44 | accepts exactly an array, empty included, of conforming micro reels, one value per element |
| QuestionSchemas.ParseBaseQuestions | src/utils/validation/questionSchemas.ts:38-45 | accepts exactly a conforming bundle document; each field of the bundle is what its own parser makes of the same key; a rejected object carries the issues of id, open questions, multiple choice, fill in the blank, flashcards and micro reels in that order, and a non-object gets exactly one type issue at the root |
| QuestionSchemas.AnswerRoundTrip | src/utils/validation/questionSchemas.ts:3-6 | a valid answer, encoded as a document, validates back to itself |
| QuestionSchemas.AnswerQuestionRoundTrip | src/utils/validation/questionSchemas.ts:14-24 | a valid multiple-choice or fill-in-the-blank item validates back to itself |
| QuestionSchemas.OpenQuestionRoundTrip | src/utils/validation/questionSchemas.ts:8-12 | a valid open question validates back to itself |
| QuestionSchemas.OpenQuestionsRoundTrip | src/utils/validation/questionSchemas.ts:40 | a list of valid open questions validates back to itself |
| QuestionSchemas.AnswerQuestionsRoundTrip | src/utils/validation/questionSchemas.ts:41-42 | a list of valid answer items validates back to itself under either key |
| QuestionSchemas.FlashcardRoundTrip | src/utils/validation/questionSchemas.ts:26-30 | a valid flashcard validates back to itself |
| QuestionSchemas.FlashcardsRoundTrip | src/utils/validation/questionSchemas.ts:43 | a list of valid flashcards validates back to itself |
| QuestionSchemas.MicroReelsRoundTrip | src/utils/validation/questionSchemas.ts:44 | a list of valid micro reels validates back to itself |
| QuestionSchemas.EncodeBundleFields | src/utils/validation/questionSchemas.ts:38-45 | an encoded bundle is an object holding each encoded list under its schema key, and the id key exactly when the bundle has an id |
| QuestionSchemas.BundleRoundTrip | src/utils/validation/questionSchemas.ts:38-45 | every valid bundle survives encoding and base validation unchanged |
| QuestionSchemas.EmptyObjectIssues | src/utils/validation/questionSchemas.ts:40-44 | an empty object is rejected with a "Required" issue for each of the five arrays, in key order |
| QuestionSchemas.BrokenOpenQuestionIssues | src/utils/validation/questionSchemas.ts:8-12 | an open question with empty text and an empty answer gets one issue for each, each under its own path with the schema's message |
| QuestionSchemas.BrokenBundleFields | src/utils/validation/questionSchemas.ts:39-44 | in a bundle with an empty id and a number for micro_reels, exactly those two fields fail, each with its own issue |
| QuestionSchemas.AllIssuesCollected | src/utils/validation/questionSchemas.ts:38-45 | that two-field example reports both issues, in key order, not only the first |
| QuestionSchemas.HexDigit | src/utils/validation/questionSchemas.ts:54 | a single hexadecimal digit is written in lower case |
| QuestionSchemas.FillTemplate | src/utils/validation/questionSchemas.ts:51-55 | the result has the template's length and each position holds what that template character may be replaced by |
| QuestionSchemas.UuidTemplateChars | src/utils/validation/questionSchemas.ts:51 | the template is 36 characters laid out as the UUID groups |
| QuestionSchemas.ShapeFromTemplate | src/utils/validation/questionSchemas.ts:51-55 | any text following the template character by character has the version-4 UUID shape |
| QuestionSchemas.FilledFollowsTemplate | src/utils/validation/questionSchemas.ts:51-55 | the filled template follows the template at every one of its 36 positions |
| QuestionSchemas.GenerateSetId | src/utils/validation/questionSchemas.ts:51-55 | whatever the random draws, the generated id has the version-4 UUID shape |
| QuestionSchemas.FillSetId | src/utils/validation/questionSchemas.ts:48-58 | the result always has a non-empty id; a non-empty id leaves the bundle as it is; a missing or empty one is replaced by a generated id and nothing else changes |
| QuestionSchemas.ParseQuestions | src/utils/validation/questionSchemas.ts:38-58 | accepts exactly a conforming bundle; the result then has an id, is valid and is the base result with the id filled; a rejection is the base schema's |
| QuestionSchemas.QuestionsRoundTrip | src/utils/validation/questionSchemas.ts:48-58 | a valid bundle with an id passes the full schema unchanged, whatever the random source |
| QuestionSchemas.QuestionsGenerateId | src/utils/validation/questionSchemas.ts:48-58 | a valid bundle without an id passes with the same content under a UUID-shaped id |
| ValidationErrors.FormatIssue | src/pages/Upload/Upload.tsx:205-208 | an issue's message is its dotted path, ": ", then its own message |
| ValidationErrors.FormatIssues | src/pages/Upload/Upload.tsx:205-208 | one message per issue, in the issues' order |
| ValidationErrors.ErrorsOf | src/pages/Upload/Upload.tsx:198-211 | a syntax error shows exactly its own message; a schema error one message per issue; anything else its own message, or "Unknown validation error" when it has none |
| ValidationErrors.SchemaErrors | src/components/ui/FileUploader/FileUploader.tsx:68-71 | the file uploader shows one message per issue, or "Invalid schema format" when there is no issue list |
| ValidationErrors.SchemaMessagesAgree | src/components/ui/FileUploader/FileUploader.tsx:68-71 | for a schema failure the pages and the file uploader show the same messages, one per issue |
| ValidationErrors.RootIssueMessage | src/pages/Upload/Upload.tsx:206-207 | a message about the top-level value starts with ": ", its path being empty |
| ValidationErrors.ValidateText | src/pages/Upload/Upload.tsx:175-224 | valid exactly when the text parses and the schema accepts it, then with no message and the schema's data; otherwise no data, with the parser's one message or the schema failure's messages |
| ValidationErrors.QuestionsSchemaParse | src/pages/Upload/Upload.tsx:188 | the question schema as a thrower succeeds exactly on conforming values, with the schema's data, and otherwise throws its issues |
| ValidationErrors.QuestionTextOutcome | src/pages/Upload/Upload.tsx:180-212 | pasted text that parses validates exactly when it conforms, with the schema's data; a rejected bundle shows one message per issue and never none |
| FileUploader.LastPart | src/components/ui/FileUploader/FileUploader.tsx:45 | the last part of a name is its longest suffix without a dot, and a dot comes just before it unless it is the whole name |
| FileUploader.ExtensionAfterLastDot | src/components/ui/FileUploader/FileUploader.tsx:45 | with a last dot in the name, the extension is a dot and the lower-cased text after it |
| FileUploader.ExtensionWithoutDot | src/components/ui/FileUploader/FileUploader.tsx:45 | a name without a dot is its own extension after a dot, so a file named json passes as .json |
| FileUploader.ValidateFile | src/components/ui/FileUploader/FileUploader.tsx:43-57 | a file may be read exactly when its extension is accepted and its size is at most the limit in mebibytes; the type check comes first, with the accepted list joined by ", ", then the size message |
| FileUploader.DefaultGate | src/components/ui/FileUploader/FileUploader.tsx:23-24 | with the defaults, a file passes exactly when its extension is .json and it has at most 5242880 bytes |
| FileUploader.ValidateJsonSchema | src/components/ui/FileUploader/FileUploader.tsx:59-79 | valid exactly when the question schema accepts the value, then with no message and the schema's data; otherwise no data and one "path: message" per schema issue, never none |
| FileUploader.ProcessFile | src/components/ui/FileUploader/FileUploader.tsx:81-116 | data is delivered exactly when the text parses and conforms; for parsed text the result is exactly the schema validation of the parsed value; a valid result keeps the file and shows nothing; an invalid one drops the file, shows messages and reports "Schema validation failed: " followed by the messages joined by ", "; a parse failure reports exactly the one invalid-JSON message; the listener is told the shown result |
| FileUploader.Select | src/components/ui/FileUploader/FileUploader.tsx:118-133 | an empty selection does nothing; otherwise a valid result always comes with a kept file and data, and the listener gets the shown result |
| FileUploader.SelectFirstFile | src/components/ui/FileUploader/FileUploader.tsx:121-132 | only the first file is looked at: one the gate refuses shows the gate's message, keeps the file kept so far and delivers nothing; one it lets through is processed |
| FileUploader.OnlyFirstFileCounts | src/components/ui/FileUploader/FileUploader.tsx:121-122 | files after the first of a selection do not change the outcome |
| FileUploader.SelectWithoutListenerAsWritten | src/components/ui/FileUploader/FileUploader.tsx:86-133 | as written, without onValidationChange no selection delivers data or reports an error, the kept file never changes, and any file that passes the gate ends with the invalid-JSON message |
| FileUploader.MissingListenerLosesValidFile | src/components/ui/FileUploader/FileUploader.tsx:89-95 | a conforming file that passes the gate is lost and reported as invalid JSON by the handler as written without a listener, while the guarded handler delivers its data |
| FileUploader.Uploader.constructor | src/components/ui/FileUploader/FileUploader.tsx:19-34 | the uploader starts with no file and the cleared result, with the accepted types, size limit and listener given |
| FileUploader.Uploader.HandleFileSelect | src/components/ui/FileUploader/FileUploader.tsx:118-153 | the selection's outcome, with what it keeps and shows stored; an empty selection changes nothing; a valid result always has its file and data |
| FileUploader.Uploader.Apply | src/components/ui/FileUploader/FileUploader.tsx:90-126 | the shown result and the kept file become the outcome's |
| FileUploader.Uploader.RemoveFile | src/components/ui/FileUploader/FileUploader.tsx:155-162 | removing drops the file, clears the result and tells the listener the cleared result |
| JsonUpload.Panel.constructor | src/pages/Upload/components/JsonUpload.tsx:26-34 | the panel starts in file mode with no text, no data and the cleared result |
| JsonUpload.Panel.CanSwitchMode | src/pages/Upload/components/JsonUpload.tsx:36 | under the invariant, switching is allowed exactly when no data is kept |
| JsonUpload.Panel.HandleFileUpload | src/pages/Upload/components/JsonUpload.tsx:41-44 | the uploaded content is kept, which locks the mode, and passed on; nothing else changes |
| JsonUpload.HandlerGetsFileAsWritten | src/pages/Upload/components/JsonUpload.tsx:41-222 | for every call of the uploader, the handler as passed receives the file and never the validated content; bound to the second argument it receives the content |
| JsonUpload.Panel.SwitchMode | src/pages/Upload/components/JsonUpload.tsx:46-59 | a locked switch changes nothing; otherwise the mode is set and text, result and data are cleared, and the uploader is cleared exactly on a switch from file to text |
| JsonUpload.Panel.ClearCurrentInput | src/pages/Upload/components/JsonUpload.tsx:61-70 | clearing always ends unlocked with the cleared result and no data; the text is emptied in text mode, the uploader cleared in file mode |
| JsonUpload.Panel.ChangeJsonText | src/pages/Upload/components/JsonUpload.tsx:114-122 | the text changes; after any verdict or message the result and the data are cleared, otherwise both are kept |
| JsonUpload.Panel.ValidateText | src/pages/Upload/components/JsonUpload.tsx:124-128 | empty trimmed text changes nothing; otherwise the result is the validation of the trimmed text, the data is its data, and it is passed on exactly when it validated |
| JsonUpload.Panel.SetResult | src/pages/Upload/components/JsonUpload.tsx:84-86 | the verdict of a text validation and its data are shown and kept |
| UploadPage.FieldError | src/pages/Upload/Upload.tsx:104-138 | a field shows a message exactly when its untrimmed length in UTF-16 units is between 1 and 4, and the message is the field's label followed by " must be at least 5 characters long" |
| UploadPage.GetQuestionCounts | src/pages/Upload/Upload.tsx:333-347 | the total is the sum of the five per-type counts |
| UploadPage.StoredInfoAgreesWithCounts | src/pages/Upload/Upload.tsx:75-83 | the info stored with a set has the same five counts as the page's summary, and the quiz shows the same counts whether it reads that info or the data |
| UploadPage.CountsOfBundle | src/pages/Upload/Upload.tsx:333-347 | for validated data the total is the number of items in the five arrays |
| UploadPage.FormValidByTrimmedLengths | src/pages/Upload/Upload.tsx:256-267 | while the messages follow the fields, the form is complete exactly when data is validated, the result is valid, and name, question and answer each have five or more UTF-16 units after trimming |
| UploadPage.PaddedValueFailsSilently | src/pages/Upload/Upload.tsx:104-267 | a value padded with spaces to five characters shows no message, yet keeps the form incomplete |
| UploadPage.Page.constructor | src/pages/Upload/Upload.tsx:50-73 | the page starts in file mode with no data, the cleared result and every field, text and toast empty |
| UploadPage.Page.CanSwitchMode | src/pages/Upload/Upload.tsx:349 | under the invariant, switching is allowed exactly when the result is not valid |
| UploadPage.Page.ChangeName | src/pages/Upload/Upload.tsx:104-114 | the name changes with its message, nothing else |
| UploadPage.Page.ChangeQuestion | src/pages/Upload/Upload.tsx:116-126 | the question changes with its message, nothing else |
| UploadPage.Page.ChangeAnswer | src/pages/Upload/Upload.tsx:128-138 | the answer changes with its message, nothing else |
| UploadPage.Page.SwitchMode | src/pages/Upload/Upload.tsx:140-158 | refused once data is validated or the result is valid; otherwise sets the mode and clears text, result, data and the beautified flag, telling the uploader to clear exactly on a switch from file to text; the form fields never change |
| UploadPage.Page.ClearCurrentInput | src/pages/Upload/Upload.tsx:160-173 | clearing ends with the cleared result and no data, so switching is allowed; the text is emptied in text mode, the uploader cleared in file mode |
| UploadPage.Page.ReceiveSelection | src/pages/Upload/Upload.tsx:85-102 | after the uploader's callbacks for one selection the page shows its result, keeps exactly its delivered data, and shows its error message as an error toast |
| UploadPage.Page.ChangeJsonText | src/pages/Upload/Upload.tsx:226-235 | the text changes; after any verdict or message the result and the data are cleared, otherwise both are kept |
| UploadPage.Page.ValidateText | src/pages/Upload/Upload.tsx:237-241 | empty trimmed text changes nothing; otherwise the result is the question schema's validation of the trimmed text and the data is its data |
| UploadPage.Page.SetResult | src/pages/Upload/Upload.tsx:196-197 | the verdict of a text validation and its data are shown and kept |
| UploadPage.Page.UploadToServer | src/pages/Upload/Upload.tsx:269-320 | an insert of a row is attempted exactly when the form is complete and a user is signed in; the row holds the trimmed name, question and answer, each of five or more UTF-16 units, the data and its counts; success shows the toast quoting the name, resets the form and tells the file uploader to drop its file; failure shows the backend's message, or "Unknown error", and keeps the form and the file |
| UploadPage.Page.ResetForm | src/pages/Upload/Upload.tsx:304-314 | every field, message, text and verdict goes back to empty and no data is kept |
| UploadPage.Page.HideToast | src/pages/Upload/Upload.tsx:319 | the toast's timer hides the toast and changes nothing else |
| QuizProgress.AnsweredIds | src/pages/Quiz/Quiz.tsx:192-194 | the ids counted as answered are exactly the recorded ids whose latest report is submitted, has seen its answer or has been read |
| QuizProgress.CorrectIds | src/pages/Quiz/Quiz.tsx:197-199 | the ids counted as correct are exactly the recorded ids whose latest report has isCorrect true or is marked correct |
| QuizProgress.SubsetCard | src/pages/Quiz/Quiz.tsx:192-199 | a subset has no more elements than its superset (used for the bounds) |
| QuizProgress.CountsBounded | src/pages/Quiz/Quiz.tsx:192-199 | neither counter exceeds the number of distinct ids recorded |
| QuizProgress.AnsweredIdsUpdate | src/pages/Quiz/Quiz.tsx:191-194 | after recording a report for an id, the answered ids are the other ids' answered ids plus that id exactly when its new report counts |
| QuizProgress.CorrectIdsUpdate | src/pages/Quiz/Quiz.tsx:191-199 | after recording a report for an id, the correct ids are the other ids' correct ids plus that id exactly when its new report counts |
| QuizProgress.UpdateCounts | src/pages/Quiz/Quiz.tsx:186-205 | recording a report counts that id by the new report alone and every other id as before |
| QuizProgress.RepeatedReportUnchanged | src/pages/Quiz/Quiz.tsx:177-180 | reporting the same state for the same id again leaves both counters unchanged, the map entry being overwritten |
| QuizProgress.SharedIdKeepsLatest | src/pages/Quiz/Quiz.tsx:177-180 | two items with the same question id share one entry: only the later report is counted |
| Quiz.MakeItem | src/pages/Quiz/Quiz.tsx:117-122 | an item carries the question's data, its type and id, and an instance key starting with the type's prefix, a dash, the id and a dash |
| Quiz.OrEmpty | src/pages/Quiz/Quiz.tsx:116 | a missing array contributes as many questions as its length-or-0, that is none |
| Quiz.Items | src/pages/Quiz/Quiz.tsx:112-163 | one item per question, in order |
| Quiz.ItemsAppend | src/pages/Quiz/Quiz.tsx:112-163 | the items of two runs of questions are the items of the first followed by those of the second, keys numbered on |
| Quiz.ItemsSnoc | src/pages/Quiz/Quiz.tsx:117 | pushing one more question appends exactly its item |
| Quiz.FlattenLength | src/pages/Quiz/Quiz.tsx:112-163 | the flattened list has one item per question: the sum of the five array lengths, a missing array adding 0 |
| Quiz.AllDataLayout | src/pages/Quiz/Quiz.tsx:115-163 | questions appear once each, in the order open, multiple choice, fill in the blank, flashcard, micro reel, each array in its own order |
| Quiz.FlattenItems | src/pages/Quiz/Quiz.tsx:117-162 | the k-th item has the k-th question's data, type and id |
| Quiz.InstanceKeysPrefixed | src/pages/Quiz/Quiz.tsx:117-162 | every instance key starts with its type's prefix (open, mc, fib, fc, mr), a dash, the question id and a dash |
| Quiz.PushItems | src/pages/Quiz/Quiz.tsx:116-123 | one forEach push loop appends exactly the items of its questions, in order, after what was there |
| Quiz.PushStep | src/pages/Quiz/Quiz.tsx:112-163 | pushing a second array's items after a first array's gives the items of both arrays together |
| Quiz.BuildItems | src/pages/Quiz/Quiz.tsx:112-163 | the five push loops, in type order, build exactly the flattened list |
| Quiz.Shuffle | src/pages/Quiz/Quiz.tsx:166 | the shuffled list is a permutation of the flattened one |
| Quiz.QuestionCountsOf | src/pages/Quiz/Quiz.tsx:247-280 | the stored info's five numbers when present, otherwise the five array lengths (0 for a missing one), and in both cases their sum as the total |
| Quiz.CountsMatchQuiz | src/pages/Quiz/Quiz.tsx:265-280 | without stored info the counted total is the number of items the quiz shows for that data |
| Quiz.QuizSession.constructor | src/pages/Quiz/Quiz.tsx:60-75 | the page starts with no set, not started, no items, index 0, no reports and zero counters |
| Quiz.QuizSession.PrepareQuestions | src/pages/Quiz/Quiz.tsx:112-174 | the items become a permutation of the flattened list and the total their number; nothing else changes |
| Quiz.QuizSession.Load | src/pages/Quiz/Quiz.tsx:102-103 | a fetched set is kept and its items prepared |
| Quiz.QuizSession.ReportState | src/pages/Quiz/Quiz.tsx:176-205 | the report replaces the id's entry; the counters are recounted over the whole map, counting that id by its new report and every other id as before, and stay within the number of ids |
| Quiz.QuizSession.Start | src/pages/Quiz/Quiz.tsx:208-218 | the quiz starts at index 0 with no reports and zero answered, correct and time, keeping the items and the total |
| Quiz.QuizSession.Next | src/pages/Quiz/Quiz.tsx:220-224 | the index moves on only when a next item exists, so an index in range stays in range |
| Quiz.QuizSession.Previous | src/pages/Quiz/Quiz.tsx:226-230 | the index moves back only when above 0, so an index in range stays in range |
| Quiz.QuizSession.Restart | src/pages/Quiz/Quiz.tsx:232-245 | back to the start screen at index 0 with no reports and zero counters; the items of a loaded set are prepared again as a new permutation, otherwise kept |
| Quiz.QuizSession.CurrentQuestion | src/pages/Quiz/Quiz.tsx:282-287 | an item is shown exactly when the index is inside the list, and it is one of the items |
| OpenQuestionCard.Card.constructor | src/pages/Quiz/components/OpenQuestionCard.tsx:16-19 | a new card holds the question with an empty answer and no flag set |
| OpenQuestionCard.Card.ChangeQuestion | src/pages/Quiz/components/OpenQuestionCard.tsx:21-27 | a question with a different id resets the four fields to their initial values; the same id keeps them |
| OpenQuestionCard.Card.Submit | src/pages/Quiz/components/OpenQuestionCard.tsx:29-39 | a non-blank answer is submitted and reported trimmed, as answered and not correct; a blank one changes nothing and reports nothing; the typed answer stays as typed |
| OpenQuestionCard.Card.ShowAnswer | src/pages/Quiz/components/OpenQuestionCard.tsx:41-49 | the model answer is shown and nothing else changes; the report describes the new fields and, from the enabled button, counts as answered |
| OpenQuestionCard.Card.MarkCorrect | src/pages/Quiz/components/OpenQuestionCard.tsx:51-60 | the answer is marked correct and the report carries isCorrect true, so it counts as correct; repeating it leaves the same state |
| OpenQuestionCard.Card.Edit | src/pages/Quiz/components/OpenQuestionCard.tsx:62-72 | submission, shown answer and mark are cleared, the typed answer is kept, and the report counts as neither answered nor correct |
| OpenQuestionCard.Card.ChangeAnswer | src/pages/Quiz/components/OpenQuestionCard.tsx:74-82 | typing replaces the answer and nothing else, and the report describes the new fields |
| OpenQuestionCard.SubmitRevealMark | src/pages/Quiz/components/OpenQuestionCard.tsx:110-148 | typing a non-blank answer, then submitting, revealing and marking through the enabled buttons leaves a report that counts as answered and correct |
| MultipleChoiceCard.AnswerStyle | src/pages/Quiz/components/MultipleChoiceCard.tsx:56-74 | before submitting an option is drawn selected exactly when it is the selection, idle otherwise; after, success exactly when it is a correct option, error exactly when it is the selected wrong one, neutral otherwise |
| MultipleChoiceCard.AtMostOneError | src/pages/Quiz/components/MultipleChoiceCard.tsx:67-70 | after submitting at most one option is drawn as an error, and it is the selected one |
| MultipleChoiceCard.Card.SubmittedCorrect | src/pages/Quiz/components/MultipleChoiceCard.tsx:136-150 | the result message shows exactly when submitted with a selection, and says correct exactly when the selected option is a correct one |
| MultipleChoiceCard.Card.constructor | src/pages/Quiz/components/MultipleChoiceCard.tsx:16-17 | a new card has no selection and is not submitted |
| MultipleChoiceCard.Card.ChangeQuestion | src/pages/Quiz/components/MultipleChoiceCard.tsx:19-23 | a question with a different id clears the selection and the submission; the same id keeps both |
| MultipleChoiceCard.Card.Select | src/pages/Quiz/components/MultipleChoiceCard.tsx:25-33 | while not submitted the selection becomes the option, reported as selected and not submitted; once submitted nothing changes or is reported |
| MultipleChoiceCard.Card.Submit | src/pages/Quiz/components/MultipleChoiceCard.tsx:35-44 | with a selection the card is submitted and reports answered, with isCorrect the selected option's flag; without one nothing changes or is reported; the selection stays in range |
| MultipleChoiceCard.Card.Reset | src/pages/Quiz/components/MultipleChoiceCard.tsx:46-54 | no selection, not submitted, and a report with isCorrect null, counting as neither answered nor correct |
| FillInTheBlankCard.FirstClose | src/pages/Quiz/components/FillInTheBlankCard.tsx:27 | the character class `[^}]+` stops at the first '}' at or after the start, or at the end of the text |
| FillInTheBlankCard.MatchAt | src/pages/Quiz/components/FillInTheBlankCard.tsx:27-29 | a placeholder starting at a position is found exactly when one exists there, and its end is the only possible one |
| FillInTheBlankCard.HasMatchFrom | src/pages/Quiz/components/FillInTheBlankCard.tsx:29 | true exactly when some placeholder starts at or after the position |
| FillInTheBlankCard.BlankInSlice | src/pages/Quiz/components/FillInTheBlankCard.tsx:27-29 | a placeholder found inside a piece is a placeholder of the whole question at the shifted position |
| FillInTheBlankCard.LiteralHasNoMatch | src/pages/Quiz/components/FillInTheBlankCard.tsx:27-29 | a stretch of text in which the split found no placeholder does not match the pattern on its own |
| FillInTheBlankCard.SplitConcat | src/pages/Quiz/components/FillInTheBlankCard.tsx:27 | the split pieces joined give back the question, and there is an odd number of them |
| FillInTheBlankCard.SplitBlanks | src/pages/Quiz/components/FillInTheBlankCard.tsx:27 | every odd-numbered piece of the split is one whole placeholder |
| FillInTheBlankCard.EvenPiecesPrepend | src/pages/Quiz/components/FillInTheBlankCard.tsx:27 | putting a literal and a placeholder in front of a split keeps its even pieces literal |
| FillInTheBlankCard.SplitLiterals | src/pages/Quiz/components/FillInTheBlankCard.tsx:27-29 | no even-numbered piece of the split matches the placeholder pattern |
| FillInTheBlankCard.PartsShape | src/pages/Quiz/components/FillInTheBlankCard.tsx:26-49 | the pieces alternate text, placeholder, ..., text; they spell the question; exactly the odd pieces pass the `part.match` test |
| FillInTheBlankCard.NoPlaceholderOnePart | src/pages/Quiz/components/FillInTheBlankCard.tsx:27 | a question without placeholders splits into itself alone |
| FillInTheBlankCard.PartsExample | src/pages/Quiz/components/FillInTheBlankCard.tsx:27 | "a{{b}}c" splits into "a", "{{b}}" and "c" |
| FillInTheBlankCard.Displays | src/pages/Quiz/components/FillInTheBlankCard.tsx:28-49 | one shown piece per split piece: a placeholder shows the chosen word or "___", any other piece shows itself |
| FillInTheBlankCard.RenderReplacesPlaceholders | src/pages/Quiz/components/FillInTheBlankCard.tsx:26-50 | every placeholder of the question shows the fill and every piece of text between them is shown unchanged, in order |
| FillInTheBlankCard.RenderWithoutPlaceholders | src/pages/Quiz/components/FillInTheBlankCard.tsx:26-50 | a question without placeholders is shown exactly as written |
| FillInTheBlankCard.FindAnswer | src/pages/Quiz/components/FillInTheBlankCard.tsx:65 | finds the first answer with the given text, and finds none exactly when no answer has it |
| FillInTheBlankCard.IsCorrectChoice | src/pages/Quiz/components/FillInTheBlankCard.tsx:65 | true exactly when the first answer carrying that text is marked correct; a text no answer carries is wrong |
| FillInTheBlankCard.ButtonStyle | src/pages/Quiz/components/FillInTheBlankCard.tsx:84-103 | before submitting a button is selected exactly when it is the choice; after, success exactly for a correct answer, error exactly for the chosen wrong one, neutral otherwise |
| FillInTheBlankCard.BlankStyle | src/pages/Quiz/components/FillInTheBlankCard.tsx:34-42 | a placeholder is empty exactly when nothing is chosen, pending exactly while chosen and unsubmitted, right exactly when submitted and the choice is correct |
| FillInTheBlankCard.Card.constructor | src/pages/Quiz/components/FillInTheBlankCard.tsx:16-17 | a new card has no chosen word and is not submitted |
| FillInTheBlankCard.Card.ChangeQuestion | src/pages/Quiz/components/FillInTheBlankCard.tsx:20-23 | a question with a different id clears the choice and the submission; the same id keeps both |
| FillInTheBlankCard.Card.Select | src/pages/Quiz/components/FillInTheBlankCard.tsx:52-60 | before submitting, the choice becomes the word and an unanswered report is sent; after submitting nothing changes and nothing is reported |
| FillInTheBlankCard.Card.Submit | src/pages/Quiz/components/FillInTheBlankCard.tsx:62-72 | with a chosen word the card becomes submitted and reports an answered state that is correct exactly when the choice is; without one nothing happens |
| FillInTheBlankCard.Card.Reset | src/pages/Quiz/components/FillInTheBlankCard.tsx:74-82 | the choice and the submission are cleared and a report with no verdict is sent |
| FlashcardCard.Card.constructor | src/pages/Quiz/components/FlashcardCard.tsx:15-17 | a new card shows its front, is unlocked and has never been viewed |
| FlashcardCard.Card.ChangeFlashcard | src/pages/Quiz/components/FlashcardCard.tsx:20-24 | a card with a different id starts on its front, unlocked, with no views; the same id keeps everything |
| FlashcardCard.Card.Flip | src/pages/Quiz/components/FlashcardCard.tsx:26-54 | ignored while animating; otherwise locks and turns the card, counts a view exactly when it turns to the back, and reports the answer seen exactly when the back has been viewed; the view count equals the number of flips to the back |
| FlashcardCard.Card.AnimationDone | src/pages/Quiz/components/FlashcardCard.tsx:51-53 | the animation timer releases the lock and changes nothing else |
| FlashcardCard.SeenStaysSeen | src/pages/Quiz/components/FlashcardCard.tsx:34-47 | once the back has been viewed, no sequence of later flips lowers the count or makes the answer unseen again |
| FlashcardCard.FlipTwice | src/pages/Quiz/components/FlashcardCard.tsx:26-54 | flipping to the back, waiting for the animation and flipping back leaves one view and reports the answer as seen |
| MicroReelCard.Card.constructor | src/pages/Quiz/components/MicroReelCard.tsx:15-17 | a new reel starts at zero seconds, running and unread |
| MicroReelCard.Card.ChangeReel | src/pages/Quiz/components/MicroReelCard.tsx:20-24 | a reel with a different id restarts at zero, running and unread; the same id keeps everything |
| MicroReelCard.Card.Tick | src/pages/Quiz/components/MicroReelCard.tsx:26-54 | while running, one second is added and reported, read once five seconds are reached; while paused nothing changes and nothing is reported; a read reel stays read and the read flag is always "at least five seconds" |
| MicroReelCard.Card.Pause | src/pages/Quiz/components/MicroReelCard.tsx:62-69 | stops the timer, keeps time and read flag, and reports them as inactive |
| MicroReelCard.Card.Resume | src/pages/Quiz/components/MicroReelCard.tsx:71-78 | restarts the timer, keeps time and read flag, and reports them as active |
| MicroReelCard.ReadAfterFiveTicks | src/pages/Quiz/components/MicroReelCard.tsx:29-54 | five seconds of a fresh reel make it read with five seconds counted |
| MicroReelCard.FormatTime | src/pages/Quiz/components/MicroReelCard.tsx:56-60 | the display ends in "s" exactly when the time is under a minute |
| MicroReelCard.TwoDigitSeconds | src/pages/Quiz/components/MicroReelCard.tsx:58-59 | the padded seconds field is exactly two digits and reads back as the seconds |
| MicroReelCard.ConcatCancel | src/pages/Quiz/components/MicroReelCard.tsx:59 | two displays with the same separator and equally long tails agree in both halves |
| MicroReelCard.NatToStringInjective | src/pages/Quiz/components/MicroReelCard.tsx:59 | different numbers are written differently |
| MicroReelCard.MinuteDisplaysInjective | src/pages/Quiz/components/MicroReelCard.tsx:59 | two minute displays that look alike show the same minutes and seconds |
| MicroReelCard.FormatTimeInjective | src/pages/Quiz/components/MicroReelCard.tsx:56-60 | different reading times are never displayed alike |
| Accordion.Toggle | src/components/ui/Accordion/Accordion.tsx:78-93 | the toggled item flips between open and closed; no other item opens; in multiple mode, and whenever an item closes, every other item keeps its state; opening an item in single mode leaves exactly that item open |
| Accordion.CloseRemovesOnlyIt | src/components/ui/Accordion/Accordion.tsx:82-83 | toggling an open item removes exactly that item from the open set |
| Accordion.ToggleTwiceRestores | src/components/ui/Accordion/Accordion.tsx:78-93 | in multiple mode two toggles of the same item give back the original open set |
| Accordion.SingleModeKeepsOne | src/components/ui/Accordion/Accordion.tsx:85-88 | in single mode a toggle never leaves more than one item open, once at most one item was open |
| Accordion.SingleModeToggleTwiceCloses | src/components/ui/Accordion/Accordion.tsx:82-88 | in single mode, opening an item and toggling it again closes every item |
| Accordion.Group.constructor | src/components/ui/Accordion/Accordion.tsx:69-76 | the open set starts as the set of the default open indices; the mode is the one given |
| Accordion.Group.ToggleItem | src/components/ui/Accordion/Accordion.tsx:78-101 | the open set becomes the toggled set, so the item's `isOpen` flips |
| Buckets.FilterBuckets | src/pages/Buckets/Buckets.tsx:68-76 | a bucket is in the filtered list exactly when it is fetched and both its search match (the lower-cased term inside the lower-cased name, subject or level) and its filter match ('all' or its own visibility) hold; the list is no longer than the fetched one |
| Buckets.FilterKeepsOrder | src/pages/Buckets/Buckets.tsx:68 | the filtered list is an order-preserving subsequence of the fetched buckets |
| Buckets.SubsequenceDropFirst | src/pages/Buckets/Buckets.tsx:68 | dropping the head of a subsequence leaves a subsequence (used for the order lemma) |
| Buckets.SubsequenceWeaken | src/pages/Buckets/Buckets.tsx:68 | a subsequence stays one when an element is put in front of the larger list (used for the order lemma) |
| Buckets.EmptySearchKeepsAll | src/pages/Buckets/Buckets.tsx:69-73 | an empty search term with the 'all' filter keeps every bucket, in order |
| Buckets.SearchIgnoresCase | src/pages/Buckets/Buckets.tsx:69-71 | lower-casing the search term does not change the filtered list |
| Buckets.FilterDependsOnlyOnKept | src/pages/Buckets/Buckets.tsx:69-75 | two search terms that match the same buckets give the same list |
| Buckets.QuestionCount | src/pages/Buckets/Buckets.tsx:64-66 | a shown count above 0 is the count in the first returned row |
| Buckets.ShownCountIsSetCount | src/pages/Buckets/Buckets.tsx:47-66 | for a bucket fetched with its `questions(count)` row, the number shown is the number of its question sets |
| Buckets.NoCountRowShowsZero | src/pages/Buckets/Buckets.tsx:64-66 | a bucket with no count row shows 0 |
| Buckets.CountLabel | src/pages/Buckets/Buckets.tsx:305 | the label is "Question" exactly for a count of 1 and "Questions" for every other count, 0 included |
| Buckets.LabelSingularIffOneSet | src/pages/Buckets/Buckets.tsx:261-305 | a fetched bucket is labelled in the singular exactly when it owns one question set |
| BucketSchema.ParseVisibility | src/pages/Buckets/BucketCreate/validator/formSchema.ts:6-8 | a name is accepted exactly when it is one of the two visibility names, and the value read back names it |
| BucketSchema.ParseLevel | src/pages/Buckets/BucketCreate/validator/formSchema.ts:9-11 | a name is accepted exactly when it is one of the four level names, and the value read back names it |
| BucketSchema.MinLengthIssue | src/pages/Buckets/BucketCreate/validator/formSchema.ts:4-5 | a string field has no issue exactly when present and at least as long as its minimum, counted in UTF-16 units; a short value gets the field's own message, at the field's path |
| BucketSchema.EnumIssue | src/pages/Buckets/BucketCreate/validator/formSchema.ts:6-11 | an enum field has no issue exactly when present and valid; a missing one gets its own required message, at the field's path |
| BucketSchema.Issues | src/pages/Buckets/BucketCreate/validator/formSchema.ts:3-16 | the collected issue list is empty exactly when no field reported one |
| BucketSchema.IssueListed | src/pages/Buckets/BucketCreate/validator/formSchema.ts:3-16 | every issue a field reports is in the collected list |
| BucketSchema.ParseBucket | src/pages/Buckets/BucketCreate/validator/formSchema.ts:3-16 | submitted values parse exactly when name has five or more UTF-16 units, subject is non-empty and both enums hold one of their names; the bucket then carries the values, optional fields unchanged; otherwise the issues of name, subject, visibility and level, in that order, and at least one |
| BucketSchema.BucketRoundTrip | src/pages/Buckets/BucketCreate/validator/formSchema.ts:3-16 | a bucket with a long enough name and a non-empty subject, submitted as its own values, parses back to itself |
| BucketSchema.EmptySubmissionIssues | src/pages/Buckets/BucketCreate/validator/formSchema.ts:3-11 | an empty submission reports "Required" for name and subject and the custom required messages for visibility and level, in schema order |
| BucketCreate.FlagOrFalse | src/pages/Buckets/BucketCreate/BucketCreate.tsx:18 | the stored flag is true exactly when the form gave true |
| BucketCreate.TextOrEmpty | src/pages/Buckets/BucketCreate/BucketCreate.tsx:19-21 | a given text is kept; a missing one is stored as the empty string |
| BucketCreate.ToPayload | src/pages/Buckets/BucketCreate/BucketCreate.tsx:11-24 | the payload carries the name, the visibility and level names and the subject unchanged; the flag is true only when given as true; missing optional texts become empty |
| BucketCreate.PayloadForgetsOnlyDefaults | src/pages/Buckets/BucketCreate/BucketCreate.tsx:18-21 | replacing each missing optional field by its default does not change the payload |
| BucketCreate.PayloadNamesParse | src/pages/Buckets/BucketCreate/BucketCreate.tsx:17-23 | the visibility and level names in the payload parse back, under the bucket schema, to the submitted ones |
| BucketCreateForm.HelperText | src/pages/Buckets/BucketCreate/components/BucketCreateForm.tsx:284-288 | the advanced level gets the refusal; any other level gets the fixed head, the level's name ("basic" in place of "none") and the fixed tail, exactly |
| BucketCreateForm.HintNamesLevel | src/pages/Buckets/BucketCreate/components/BucketCreateForm.tsx:288 | the hint for basic, intermediate or any other level but advanced and none contains the level's name |
| BucketCreateForm.FormAcceptedIffNameAndSubject | src/pages/Buckets/BucketCreate/components/BucketCreateForm.tsx:93-211 | with visibility and level taken from the options themselves, the schema accepts the form's values exactly when the name has five UTF-16 units and the subject is not empty |
| BucketCreateForm.ClickedVisibilityRejected | src/pages/Buckets/BucketCreate/components/BucketCreateForm.tsx:133-137 | with the value a clicked visibility card stores, the schema rejects the form and reports for visibility Zod's invalid-enum message listing the two options and quoting the received "on" |
| BucketCreateForm.Form.constructor | src/pages/Buckets/BucketCreate/components/BucketCreateForm.tsx:56-82 | the form starts at the default values: public, no experience, not progressive, every text empty |
| BucketCreateForm.Form.Reset | src/pages/Buckets/BucketCreate/components/BucketCreateForm.tsx:84-86 | the reset button restores the default values |
| BucketCreateForm.Form.EditText | src/pages/Buckets/BucketCreate/components/BucketCreateForm.tsx:96-113 | typing into a text input changes that value and nothing else |
| BucketCreateForm.Form.SelectVisibility | src/pages/Buckets/BucketCreate/components/BucketCreateForm.tsx:126-137 | once the radio carries its option's value, a click stores that option, highlights exactly that card and changes nothing else |
| BucketCreateForm.Form.ClickVisibilityAsWritten | src/pages/Buckets/BucketCreate/components/BucketCreateForm.tsx:126-137 | as written, a click on either card stores the radio default "on", no card is highlighted and nothing else changes |
| BucketCreateForm.Form.SelectLevel | src/pages/Buckets/BucketCreate/components/BucketCreateForm.tsx:199-208 | choosing a level sets it; choosing advanced also clears progressive difficulty, any other level leaves it; so an advanced form is never progressive |
| BucketCreateForm.Form.SetProgressive | src/pages/Buckets/BucketCreate/components/BucketCreateForm.tsx:249-252 | the enabled checkbox sets the flag and nothing else |
| BucketCreateForm.Form.Submit | src/pages/Buckets/BucketCreate/components/BucketCreateForm.tsx:93 | a payload is sent exactly when the name has five UTF-16 units, the subject is not empty and visibility was not set by clicking a card; it carries the form's values, and it is never progressive at the advanced level |
| CreateBucket.ParseCreateBucket | src/pages/Buckets/CreateBucket.tsx:14-20 | the values parse exactly when all five are strings, name and subject have five or more UTF-16 units and level, training type and visibility are non-empty, and then they are the data unchanged; otherwise exactly the issues of name, subject, level, training type and visibility in that order, each with its own message, and at least one |
| CreateBucket.StringMinIssue | src/pages/Buckets/CreateBucket.tsx:15-19 | one field of `z.string().min(n, message)`: no issue exactly for a string of at least n UTF-16 units; a shorter string gets the field's message, any other value the library's type message ("Required" for undefined, "Expected string, received null" for null), at the field's path |
| CreateBucket.PageValuesAccepted | src/pages/Buckets/CreateBucket.tsx:141-238 | on the values the page produces, the form is accepted exactly when name and subject have five units, a level and a training type are chosen and a visibility radio is checked; with no radio checked the visibility issue is "Expected string, received null" |
| CreateBucket.EmptyFormIssues | src/pages/Buckets/CreateBucket.tsx:14-238 | a form submitted untouched reports the own messages of name, subject, level and training type in field order, then "Expected string, received null" for the unchecked visibility radios |
| CreateBucket.Submit | src/pages/Buckets/CreateBucket.tsx:59-103 | without a user only the root error "You must be logged in to create a bucket" and no row; with one, a row of the trimmed name and subject and the other values as chosen, then the success toast quoting the name as typed, or the backend's message (or the generic one when it is empty) as root error |
| CreateBucket.BlankNameStoredEmpty | src/pages/Buckets/CreateBucket.tsx:15-73 | lengths are checked before trimming, so a name of five or more spaces passes the schema and is stored as the empty string |
| CopyPrompt.Merge | src/pages/Buckets/BucketDetails/components/CopyPromptButton.tsx:42-46 | each merged setting is the stored value when the key is given, and the base value otherwise |
| CopyPrompt.MergeNothingIsDefaults | src/pages/Buckets/BucketDetails/components/CopyPromptButton.tsx:33-40 | with no key given the prompt uses the defaults, among them the subject "general knowledge" and progressive difficulty on |
| CopyPrompt.CompleteSettingsWin | src/pages/Buckets/BucketDetails/components/CopyPromptButton.tsx:43-46 | settings that give every key come through the merge unchanged, whatever the base |
| CopyPrompt.MergeIdempotent | src/pages/Buckets/BucketDetails/components/CopyPromptButton.tsx:43-46 | merging the merged settings over the same base again changes nothing |
| CopyPrompt.HeaderLines | src/pages/Buckets/BucketDetails/components/CopyPromptButton.tsx:47-67 | the variable header has 21 lines, the last twelve of which are the fixed question and quiz variables (7, 70, 2 and five 5s) whatever the settings |
| CopyPrompt.ReadQuoted | src/pages/Buckets/BucketDetails/components/CopyPromptButton.tsx:50-54 | a value read from a line is one whose quoted variable line for that name is exactly the line |
| CopyPrompt.ReadQuotedLine | src/pages/Buckets/BucketDetails/components/CopyPromptButton.tsx:50-54 | a quoted variable line reads back as its value |
| CopyPrompt.ReadFlag | src/pages/Buckets/BucketDetails/components/CopyPromptButton.tsx:55 | only the two literal lines PROGRESSIVE_DIFFICULTY=true and =false are read as flags, and each reads as its own value |
| CopyPrompt.ReadSettings | src/pages/Buckets/BucketDetails/components/CopyPromptButton.tsx:48-55 | settings are read only from a header of at least nine lines |
| CopyPrompt.HeaderRoundTrip | src/pages/Buckets/BucketDetails/components/CopyPromptButton.tsx:42-55 | reading the header's subject lines back gives exactly the merged settings: CHARACTER, SUBJECT, EXPERIENCE_LEVEL, KEY_CONCEPTS and LEARNING_GOAL in that order as quoted values, then the flag |
| CopyPrompt.FlagLineTrueIff | src/pages/Buckets/BucketDetails/components/CopyPromptButton.tsx:55 | the PROGRESSIVE_DIFFICULTY line is the literal true exactly when the merged flag is set, false otherwise |
| CopyPrompt.FixedPartIndependent | src/pages/Buckets/BucketDetails/components/CopyPromptButton.tsx:47-67 | two headers agree on their first three lines and on their fixed variables, whatever the settings |
| QuestionsPage.Counts | src/pages/Questions/Questions.tsx:57-83 | with info, each per-type count is the stored one and the total their sum; without info all six numbers are 0 |
| QuestionsPage.CountsDependOnlyOnInfo | src/pages/Questions/Questions.tsx:57-83 | two sets with the same info show the same counts, whatever their id, name or date |
| QuestionsPage.ListAgreesWithQuiz | src/pages/Questions/Questions.tsx:59-71 | with info present the list shows the same counts as the quiz page for that set, whatever its data |
| QuestionsPage.MissingInfoShowsZeros | src/pages/Questions/Questions.tsx:74-82 | without info the list's zeros agree with the quiz page's fallback count exactly when the data holds no item |
| QuestionsPage.UploadedSetShowsUploadCounts | src/pages/Questions/Questions.tsx:59-71 | a set stored with the info the upload page computed shows that page's counts for the data |
| Text.SkipSpaceFrom | src/pages/Upload/Upload.tsx:260 | the first character at or after the position that is not white space; everything skipped is white space |
| Text.SkipSpaceBack | src/pages/Upload/Upload.tsx:260 | where a slice ends once trailing white space is dropped; everything dropped is white space |
| Text.Trim | src/pages/Upload/Upload.tsx:260-264 | a slice of the input with white space only before and after it, neither starting nor ending with white space |
| Text.TrimEmptyIffAllSpace | src/pages/Upload/Upload.tsx:238 | a text trims to nothing exactly when it is all white space |
| Text.TrimOfTrimmed | src/pages/Upload/Upload.tsx:284-288 | trimming a trimmed value again changes nothing |
| Text.ToLower | src/pages/Buckets/Buckets.tsx:69-71 | the same length, each character lowered one for one |
| Text.ContainsIffOccurs | src/pages/Buckets/Buckets.tsx:69-71 | `includes` holds exactly when the needle occurs at some offset |
| Text.ContainsEmpty | src/pages/Buckets/Buckets.tsx:69-71 | every text includes the empty search term |
| Text.NatToString | src/pages/Quiz/components/MicroReelCard.tsx:59 | a non-empty string of digits, one digit long exactly for numbers under ten |
| Text.NatToStringRoundTrip | src/pages/Quiz/components/MicroReelCard.tsx:59 | reading the decimal rendering back gives the number |
| Text.PadStart2 | src/pages/Quiz/components/MicroReelCard.tsx:59 | a text of two or more characters is kept; a shorter one gets zeros in front up to two characters |
| Text.Join | src/components/ui/FileUploader/FileUploader.tsx:47 | no parts give the empty text and one part gives itself; the length is the parts' lengths plus one separator between each two neighbours, and the text starts with the first part |
| Text.JoinFront | src/components/ui/FileUploader/FileUploader.tsx:102 | read from the front, a join of two or more parts is the first part, the separator and the join of the rest |
| Text.JoinTwo | src/components/ui/FileUploader/FileUploader.tsx:102 | two parts are joined by exactly one separator |
| Text.Utf16Length | src/pages/Upload/Upload.tsx:109 | a string's JavaScript `length` lies between its character count and twice that |
| Text.Utf16LengthBmp | src/pages/Upload/Upload.tsx:109 | for characters up to U+FFFF the JavaScript length is the character count |
| Text.Utf16LengthAstral | src/pages/Upload/Upload.tsx:109 | three emoji are three characters but have length 6 |
| Text.Utf16LengthTrim | src/pages/Upload/Upload.tsx:260-264 | trimming never increases the JavaScript length |

## Left out

- Answer minimum: the written design asks for four answers per multiple-choice item and non-empty quiz arrays, but the schema accepts one answer and empty arrays, and the model follows the schema (`src/utils/validation/questionSchemas.ts:17,23,40-44`).
- Clocks and randomness are parameters. `Date.now` in instance keys is a sequence of stamps. Each `Math.random` draw of the UUID generator is the i-th value of an injected nibble source, and the shuffle's comparator is an injected sequence of draws.
- Quiz.Shuffle: the random-comparator sort is modelled as a swap loop driven by the injected draws, and only "the result is a permutation" is claimed; no distribution is claimed.
- `JSON.parse` is an injected function from text to a JSON value or a syntax error.
- `LearningContentSchema`, which the text panel validates against, is not part of this model: the panel is generic in the validated type and takes that schema as an injected validator with the same result shape.
- Zod's own wording and issue order are reduced to its default messages ("Required", "Expected X, received Y") and to the order of the schema's keys; Zod internals are not modelled.
- The `beautifyJson` display toggle is modelled only as a flag that is cleared; the pretty-printing itself is left out.
- The drag-over, processing, submitting and validating-text flags only drive spinners and disabled buttons; they are left out.
- Toast timers: the auto-dismiss (3 seconds after a successful upload, 5 seconds after an error) is the explicit method `UploadPage.Page.HideToast`; the delays and timer scheduling are not modelled.
- The backend is left out: Supabase reads and inserts, authentication (the current user is a parameter) and navigation after a save. The stored row is returned as a value instead of being inserted.
- The clipboard write of the prompt button is left out, and so is the long static instruction text after the prompt's variable header.
- CopyPrompt.Merge: a caller's key that is present with value `undefined` is treated as absent, although JavaScript's spread would copy the `undefined` over the default.
- CopyPrompt.HeaderLines: the header is a list of lines; the newlines joining them into one string are not modelled.
- BucketCreateForm.Form: react-hook-form's handling of a disabled input (it drops the value on submit) is not modelled; the checkbox's disabled state is a predicate that the form actions respect.
- FileUploader.Uploader: clearing the hidden file input (`fileInputRef.current.value = ''`, `src/components/ui/FileUploader/FileUploader.tsx:99-100,109-110,159-160`) is not modelled; it only decides whether choosing the same file again fires a new selection, and every selection is modelled as a fresh `HandleFileSelect` call.
- FileUploader.ValidateFile: file sizes are whole numbers of bytes and the limit a whole number of megabytes; a fractional `maxFileSize` is not modelled.
- UploadPage.Page and JsonUpload.Panel do not hold the child `FileUploader` instance; they receive its outcome through `ReceiveSelection`/`HandleFileUpload`, and clearing the child is modelled on the uploader itself (`FileUploader.Uploader.RemoveFile`).
- Render conditions become preconditions. A handler that the page only offers in some state (for example `MultipleChoiceCard.Card.Select` on a rendered option, `JsonUpload.Panel.HandleFileUpload` in file mode, `JsonUpload.Panel.ValidateText` in text mode) requires that state.
- Text.ToLower: `toLowerCase` is restricted to ASCII letters; Unicode case mapping is not modelled.
- MicroReelCard.FormatTime: instead of parsing the display back, the model proves it injective (two times never look alike) and that it ends in "s" exactly below one minute.
- QuizProgress.UpdateCounts: the source recounts over the state map captured by the closure; the model recounts over the latest map, as if React's updates were applied in order.
- JsonUpload.Panel.HandleFileUpload: the panel's data field holds validated content only, so the as-written binding, which would keep a `File` there, is modelled by `JsonUpload.BindAsWritten` beside the panel rather than as a state of it (see Findings).
- OpenQuestionCard.Card.ShowAnswer: the report it sends carries `showCorrectAnswer`, which the progress count does not read, so showing the answer does not count the question as answered.
- Locale date formatting, progress-bar percentages and the KB display (floating point), and the CSS-class lookups for levels and training types are presentation and are left out.

## Findings

| source | as written | input that shows it | evidently intended | confidence | as-written member | corrected member |
|---|---|---|---|---|---|---|
| src/components/ui/FileUploader/FileUploader.tsx:91,102,107,127 | `onValidationChange` is called unguarded. The text panel renders the uploader without it (`src/pages/Upload/components/JsonUpload.tsx:220-226`), so the call throws, the catch branch reports "Invalid JSON file", and throws again before the file is delivered | any `.json` file of at most 5 MB that parses and conforms to the schema, selected in the text panel's file mode | a guarded call (`onValidationChange?.(...)`), so that the validated data reaches `onFileUpload` | not executed | FileUploader.SelectWithoutListenerAsWritten, FileUploader.MissingListenerLosesValidFile | FileUploader.Select |
| src/pages/Buckets/BucketCreate/components/BucketCreateForm.tsx:133-137 | the visibility radios are registered without a `value`, so checking either card stores the browser's default "on", which the schema's visibility enum rejects, and neither card is then drawn as selected | with a name of five characters and a subject, click the "Private" card and submit | `value={option.value}` on the input, as the level radios have at line 201, so that the clicked option is stored | not executed | BucketCreateForm.Form.ClickVisibilityAsWritten, BucketCreateForm.ClickedVisibilityRejected | BucketCreateForm.Form.SelectVisibility, BucketCreateForm.FormAcceptedIffNameAndSubject |
| src/pages/Upload/components/JsonUpload.tsx:41-44,222 | `handleFileUpload(content)` is passed as `onFileUpload`, which the uploader calls as `onFileUpload(file, validation.data)` (`src/components/ui/FileUploader/FileUploader.tsx:95`), so `content` is the `File`: the panel keeps the file as its data and hands it to `onJsonReady`. Latent while the missing-listener bug above stops delivery | with the listener call guarded, a valid `.json` file chosen in the text panel's file mode: `onJsonReady` receives the `File`, not the questions | `onFileUpload={(file, content) => handleFileUpload(content)}`, so that the validated content is kept and passed on | not executed | JsonUpload.BindAsWritten, JsonUpload.HandlerGetsFileAsWritten | JsonUpload.Bind, JsonUpload.Panel.HandleFileUpload |
