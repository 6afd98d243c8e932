# Luna Study RIPAM — a Dafny model of the quiz core

Luna Study RIPAM is a study game for the RIPAM public-competition exam. It has two
modes. In the game loop, a weighted picker draws a subject and a routing table assigns
one of three tutors (Luna, Stella, Maria). A language model writes a question for that
tutor's current stage, and the reply is parsed and validated. The player's answer is then
scored on the exam's scale (+0.75 / -0.25 / 0, and +0.75 / +0.375 / 0 for situational
questions), and the tutor's progress and stage move. Optionally, a Stable Diffusion image
of the tutor is composed and rendered.

In exam mode, a forty-question roadmap is fixed up front. Questions are generated on
demand and cached by position. The final tally is clamped at 0 and compared with the
pass mark of 21/30.

The model has one Dafny module per source file:

- `Rules`, `Models`, `Syllabus`: the domain records and constants.
- `Scoring`, `Picker`, `TutorRouter`, `Session`, `Exam`: the engine.
- `ResponseParser`, `GeminiJson`, `PromptBuilder`: the AI-facing code.
- `Stages`, `PromptCompiler`, `SdClient`: the visuals.

Three helper modules are not source files:

- `Wrappers` provides `Option` and `Result`.
- `PyText` models the Python `str` built-ins the code relies on: `strip`, `upper`, `find`,
  `rfind`, `replace`, `join`, `splitlines`, `str(int)`, `int(str)` and `format(n, "03d")`.
- `Json` models the values `json.loads` produces and Python's `int(...)` on them.

Code that changes state in place is modelled as classes:

- `SessionState`, `StageManager`, `SubjectPicker`, `SessionEngine` and `ExamSession` are
  classes whose methods carry `modifies` clauses.
- Loops are `while`/`for` loops with invariants, proved against specification functions:
  - `_to_chunks`;
  - the `_join` rewrite loop;
  - `_require_options` and `_require_str_list`;
  - the reroll loop of `pick`;
  - the three roadmap loops of `start_exam`;
  - `calculate_result`;
  - `_unique_path`.
- The pure helpers are functions.

These are inputs of the model rather than computed by it:

- Randomness is a stream of natural numbers: `random.choices` picks `keys[stream(k) % n]`
  and `random.sample` follows CPython's pool algorithm.
- The language model together with the prompt text is an opaque function `ask`, from
  (subject, tutor, stage, last outcome) to the decoded reply object, or to a failure
  message. The failure covers the RuntimeError `generate_json` raises for an empty reply
  or undecodable JSON. It also covers a reply that decodes to a list, string or number,
  on which `parse_question_from_llm_json` raises AttributeError at its first `data.get`
  (luna_study_ripam/src/ai/response_parser.py:66); that error escapes
  `start_next_question` just as the RuntimeError does.
- Prompt compilation together with image generation is an opaque function `render`.
- The files on disk are a map from path to contents, or the finite set of paths that
  already exist.

The model follows the code as written, including where it departs from its own docstrings or from what a reader might expect:

- A standard answer is compared as a whole after `strip().upper()`. "A)" does not match
  "A", and no first-letter normalisation happens at scoring time.
- On a correct answer, progress grows by one and the stage is `min + progress // step`,
  clamped. On a wrong or omitted answer, progress is kept and the stage drops by one level
  to the floor.
- The picker has no exclusion set and never returns "nothing". An empty table, or a total
  weight that is not positive, makes `random.choices` raise.
- A "neutra" situational answer earns 0.375 points but is labelled `errata`.
- The image client defaults to 24 steps and CFG scale 7, as the dataclass fields say. Its
  docstring says 28 and 6.5.

## Model

| member | source | states |
|---|---|---|
| Rules.TimeLimitSeconds | luna_study_ripam/src/domain/rules.py:31-32 | exactly sixty seconds per minute of the limit, so non-negative for a non-negative limit |
| Rules.DefaultTimeLimit | luna_study_ripam/src/domain/rules.py:15-32 | the default exam lasts 3600 seconds |
| Rules.IsPassed | luna_study_ripam/src/domain/rules.py:35-37 | passed exactly when the score reaches the pass mark |
| Rules.DefaultPassMark | luna_study_ripam/src/domain/rules.py:18-37 | under the default rules a score passes exactly when it is at least 21 |
| Rules.ClampScore | luna_study_ripam/src/domain/rules.py:40-47 | never negative, never below the input, the identity on non-negative scores, 0 below |
| Rules.ClampScoreIdempotent | luna_study_ripam/src/domain/rules.py:40-47 | clamping twice is clamping once |
| Rules.ScoreBar | luna_study_ripam/src/domain/rules.py:50-73 | on a bar whose lower end is not above its upper end, the score's marker lies between the ends whatever the score, and so does the pass line when the pass mark is within 0..30 |
| Rules.ScoreBarShowsPass | luna_study_ripam/src/domain/rules.py:50-73 | on an upright bar with a pass mark in (0, 30], the marker is at or beyond the pass line exactly when the score passes |
| Rules.DefaultPassLine | luna_study_ripam/src/domain/rules.py:67-71 | the default pass line sits 0.7 of the way along the bar |
| Rules.ScoreBarEnds | luna_study_ripam/src/domain/rules.py:63-70 | a score of 30 or more fills the bar, a score of 0 or less leaves it empty |
| Models.TutorFromName | luna_study_ripam/src/domain/models.py:9 | only an exact tutor name is accepted, and the tutor returned has that name |
| Models.TutorNameRoundTrip | luna_study_ripam/src/domain/enums.py:8-11 | every tutor is found again from its own name |
| Models.DefaultQuestion | luna_study_ripam/src/domain/models.py:38-58 | a question built from the required fields has every optional field at its declared default |
| Models.InitialMapsCoverTutors | luna_study_ripam/src/domain/models.py:24-30 | every tutor starts with progress 0 at stage 1 |
| Models.SessionState.constructor | luna_study_ripam/src/domain/models.py:16-34 | a fresh state is question 0 of 40, sixty minutes, score 0, the initial per-tutor maps, no fingerprints, window 30 |
| Scoring.EvaluateStandard | luna_study_ripam/src/engine/scoring.py:35-52 | omitted exactly for no choice or ""; otherwise corretta (+correct points) exactly when the stripped upper-cased strings agree, errata (wrong points) when they differ |
| Scoring.EvaluateSituational | luna_study_ripam/src/engine/scoring.py:55-79 | omitted gives the standard omitted value; efficace gives corretta, neutra gives errata with the neutral points, inefficace or an unmapped key gives errata with the ineffective points |
| Scoring.EvaluateAnswer | luna_study_ripam/src/engine/scoring.py:82-101 | fails exactly when a standard question lacks a correct choice, or another question lacks a non-empty efficacy map, naming which; otherwise routes to the matching evaluator |
| Scoring.DefaultDeltas | luna_study_ripam/src/engine/scoring.py:35-101 | under the default scale every delta is 0.75, -0.25, 0.375 or 0, and an answer is corretta exactly when it earns 0.75 |
| Scoring.OmittedScoresZero | luna_study_ripam/src/engine/scoring.py:44-65 | an omitted answer scores omessa with 0 on either kind of question |
| Scoring.KeyOfChar | luna_study_ripam/src/engine/scoring.py:47-48 | the key of a single non-blank character is that character upper-cased |
| Scoring.TrailingCharacterIsWrong | luna_study_ripam/src/engine/scoring.py:47-52 | a letter with anything after it, such as "A)", is a wrong answer to the bare letter |
| Scoring.SingleLetterScoring | luna_study_ripam/src/engine/scoring.py:47-52 | one-letter answers are correct exactly when they agree ignoring case |
| Scoring.SurroundingBlanksIgnored | luna_study_ripam/src/engine/scoring.py:47-52 | blanks around the choice do not change the verdict |
| Scoring.RulesAgreeWithScale | luna_study_ripam/src/engine/scoring.py:20-26 | the six point values of the exam rules equal those of the scoring scale |
| Stages.StageFromProgress | luna_study_ripam/src/visuals/stage_manager.py:66-69 | the stage is at least the minimum, at most the maximum when min <= max, and the minimum for progress <= 0 |
| Stages.StageMonotone | luna_study_ripam/src/visuals/stage_manager.py:66-69 | more progress never gives a lower stage |
| Stages.DefaultBands | luna_study_ripam/src/visuals/stage_manager.py:25-69 | with step 10 and stages 1..5 the stage is 1 + progress // 10 up to 39 and 5 from 40 on |
| Stages.NextUpdate | luna_study_ripam/src/visuals/stage_manager.py:37-64 | old values default to 0 and the minimum stage; punish exactly when not corretta; corretta adds one to progress, otherwise progress is kept and the stage drops by one to the floor |
| Stages.CorrectRecomputesStage | luna_study_ripam/src/visuals/stage_manager.py:43-47 | after a correct answer the stage is recomputed from the new progress and is no lower than the old progress's band |
| Stages.StageRangePreserved | luna_study_ripam/src/visuals/stage_manager.py:43-51 | a stage within [min, max] stays within it, whatever the outcome |
| Stages.PunishLowersStage | luna_study_ripam/src/visuals/stage_manager.py:48-51 | a punished answer leaves the stage no higher than the old stage (or the floor), and lowers it by exactly one above the floor |
| Stages.StageManager.constructor | luna_study_ripam/src/visuals/stage_manager.py:30-35 | stores step, minimum and maximum stage; requires the positive step the source checks |
| Stages.NewStageManager | luna_study_ripam/src/visuals/stage_manager.py:30-35 | construction fails exactly when step <= 0, otherwise yields a manager with the given settings |
| Stages.StageManager.ApplyOutcome | luna_study_ripam/src/visuals/stage_manager.py:37-64 | returns the update of NextUpdate, writes only the tutor's progress and stage entries, and leaves the maps as one step of Replay does |
| Stages.ReplayCountsCorrect | luna_study_ripam/src/visuals/stage_manager.py:37-64 | after `apply_outcome` has run for one tutor on any run of outcomes, that tutor's progress has grown by exactly the number of correct answers, and every other tutor's progress and stage read as before |
| Stages.ReplayStageInRange | luna_study_ripam/src/visuals/stage_manager.py:37-64 | over any run of outcomes, a stage that starts within [min_stage, max_stage] stays within it |
| Picker.Keys | luna_study_ripam/src/engine/subject_picker.py:69-70 | the subjects in table order, one per weight |
| Picker.PositiveTotal | luna_study_ripam/src/engine/subject_picker.py:70-74 | a non-empty table of positive weights has a positive total, so the draw does not raise |
| Picker.DefaultConfigShape | luna_study_ripam/src/engine/subject_picker.py:20-57 | the default table has sixteen positively weighted subjects, window 2 and three reroll attempts |
| Picker.LastWindow | luna_study_ripam/src/engine/subject_picker.py:67 | `recent[-w:]` is a suffix: the last w entries for w > 0, the whole list for w = 0, and from index -w on for w < 0 |
| Picker.AvoidSet | luna_study_ripam/src/engine/subject_picker.py:66-67 | nothing is avoided without recent subjects, and only recent subjects are avoided |
| Picker.Draw | luna_study_ripam/src/engine/subject_picker.py:74 | every draw is a subject of the table |
| Picker.RerollSpec | luna_study_ripam/src/engine/subject_picker.py:72-79 | the reroll makes between 1 and attempts+1 draws, returns the last one, every earlier draw was avoided, and an avoided subject is returned only once the attempts are spent |
| Picker.RerollNoAvoid | luna_study_ripam/src/engine/subject_picker.py:72-79 | with nothing to avoid the first draw is returned after one draw |
| Picker.SubjectPicker.constructor | luna_study_ripam/src/engine/subject_picker.py:55-59 | the default table when no configuration is given, the generator at its start |
| Picker.SubjectPicker.Pick | luna_study_ripam/src/engine/subject_picker.py:61-79 | fails, consuming nothing, exactly for an empty table or a non-positive total; otherwise the loop's subject and generator position equal the reroll's |
| Picker.PickInTable | luna_study_ripam/src/engine/subject_picker.py:61-79 | a pick is always a subject of the table, after at most attempts+1 draws |
| TutorRouter.TutorForSubject | luna_study_ripam/src/engine/tutor_router.py:36-41 | the listed tutor for a listed subject, Stella for any other |
| TutorRouter.NamedRoutes | luna_study_ripam/src/engine/tutor_router.py:11-33 | logic and situational questions go to Stella, administrative law to Maria, cultural heritage to Luna |
| TutorRouter.UnknownSubjectToStella | luna_study_ripam/src/engine/tutor_router.py:36-41 | unlisted subjects, even near-misses such as "logica", go to Stella |
| TutorRouter.MariaSubjects | luna_study_ripam/src/engine/tutor_router.py:19-25 | Maria teaches exactly the six law and safety subjects |
| TutorRouter.LunaSubjects | luna_study_ripam/src/engine/tutor_router.py:27-32 | Luna teaches exactly the five culture and institutions subjects |
| TutorRouter.RoutesCoverDrawTable | luna_study_ripam/src/engine/tutor_router.py:11-33 | every subject of the picker's default table is routed, and every routed subject is in that table |
| Syllabus.GetRandomTopic | luna_study_ripam/src/domain/syllabus.py:77-81 | a listed subject with topics yields one of its topics; an unlisted subject is returned as it is |
| Syllabus.LogicAndSituationalUnlisted | luna_study_ripam/src/domain/syllabus.py:6-81 | logic and the situational quiz have no topic list and stand for themselves |
| Syllabus.ListedSubjectsHaveTopics | luna_study_ripam/src/domain/syllabus.py:6-81 | every listed subject has a non-empty list, so it always yields one of its own topics |
| Syllabus.TopicsNonEmpty | luna_study_ripam/src/domain/syllabus.py:6-75 | no topic is the empty string |
| Syllabus.SyllabusSubjectsRouted | luna_study_ripam/src/domain/syllabus.py:6-75 | every syllabus subject has a tutor in the routing table |
| ResponseParser.RequireStr | luna_study_ripam/src/ai/response_parser.py:65-69 | succeeds exactly for a non-blank string, returned stripped; the error names the key |
| ResponseParser.RequireTutor | luna_study_ripam/src/ai/response_parser.py:72-79 | succeeds exactly for a string that names a tutor once stripped; the error names the key |
| ResponseParser.RequireIntRange | luna_study_ripam/src/ai/response_parser.py:82-88 | succeeds exactly for an int or bool whose value is in [lo, hi], returning that value |
| ResponseParser.BoolIsAnInt | luna_study_ripam/src/ai/response_parser.py:82-88 | `true` is accepted as difficulty 1 and a float such as 2.0 is refused |
| ResponseParser.NormalizeLetter | luna_study_ripam/src/ai/response_parser.py:91-95 | the first character when the stripped upper-cased text starts with A to D, otherwise that text |
| ResponseParser.NormalizeLetterOfLabel | luna_study_ripam/src/ai/response_parser.py:91-95 | a label such as "b) text" normalises to its upper-case letter |
| ResponseParser.NormalizeLetterIdempotent | luna_study_ripam/src/ai/response_parser.py:91-95 | normalising a normalised letter changes nothing: the result is already stripped and upper-cased |
| ResponseParser.RequireChoiceLetter | luna_study_ripam/src/ai/response_parser.py:98-105 | succeeds exactly for a non-blank string that normalises to A, B, C or D, returning that letter |
| ResponseParser.OptionsFromMeaning | luna_study_ripam/src/ai/response_parser.py:113-120 | the options loop succeeds exactly when every remaining letter is valid, adds exactly those letters stripped, and otherwise names the first invalid one |
| ResponseParser.OptionsMeaning | luna_study_ripam/src/ai/response_parser.py:108-120 | the options succeed exactly when A to D are all non-blank strings, and the result has exactly those four keys, stripped |
| ResponseParser.RequireOptions | luna_study_ripam/src/ai/response_parser.py:108-120 | the loop returns what the options specification gives |
| ResponseParser.CollectOptions | luna_study_ripam/src/ai/response_parser.py:113-120 | the loop over the option keys stops at the first missing or blank key and names it, otherwise returns every key mapped to its stripped text, as the key-by-key specification gives |
| ResponseParser.KeptItemsMeaning | luna_study_ripam/src/ai/response_parser.py:127-130 | every kept entry is a non-empty stripped string from a kept item, none is invented, every non-blank string item of any list is kept, and an all-valid list loses nothing |
| ResponseParser.KeptItemsOrder | luna_study_ripam/src/ai/response_parser.py:127-130 | the kept list is the order-preserving filter: its entries are the stripped texts at increasing positions, which are exactly the positions of the non-blank string items |
| ResponseParser.StrListSpec | luna_study_ripam/src/ai/response_parser.py:123-133 | failures name the key |
| ResponseParser.RequireStrList | luna_study_ripam/src/ai/response_parser.py:123-133 | succeeds exactly for a list with at least min_items non-blank strings, and returns what the specification gives |
| ResponseParser.Assemble | luna_study_ripam/src/ai/response_parser.py:29-58 | succeeds exactly when every field does, and then builds a standard question from the fields with no efficacy map |
| ResponseParser.ParsedQuestionShape | luna_study_ripam/src/ai/response_parser.py:29-58 | a parsed question is standard, has no efficacy map, a single correct letter and a difficulty in 1..5 |
| ResponseParser.ParsedOptionsAndTags | luna_study_ripam/src/ai/response_parser.py:35-40 | a parsed question has exactly the options A to D and at least one tag |
| ResponseParser.ParsedTextsNonEmpty | luna_study_ripam/src/ai/response_parser.py:30-41 | subject, id, text, explanation and visual of a parsed question are never empty |
| ResponseParser.ParsedQuestionIsScorable | luna_study_ripam/src/ai/response_parser.py:37-58 | scoring a parsed question never raises |
| ResponseParser.ParseQuestion | luna_study_ripam/src/ai/response_parser.py:13-58 | the validators run in order, with the loops as methods, and the result is the parse specification |
| GeminiJson.FindChar | luna_study_ripam/src/ai/gemini_client.py:95 | the first position of the character, or -1 when there is none |
| GeminiJson.RFindChar | luna_study_ripam/src/ai/gemini_client.py:96 | the last position of the character, or -1 when there is none |
| GeminiJson.AfterFirstNewline | luna_study_ripam/src/ai/gemini_client.py:88 | the text after the first newline, shorter than the input, or the whole text when there is no newline |
| GeminiJson.Unfence | luna_study_ripam/src/ai/gemini_client.py:83-88 | a reply that is not fenced is untouched; a fenced one loses its backticks and blanks at both ends, then a leading "json" tag line when a newline follows it; a "json" tag with no newline is kept; the result of a fence is always stripped |
| GeminiJson.CutObject | luna_study_ripam/src/ai/gemini_client.py:91-101 | the result is either the input or brace-delimited |
| GeminiJson.ExtractJsonText | luna_study_ripam/src/ai/gemini_client.py:78-101 | a reply that is an object once stripped, or once unwrapped from its fence, comes back as that object; a `{` before a later `}` always gives a brace-delimited text; without such a pair the unwrapped text is returned as it is |
| GeminiJson.BracedIffPossible | luna_study_ripam/src/ai/gemini_client.py:91-101 | a `{` before a later `}` always yields a brace-delimited result; otherwise a text that is not an object comes back unchanged |
| GeminiJson.EmbeddedObjectCut | luna_study_ripam/src/ai/gemini_client.py:95-98 | an object inside chatter is cut from the first `{` to the last `}` |
| GeminiJson.FencedObjectUnwrapped | luna_study_ripam/src/ai/gemini_client.py:80-92 | a reply fenced as a json code block around an object yields exactly that object: backticks, tag line and closing newline removed |
| GeminiJson.CutObjectSlice | luna_study_ripam/src/ai/gemini_client.py:91-101 | the object step returns a contiguous slice of its input |
| PyText.StripCharsIsSlice | luna_study_ripam/src/ai/gemini_client.py:80-85 | `strip` returns a contiguous slice of its input |
| GeminiJson.TrimFenceSlice | luna_study_ripam/src/ai/gemini_client.py:85 | removing the backticks and then the blanks leaves a contiguous slice |
| GeminiJson.AfterFirstNewlineSlice | luna_study_ripam/src/ai/gemini_client.py:88 | the text after the first newline is a suffix |
| GeminiJson.DropTagLineSlice | luna_study_ripam/src/ai/gemini_client.py:88 | dropping the tag line and the blanks leaves a contiguous slice |
| GeminiJson.UnfenceUntaggedSlice | luna_study_ripam/src/ai/gemini_client.py:83-88 | unfencing a reply without a json tag line returns a contiguous slice of it |
| GeminiJson.UnfenceTaggedSlice | luna_study_ripam/src/ai/gemini_client.py:83-88 | unfencing a reply with a json tag returns a contiguous slice of it, whether or not a newline follows the tag |
| GeminiJson.UnfenceSlice | luna_study_ripam/src/ai/gemini_client.py:83-88 | the fence step returns a contiguous slice of its input in every case |
| GeminiJson.ExtractJsonTextSlice | luna_study_ripam/src/ai/gemini_client.py:78-101 | the extracted JSON text is a contiguous substring of the whole reply, for every reply |
| PromptBuilder.InstructionFilename | luna_study_ripam/src/ai/prompt_builder.py:50-70 | the subject's instruction file, or the logic instructions for an unlisted subject |
| PromptBuilder.SeedFilename | luna_study_ripam/src/ai/prompt_builder.py:73-92 | the subject's seed bank, or the logic bank for an unlisted subject |
| PromptBuilder.TablesAgree | luna_study_ripam/src/ai/prompt_builder.py:50-92 | both file tables list the same subjects, exactly those the tutor table routes |
| PromptBuilder.UnknownSubjectFallsBackToLogic | luna_study_ripam/src/ai/prompt_builder.py:69-92 | an unlisted subject gets a matching pair, the logic instructions with the logic bank |
| PromptBuilder.PoolDraw | luna_study_ripam/src/ai/prompt_builder.py:47 | the pool algorithm takes exactly k elements |
| PromptBuilder.PoolDrawDistinct | luna_study_ripam/src/ai/prompt_builder.py:47 | the pool algorithm takes distinct elements of the pool |
| PromptBuilder.SamplePositionsDistinct | luna_study_ripam/src/ai/prompt_builder.py:47 | a sample reads k different row positions, all in range |
| PromptBuilder.Sample | luna_study_ripam/src/ai/prompt_builder.py:42-47 | fails exactly for rows with a negative k; no rows gives none, at most k rows gives all of them, otherwise exactly k |
| PromptBuilder.SampleFromDistinctPositions | luna_study_ripam/src/ai/prompt_builder.py:42-47 | a proper sample's rows come from k different positions |
| PromptBuilder.FewShotBlock | luna_study_ripam/src/ai/prompt_builder.py:147-152 | empty exactly when there are no examples, otherwise the header followed by the newline-joined examples |
| PromptBuilder.StrictBlock | luna_study_ripam/src/ai/prompt_builder.py:154-161 | non-empty exactly when strict output is configured |
| PromptBuilder.QuestionPromptParts | luna_study_ripam/src/ai/prompt_builder.py:120-161 | fails exactly for seed rows with a negative sample size; otherwise the subject's files, the strict block as configured, and no examples exactly when the bank is empty or the size is 0 |
| PromptCompiler.SplitNegative | luna_study_ripam/src/visuals/prompt_compiler.py:87-105 | nothing from "", the whole text without a marker in any case, otherwise both stripped sides of the first marker |
| PromptCompiler.KeptLinesMeaning | luna_study_ripam/src/visuals/prompt_compiler.py:108-125 | every chunk is stripped, non-blank and no comment, and every such line contributes its chunk |
| PromptCompiler.ToChunks | luna_study_ripam/src/visuals/prompt_compiler.py:108-125 | the loop returns the kept lines in order |
| PromptCompiler.ReplaceShrinks | luna_study_ripam/src/visuals/prompt_compiler.py:132-133 | the rewrite never lengthens the text and shortens it while ", ," remains, so the loop ends |
| PromptCompiler.ReplaceKeepsFirst | luna_study_ripam/src/visuals/prompt_compiler.py:133 | a first character that is not a comma survives the rewrite |
| PromptCompiler.ReplaceKeepsLast | luna_study_ripam/src/visuals/prompt_compiler.py:133 | a last character that is not a comma survives the rewrite |
| PromptCompiler.CollapseClean | luna_study_ripam/src/visuals/prompt_compiler.py:132-133 | the rewrite loop leaves no ", ," and keeps comma-free ends |
| PromptCompiler.JoinedTextEnds | luna_study_ripam/src/visuals/prompt_compiler.py:131 | the joined text before the loop has no comma at either end |
| PromptCompiler.Join | luna_study_ripam/src/visuals/prompt_compiler.py:128-134 | the result holds no ", ," and neither starts nor ends with a comma |
| PromptCompiler.ClampInt | luna_study_ripam/src/visuals/prompt_compiler.py:137-142 | within [lo, hi] when lo <= hi, the value itself inside, lo below, hi above |
| PromptCompiler.ReadText | luna_study_ripam/src/visuals/prompt_compiler.py:81-84 | fails exactly for a missing file, naming it; otherwise the stripped contents |
| PromptCompiler.StageFileChoice | luna_study_ripam/src/visuals/prompt_compiler.py:45-49 | a reward turn reads one of stage1..stage5, stage1 for stages <= 1 and stage5 for stages >= 5 |
| PromptCompiler.NonBlankTags | luna_study_ripam/src/visuals/prompt_compiler.py:63 | no more tags than given, none empty |
| PromptCompiler.QuestionChunks | luna_study_ripam/src/visuals/prompt_compiler.py:59-69 | no question adds nothing; a question adds at most two non-empty chunks |
| PromptCompiler.CollectChunks | luna_study_ripam/src/visuals/prompt_compiler.py:53-69 | the chunks come in the order global, tutor, stage, tags, visual |
| PromptCompiler.AssemblePrompt | luna_study_ripam/src/visuals/prompt_compiler.py:51-74 | the prompt and negative prompt are the joins of those chunks and of the global negative part |
| PromptCompiler.CompileSdPrompt | luna_study_ripam/src/visuals/prompt_compiler.py:17-74 | reading the three files in order and assembling gives the compile specification |
| PromptCompiler.CompileFailsOnMissingFile | luna_study_ripam/src/visuals/prompt_compiler.py:42-49 | compiling fails exactly when one of the three files is missing, and names the first missing one |
| PromptCompiler.NegativeFromGlobalOnly | luna_study_ripam/src/visuals/prompt_compiler.py:51-72 | the negative prompt does not depend on tutor, stage, punishment or question |
| PromptCompiler.CompiledPromptsClean | luna_study_ripam/src/visuals/prompt_compiler.py:71-72 | both compiled prompts are free of ", ," and of commas at either end |
| SdClient.Payload | luna_study_ripam/src/visuals/sd_client.py:117-130 | the body has the eight base keys plus the extra keys; extra entries win and other base fields stay |
| SdClient.PayloadFields | luna_study_ripam/src/visuals/sd_client.py:117-126 | each setting is the explicit argument when given and the configuration's value otherwise |
| SdClient.DefaultRequest | luna_study_ripam/src/visuals/sd_client.py:34-39 | the default request is 768x1024, 24 steps, CFG 7, "DPM++ 2M Karras", seed -1 |
| SdClient.ExtraBeatsArgument | luna_study_ripam/src/visuals/sd_client.py:128-130 | an extra payload entry overrides an explicit argument for the same field |
| SdClient.ExtractFirstImage | luna_study_ripam/src/visuals/sd_client.py:172-179 | fails unless `images` is a non-empty list whose first entry is a non-blank string, which it returns; the error tells the two cases apart |
| SdClient.TryExtractSeed | luna_study_ripam/src/visuals/sd_client.py:197-211 | nothing for absent or empty info; a converting `seed` first; else the first of a non-empty `all_seeds`; nothing otherwise |
| SdClient.SeedPriority | luna_study_ripam/src/visuals/sd_client.py:197-211 | `seed` beats `all_seeds`, a non-converting `seed` falls through to `all_seeds` |
| SdClient.Suffix | luna_study_ripam/src/visuals/sd_client.py:218 | the suffix of a name with an extension is a dot followed by at least one character |
| SdClient.Stem | luna_study_ripam/src/visuals/sd_client.py:217 | stem and suffix put back together give the name, and a name with an extension has a non-empty stem |
| SdClient.CandidateInjective | luna_study_ripam/src/visuals/sd_client.py:220-225 | different counters give different alternative paths |
| SdClient.CandidateKeepsSuffix | luna_study_ripam/src/visuals/sd_client.py:217-222 | for a name with an extension, every alternative keeps the extension and extends the stem with `_<i>` |
| SdClient.UniquePath | luna_study_ripam/src/visuals/sd_client.py:214-225 | the path itself when free, otherwise the first free `<stem>_<i><suffix>` from i = 2 in the same directory; never an existing path, and the loop ends |
| SdClient.StemOrTimestamp | luna_study_ripam/src/visuals/sd_client.py:158-159 | the given stem unless absent or empty, else the timestamp |
| SdClient.OutputPath | luna_study_ripam/src/visuals/sd_client.py:155-162 | the written file is never an existing one, lies in the output directory, and is `<stem>.png` when that is free |
| Session.Round3 | luna_study_ripam/src/engine/session_engine.py:139 | within half a thousandth of the input and a whole number of thousandths |
| Session.Round3OnGrid | luna_study_ripam/src/engine/session_engine.py:139 | rounding keeps a score that is a whole number of eighths |
| Session.ScoreAddsExactly | luna_study_ripam/src/engine/session_engine.py:131-139 | under the default scale, rounding the running score never loses a point and the score stays on the eighths grid |
| Session.FileStem | luna_study_ripam/src/engine/session_engine.py:174 | the stem starts with the lower-case tutor name and an underscore, followed by at least three characters of the padded number |
| Session.FileStemsDistinct | luna_study_ripam/src/engine/session_engine.py:174 | two question numbers never share a file stem for the same tutor |
| Session.Overridden | luna_study_ripam/src/engine/session_engine.py:91-114 | a parse failure becomes the turn's error; a parsed question keeps every field except tutor and subject, which are the drawn ones |
| Session.SessionEngine.constructor | luna_study_ripam/src/engine/session_engine.py:37-64 | the given picker or a fresh default one, the given stage manager or one with step 10 and stages 1..5, last outcome corretta, no image |
| Session.SessionEngine.StartNextQuestion | luna_study_ripam/src/engine/session_engine.py:69-117 | fails at the draw exactly for an empty or non-positive table, leaving the generator where it was; otherwise consumes one draw, asks at the drawn subject's tutor and stage with the last outcome, fails with the model's error when generation fails, else returns the overridden parse; the index grows by one on success only |
| Session.SessionEngine.AskAndParse | luna_study_ripam/src/engine/session_engine.py:79-114 | a failed model call (empty reply or undecodable JSON, luna_study_ripam/src/ai/gemini_client.py:51-70) is the turn's error; otherwise the reply for subject, tutor, stage and last outcome, parsed, with a parse error re-raised and tutor and subject overridden |
| Session.SessionEngine.ApplyAnswer | luna_study_ripam/src/engine/session_engine.py:119-195 | fails with nothing changed exactly when scoring raises; otherwise rounds the new score, applies the stage update, remembers the outcome, sets the image path only when enabled and rendered, and returns the turn result |
| Exam.PoolsAreNotSituational | luna_study_ripam/src/engine/exam_engine.py:32-40 | neither draw pool contains the situational subject |
| Exam.ExamSession.constructor | luna_study_ripam/src/engine/exam_engine.py:15-22 | no questions, no answers, index 0, one hour, the given start time and roadmap |
| Exam.StartExam | luna_study_ripam/src/engine/exam_engine.py:30-42 | forty subjects: 25 drawn from the knowledge pool, 7 from the reasoning pool, and the situational subject exactly at positions 32 to 39 |
| Exam.StrField | luna_study_ripam/src/engine/exam_engine.py:64-66 | the string value of the key, or "" when missing |
| Exam.OptionsField | luna_study_ripam/src/engine/exam_engine.py:67 | the options object's string entries, or none |
| Exam.CorrectField | luna_study_ripam/src/engine/exam_engine.py:68 | "A" when absent, None for a null or non-string value, the string otherwise |
| Exam.ExplanationField | luna_study_ripam/src/engine/exam_engine.py:64 | the short explanation when non-empty, else the long one |
| Exam.GeneratedQuestion | luna_study_ripam/src/engine/exam_engine.py:58-74 | always Maria's, on the roadmap subject, situational exactly for the situational subject, and the "Errore" fallback when decoding failed |
| Exam.GetNextQuestion | luna_study_ripam/src/engine/exam_engine.py:44-76 | none past the roadmap, the cached question at the index, otherwise a new question appended; answers, index and roadmap unchanged; cached questions stay aligned with the roadmap |
| Exam.SubmitAnswer | luna_study_ripam/src/engine/exam_engine.py:78-79 | records the answer at the current index and changes nothing else |
| Exam.Step | luna_study_ripam/src/engine/exam_engine.py:84-99 | situational questions leave the counters alone; a standard match adds one correct, another given answer one wrong, no answer one omitted, and the other two counters stay as they were; +0.75 for a match, -0.25 (standard) or +0.375 (situational) for another given answer, nothing otherwise |
| Exam.CountersCoverStandard | luna_study_ripam/src/engine/exam_engine.py:83-99 | correct + wrong + omitted equals the number of standard questions |
| Exam.TotalBounds | luna_study_ripam/src/engine/exam_engine.py:84-99 | the total lies between -0.25 and +0.75 per question |
| Exam.OnlyQuestionPositionsCount | luna_study_ripam/src/engine/exam_engine.py:84-85 | answers at positions without a question do not matter |
| Exam.BlankExamScoresZero | luna_study_ripam/src/engine/exam_engine.py:84-99 | an exam left blank scores 0 and counts every standard question as omitted |
| Exam.NullCorrectRewardsSilenceAsWritten | luna_study_ripam/src/engine/exam_engine.py:92-94 | as written, an unanswered standard question whose correct choice is null earns 0.75 and counts as correct |
| Exam.UnansweredNeverMatches | luna_study_ripam/src/engine/exam_engine.py:87-99 | with the intended match an unanswered question is never correct; where a non-empty correct choice is recorded this agrees with the written comparison |
| Exam.Verdict | luna_study_ripam/src/engine/exam_engine.py:101-103 | the final score is non-negative, at least the total, the total when it is non-negative; passed exactly at 21 |
| Exam.ExamAtMostThirty | luna_study_ripam/src/engine/exam_engine.py:84-103 | an exam of at most forty questions scores at most 30 |
| Exam.CalculateResult | luna_study_ripam/src/engine/exam_engine.py:81-105 | the loop's tally is the tally of the questions against their answers, and the score and verdict are its clamp |

## Findings

| source | as written | input that shows it | evidently intended | confidence | as-written member | corrected member |
|---|---|---|---|---|---|---|
| luna_study_ripam/src/engine/exam_engine.py:92 | `ans == q.corretta` counts a missing answer as a match when the question's correct choice is also missing | a standard question generated from a reply with `"corretta": null`, left unanswered: `None == None`, so +0.75 and one more correct | an unanswered question is never correct; it is omitted (standard) or earns nothing (situational) | not executed | Exam.NullCorrectRewardsSilenceAsWritten | Exam.BlankExamScoresZero |

`Exam.CalculateResult` and `Exam.TallyOf` use the corrected match. It differs from the
written one only when the answer is missing or empty. `Exam.BlankExamScoresZero` proves the
intended behaviour over whole exams: with no answers at all the total is 0 and every standard
question is omitted. As the source stands, `get_next_question`
(luna_study_ripam/src/engine/exam_engine.py:51-74) raises before the model is ever asked,
at the `specific_topic=` keyword. The `generate_content` call and the `spiegazione=` keyword
would fail after it (see Exam.GetNextQuestion under "Left out"). The null correct choice
therefore reaches `calculate_result` only once that call is repaired, as the model
assumes.

## Left out

- I/O and external services are outside the model. This covers the HTTP calls to the
  language model and to Stable Diffusion, reading prompt, seed and schema files, the
  `print` debugging, base64 decoding, writing the image, clocks (`time.time`, `strftime`)
  and environment variables. Each of them is an input, an opaque function or a set of
  existing paths.
- Floating point is modelled as exact reals. Every default delta is a whole number of
  eighths, so `round(x, 3)` is modelled exactly as round-half-even on reals.
- The text of the question prompt and of the JSON rendering of seed rows is not modelled.
  The prompt builder is modelled through the parts it selects.
- `_read_text` and `_load_jsonl` of the prompt builder read files that may be missing, and
  skip broken JSON lines. Seed rows are given already rendered.
- `SDConfig.from_env`, and the parsing of environment variables in it, are not modelled.
  Only the dataclass defaults are.
- `_extract_info_dict` needs `json.loads` of a string, so the info dictionary is an input
  of `TryExtractSeed`. A decoded info that is not a dictionary is not modelled.
- `SDClient.txt2img` is modelled only through its request body, the two reply fields and
  the output path. The HTTP error handling and the `SDResult` record are not modelled.
- `voice_narrator.py`, `main.py` and `gui_main.py` are not part of this model. They hold
  speech, the command-line loop and the tkinter window.
- PromptBuilder.Sample: follows CPython's pool algorithm for `random.sample`. CPython
  switches to rejection sampling for populations above 21 rows at k = 4. The guarantees
  proved (k distinct positions, each row taken as it is) hold for both, but the exact rows
  drawn from a large bank may differ.
- Picker.Draw: the weighted choice is an oracle. `keys[stream(k) % n]` stands for
  `random.choices` with weights, so the model proves only that a draw is a subject of the
  table, not its probability. The weights decide only whether the draw raises. The oracle
  can land on a subject whose weight is 0, which `random.choices` never returns.
- PyText.Upper: upper-cases only a–z, the Latin-1 lower-case letters U+00E0–U+00FE (except
  U+00F7), ÿ, µ, the dotless ı and the long ſ. Every other character is left as it is, so
  Greek, Cyrillic, Latin Extended-A and the rest of Unicode differ from Python ("α".upper()
  is "Α" in Python but "α" here), as do letters that expand, such as "ß" to "SS". This
  reaches Scoring.Key, ResponseParser.NormalizeLetter and PromptCompiler.SplitNegative for
  answers, letters or prompt texts outside these ranges.
- PromptCompiler.SplitNegative: the model's upper-casing keeps the length, so the marker's
  index in the upper-cased text is also its index in the original text. In Python a letter
  before the marker that expands when upper-cased ("ß" to "SS") shifts the index found in
  `text.upper()`, and `text` is then cut at the wrong place. For "ßabc NEGATIVE: x" Python
  gives ("ßabc N", "x"), while the model gives ("ßabc", "x"). Python also finds a marker
  that only appears after upper-casing, such as "ŉegative:" ("ŉ" becomes "ʼN"); the model
  does not. The model does not reproduce either shift.
- PyText.ParseInt: reads an optional sign and ASCII digits between blanks. Python's `int`
  also accepts underscores between digits and non-ASCII digits.
- Exam.StrField: a reply value of a type other than the one expected is read as missing.
  Examples are a number as `domanda`, or a list as `spiegazione_breve`. The source would put
  that value into the question unchanged.
- Exam.OptionsField: keeps only the string-valued entries of `opzioni`, and reads an
  `opzioni` that is not an object as empty. The source stores whatever `data.get("opzioni",
  {})` holds, non-string entries and non-object values included, because a question's
  options are strings in this model.
- Exam.CorrectField: a `corretta` that is neither a string nor null (a number, say) is read
  as `None`. The source stores that value unchanged, and it then never equals an answer.
  Under the corrected match `None` never matches either, so the score is the same. The
  match as written would differ: there `None` equals a missing answer (see "Findings").
- Exam.GeneratedQuestion: the source passes `spiegazione=` to `Question`, which has no
  such field. Building the question would raise `TypeError`. The model builds the question
  the code evidently means: the same fields without that keyword.
- Exam.GetNextQuestion: models the call as the code evidently means it. As written it
  never produces a question, because of three defects. First, it passes `specific_topic=`
  to `build_question_prompt`, whose signature (luna_study_ripam/src/ai/prompt_builder.py:95-103)
  has no such parameter, so a TypeError is raised before the model is asked. Second, it
  calls `self.gemini.generate_content`, which `GeminiClient` does not define, so an
  AttributeError would follow. Third, it passes `spiegazione=` to `Question` (see
  Exam.GeneratedQuestion). In the model the reply comes already decoded, with `None` when
  `json.loads` failed. The reply is a JSON object in the model. A reply that decodes to a
  list, string or number would raise AttributeError at `data.get` (exam_engine.py:64), and
  the model's `map` type cannot hold such a reply, so that failure is not modelled. Removing the code fences before decoding is not modelled, and
  neither is the prompt built from `get_random_topic`.
- The report string of `calculate_result` (status word and `{final:.2f}` formatting) is not
  modelled. The final score, the verdict and the three counters it prints are.
- `domain/enums.py` repeats the tutor, outcome and question-type names as enums that the
  engine does not use. The model uses one datatype per name set, and
  `Models.TutorNameRoundTrip` covers the tutor names.
- Session.SessionEngine.StartNextQuestion: the prompt configuration and `self.rng` only
  shape the prompt text, which is part of the opaque `ask`.
- Session.SessionEngine.ApplyAnswer: a failed render is `None` from `render`, which stands
  for the swallowed exception.
- The stage manager's `StageUpdate.oldProgress` / `oldStage` use `int(...)` of the stored
  values. Stored values are integers in the model.
