# sirep — a Dafny model of the plan-rescission core

sirep automates the "rescission" of FGTS instalment plans. A capture
engine walks a list of plans on the Gestão da Base terminal and records
what it finds. A treatment engine then takes each plan that is liable to
rescission through a fixed list of seven stages, ending with the plan
rescinded or discarded. Around these two engines sit:

- pure text helpers that read the terminal screens;
- a repository layer over the database tables;
- the step catalogue of the pipeline;
- a notes-to-text renderer;
- a volatile store for the terminal password;
- fake-data helpers.

This project models that core as immutable Dafny values and pure functions,
and proves properties of it. The modules follow the source:

| module | file | what it models |
|---|---|---|
| `Wrappers`, `Text`, `Collections` | wrappers.dfy, text.dfy, collections.dfy | `Option`/`Result`; Python's `str.strip`, `split`, `upper`/`lower`, `int()`, `in`; list helpers (dedup, stable sort, windows) |
| `Enums` | enums.dfy | the `PlanStatus` and `Step` enumerations (their file is not part of this model; see "Left out") |
| `Models` | models.dfy | the records `Plan`, `TreatmentPlan`, `PlanLog`, `DiscardedPlan`, `JobRun` and their column defaults |
| `StageTables` | stage_tables.dfy | the gestão and treatment stage tables, their labels and `infer_gestao_stage_numero` |
| `Steps` | steps.dfy | the step catalogue, step-code normalisation and parsing, deduplication |
| `Repositories` | repositories.dfy | the repositories as tables held in sequences: plan upsert and status, job runs, plan logs, treatment lookups |
| `ServiceBase` | service_base.dfy | `unit_of_work` and `run_step_job` |
| `RuntimeCredentials` | credentials.dfy | the in-memory secret store and its password shortcuts |
| `Cnpj`, `Fakes` | cnpj.dfy, fakes.dfy | the CNPJ print mask, the modulo-11 check digits, and the fake CNPJ and base generators |
| `Notepad` | notepad.dfy | `build_notepad_txt` |
| `GestaoBase` | gestao_base.dfy | the terminal-screen parsers and the plan-list pipeline glue |
| `Captura` | captura.dfy | the capture engine: control transitions, history window, hydration, per-plan counters, finalisation |
| `TratamentoControl` | tratamento_control.dfy | the treatment engine's derived state, control guards, queue and worker transitions |
| `StageList` | stage_list.dfy | the `etapas` list of a treatment: stage lookup, the markers, one pass of the stage loop |
| `TratamentoStages` | tratamento_stages.dfy | `_process_plan` and the stage bodies (`_etapa3`, `_etapa4`, `_etapa6`, `_etapa7`) |
| `TratamentoMigration` | tratamento_migration.dfy | treatment creation, the situation classifier, occurrence materialisation and `migrar_planos` |

How the source's effects become values:

- Every random draw is an explicit parameter. This covers coins, choices,
  counts, sampled positions and CNPJ digits. Most draws are left
  unconstrained, so the inputs form a superset of what the generators
  produce and the proved properties hold for every draw. Two examples:
  `MigrationDraws` admits empty CNPJ and base lists and any type, and
  `Captura.ValidDraws` fixes only the eight-digit base and leaves the
  days in arrears, the type and the balance free.
- The clock is an `Instant` parameter.
- Each database table is a sequence of rows whose id is its position plus
  one: the auto-increment key, since the core never deletes a row.
- A failing session, a raising callback and a storage error are
  `Result`/`Option` inputs.
- The asyncio tasks, events and locks of the engines become their
  observable transitions: the state record before and after each step.

## Model

| member | source | states |
|---|---|---|
| RuntimeCredentials.SetSecret | sirep/infra/runtime_credentials.py:18-25 | `None` or the empty text removes the key; any other value is stored under it; every other key keeps its presence and value |
| RuntimeCredentials.GetSecret | sirep/infra/runtime_credentials.py:27-31 | the answer is present exactly when the key is stored, and is then the stored value |
| RuntimeCredentials.ClearAll | sirep/infra/runtime_credentials.py:33-37 | no key is stored afterwards |
| RuntimeCredentials.SetGestaoBasePassword | sirep/infra/runtime_credentials.py:41-42 | a clearing password removes the password key; reads of every other key are unchanged |
| RuntimeCredentials.GetGestaoBasePassword | sirep/infra/runtime_credentials.py:44-45 | present exactly when the password key is stored |
| RuntimeCredentials.ClearGestaoBasePassword | sirep/infra/runtime_credentials.py:47-48 | the password key is gone; reads of every other key are unchanged |
| RuntimeCredentials.SetThenGet | sirep/infra/runtime_credentials.py:18-31 | reading a key right after setting it gives the value, or nothing for a clearing value |
| RuntimeCredentials.SetKeepsOthers | sirep/infra/runtime_credentials.py:18-31 | setting one key never changes what another key reads |
| RuntimeCredentials.SetTwice | sirep/infra/runtime_credentials.py:18-25 | the last write to a key wins: two writes equal the second alone |
| RuntimeCredentials.ClearingValuesAgree | sirep/infra/runtime_credentials.py:22-23 | storing `None` and storing "" both amount to removing the key |
| RuntimeCredentials.ClearIsSetNone | sirep/infra/runtime_credentials.py:41-48 | clearing the password equals setting it to `None`, and equals setting it to "" |
| RuntimeCredentials.PasswordRoundTrip | sirep/infra/runtime_credentials.py:54-69 | a non-empty password reads back as set; a cleared one reads back as nothing |
| RuntimeCredentials.ClearAllForgets | sirep/infra/runtime_credentials.py:72-75 | after clearing everything, the password and every other key read as nothing |
| ServiceBase.UnitOfWork | sirep/services/base.py:12-22 | the session is always closed; commit happens exactly when the block succeeds and the commit does not raise; otherwise it rolls back, the state is the one before, and the error is re-raised |
| ServiceBase.ResolveJobName | sirep/services/base.py:92-95 | the job name is never empty: a non-empty text is kept, a `Step` gives its member name, and a missing or empty name falls back to the step's name |
| ServiceBase.ResolveHash | sirep/services/base.py:86-90 | a callable hash is applied to the state before the job starts; a plain value is used as is |
| ServiceBase.OrEmpty | sirep/services/base.py:103-107 | an absent mapping reads as the empty one, a present one as itself |
| ServiceBase.FinishArgs | sirep/services/base.py:102-109 | a `StepJobOutcome` finishes the job with its own status and info update; a plain mapping finishes it "FINISHED" with no update |
| ServiceBase.PayloadOf | sirep/services/base.py:102-109 | the payload is the outcome's data, or the plain mapping, with absence read as empty |
| ServiceBase.StepJobBlock | sirep/services/base.py:80-113 | when the block succeeds, exactly one valid job row is appended and the earlier rows are untouched |
| ServiceBase.RunStepJob | sirep/services/base.py:54-113 | the session is closed and the job table stays well formed; success adds exactly one row after the old ones; failure leaves the table as it was |
| ServiceBase.StartedJob | sirep/services/base.py:94-99 | the job the callback sees has the next id, the default start status and no finish time |
| ServiceBase.RunStepJobSucceeds | sirep/services/base.py:80-113 | with a returning callback and a working commit, the new row carries the resolved name, the step, the pre-start hash and both timestamps; it is finished with the callback's status and info update; the answer is the payload with "job_id" set to the row's id |
| ServiceBase.RunStepJobCallbackRaises | sirep/services/base.py:12-22 | a raising callback rolls back, leaves the job table as it was and re-raises its error |
| ServiceBase.PayloadKeepsData | sirep/services/base.py:112 | "job_id" overwrites any key of that name; every other payload key is kept with its value |
| Cnpj.Mask | sirep/shared/fakes.py:116 | the mask adds exactly four separator characters |
| Cnpj.MaskShape | sirep/shared/fakes.py:115-116 | 14 digits print as `NN.NNN.NNN/NNNN-NN`: 18 characters, separators at positions 2, 6, 10 and 15, digits elsewhere |
| Cnpj.MaskDigits | sirep/shared/fakes.py:115-116 | filtering the digits out of a masked 14-digit string gives the string back |
| Cnpj.DigitString | sirep/app/captura.py:559 | each digit prints as the one character whose value it is |
| Cnpj.CheckDigit | sirep/app/captura.py:552-555 | a check digit is 0 to 9; it is 0 exactly when the weighted sum leaves a remainder below 2 modulo 11, and otherwise completes the sum to a multiple of 11 |
| Cnpj.BuildDigits | sirep/app/captura.py:551-558 | the result is 14 digits: the 8 base digits, then `0001`, then the two check digits |
| Cnpj.BuildDigitsValid | sirep/app/captura.py:551-558 | every number built from a base passes the Receita Federal validity rule for both check digits |
| Cnpj.ValidDigitsDetermined | sirep/app/captura.py:556-558 | two valid numbers with the same first 12 digits are equal |
| Fakes.FormatarCnpj | sirep/shared/fakes.py:114-116 | the printed number is four characters longer than its zero-padded digits |
| Fakes.FormatarCnpjShape | sirep/shared/fakes.py:104-116 | every number `randint(0, 99999999999999)` can draw prints in the 18-character mask shape |
| Fakes.FormatarCnpjDigits | sirep/shared/fakes.py:114-116 | the digits of a printed number are its 14-digit zero-padded form; they denote the number again; `_somente_digitos` reads the same digits back |
| Fakes.FormatarCnpjInjective | sirep/shared/fakes.py:114-116 | two different numbers never print the same |
| Fakes.GerarCnpjs | sirep/shared/fakes.py:100-106 | one to three numbers, one per draw and in draw order, each in the mask shape and denoting its drawn number |
| Fakes.UfCodesNoDup | sirep/shared/fakes.py:54-84 | no code appears twice in the federative-unit list |
| Fakes.GerarBases | sirep/shared/fakes.py:109-111 | one to three codes, all from the list, none repeated |
| Enums.PlanStatusFromValue | sirep/app/tratamento.py:243-248 | `PlanStatus(raw)` finds the member whose value is `raw`; it is absent exactly when no member has that value, where Python raises `ValueError` |
| Enums.PlanStatusValueInjective | sirep/app/tratamento.py:243-248 | distinct statuses have distinct stored values |
| Enums.PlanStatusRoundTrip | sirep/app/tratamento.py:243-248 | parsing a status's stored value gives the status back |
| Enums.Ordinal | sirep/app/steps.py:38-47 | every member's number is between 1 and 13, and none is 6 |
| Enums.StepNameDigits | sirep/app/steps.py:54-56 | every member name is `ETAPA_` followed by the member's number in decimal |
| Enums.StepNameInjective | sirep/app/steps.py:55-56 | distinct members have distinct names |
| Enums.StepFromName | sirep/app/steps.py:55-56 | `Step[name]` is the member with that name; it is absent exactly when no member has it |
| Enums.StepFromNameOfName | sirep/app/steps.py:128-129 | looking a member up by its own name gives it back |
| Models.NewPlan | sirep/domain/models.py:19-44 | a plan built from keywords holds its key and number, the given columns, and NULL in every other column |
| Models.NewTreatmentPlan | sirep/domain/models.py:78-92 | a treatment built from its required columns is "pendente" at stage 0, with empty `cnpjs`, `etapas`, `bases` and `notas`, and no period or rescission date |
| Models.PendingStage | sirep/app/tratamento.py:165-175 | a fresh stage entry is pending, never started or finished, with no message |
| Models.NewPlanLog | sirep/domain/models.py:100-111 | a log row holds its required columns; plan number, treatment id and stage fields are NULL |
| Models.NewDiscardedPlan | sirep/domain/models.py:66-75 | a discarded-plan row holds its required columns; type, balance and situation date are NULL |
| Models.NewJobRun | sirep/domain/models.py:55-64 | a job row starts with status "OK", no finish time, and no step, hash or info |
| StageTables.GestaoAlias | sirep/domain/logs.py:17-24 | every alias maps to a gestão stage between 1 and 4 |
| StageTables.GestaoLabelsShape | sirep/domain/logs.py:12-15 | there is a label exactly for stages 1 to 4, each "Gestão da Base – " followed by the stage's definition |
| StageTables.TratamentoLabelsShape | sirep/domain/logs.py:36-39 | there is a label exactly for stages 1 to 7, each "Tratamento – " followed by the stage's definition |
| StageTables.TratamentoStagesInOrder | sirep/domain/logs.py:26-34 | the treatment table lists seven stages, numbered 1 to 7 in order |
| StageTables.StageFromProgress | sirep/domain/logs.py:45-47 | the progress value decides exactly when it is a gestão stage number (1 to 4), and is then the answer |
| StageTables.StageFromName | sirep/domain/logs.py:48-51 | the name is trimmed and lower-cased, then looked up among the aliases |
| StageTables.InferGestaoStageNumero | sirep/domain/logs.py:42-52 | the answer is a stage between 1 and 4; a valid progress value wins; otherwise the trimmed, lower-cased name is looked up among the aliases |
| StageTables.AliasKeyNormal | sirep/domain/logs.py:17-24 | every alias key is already lower-case and trimmed |
| StageTables.InferFromPaddedAlias | sirep/domain/logs.py:48-51 | an alias in any surrounding whitespace, with no usable progress, infers the alias's stage |
| StageTables.InferUnknown | sirep/domain/logs.py:42-52 | nothing is inferred exactly when the progress value is not a stage 1 to 4 and the name is missing or, trimmed and lower-cased, no alias |
| StageTables.InferDossie | sirep/domain/logs.py:48-52 | the name "Dossiê" is no gestão alias, so with a progress value outside 1 to 4 it infers nothing |
| Steps.StepNumberIsOrdinal | sirep/app/steps.py:38-47 | `_step_number` reads back the number the member's name carries |
| Steps.CaptionText | sirep/app/steps.py:60-83 | a gestão caption is that stage's gestão label; a treatment caption is that stage's treatment label |
| Steps.AsDict | sirep/app/steps.py:24-35 | the dictionary has exactly the keys code, label, category and order, plus "stage" exactly when a stage is set, each holding the entry's field |
| Steps.GestaoStepNamedByStage | sirep/app/steps.py:53-56 | the member looked up as `ETAPA_n` for each gestão stage n is the one the table lists |
| Steps.ListStepMetadata | sirep/app/steps.py:104-107 | the listed catalogue is sorted by `order` and is a permutation of the registered entries |
| Steps.DefaultStepSequence | sirep/app/steps.py:116-119 | the default sequence is the steps of the listed catalogue, in order |
| Steps.RegisterDefaultsValue | sirep/app/steps.py:50-98 | registration from the stage tables produces exactly the written-out catalogue: ETAPA_1 to ETAPA_4 for gestão stages 1-4, ETAPA_5 and ETAPA_7 to ETAPA_12 for treatment stages 1-7, then ETAPA_13 as stage 8 |
| Steps.RegisterDefaultsSteps | sirep/app/steps.py:50-98 | every step is registered exactly once, in declaration order |
| Steps.RegisterDefaultsSorted | sirep/app/steps.py:50-98 | registration order is already ascending in `order` |
| Steps.DefaultStepSequenceValue | sirep/app/steps.py:104-119 | listing keeps registration order, so the default sequence runs through every step in ascending number |
| Steps.FindMetadata | sirep/app/steps.py:110-113 | the entry found is in the catalogue and carries the step; nothing is found exactly when no entry carries it |
| Steps.FindMetadataAt | sirep/app/steps.py:110-113 | in a catalogue without repeated steps, a step's entry is the one at its position |
| Steps.TratamentoStageMapping | sirep/app/steps.py:66-87 | treatment stage n is carried by the step the table names for it, whose entry is a treatment entry for stage n with that stage's treatment label |
| Steps.DossieStageMapping | sirep/app/steps.py:89-96 | ETAPA_13 is registered as treatment stage 8 with the dossier label |
| Steps.FindByValue | sirep/app/steps.py:130-132 | the member found has the candidate as upper-cased value; none is found exactly when no later member does |
| Steps.FindByValueFirst | sirep/app/steps.py:130-132 | the search stops at the first member, in declaration order, whose upper-cased value is the candidate |
| Steps.NormalizeByValue | sirep/app/steps.py:127-132 | a candidate that is no member name but equals the upper-cased value of some member normalises to the name of the first such member in declaration order |
| Steps.NormalizeStepCode | sirep/app/steps.py:122-137 | the answer is "" or a member name; blank input gives ""; otherwise it is the lookups applied to the trimmed candidate with `-` and space mapped to `_`, upper-cased |
| Steps.NormalizeCanonical | sirep/app/steps.py:127-137 | a member name is kept; otherwise the member the value search finds gives its name; with no value match the `ETAPA_`-prefixed name is tried, and otherwise "" |
| Steps.CanonicalOfUpperCode | sirep/app/steps.py:126-127 | an upper-case code is its own canonical form |
| Steps.CanonicalOfLowerCode | sirep/app/steps.py:126-127 | the lower-case form of an upper-case code canonicalises to the code |
| Steps.NormalizeStepName | sirep/app/steps.py:122-129 | a member name, upper- or lower-case, with any surrounding whitespace, normalises to itself |
| Steps.NormalizeBareNumber | sirep/app/steps.py:133-136 | a bare step number normalises to its member when no member value claims it |
| Steps.NormalizeUnprefixed | sirep/app/steps.py:133-136 | a candidate that names no member and matches no value, but names one once prefixed with `ETAPA_`, gives that member |
| Steps.Resolve | sirep/app/steps.py:144-151 | a member entry resolves to itself; a text entry resolves exactly when it normalises to a member name, and then to that member |
| Steps.ParseStepCodes | sirep/app/steps.py:140-152 | parsing succeeds exactly when every entry resolves, with the members in entry order; failure is an "invalid step" error |
| Steps.ParseStepCodesFirstError | sirep/app/steps.py:144-150 | the error names the first entry that does not resolve |
| Steps.NonBlankItems | sirep/app/steps.py:158 | the kept items are trimmed and non-empty |
| Steps.NonBlankItemsEmpty | sirep/app/steps.py:158-160 | nothing is kept exactly when every piece is blank |
| Steps.ParseStepsText | sirep/app/steps.py:155-161 | "no steps given" is raised exactly when every comma-separated piece is blank; a success is never empty |
| Steps.ParseStepCodesResolved | sirep/app/steps.py:140-152 | entries that all resolve parse to their members, in order |
| Steps.ParseStepsTextRoundTrip | sirep/app/steps.py:155-161 | a non-empty list of steps rendered as comma-separated names parses back to the same list |
| Steps.DeduplicateSteps | sirep/app/steps.py:164-174 | the loop with a seen-set computes the first-occurrence deduplication of the input |
| Steps.DeduplicateStepsSpec | sirep/app/steps.py:164-174 | the result has no repeats, contains every input step, and keeps first-occurrence order |
| Repositories.FindPlan | sirep/infra/repositories.py:28-30 | the position found holds a plan with that number; nothing is found exactly when no plan has it |
| Repositories.FindPlanUnique | sirep/infra/repositories.py:28-30 | in a table with unique plan numbers, any plan with the number is the one found |
| Repositories.Assign | sirep/infra/repositories.py:38-39 | `setattr` of each passed field: passed mapped columns take the passed value; an unmapped column, every other column, the key and the number keep theirs |
| Repositories.Upsert | sirep/infra/repositories.py:32-41 | it fails exactly when the number is unknown and a keyword names no column or a passed column is one the `Plan` class does not map; on success the table keeps unique numbers and the returned plan is the table's plan with that number |
| Repositories.UpsertInserts | sirep/infra/repositories.py:33-36 | an unknown number is inserted exactly when every passed column is mapped; then one plan is appended under the next id, holding exactly the passed columns and NULL elsewhere, and earlier rows are untouched |
| Repositories.UpsertMerges | sirep/infra/repositories.py:37-39 | a known number changes only that plan, only in the passed mapped columns (an unmapped one stores nothing), and keeps its id |
| Repositories.UpsertStoresFields | sirep/infra/repositories.py:32-41 | the stored plan already holds every passed mapped column |
| Repositories.UpsertIdempotent | sirep/infra/repositories.py:32-41 | repeating an upsert with the same arguments gives the same table and plan |
| Repositories.StatusText | sirep/infra/repositories.py:44-53 | a `PlanStatus` member is written as its value, which parses back to the member |
| Repositories.UpdateAt | sirep/infra/repositories.py:38-40 | assignments on one loaded plan change only its passed mapped columns; every other plan is unchanged and the table stays valid |
| Repositories.SetStatus | sirep/infra/repositories.py:52-54 | the plan's status becomes the status text; its other columns and every other plan are unchanged |
| Repositories.ListByStatus | sirep/infra/repositories.py:43-46 | a plan is listed exactly when it is in the table and its stored status is the status text |
| Repositories.SetStatusThenList | sirep/infra/repositories.py:43-54 | after `set_status(plan, s)` the plan is listed under `s`, and every other plan is listed under any status exactly as before |
| Repositories.ListByStatusSpellings | sirep/infra/repositories.py:44 | a member and its value passed as text select the same plans |
| Repositories.StartJob | sirep/infra/repositories.py:76-95 | one row is appended under the next id with the given name, step, hash, info and status, started now and not finished |
| Repositories.MergeInfo | sirep/infra/repositories.py:111-114 | an absent or empty update leaves `info` as it was; otherwise the old map (or the empty one) is updated with the update's keys |
| Repositories.MergeInfoTwice | sirep/infra/repositories.py:111-114 | two successive non-empty updates merge like one update by their combination |
| Repositories.FinishJob | sirep/infra/repositories.py:97-117 | an unknown id is an error with the "não encontrado" message; otherwise only that row changes: status and finish time set, info merged, name, step, hash and start time kept |
| Repositories.FailJob | sirep/infra/repositories.py:119-122 | an error exactly when no job has that id; otherwise only that row changes, to status "FAIL", finished now, with its info merged with the update |
| Repositories.StartThenFinish | sirep/infra/repositories.py:76-117 | a job started with the default status is "RUNNING"; finishing it succeeds with the finish status, the same name, the start info merged with the update, and the finish time |
| Repositories.NormalizeContext | sirep/infra/repositories.py:277-279 | the context is never empty and is trimmed and lower-case: "geral" for blank text, otherwise the trimmed text lower-cased |
| Repositories.NormalizeContextIdempotent | sirep/infra/repositories.py:277-279 | normalising a normalised context changes nothing |
| Repositories.NormalizeContextPadding | sirep/infra/repositories.py:277-279 | surrounding whitespace does not change the normalised context |
| Repositories.NormalizeLogStatus | sirep/infra/repositories.py:227 | the status is never empty and is upper-case: "INFO" for blank text, otherwise the trimmed text upper-cased |
| Repositories.AddLog | sirep/infra/repositories.py:214-241 | one row is appended under the next id with normalised context and status, the given message and optional columns, and the given creation time or else now |
| Repositories.LogsInContext | sirep/infra/repositories.py:250-252 | with no (or an empty) context every row is in scope; otherwise exactly the rows whose context is the normalised one |
| Repositories.Recentes | sirep/infra/repositories.py:243-259 | only in-scope rows are returned, sorted by (creation time, id) ascending for "asc" and descending otherwise; without a limit they are all the in-scope rows; with one, as many as the limit allows |
| Repositories.OrderLogs | sirep/infra/repositories.py:253-256 | the ordered rows are a permutation of the scope, sorted ascending for "asc" and descending otherwise |
| Repositories.RecentesLimit | sirep/infra/repositories.py:257-258 | a limited query returns the first rows of the unlimited one |
| Repositories.AddOccurrence | sirep/infra/repositories.py:135-155 | one row is appended under the next id holding the given number, situation, CNPJ and optional columns |
| Repositories.AddTreatment | sirep/infra/repositories.py:187-190 | the treatment is appended under the next id and the table stays valid |
| Repositories.ByPlanId | sirep/infra/repositories.py:183-185 | the treatment found belongs to the plan; nothing is found exactly when no treatment does |
| Repositories.RescindidosPorPeriodo | sirep/infra/repositories.py:195-205 | exactly the treatments with status "rescindido" and a rescission date in the period, as a permutation of the filtered rows, sorted by (date, id) |
| Notepad.Note | sirep/services/notepad.py:9-13 | a note reads as trimmed text, never longer than the stored text (a missing key and `None` read as "") |
| Notepad.ReadFields | sirep/services/notepad.py:20-96 | each field of the note is the `g` reading of its key |
| Notepad.LStripChar | sirep/services/notepad.py:96 | the result is a suffix of the text that does not start with the character, and everything dropped is that character |
| Notepad.RStripChar | sirep/services/notepad.py:96 | the result is a prefix of the text that does not end with the character, and everything dropped is that character |
| Notepad.StripChar | sirep/services/notepad.py:96 | `strip("\n")`: the result neither starts nor ends with the character |
| Notepad.Optional | sirep/services/notepad.py:26-28 | a content line appears, once, exactly when the note is not blank |
| Notepad.Identification | sirep/services/notepad.py:18-23 | the identification block is six lines, starting with the header |
| Notepad.Lines | sirep/services/notepad.py:15-98 | the note has at least two lines and starts with the header |
| Notepad.Render | sirep/services/notepad.py:100 | the text starts with the header and a line break, and ends with a line break |
| Notepad.BuildNotepadTxt | sirep/services/notepad.py:6-100 | the standard note starts with "DEPURAÇÃO PARCELAMENTO PASSÍVEL DE RESCISÃO" and a line break, and ends with a line break |
| Notepad.NotepadLines | sirep/services/notepad.py:100 | the note is its lines, each ended by a line break |
| Notepad.StandardNonBlank | sirep/services/notepad.py:18-95 | no title, label or rule of the standard note is blank |
| Notepad.ReadFieldsAgree | sirep/services/notepad.py:9-13 | two dictionaries that read the same on every template key fill in the same fields |
| Notepad.NotepadUnknownKey | sirep/services/notepad.py:9-13 | keys the template does not name have no effect on the note, whether added, changed or removed |
| Notepad.NotepadNoneIsBlank | sirep/services/notepad.py:10-12 | a `None` note, an empty note and a missing key render the same |
| Notepad.NotepadStripsNotes | sirep/services/notepad.py:13 | surrounding whitespace of a note never shows in the text |
| Notepad.NotepadExclusaoNeedsResultados | sirep/services/notepad.py:62-67 | with a blank occurrence-21 result, the guide-exclusion note has no effect on the note |
| Notepad.ExclusaoFollowsResultados | sirep/services/notepad.py:64-67 | under a non-blank result, the guide-exclusion note comes on the line right after it, and is in the note |
| Notepad.TitledShown | sirep/services/notepad.py:46-50 | a titled section holds its note exactly when the note is not blank, with one line more for it |
| Notepad.InLines | sirep/services/notepad.py:15-98 | a line is in the note exactly when it is in one of its sections |
| Notepad.NoEmptyLine | sirep/services/notepad.py:6-98 | with no blank fixed text the note has no empty line: a blank note keeps only its label, and a content line without content is dropped |
| Notepad.OptionalShown | sirep/services/notepad.py:26-85 | each free-text note (arrears, CNPJs, analyses, occurrences, guides, duplicity) is a line of the note exactly when it is not blank |
| Notepad.FixedLabels | sirep/services/notepad.py:20-93 | every labelled line (plan, CNPJ/CEI, company name, type, request date, period, and the six rescission fields) is in the note as label plus note, even when the note is blank |
| Notepad.BasesInline | sirep/services/notepad.py:40-42 | a one-line bases note goes on the "BASES:" line itself |
| Notepad.BasesBlock | sirep/services/notepad.py:40-44 | a bases note with line breaks leaves the "BASES:" line bare and follows it on its own line |
| Notepad.ObservacoesStripped | sirep/services/notepad.py:95-98 | the observations section is its title followed by the note exactly when the note is not blank; the second strip of line breaks never changes a note already trimmed of whitespace |
| Notepad.StripCharOfStripped | sirep/services/notepad.py:96 | stripping a whitespace character from a text already trimmed of whitespace leaves it as it is |
| Notepad.LinesIgnoreExclusao | sirep/services/notepad.py:62-67 | with a blank occurrence-21 result, every guide-exclusion value gives the same lines |
| GestaoBase.OnlyDigitsOf | sirep/services/gestao_base.py:52-53 | the result is all digits and no longer than the text (`None` reads as "") |
| GestaoBase.OnlyDigitsIsFilter | sirep/services/gestao_base.py:52-53 | removing every non-digit keeps exactly the digits, in order |
| GestaoBase.OnlyDigitsOfFacts | sirep/services/gestao_base.py:52-53 | `None` gives "", and the operation is idempotent |
| GestaoBase.NormPlano | sirep/services/gestao_base.py:307-308 | the plan key is all digits with no leading zero |
| GestaoBase.LStripZerosDropsZeros | sirep/services/gestao_base.py:308 | only zeros are dropped from the front |
| GestaoBase.NormPlanoIdempotent | sirep/services/gestao_base.py:307-308 | normalising a normalised plan number changes nothing |
| GestaoBase.NormPlanoValue | sirep/services/gestao_base.py:307-308 | the key denotes the same number as the plan number's digits |
| GestaoBase.NormPlanoEmpty | sirep/services/gestao_base.py:307-308 | the key is empty exactly when every digit of the plan number is a zero |
| GestaoBase.ParsePagination | sirep/services/gestao_base.py:126-131 | on a footer without a match the error is "Formato inválido de paginação: '<texto>'" |
| GestaoBase.PaginationFails | sirep/services/gestao_base.py:127-129 | parsing fails exactly when no position of the text starts a "Linhas x a y de z" match |
| GestaoBase.PaginationLeftmost | sirep/services/gestao_base.py:127-131 | the leftmost match is the one reported, as `re.search` does |
| GestaoBase.ParsePaginationRender | sirep/services/gestao_base.py:126-131 | the footer "Linhas x a y de z" parses back to (x, y, z) |
| GestaoBase.FooterMatches | sirep/services/gestao_base.py:127 | any three digit runs laid out as "Linhas x a y de z" match, with their values |
| GestaoBase.ParseLine | sirep/services/gestao_base.py:134-147 | a line is rejected exactly when its plan-number column is blank; every parsed field is trimmed and the plan number is not empty |
| GestaoBase.FormatLine | sirep/services/gestao_base.py:136-141 | a row laid out in the E555 columns is 54 characters plus the company name |
| GestaoBase.ParseFormatLine | sirep/services/gestao_base.py:134-144 | a row laid out in the E555 columns parses back to itself |
| GestaoBase.ShouldSkipLine | sirep/services/gestao_base.py:150-152 | a missing line is skipped |
| GestaoBase.ShouldSkipPadding | sirep/services/gestao_base.py:150-152 | surrounding whitespace never changes whether a line is skipped |
| GestaoBase.ShouldSkipPrompt | sirep/services/gestao_base.py:152 | lines starting with "Sel" or "Prox.Trans." after whitespace are skipped |
| GestaoBase.DigitLineNotSkipped | sirep/services/gestao_base.py:150-152 | a line whose first non-blank character is a digit is kept |
| GestaoBase.FormattedRowNotSkipped | sirep/services/gestao_base.py:134-152 | a laid-out row whose plan number starts with a digit is kept and parses back to itself |
| GestaoBase.BuildTipoMap | sirep/services/gestao_base.py:329-336 | the map has no empty plan key |
| GestaoBase.TipoMapKeys | sirep/services/gestao_base.py:329-336 | a key is in the map exactly when it is the non-empty normalised plan of some record |
| GestaoBase.TipoMapLastWins | sirep/services/gestao_base.py:331-335 | a plan listed more than once keeps the trimmed type of its last record |
| GestaoBase.AplicaSitEspecial | sirep/services/gestao_base.py:339-359 | each row keeps every field but its situation, which becomes "SIT. ESPECIAL (Portal PO)" exactly when its normalised plan is in the map |
| GestaoBase.AplicaIdempotent | sirep/services/gestao_base.py:339-359 | applying the special situation twice is applying it once |
| GestaoBase.AplicaEmpty | sirep/services/gestao_base.py:414-419 | with an empty map the rows are unchanged, so skipping the call on an empty map changes nothing |
| GestaoBase.AplicaAppend | sirep/services/gestao_base.py:344-359 | the rows are adjusted one by one, independently |
| GestaoBase.FiltrarResolucao | sirep/services/gestao_base.py:402-403 | the kept rows are exactly the rows whose resolution is not "974/20", and kept plus discarded is every row |
| GestaoBase.DescartadosCount | sirep/services/gestao_base.py:403 | the discarded count is the number of "974/20" rows |
| GestaoBase.FiltrarAppend | sirep/services/gestao_base.py:402-403 | filtering works row by row: filtering a concatenation concatenates the filtered parts and adds the counts |
| GestaoBase.FiltrarNone | sirep/services/gestao_base.py:402-403 | nothing is discarded exactly when no row has resolution "974/20" |
| GestaoBase.FiltrarAplica | sirep/services/gestao_base.py:402-419 | filtering before or after applying the special situation gives the same rows |
| GestaoBase.AjustarDados | sirep/services/gestao_base.py:402-419 | adjusted rows plus discarded rows account for every collected row |
| GestaoBase.AjustarDadosUniform | sirep/services/gestao_base.py:402-419 | the adjusted rows are the filtered rows with the special situation applied, in either order, and the count is the number of "974/20" rows |
| Captura.NewProgresso | sirep/app/captura.py:27-31 | a new in-flight entry is at progress 0 with the four default stage labels |
| Captura.NewStatus | sirep/app/captura.py:42-51 | a new status is idle, with zero counters, nothing in flight, no history and no error |
| Captura.NewService | sirep/app/captura.py:54-67 | a new service has a fresh status, has not loaded its history, and has no pause signal and no task |
| Captura.ResetEstado | sirep/app/captura.py:73-78 | resetting gives a new service with the same history window |
| Captura.WithStatus | sirep/app/captura.py:69-71 | replacing the status touches nothing else |
| Captura.ToStored | sirep/app/captura.py:321-327 | a persisted entry always carries its timestamp |
| Captura.FromStored | sirep/app/captura.py:349-362 | a loaded row keeps plan, message, progress and stage, and a missing timestamp reads as the current instant |
| Captura.FromStoredToStored | sirep/app/captura.py:311-362 | persisting an entry and loading it back gives the entry |
| Captura.GetRecent | sirep/app/captura.py:343 | at most `n` rows, newest first |
| Captura.LoadRows | sirep/app/captura.py:348-362 | each stored row is loaded in the same position |
| Captura.RecentChronological | sirep/app/captura.py:343-349 | the newest rows, reversed, are the last `n` rows in store order |
| Captura.Hydrate | sirep/app/captura.py:337-366 | hydration loads once: an already loaded service or a failing store leaves everything as it was, and only the history, its timestamp and the loaded flag ever change |
| Captura.HydrateLoads | sirep/app/captura.py:343-365 | a first successful load holds the last `historyLimit` stored rows, oldest first, and `ultimaAtualizacao` moves to the newest of them |
| Captura.HydrateOnce | sirep/app/captura.py:338-339 | after a successful load further calls change nothing |
| Captura.HydrateRetries | sirep/app/captura.py:344-346 | a failed load changes nothing, so the next call loads as if it were the first |
| Captura.Registrar | sirep/app/captura.py:300-335 | recording changes only the store, the history and `ultimaAtualizacao`; the row is stored exactly when the store works |
| Captura.RegistrarWindow | sirep/app/captura.py:331-334 | the history is the previous one plus the entry, cut from the front to at most `historyLimit` entries, with the entry last |
| Captura.LoadRowsStamped | sirep/app/captura.py:353-360 | for stamped rows the fallback instant plays no part |
| Captura.LoadRowsLastN | sirep/app/captura.py:348-362 | loading the last `n` rows is taking the last `n` loaded rows |
| Captura.LoadRowsSnoc | sirep/app/captura.py:348-362 | loading rows one more row gives one more entry at the end |
| Captura.HydrateSyncs | sirep/app/captura.py:337-366 | a first successful load makes the in-memory history the last `historyLimit` stored rows |
| Captura.RegistrarKeepsSync | sirep/app/captura.py:318-334 | with a working store, recording keeps the in-memory history equal to the last `historyLimit` stored rows |
| Captura.FreshInstanceSameHistory | sirep/app/captura.py:337-366 | a new service over the same store shows the same history, with `ultimaAtualizacao` at its last entry |
| Captura.Iniciar | sirep/app/captura.py:148-189 | while executing or paused nothing changes; otherwise the run starts executing with zero counters, nothing in flight, no error, a set pause signal and a task, and no table row is written |
| Captura.IniciarKeepsHistory | sirep/app/captura.py:154-167 | starting keeps the earlier history and appends "Processamento iniciado." to it |
| Captura.Pausar | sirep/app/captura.py:191-216 | only an executing run reacts; one whose task is over becomes concluded and nothing else changes; a live one is paused and its signal cleared, the store gains the "Processamento pausado." row when saving works; plans and occurrences never change |
| Captura.PausarRecords | sirep/app/captura.py:207-215 | a live pause leaves "Processamento pausado." as the newest history entry whenever the window holds anything |
| Captura.Continuar | sirep/app/captura.py:218-235 | only a paused run reacts; without a pause signal it becomes concluded; otherwise it executes again with the signal set, and the store gains the "Processamento retomado." row when saving works; plans and occurrences never change |
| Captura.ContinuarRecords | sirep/app/captura.py:226-234 | a resumption with a pause signal leaves "Processamento retomado." as the newest history entry whenever the window holds anything |
| Captura.PausarContinuar | sirep/app/captura.py:191-235 | pausing a live run and continuing it returns to executing with the signal set and every counter as it was |
| Captura.ConcludedThenRestart | sirep/app/captura.py:148-235 | a concluded run ignores pause and continue requests and can be started again |
| Captura.LastMessage | sirep/app/captura.py:278 | the newest entry's message, present exactly when the history is not empty |
| Captura.Finalizar | sirep/app/captura.py:270-290 | the run is marked concluded unless paused with plans still below progress 4; the counters, the in-flight map and the tables are untouched; the signal and task are dropped; nothing is recorded when not concluding or when already concluded with the conclusion last |
| Captura.FinalizarRecords | sirep/app/captura.py:274-285 | after concluding, "Processamento concluído." is the newest entry |
| Captura.FinalizarTwice | sirep/app/captura.py:276-285 | finishing twice adds no second conclusion entry |
| Captura.RunGuard | sirep/app/captura.py:238-243 | without control signals the run is marked concluded with no entry recorded; otherwise nothing changes |
| Captura.EtapaIndex | sirep/app/captura.py:296 | the index is always in range, equals `p - 1` for `1 <= p <= n`, and clamps below to the first and above to the last label |
| Captura.ObterEtapa | sirep/app/captura.py:293-298 | an unknown plan or an empty label list gives ""; otherwise the label at the clamped index |
| Captura.ObterEtapaDefault | sirep/app/captura.py:293-298 | with the default labels, progress up to 1, 2, 3 and from 4 name "Captura", "Situação especial", "Liquidação anterior" and "GRDE" |
| Captura.GerarCnpj | sirep/app/captura.py:550-559 | the number is masked, its digits are the base, "0001" and the two check digits, and the branch field reads "0001" |
| Captura.GerarCnpjValid | sirep/app/captura.py:550-559 | the digits pass both check-digit tests and start with the drawn base |
| Captura.GerarNumero | sirep/app/captura.py:545-548 | nine digits: the year in four followed by the suffix in five, each reading back to the drawn value |
| Captura.CapturedFields | sirep/app/captura.py:493-510 | a captured plan is stored with status `PASSIVEL_RESC` |
| Captura.PutThenRemove | sirep/app/captura.py:372-542 | putting a plan in flight and popping it leaves the rest of the map as it was |
| Captura.FalhaEm | sirep/app/captura.py:530-531 | a failing plan in flight is seen at the progress it reached, and the other entries are unchanged |
| Captura.Falhar | sirep/app/captura.py:525-543 | a failure adds one to `falhas` only, keeps the error, and takes the plan out of flight; no table row is written |
| Captura.FalharRecords | sirep/app/captura.py:530-539 | the failure is the newest entry, at the progress reached and under the label of that progress (of stage 1 for progress 0) |
| Captura.Capturar | sirep/app/captura.py:489-523 | a capture upserts the plan, adds one to `novos` and `processados`, takes the plan out of flight and records "Capturado com sucesso" at progress 4 under "GRDE" |
| Captura.Descartar | sirep/app/captura.py:385-487 | a discard stores one discarded-plan row, adds one to `falhas` and `processados`, leaves the plans table alone and records "Descartado: <situation>" at the stage it was decided |
| Captura.ProcessarPlano | sirep/app/captura.py:368-543 | per outcome: a capture adds to `novos` and `processados`, a discard to `falhas` and `processados`, a failure to `falhas` only; the plan always leaves flight and the run state is unchanged |
| Captura.ProcessarKeepsCounters | sirep/app/captura.py:405-528 | every plan keeps `novos <= processados <= novos + falhas` |
| Captura.CapturedPlanStored | sirep/app/captura.py:493-510 | a captured plan is found under its number with status `PASSIVEL_RESC`, and no discarded row is added |
| Captura.DiscardStored | sirep/app/captura.py:385-487 | a discard appends exactly one row with the next id, the plan number, the situation, the masked CNPJ and the drawn type, balance and day |
| Captura.FailureStoresNothing | sirep/app/captura.py:525-539 | an exception writes no table row and keeps the error |
| Captura.ProcessarRecords | sirep/app/captura.py:398-523 | the newest entry of a plan that did not fail names it, its outcome's message, the progress recorded and that stage's label |
| Captura.FailureRecords | sirep/app/captura.py:530-539 | the newest entry of a failed plan in flight is "Falha inesperada" at the progress it reached |
| TratamentoControl.Derived | sirep/app/tratamento.py:351-356 | processing exactly when an id is in hand, waiting exactly when none is but the queue is not empty, idle otherwise |
| TratamentoControl.EstadoPublico | sirep/app/tratamento.py:65-73 | a stored pause always shows; otherwise an id in hand shows as processing, a non-empty queue as waiting, and else the stored state |
| TratamentoControl.EstadoPublicoUnderInv | sirep/app/tratamento.py:65-73 | under the invariant the public state is the pause or else exactly the derived state |
| TratamentoControl.Iniciar | sirep/app/tratamento.py:347-357 | starting enables processing and takes the derived state, keeping the queue and the id in hand |
| TratamentoControl.Pausar | sirep/app/tratamento.py:359-364 | only a processing or waiting engine reacts, and it becomes paused and disabled with its queue kept |
| TratamentoControl.Enqueue | sirep/app/tratamento.py:458-470 | the id goes to the end of the queue; an engine with nothing in hand and not paused starts waiting, any other keeps its state |
| TratamentoControl.Pickup | sirep/app/tratamento.py:476-483 | the worker takes the head of the queue exactly when the queue is not empty and processing is enabled; it is processing unless paused |
| TratamentoControl.FinishItem | sirep/app/tratamento.py:488-500 | after an item nothing is in hand; with ids left the engine waits when enabled and is paused when not; with none it is idle and disabled |
| TratamentoControl.IdsWithStatus | sirep/app/tratamento.py:504-505 | an id is listed exactly when some treatment with it has the status |
| TratamentoControl.PendingIds | sirep/app/tratamento.py:503-508 | the ids are distinct, and an id is listed exactly when some treatment with it is "processando" or "pendente" |
| TratamentoControl.PendingIdsOrder | sirep/app/tratamento.py:504-508 | the "processando" ids come first, then the ids only pending, all in order of first appearance |
| TratamentoControl.AppendUnseen | sirep/app/tratamento.py:523-529 | the appended ids are distinct and are exactly the given ids not seen before |
| TratamentoControl.AppendUnseenIsDedup | sirep/app/tratamento.py:520-529 | the appended ids are the unseen ids with repeats removed, in order of first appearance |
| TratamentoControl.AppendUnseenAllSeen | sirep/app/tratamento.py:523-525 | nothing is appended when every id has been seen |
| TratamentoControl.Existing | sirep/app/tratamento.py:520-522 | the seen ids are the queued ids and the id in hand |
| TratamentoControl.RestorePendingIds | sirep/app/tratamento.py:510-533 | every unseen id is appended once, after which every given id is queued or in hand; adding anything while disabled pauses the engine, and otherwise the state is kept |
| TratamentoControl.RestoreKeepsNoDup | sirep/app/tratamento.py:520-529 | restoring keeps the queue free of repeats and of the id in hand |
| TratamentoControl.RestoreIdempotent | sirep/app/tratamento.py:520-529 | restoring the same ids a second time adds nothing |
| TratamentoControl.Continuar | sirep/app/tratamento.py:388-400 | the queue is restored whatever the state; only a paused engine is then re-enabled in its derived state, and any other is left as restored |
| TratamentoControl.TransitionsKeepInv | sirep/app/tratamento.py:347-531 | every transition keeps "stored processing has an id in hand, stored waiting has one in hand or queued" |
| TratamentoControl.PauseThenContinue | sirep/app/tratamento.py:359-400 | pausing and continuing with nothing to restore re-enables the engine in its derived state with the same queue |
| TratamentoControl.ControlLog | sirep/app/tratamento.py:371-385 | the pause or resume entry is "PAUSADO"/"RETOMADO" with the stage number; with no stage (or stage 0) the queue-wide message and an empty label, otherwise exactly "Etapa n pausada"/"Etapa n retomada" and the stage's label from the table, present exactly for stages 1 to 7 |
| StageList.StageOf | sirep/app/tratamento.py:677-679 | a stage's entry, when found, carries the stage id and is in the list |
| StageList.StageOfFirst | sirep/app/tratamento.py:677-679 | an entry with no earlier entry of its stage is the one found |
| StageList.DefaultStageName | sirep/app/tratamento.py:680 | a stage of the table is named as in the table |
| StageList.Current | sirep/app/tratamento.py:676-690 | the entry handed out carries the stage id: the existing entry, or a fresh pending one under the default name |
| StageList.SetStage | sirep/app/tratamento.py:676-690 | after writing a stage's entry that stage reads the new entry, every other stage reads as before, and the list grows by at most one |
| StageList.FindStage | sirep/app/tratamento.py:677-679 | the position found holds the first entry of the stage, and there is one exactly when the stage has an entry |
| StageList.BuscarStage | sirep/app/tratamento.py:676-690 | the list is kept when the stage has an entry, or gets a fresh pending entry appended; the position returned holds the stage's entry |
| StageList.BuscarThenSet | sirep/app/tratamento.py:676-690 | fetching a stage's entry and overwriting it in place writes that stage's entry and nothing else, and the entry fetched is the one handed out |
| StageList.SetStageTwice | sirep/app/tratamento.py:654-666 | writing a stage's entry twice keeps only the second write |
| StageList.Started | sirep/app/tratamento.py:654-660 | a started entry is processing with no message, its start time kept or set to now, its other fields as before |
| StageList.Finished | sirep/app/tratamento.py:662-666 | a finished entry is concluded now with the message given, its start time kept |
| StageList.StartStage | sirep/app/tratamento.py:654-660 | starting a stage changes only that stage's entry |
| StageList.FinishStage | sirep/app/tratamento.py:662-666 | finishing a stage leaves it concluded with the message and changes no other stage |
| StageList.CancelOutcome | sirep/app/tratamento.py:672-674 | a concluded entry stays as it is; any other is cancelled with "Etapa não executada por descarte" |
| StageList.CancelFrom | sirep/app/tratamento.py:668-674 | every table stage from `apartir` on ends as the cancel rule says, and every other stage keeps its entry |
| StageList.Pass | sirep/app/tratamento.py:559-592 | a pass discards exactly at stage 5, on a discard draw, when stage 5 is neither concluded nor cancelled |
| StageList.PassAsWritten | sirep/app/tratamento.py:559-674 | a pass is the source's sequence of fetch, start-marker and finish-marker calls, with the cancellation from stage 6 after a discard |
| StageList.FinalEntry | sirep/app/tratamento.py:559-674 | a stage ends concluded or cancelled: a concluded entry is kept, a cancelled one stays cancelled, a pending one is cancelled after a discard at stage 5 and concluded otherwise, and an entry that runs gets its start and finish times |
| StageList.PassOwn | sirep/app/tratamento.py:559-592 | a pass leaves its own stage with that stage's final entry |
| StageList.PassOther | sirep/app/tratamento.py:559-674 | a pass changes no other stage, except that a discard cancels the unfinished stages after stage 5 |
| StageList.PassesFrame | sirep/app/tratamento.py:559-592 | the loop from position `k` leaves the earlier stages and those outside the table alone |
| StageList.PassesDiscard | sirep/app/tratamento.py:591-592 | the loop discards exactly when the draw says so and stage 5 was still to run |
| StageList.PassesFinal | sirep/app/tratamento.py:559-674 | every table stage ends the loop with its final entry |
| StageList.PassesFinalOwn | sirep/app/tratamento.py:559-592 | the stage of the pass at position `k` ends the loop with its final entry |
| StageList.PassesFinalCancel | sirep/app/tratamento.py:627-631 | when the pass discards, every later table stage ends the loop cancelled by the rule |
| StageList.PassesKeepsOwn | sirep/app/tratamento.py:559-592 | the rest of the loop leaves the stage of an earlier pass alone |
| StageList.HoldsStagesFromIff | sirep/app/tratamento.py:676-690 | a list holds every stage from position `k` on exactly when each of those stages has an entry |
| StageList.SetStageInPlace | sirep/app/tratamento.py:677-679 | updating a stage that has an entry keeps the list's length: nothing is appended |
| StageList.SetStageHolds | sirep/app/tratamento.py:676-690 | an update on a list with every stage keeps its length and every stage's entry |
| StageList.CancelFromInPlace | sirep/app/tratamento.py:668-674 | cancelling the rest of a list with every stage appends nothing |
| StageList.PassInPlace | sirep/app/tratamento.py:559-599 | one pass on a list with every stage appends nothing and keeps every stage's entry |
| StageList.PassesInPlace | sirep/app/tratamento.py:559-592 | the whole loop on a list with every stage appends nothing and keeps every stage's entry |
| StageList.DiscardsNext | sirep/app/tratamento.py:559-592 | a pass that did not discard leaves the discard decision to the rest of the loop |
| StageList.DiscardsOwn | sirep/app/tratamento.py:591-592 | a pass's own discard flag and the loop's agree on that pass's final entry |
| TratamentoStages.SetDefault | sirep/app/tratamento.py:701-705 | `setdefault`: the key is present afterwards, an existing value is kept, and a missing one is set |
| TratamentoStages.Etapa1 | sirep/app/tratamento.py:692-706 | stage 1 changes only the notes: the bases note is the bases joined by line breaks, the request date is blanked, and the analysis and plan notes are present |
| TratamentoStages.Etapa2 | sirep/app/tratamento.py:708-726 | stage 2 changes only the notes and adds exactly the substitution note |
| TratamentoStages.GuiasSfgTexto | sirep/app/tratamento.py:728-734 | the stage 3 text starts with "PESQUISA DE GUIAS SFG: " |
| TratamentoStages.GuiasFgeTexto | sirep/app/tratamento.py:736-742 | the stage 4 text starts with "GUIAS LANÇADAS: " |
| TratamentoStages.GuiasTextoNamesCount | sirep/app/tratamento.py:729-741 | for 1 to 99 guides the two characters after the prefix are the count in decimal, and the text differs from the no-guides text |
| TratamentoStages.Etapa3 | sirep/app/tratamento.py:728-734 | stage 3 sets only the guide search note, to the search text for the count, which starts with its prefix |
| TratamentoStages.Etapa4 | sirep/app/tratamento.py:736-742 | stage 4 sets only the guide launch note, to the launch text for the count, which starts with its prefix |
| TratamentoStages.Etapa5 | sirep/app/tratamento.py:744-757 | stage 5 changes only the notes: the request date and the overdue instalments joined by line breaks |
| TratamentoStages.Etapa6 | sirep/app/tratamento.py:763-773 | without a plan of that number nothing changes; otherwise that plan is rescinded today (status, situation and dates), the treatment records the date and its note, and no other plan changes |
| TratamentoStages.Referencia | sirep/app/tratamento.py:778-781 | a CNS reference is "NSU-" and the protocol digits; an e-mail one starts with "contato_" |
| TratamentoStages.Etapa7Notas | sirep/app/tratamento.py:782-791 | method, reference and date are always written; the dossier name and the closing date only when absent, the dossier defaulting to "Dossie_<plan>" |
| TratamentoStages.Etapa7 | sirep/app/tratamento.py:775-797 | stage 7 writes its notes and, when the plan exists, that plan's communication columns and no other plan |
| TratamentoStages.StageWork | sirep/app/tratamento.py:601-640 | the work of a stage never touches the stage list, the status or the current stage |
| TratamentoStages.RunStage | sirep/app/tratamento.py:559-631 | a pass leaves the stage list as `Pass` says; it discards exactly at stage 5 on a discard draw, marking the treatment "descartado"; a skipped stage leaves the plans and current stage alone, and a run stage becomes the current one |
| TratamentoStages.RunStages | sirep/app/tratamento.py:559-592 | the loop leaves the stage list as `Passes` says, and the treatment is "descartado" exactly after a discard |
| TratamentoStages.ProcessPlan | sirep/app/tratamento.py:544-599 | the run as it leaves the treatment in memory, which is what the code evidently means to store: it ends "rescindido" or "descartado"; "descartado" exactly on a discard draw with stage 5 still to run; a rescinded treatment has stage 7 current and concluded with "Comunicação concluída" |
| TratamentoStages.ProcessPlanList | sirep/app/tratamento.py:559-598 | the list a run leaves in memory is the loop's list, closed at stage 7 with the closing message unless the run discarded |
| TratamentoStages.ProcessPlanInPlace | sirep/app/tratamento.py:559-598 | on a stored list with an entry for every stage, the run never appends: the list keeps its length and every stage's entry |
| TratamentoStages.ProcessPlanAsWritten | sirep/app/tratamento.py:544-599 | what the table holds after the run: the same outcome, current stage, notes and plans as the run in memory, but, when the stored list has every stage, the stored list unchanged, because `db.refresh` reloads it |
| TratamentoStages.FreshTreatmentProgressLost | sirep/app/tratamento.py:594-598 | a treatment stored with every stage present and pending is rescinded (or, on a discard draw, discarded) with every stage still pending in the table, while the run in memory concluded stage 1 |
| TratamentoStages.ProcessPlanStages | sirep/app/tratamento.py:559-599 | every stage ends with its final entry, except that stage 7 of a rescinded treatment is concluded with the closing message |
| TratamentoStages.FreshTreatmentOutcome | sirep/app/tratamento.py:544-674 | for the run in memory, from all-pending stages: without a discard all seven stages end concluded; after one, stages 1 to 5 end concluded and 6 and 7 cancelled |
| TratamentoStages.ProcessTreatment | sirep/app/tratamento.py:544-553 | the run in memory stored back: an unknown id changes nothing; a known one ends "rescindido" or "descartado", and no other treatment changes |
| TratamentoMigration.SomenteDigitos | sirep/app/tratamento.py:322-327 | no answer exactly for a missing or digit-free text; otherwise the non-empty run of the text's digits, in order |
| TratamentoMigration.SomenteDigitosIdempotent | sirep/app/tratamento.py:322-327 | extracting the digits of extracted digits changes nothing |
| TratamentoMigration.Classify | sirep/app/tratamento.py:332-344 | the class of a trimmed upper-case situation: rescindable prefixes first, then ESPECIAL, LIQ, GRDE in that order, then a RESC prefix, each class stated as an if-and-only-if; never NOVO or SEM_TRATAMENTO |
| TratamentoMigration.StatusPorSituacao | sirep/app/tratamento.py:329-344 | a blank or missing situation is rescindable, and no situation is classed NOVO or SEM_TRATAMENTO |
| TratamentoMigration.StatusIgnoresPadding | sirep/app/tratamento.py:331 | whitespace around a situation never changes its class |
| TratamentoMigration.StatusOfStripped | sirep/app/tratamento.py:331 | classifying a trimmed situation gives the class of the untrimmed one |
| TratamentoMigration.StatusOfPendingSituation | sirep/app/tratamento.py:334-335 | the terminal's pending situation "P.RESC." is classed rescindable |
| TratamentoMigration.InscricaoUnmapped | sirep/app/tratamento.py:317-318 | the `numero_inscricao` keyword names no column the `Plan` class maps; of the table's columns it names exactly the one the schema upgrade adds (sirep/infra/db.py:92) |
| TratamentoMigration.StoredColumns | sirep/app/tratamento.py:317-320 | every keyword as a table column: each mapped column is stored exactly when it is passed, with its value, and the registration column holds the digits exactly when some were found |
| TratamentoMigration.Campos.Unmapped | sirep/app/tratamento.py:317-320 | the keywords a plan does not accept are absent exactly when no registration digits were found |
| TratamentoMigration.OccurrenceFields | sirep/app/tratamento.py:301-318 | the keywords of one occurrence: the mapped columns present in it, and the CNPJ digits exactly when the CNPJ holds a digit |
| TratamentoMigration.PresentCampos | sirep/app/tratamento.py:301-316 | a column is passed exactly when the occurrence has a value for it, and with that value |
| TratamentoMigration.InscricaoDigits | sirep/app/tratamento.py:313-314 | digits are read from the trimmed CNPJ exactly when it has a digit, and they are all of its digits |
| TratamentoMigration.SomenteDigitosOfText | sirep/app/tratamento.py:323-327 | on a text the extraction answers exactly when the text has digits, and answers them |
| TratamentoMigration.HasDigit | sirep/app/tratamento.py:326-327 | a text has digits to keep exactly when one of its characters is a digit |
| TratamentoMigration.MaterializeOneAsWritten | sirep/app/tratamento.py:293-320 | one occurrence as the code stands: a successful run keeps every plan number unique |
| TratamentoMigration.MaterializeRejectsInscricao | sirep/app/tratamento.py:313-320 | for a new non-blank number, the code as written is refused exactly when the CNPJ holds a digit |
| TratamentoMigration.MaterializeOne | sirep/app/tratamento.py:293-320 | blank numbers and known numbers change nothing; a new non-blank number gains exactly one plan, appended, and existing plans are untouched |
| TratamentoMigration.InsertPlan | sirep/infra/repositories.py:32-41 | the corrected insert of an unknown number appends one plan under that number and leaves the plans before it unchanged |
| TratamentoMigration.InsertPlanIsUpsert | sirep/infra/repositories.py:32-36 | on an unknown number `upsert` succeeds exactly when every column is mapped, and then equals the corrected insert |
| TratamentoMigration.InsertPlanHolds | sirep/infra/repositories.py:32-41 | the appended plan holds exactly the given columns, with NULL in every other column |
| TratamentoMigration.MaterializeOneNewPlan | sirep/app/tratamento.py:301-320 | the plan created for an occurrence holds exactly the occurrence's mapped columns, and its registration number is the CNPJ's digits when the CNPJ has any, NULL otherwise |
| TratamentoMigration.MaterializeStoresDigits | sirep/app/tratamento.py:313-320 | on an empty table, an occurrence with a number and a CNPJ holding a digit gains its one plan, which stores the CNPJ's digits; the code as written fails on it |
| TratamentoMigration.TestCaseDigits | tests/test_tratamentos_endpoints.py:134-163 | the test's occurrence meets that lemma: "OCOR001" needs no trimming and the digits of "12.345.678/0001-90" are "12345678000190", the value the test expects on the plan |
| TratamentoMigration.MaterializeOneAgrees | sirep/app/tratamento.py:293-320 | whenever the code as written succeeds it yields the same table as the corrected version |
| TratamentoMigration.MaterializeAsWrittenAgrees | sirep/app/tratamento.py:291-320 | whenever the whole run as written succeeds it yields the table of the corrected run |
| TratamentoMigration.Materialize | sirep/app/tratamento.py:291-320 | the run over all occurrences keeps plan numbers unique and every plan that existed, in place |
| TratamentoMigration.MaterializeBound | sirep/app/tratamento.py:292-320 | each occurrence adds at most one plan |
| TratamentoMigration.MaterializeCovers | sirep/app/tratamento.py:292-320 | afterwards every occurrence with a non-blank number has a plan of that trimmed number |
| TratamentoMigration.MaterializeAsWritten | sirep/app/tratamento.py:291-320 | the run as written, stopping at the first refused occurrence; a successful run keeps plan numbers unique |
| TratamentoMigration.MaterializeAsWrittenFails | sirep/app/tratamento.py:313-320 | on an empty table, one occurrence with a number and a CNPJ holding a digit makes the run as written fail, while the corrected run creates its plan |
| TratamentoMigration.InitialStages | sirep/app/tratamento.py:165-175 | seven stages, the i-th pending under the i-th stage name |
| TratamentoMigration.InitialStagesPending | sirep/app/tratamento.py:165-175 | the stage lookup finds each stage of a new treatment, pending, under its own name |
| TratamentoMigration.InitialStagesAllPending | sirep/app/tratamento.py:165-175 | every stage of a new treatment is pending |
| TratamentoMigration.CriarTratamento | sirep/app/tratamento.py:154-190 | the new treatment is appended under the next id, pending at stage 0 with all stages pending, for the plan's id and number; afterwards the plan has a treatment |
| TratamentoMigration.MigrationNotasSplit | sirep/app/tratamento.py:222-230 | splitting the CNPJ and base notes on line breaks gives back the drawn lists |
| TratamentoMigration.ParsedStatus | sirep/app/tratamento.py:242-248 | a parsed status is the member whose value is the text; none exactly when no member has that value |
| TratamentoMigration.InitialStatus | sirep/app/tratamento.py:250-267 | pending for a queued or empty status, "rescindido" for RESCINDIDO, the plan's own text for every other status |
| TratamentoMigration.InitialStatusOfMember | sirep/app/tratamento.py:250-267 | per member: queued exactly for PASSIVEL_RESC, NOVO and SEM_TRATAMENTO, which start pending; RESCINDIDO starts "rescindido"; every other keeps its value |
| TratamentoMigration.MigratedTreatment | sirep/app/tratamento.py:210-270 | the treatment of a plan without one: next id, the plan's id and number, its company name or the drawn one, the status and rescission date the plan dictates |
| TratamentoMigration.ByPlanIdAppend | sirep/infra/repositories.py:183-185 | appending a plan's treatment gives the plan a treatment |
| TratamentoMigration.PlanKeysAt | sirep/app/tratamento.py:210-220 | tables with the same keys agree on each plan's id and number |
| TratamentoMigration.PlanKeysValid | sirep/app/tratamento.py:210-220 | filling in attributes keeps plan numbers unique |
| TratamentoMigration.ReplaceKeepsKeys | sirep/app/tratamento.py:210-220 | replacing a plan by one with the same id and number keeps every plan's id and number |
| TratamentoMigration.MigrateOne | sirep/app/tratamento.py:206-274 | one plan: a plan with a treatment changes nothing; otherwise it ends with one, the table only grows, and the ids reported are those of the new rows |
| TratamentoMigration.MigrateNew | sirep/app/tratamento.py:210-274 | a plan without a treatment gains one; the table grows and plans keep their ids and numbers |
| TratamentoMigration.MigrateOneAdds | sirep/app/tratamento.py:232-272 | a plan without a treatment gets exactly one, appended under the next id, and that id is reported |
| TratamentoMigration.MigrateOneQueued | sirep/app/tratamento.py:250-274 | the new treatment is queued only when its status is pending |
| TratamentoMigration.MigrateOneCreates | sirep/app/tratamento.py:232-274 | one new treatment with the plan's status and rescission date; its id reported, and queued exactly when the plan awaits rescission |
| TratamentoMigration.FillsKeep | sirep/app/tratamento.py:210-220 | filling in keeps every attribute the plan had; only a missing company name, type or representation is set, the representation to the first drawn CNPJ |
| TratamentoMigration.MigrateOneFills | sirep/app/tratamento.py:210-220 | the plan of a new treatment is filled in, and the treatment carries the plan's company name |
| TratamentoMigration.NewIds | sirep/app/tratamento.py:272 | the ids a table gained are the consecutive ids after its old length |
| TratamentoMigration.NewIdsConcat | sirep/app/tratamento.py:272 | the ids gained in two steps, in turn, are the ids gained overall |
| TratamentoMigration.UniqueAppend | sirep/app/tratamento.py:207-208 | appending a treatment for a plan that had none keeps one treatment per plan |
| TratamentoMigration.MigrateOneUnique | sirep/app/tratamento.py:206-240 | one step keeps at most one treatment per plan |
| TratamentoMigration.QueueInvGrow | sirep/app/tratamento.py:272-274 | reporting a new treatment and queueing it only if pending keeps every queued id a created, pending treatment |
| TratamentoMigration.MigrateOneQueue | sirep/app/tratamento.py:250-274 | one step keeps every queued id a created, pending treatment |
| TratamentoMigration.MigrateFrom | sirep/app/tratamento.py:205-275 | the loop only appends treatments, keeps plan ids and numbers, reports exactly the new ids, and changes nothing when every remaining plan has a treatment |
| TratamentoMigration.ByPlanIdExtended | sirep/infra/repositories.py:183-185 | a plan with a treatment keeps it once the table grows |
| TratamentoMigration.MigrateCovers | sirep/app/tratamento.py:205-275 | after the loop every plan has a treatment |
| TratamentoMigration.MigrateUnique | sirep/app/tratamento.py:205-275 | the loop keeps at most one treatment per plan |
| TratamentoMigration.MigrateQueue | sirep/app/tratamento.py:205-275 | after the loop every queued id is a created treatment that is still pending |
| TratamentoMigration.CoveredFromAll | sirep/app/tratamento.py:206-208 | when every remaining plan has a treatment the loop's skip test holds for all of them |
| TratamentoMigration.MigrateTwice | sirep/app/tratamento.py:205-275 | a second migration over the migrated tables creates and queues nothing, whatever it draws |
| TratamentoMigration.InitialStagesHoldAll | sirep/app/tratamento.py:165-175 | a new treatment's list has an entry for every stage |
| TratamentoMigration.EnqueueAll | sirep/app/tratamento.py:278-282 | the ids are appended to the queue in order; an idle, unpaused engine with ids to run starts waiting; otherwise the state is kept |
| TratamentoMigration.MigrateTable | sirep/app/tratamento.py:205-283 | the loop over the materialised table and the queueing after it: plan numbers stay unique, every plan ends with a treatment and at most one if it had at most one, the returned ids are the new treatments, and the queued ids are created pending treatments appended to the engine's queue |
| TratamentoMigration.MigrarPlanos | sirep/app/tratamento.py:192-283 | the migration with the corrected materialisation (see the findings): the same guarantees as `MigrateTable`, on the table after every occurrence gained its plan |
| TratamentoMigration.MigrarPlanosCoversOccurrences | sirep/app/tratamento.py:200-283 | after the corrected migration every occurrence with a number has a plan of that number, and that plan a treatment |
| TratamentoMigration.MigrarPlanosAsWritten | sirep/app/tratamento.py:192-283 | the migration as written fails exactly when materialisation as written refuses an occurrence, before the commit at line 276, so nothing is created or queued; when it succeeds it equals the corrected migration |
| TratamentoMigration.MigrarPlanosAsWrittenFails | sirep/app/tratamento.py:199-202 | on an empty table, one occurrence with a number and a CNPJ holding a digit makes the migration as written fail, where the corrected one creates the plan and gives it a treatment |
| TratamentoLogs.StageStatusesKept | sirep/infra/repositories.py:214-241 | INICIO, SUCESSO and DESCARTADO are stored as spelled by the log's status normalisation |
| TratamentoLogs.ControlStatusesKept | sirep/infra/repositories.py:214-241 | PAUSADO and RETOMADO are stored as spelled |
| TratamentoLogs.Label | sirep/app/tratamento.py:566 | a stage has a label exactly when it is one of the seven table stages, and the label starts "Tratamento – " |
| TratamentoLogs.StartMessage | sirep/app/tratamento.py:573 | the INICIO message begins "Iniciada " |
| TratamentoLogs.StageRow | sirep/app/tratamento.py:567-574 | one row appended under the next id in context "tratamento", for the treatment's id and plan number, with the stage's number and label and the given status and message |
| TratamentoLogs.RowsFor | sirep/infra/repositories.py:214-241 | one such row per entry, in order, the table staying well formed and each row saying exactly what its entry says |
| TratamentoLogs.Outcome | sirep/app/tratamento.py:617-650 | a stage closes DESCARTADO exactly on the stage-5 discard and SUCESSO exactly otherwise |
| TratamentoLogs.ProcessPlanRows | sirep/app/tratamento.py:559-592 | the rows the run appends, all of them stage rows of the treatment, keeping the table well formed, and saying what the stored list leads one to expect |
| TratamentoLogs.LoopEntriesExpected | sirep/app/tratamento.py:559-592 | the loop, pass by pass (skipping finished and cancelled stages, stopping after a discard), logs exactly the expected pairs stated on the stored list alone |
| TratamentoLogs.ExpectedOfStage | sirep/app/tratamento.py:559-592 | of the expected rows from a position on, a stage gets its pair exactly when it lies ahead, and nothing otherwise |
| TratamentoLogs.ProcessPlanRowsPerStage | sirep/app/tratamento.py:559-650 | for each stage the run executes, an INICIO row with "Iniciada" and the stage name and then its closing row; for the other stages no row |
| TratamentoLogs.ExpectedDiscard | sirep/app/tratamento.py:617-626 | the expected rows hold the discard row exactly when stage 5 lies ahead, is not finished and the draw discards |
| TratamentoLogs.DescartadoLogged | sirep/app/tratamento.py:617-628 | a run logs a DESCARTADO row exactly when it leaves the treatment "descartado" |
| TratamentoLogs.CurrentTreatment | sirep/app/tratamento.py:371 | a treatment is in hand exactly when the current id is set and names a stored treatment, and it is that treatment |
| TratamentoLogs.ControlRow | sirep/app/tratamento.py:370-385 | the pause or resume row, appended under the next id: its status, the treatment's id, plan number and current stage when one is in hand, and the message and label of `ControlLog` |
| TratamentoLogs.PausarLogged | sirep/app/tratamento.py:359-386 | the engine pauses as `Pausar` says; exactly one PAUSADO row is appended when it was running or waiting, none otherwise |
| TratamentoLogs.ContinuarLogged | sirep/app/tratamento.py:388-423 | the engine resumes as `Continuar` says; exactly one RETOMADO row is appended when it was paused after the restore, none otherwise |
| TratamentoLogs.PauseResumeLogged | sirep/app/tratamento.py:359-423 | pausing a running or waiting engine and resuming it logs exactly PAUSADO then RETOMADO, about the same treatment and stage, and leaves the engine enabled on the same treatment |

## Left out

- Terminal, HTTP and database I/O: the PW3270 session helpers and screen readers of `gestao_base.py` (`session` to `enrich_on_e570`, `portal_po_provider`, the `TerminalCollector`), because they only move text between the terminal and the parsers modelled here.
- `iterate_e555_pages`, `read_pagination_hint`, `read_footer_message`: page-walking loops over live screens; their parsing steps (`parse_pagination`, `parse_line`, `should_skip_line`) are modelled.
- `parse_date_any`, `parse_money_brl`, `hash_lines`, `parse_portal_po_json`, `_clean_inscricao`, `_sample_data` and the collector and service classes of `gestao_base.py`: date and money parsing go through `datetime` and floats, hashing is MD5, and the rest is glue around the modelled pipeline steps.
- `_persist_rows` of `gestao_base.py`: persistence glue. Like the materialisation in the findings below, it passes `upsert` keywords that the `Plan` class does not map (`dt_proposta`, `resolucao`, `numero_inscricao`).
- Floating point: balances (`saldo`, `saldo_total`) are carried as opaque `real` values and never computed with.
- asyncio and threads: `_ensure_loop`, `_run_on_loop`, `_call_sync`, `_wait_resume`, `_sleep_with_pause`, `_start_worker`, the sleeps of both `_run` loops and the loop-ready hook are replaced by the state transitions they cause (one record before, one after).
- SQLAlchemy sessions, `flush` and `server_default` timestamps: each table is a sequence of rows whose id is its position plus one, and timestamps are `Instant` parameters.
- `EventRepository.log`, `PlanRepository.list_all`, `OccurrenceRepository.list_all` and `paginate`, `TreatmentPlanRepository.list_all`, `get` and `remove`, `PlanLogRepository.intervalo`: plain reads and writes that no modelled property depends on; the core's loops take the table sequences directly.
- `CaptureEventRepository` is not part of this model; the history store is an append-only sequence, and `Captura.GetRecent` assumes it answers the newest rows first, which is what the reversal in `captura.py:349` expects.
- `sirep/domain/enums.py` is not part of this model: `PlanStatus` and `Step` are datatypes with the members the code uses, and a member's value is taken to be its name.
- `seed_planos` and `_gerar_numero_plano`: demo-data seeding with a retry loop over random numbers until an unused one is drawn; it is not part of the treatment rules.
- `gerar_razao_social` and `gerar_periodo`: their draws are parameters (`MigrationDraws`), as are every coin, choice, count and sampled position.
- `TratamentoService.status()`: a read-only report over the tables and the engine state.
- `_restore_pending_queue`: only its database read is left out; the ids it computes go through `TratamentoControl.PendingIds` and `TratamentoControl.RestorePendingIds`, which are modelled.
- Python's `\d`, `\s`, `str.upper` and `str.lower`: digits are the ASCII digits; whitespace is the full Unicode set `str.strip` uses; case mapping covers ASCII and the Latin-1 letters only, and `Text.UpperChar` leaves three Latin-1 letters unchanged that `str.upper` maps outside one Latin-1 character: 'ß' (U+00DF, upper-cased to "SS"), 'µ' (U+00B5, to U+039C) and 'ÿ' (U+00FF, to U+0178). None of them occurs in a step code, situation or status the classifiers compare against.
- `str(value)` of a non-text note in `build_notepad_txt`: notes are modelled as optional texts.
- A `step` argument to `run_step_job` that is not a `Step` member is not modelled; the type rules it out.
- The callback of `run_step_job` is modelled as not touching the job table itself.
- The header comment of `build_notepad_txt` says an unfilled field keeps an empty line; the code writes labelled lines with an empty value and drops the free-text lines of blank notes, and the model follows the code.
- Repositories.Recentes: `limit` is a `nat`; a negative limit, whose meaning depends on the database backend, is not modelled.
- TratamentoStages.ProcessPlanAsWritten: when the stored list lacks a stage entry, the append marks the column changed and the list the run built is taken as stored; what a flush writes in that mixed case is not modelled.
- TratamentoStages.ProcessTreatment: stores the run in memory (`ProcessPlan`), the corrected behaviour of the findings; the table as written keeps the stored stage list, as `ProcessPlanAsWritten` states.
- TratamentoMigration.MigrarPlanos: uses the corrected materialisation, which stores the registration digits; the code as written raises on an occurrence with a new number and a CNPJ digit and creates nothing, as `MigrarPlanosAsWritten` states.
- Models.Column: holds `NumeroInscricao`, a column the `Plan` class does not map but the schema upgrade adds (sirep/infra/db.py:92) and the migration's test reads; only the corrected materialisation writes it.
- Captura.Iniciar: the two history loads of one call, in `iniciar` and again in the `_registrar` it calls, share one store answer (`Io.loadOk`), so a first load that fails and a second that succeeds within the same call is not modelled.
- TratamentoLogs: every row of a run carries one instant `now`; the database clock (`server_default`) is not modelled.
- TratamentoLogs: `_wait_resume` and `_sleep_with_pause` between the rows are not modelled; a pause during a run does not change which rows it writes.
- Repositories.ByPlanId: answers the first treatment of the plan in id order; with several treatments per plan, `scalar` would pick whichever row the database returns first.

## Findings

| source | as written | input that shows it | evidently intended | confidence | as-written member | corrected member |
|---|---|---|---|---|---|---|
| sirep/app/tratamento.py:313-320 | a new plan is created with `Plan(numero_plano=..., **campos)`, and `campos` holds `numero_inscricao`, which the `Plan` class does not map (sirep/domain/models.py:19-44); the declarative constructor refuses unknown keywords, so `migrar_planos` raises at that occurrence, before its commit, and creates nothing | the occurrence table holds one row with `numero_plano` "123" and `cnpj` "12.345.678/0001-90", and no plan numbered "123" exists | the plan stores the registration digits (the test at tests/test_tratamentos_endpoints.py:163 expects `numero_inscricao` "12345678000190"), and every occurrence with a number gains its plan | medium, not executed | TratamentoMigration.MigrarPlanosAsWrittenFails | TratamentoMigration.MaterializeStoresDigits |
| sirep/app/tratamento.py:594-598 | the stage markers change the entries of the `etapas` list in place (sirep/app/tratamento.py:654-674); the column is a `MutableList` (sirep/domain/models.py:90), which records appends and assignments but not changes inside an entry, so only status, current stage and notes are written at the commits, and `db.refresh(treatment)` reloads the stored list before stage 7 is closed, again in place | a treatment created by `migrar_planos`, whose seven entries are all pending, run without a discard | the table records each stage's progress, so the run leaves every stage concluded | medium, not executed | TratamentoStages.FreshTreatmentProgressLost | TratamentoStages.FreshTreatmentOutcome |
