# Fines and credits transfer from FOLIO to the bursar: a Dafny model

This project models the record-processing core of `python_folio_to_bursar_transfer`.
That program pulls outstanding fee/fine accounts (charges) and refunds (credits) from a
FOLIO library system and runs them through a configurable pipeline. The pipeline:

- merges, rewrites and filters the records with the rule engine `DataProcessor`;
- summarises them per fee/fine owner;
- lets configured actions (pay, refund, transfer, waive, block patron, remove block)
  check and process each record against the backend;
- maps the result through templates or inline field mappings and ships it to
  connectors.

Around the pipeline sit the job gates that decide which jobs run today, the YAML
configuration loader with `${var}` substitution and includes, the template data
selection and the padding helpers of the templates.

The model follows the program's structure, one Dafny module per source file:

| module | file | what it models |
|---|---|---|
| `Wrappers` | `wrappers.dfy` | `Option`, `Result` and the Python exception kinds |
| `PyStrings` | `pystrings.dfy` | `str` methods the program relies on (`split`, `replace`, `lstrip`, `rstrip`, `lower`, `upper`, `int`/`str` of integers) |
| `PyJson` | `pyjson.dfy` | a JSON-like value (`Json`), with Python's subscripting, `in`, `==`, `str()`, `int()`, `len()` and iteration, each failing with Python's exception kind |
| `Connector` | `connector.dfy` | the FOLIO client as an oracle with a log of the requests that reach it |
| `Records` | `records.dfy` | records as objects (`class Record`), so lists of records share objects the way Python lists of dicts do |
| `DataRules` | `data_rules.dfy` | the rule engine's rules as functions: field resolution, the filter operators, the per-record rewrites and merges, the summary |
| `DataProcessor` | `data_processor.dfy` | `class DataProcessor` as `class Processor`: counters and error log as fields, the filter and rewrite loops as methods |
| `CommonHelpers` | `common_helpers.dfy` | `pascal_to_camel_case`, `generate_file_name`, nested get/set by key path |
| `Actions` | `actions.dfy` | the six action classes as one `class Action` over a closed `Kind` |
| `BuildActions` | `build_actions.dfy` | the action driver `BuildActions` |
| `Pipeline` | `pipeline.dfy` | the stage order the two builders share, and the summary |
| `BuildCharges` | `build_charges.dfy` | `BuildCharges`: the charge query and the charge run |
| `BuildCredits` | `build_credits.dfy` | `BuildCredits`: the refund report, the account lookups and the credit run |
| `TemplateProcessor` | `template_processor.dfy` | level selection and the DUMP_JSON branch |
| `HandlebarsHelpers` | `handlebars_helpers.dfy` | `left_pad`, `right_pad` |
| `BuildConnectors` | `build_connectors.dfy` | `SendToConnecter`: inline mapping, dot-path extraction, the connector and action choice |
| `JobProcessor` | `job_processor.dfy` | the three run gates and the selection of today's jobs |
| `YamlLoader` | `yaml_loader.dfy` | `replace_variables` and `load_config` with includes |

Conventions of the model:

- Python exceptions are the `Err` side of a `Result`. The first error of a loop ends it,
  and the state it leaves is stated.
- A record absent from a dot path resolves to `False`, as in the source. It stays the
  literal `JBool(false)`, which Python's `==` identifies with `0`.
- Everything the program reads from the outside world is a parameter:
  - the clock (`daysAgo`, `formatToday`, `Today`);
  - the environment (`env`, `rules`);
  - the data set files (`load`, the data set of a filter);
  - the FOLIO backend (`Client.respond`).

Behaviour of the code that a reader of the model should know:

- **The money actions do not move money.** When an action is active, the code writes
  its success marker and the real request is commented out (`pay_fine_action.py:105-110`
  and four of its siblings); the block removal sends live GET and DELETE requests
  (`remove_block_patron_action.py:65-70`).
- **The patron and material lookups merge nothing.** They use the merge type `API`,
  which `merge_field_data` does not know (`data_processor.py:168-210`).
- **The backend client has no retries.** It has no backoff and no token renewal; every
  error propagates.
- **The block removal is not gated by the activation flag**
  (`remove_block_patron_action.py:56-87`).

Eight defects of the code are listed under "## Findings". Each has two halves in the
model: a member that states the behaviour as written, and a corrected definition with
the intended property proved. The drivers (the action loop, the summary of the two
builders, the connector choice, the job gates and the configuration loader) run the
corrected definitions. "## Left out" names every member that therefore differs from
the code as written, with the input on which it does.

A function that only computes appears in the table through the lemma that states what
it means; the third column then names the function.

## Model

| member | source | states |
|---|---|---|
| PyStrings.Split | src/shared/data_processor.py:266 | `split` on a non-empty separator: at least one piece, and joining the pieces with the separator gives the string back |
| PyStrings.SplitWithoutSeparator | src/shared/common_helpers.py:56 | a key without `.` is a one-step path |
| PyStrings.SplitPiecesAvoidSeparator | src/shared/common_helpers.py:56 | no piece of a split on one character contains it, so normalised paths have no dotted step |
| PyStrings.ReplaceIsJoinOfSplit | src/shared/data_processor.py:148-149 | `s.replace(pat, rep) == rep.join(s.split(pat))` for a non-empty pattern: every occurrence replaced, the text between kept |
| PyStrings.ReplaceAbsent | src/shared/common_helpers.py:39 | replacing a pattern that does not occur gives the string unchanged |
| PyStrings.LStrip | src/shared/data_processor.py:151-152 | the result is a suffix of the input that is empty or does not start with a stripped character: a character of `search_for`, or for `None` a whitespace character of `str.isspace` |
| PyStrings.RStrip | src/shared/data_processor.py:154-155 | the mirror image of `LStrip`: a prefix of the input that is empty or does not end with a stripped character |
| PyStrings.IntRoundTrip | src/shared/data_processor.py:105-109 | `int(str(n)) == n` for every integer, which the LONGER_THAN/SHORTER_THAN comparisons rely on |
| PyStrings.DigitsRoundTrip | src/shared/data_processor.py:105-109 | the decimal digits of a natural number read back as that number |
| PyStrings.ParseDigits | src/shared/data_processor.py:105-109 | `int()` of a run of decimal digits is their value |
| PyStrings.ParseSigned | src/shared/data_processor.py:105-109 | `int()` of a minus sign and digit groups separated by single underscores (`-1_000`) is minus the value of the digits |
| Connector.Client.Answer | src/shared/folio_connector.py:95-150 | a call the client cannot make fails (TypeError for `allow_errors`, AttributeError for `delete_request`); any other call is answered by the backend |
| Connector.Client.Send | src/shared/folio_connector.py:95-150 | `get_request`/`post_request`/`delete_request`: the result is the backend's answer to the n-th call and the log grows by that request exactly when it reached the backend |
| Records.Record.constructor | src/builders/build_charges.py:162 | a fresh record object holding the given dict |
| Records.FromJson | src/builders/build_charges.py:162 | a JSON array of objects becomes one fresh record per element, in order, with distinct objects; anything else is refused with TypeError, a narrowing of the model (see "## Left out") |
| DataRules.WalkFollowsDicts | src/shared/data_processor.py:266-271 | along a path of present keys the walk ends at the value there |
| DataRules.WalkStopsAtMissingKey | src/shared/data_processor.py:267-271 | the walk answers `False` at the first missing key |
| DataRules.FieldValueMeaning | src/shared/data_processor.py:259-277 | `FieldValue`, the resolved value: the value at the path (its `len` under COUNT, itself under NONE or any other transform), `False` when a key is missing |
| DataRules.AcceptsMeaning | src/shared/data_processor.py:93-109 | `Accepts`, the filter verdict: EQUALS/NOT_EQUAL are Python (in)equality, ONE_OF membership, NULL_OR_ONE_OF and IN_FILE also accept `False`, LONGER_THAN/SHORTER_THAN need a truthy value and compare integers, any other operator rejects |
| DataRules.AbsentEqualsZero | src/shared/data_processor.py:96-99 | a missing field passes `EQUALS 0` and fails `NOT_EQUAL 0` |
| DataRules.FilterValueFromEnvironment | src/shared/data_processor.py:86-92 | a `filter_value` starting with `ENV` is replaced by the environment variable named after `\|`, `None` when unset |
| DataRules.SplitAtFirst | src/shared/data_processor.py:89 | `ENV\|NAME` splits into `ENV` and `NAME` |
| DataRules.FilterRun | src/shared/data_processor.py:82-115 | verdicts of the loop in order until the first error; the run covers every record exactly when it has no error |
| DataRules.FilterRunMeaning | src/shared/data_processor.py:82-115 | each verdict is the check's verdict on its record, and a run that stops does so on the failing check of the next record or on the unreadable log setting right after a rejection |
| DataRules.SelectPartition | src/shared/data_processor.py:111-115 | every handled record is either kept or rejected, never both |
| DataRules.SelectAll | src/shared/data_processor.py:111-113 | when every record passes all are kept and none rejected |
| DataRules.UnknownOperatorRejectsAll | src/shared/data_processor.py:93-115 | with an operator outside the seven, nothing passes and every record reached counts as failed |
| DataRules.FilterRunDone | src/shared/data_processor.py:82-116 | records handled without error end the run without error |
| DataRules.FilterRunCheckFails | src/shared/data_processor.py:83-109 | the run stops at the first record whose check raises |
| DataRules.FilterRunLogFails | src/shared/data_processor.py:253-254 | the run stops after the first rejected record when `log_error` cannot be read |
| DataRules.Counted | src/shared/data_processor.py:111-115 | each pass raises `passed{name}`, each rejection `failed{name}`, and no other counter moves |
| DataRules.CountedMeaning | src/shared/data_processor.py:111-115 | passed grows by the number of passes, failed by the number of rejections: together by the number of records handled |
| DataRules.SelectCount | src/shared/data_processor.py:111-115 | the kept list is as long as the number of passing verdicts |
| DataRules.InitCounters | src/shared/data_processor.py:59-61 | both counters are created at 0 on a rule's first run, and existing ones are kept |
| DataRules.InitCountersPaired | src/shared/data_processor.py:59-61 | counter creation keeps `passed{n}` and `failed{n}` paired |
| DataRules.Stamped | src/shared/data_processor.py:253-256 | rejected records carry `errorCode = error_message` when errors are logged; the others are as they were |
| DataRules.StampedWithoutLog | src/shared/data_processor.py:254 | with `log_error` falsy no record is stamped |
| DataRules.ApplyAllFrom | src/shared/data_processor.py:132-158 | a per-record rewrite over a completed prefix ends with the prefix when the records are exhausted, or stops with the next record's error |
| DataRules.ApplyAll | src/shared/data_processor.py:132-158 | every record rewritten in order until the first error, which names the record it stopped at |
| DataRules.Flatten | src/shared/data_processor.py:279-289 | the `uuid` of every element in order, or the first error |
| DataRules.UuidsOf | src/shared/data_processor.py:286-289 | one `uuid` per element, in order; an error only when some element has no `uuid` |
| DataRules.DescendReplaceAt | src/shared/data_processor.py:137-140 | reading back a replaced path gives the new value |
| DataRules.WriteFieldReadBack | src/shared/data_processor.py:139-157 | after a successful write the value sits at the full `new_field` path |
| DataRules.UpdatedValueMeaning | src/shared/data_processor.py:146-157 | REPLACE is `str.replace` (TypeError unless both arguments are strings), LEFT_STRIP/RIGHT_STRIP strip the characters of `search_for` (whitespace for `None`), MOVE copies, any other type writes nothing |
| DataRules.WriteFieldTopLevel | src/shared/data_processor.py:143-157 | writing a top-level field sets that key and keeps the others |
| DataRules.UpdateRecordTopLevel | src/shared/data_processor.py:143-157 | `UpdateRecord`, one record of `update_field_value`: a missing source key leaves the record as it was; otherwise the transformed value is written at the new field, the source is kept and nothing else changes |
| DataRules.UnknownTypeWritesNothing | src/shared/data_processor.py:143-157 | a `type` other than the four cases leaves the record as it was once the paths lead somewhere and the membership test can be made, whatever the parent of the source key |
| DataRules.UnknownTypeUnderString | src/shared/data_processor.py:143-157 | COPY of `a.b` in `{"a": "xbx"}`: the record comes back unchanged, with no subscript of the string |
| DataRules.MergeFieldsTopLevel | src/shared/data_processor.py:182-188 | the merged field is `str(v1) + field_deliminator + str(v2)` and the rest of the record is kept |
| DataRules.MergeFileMissingKey | src/shared/data_processor.py:199-209 | a FILE merge raises KeyError on a key absent from the data, and a missing field looks up `False` |
| DataRules.Updater | src/shared/data_processor.py:132-157 | `update_field_value`'s per-record step is the rule's record update |
| DataRules.FieldMerger | src/shared/data_processor.py:172-188 | the FIELD merge's per-record step is the two-field merge |
| DataRules.FileMerger | src/shared/data_processor.py:198-209 | the FILE merge's per-record step is the data set lookup |
| DataRules.NoDataSetsWithoutDirectory | src/shared/data_processor.py:67-73 | with the backend client in place of `script_dir` (as the builders construct it) a FILE merge and a filter that loads a data set fail with TypeError |
| DataRules.OwnerIndex | src/shared/data_processor.py:227-233 | the position of an owner's figures, or none when the owner has none yet |
| DataRules.AddRecordConsistent | src/shared/data_processor.py:223-238 | adding one record keeps the per-owner figures summing to the grand figures |
| DataRules.SummaryFromMeaning | src/shared/data_processor.py:223-238 | adding records grows the count by their number and the total and remaining figures by their sums |
| DataRules.SummaryOfMeaning | src/shared/data_processor.py:212-244 | `SummaryOf`, the loop of `gen_data_summary`: `record_count` is the number of records, `total` and `remaining` the sums (absent `remaining` as 0), and the per-owner figures add up to them with each owner listed once |
| DataRules.Contributions | src/shared/data_processor.py:224-225 | one amount pair per record, in order |
| DataProcessor.ApplyToRecords | src/shared/data_processor.py:132-158 | each record rewritten in place in order; the first error stops the loop and later records keep their contents |
| DataProcessor.CountersPairedKeys | src/shared/data_processor.py:59-61 | whether counters are paired depends on their names only |
| DataProcessor.StepOutcome | src/shared/data_processor.py:82-115 | one turn of the filter loop either ends the run with its error or extends the verdicts by the record's verdict |
| DataProcessor.Processor.constructor | src/shared/data_processor.py:31-34 | no counters and an empty error log |
| DataProcessor.Processor.GetFilterData | src/shared/data_processor.py:36-42 | the counters, or `None` while there are none |
| DataProcessor.Processor.GetErrorData | src/shared/data_processor.py:44-48 | the error log itself |
| DataProcessor.Processor.FilterGetFieldValue | src/shared/data_processor.py:259-277 | the loop computes `FieldValue`: the value at the path, or `False` |
| DataProcessor.Processor.Check | src/shared/data_processor.py:83-109 | the verdict of the loop body is the rule's verdict on the record |
| DataProcessor.Processor.FlattenArray | src/shared/data_processor.py:279-289 | the loop computes the `uuid` list of `Flatten` |
| DataProcessor.Processor.LoadFilterData | src/shared/data_processor.py:67-78 | the data set of a `load` setting, flattened when `flatten` is set |
| DataProcessor.Processor.FilterError | src/shared/data_processor.py:246-257 | `failed{name}` up by one; with `log_error` the record gets `errorCode` and is appended to the error log |
| DataProcessor.Processor.FilterOne | src/shared/data_processor.py:83-115 | one record's verdict, then its pass count and output, or its failure handling |
| DataProcessor.Processor.FilterStep | src/shared/data_processor.py:82-115 | counters, error log and records stand as `Counted`/`Stamped` say after one more verdict |
| DataProcessor.Processor.RunFilter | src/shared/data_processor.py:80-116 | the output is the passing records in order (the same objects), the counters move by the passes and rejections, the log gains the logged rejections |
| DataProcessor.Processor.GeneralFilter | src/shared/data_processor.py:51-117 | counters created on first run; empty input gives `[]`; otherwise the loop result of `RunFilter` |
| DataProcessor.Processor.UpdateFieldValue | src/shared/data_processor.py:119-158 | every record rewritten in place by `UpdateRecord`; the list itself returned |
| DataProcessor.Processor.MergeFieldData | src/shared/data_processor.py:161-210 | FIELD and FILE merges rewrite every record in place; any other merge type changes nothing |
| DataProcessor.Processor.GenDataSummary | src/shared/data_processor.py:212-244 | the summary dict of `SummaryOf` under `{name}_total`, `_remaining`, `_record_count`, `_owner_stats` |
| CommonHelpers.MarkCapitalsShape | src/shared/common_helpers.py:24 | one `_` inserted per capital, and removing the `_` after lower-casing gives the lower-cased input |
| CommonHelpers.PascalToSnakeProperties | src/shared/common_helpers.py:15-25 | `PascalToSnake`: `_` before every capital but the first character, no capital left, and dropping the `_` gives the lower-cased input (`PayFineAction` to `pay_fine_action`) |
| CommonHelpers.GenerateFileNameMeaning | src/shared/common_helpers.py:28-41 | `GenerateFileName`: with `file_append_date` truthy every `{date}` is replaced by the formatted date (KeyError without `date_format`); otherwise `file_name` comes back as it is |
| CommonHelpers.NormalizeGivesPath | src/shared/common_helpers.py:54-58 | `NormalizeKeys`, the flattened `*keys`: no step is a dotted string |
| CommonHelpers.NormalizePathUnchanged | src/shared/common_helpers.py:54-58 | normalising a path changes nothing, so normalisation is idempotent |
| CommonHelpers.DottedKeysAddressSamePath | src/shared/common_helpers.py:57-58 | `("a.b", "c")` and `("a", "b", "c")` address the same path |
| CommonHelpers.SplitPastPlainPrefix | src/shared/common_helpers.py:56 | `"a.b".split(".")` is `["a", "b"]` for plain `a`, `b` |
| CommonHelpers.GetNestedDictMissing | src/shared/common_helpers.py:105-108 | `GetNestedDictValue`, the dict get: a walk that reaches a dict lacking the next key (or mapping it to `None`) answers `None`, whatever the rest of the path |
| CommonHelpers.GetNestedListValue | src/shared/common_helpers.py:130-142 | IndexError and TypeError become `None`; no other error is swallowed |
| CommonHelpers.PyObject.constructor | src/shared/common_helpers.py:69 | a mutable container holding the given value |
| CommonHelpers.DictWith | src/shared/common_helpers.py:111-128 | the dict after a set has the old keys plus the first step, and every other key keeps its value |
| CommonHelpers.DictGetAfterSet | src/shared/common_helpers.py:96-128 | `GetNestedDictValue` after `DictWith` along the same path yields the value set |
| CommonHelpers.DictSetTwice | src/shared/common_helpers.py:111-128 | a second set along the same path overrides the first |
| CommonHelpers.SetNestedDictValue | src/shared/common_helpers.py:111-128 | the same object, now holding `DictWith`; an empty path raises IndexError and changes nothing |
| CommonHelpers.Padded | src/shared/common_helpers.py:159-160 | the list padded with the filler up to index `i`, the old elements kept |
| CommonHelpers.ListGetAfterSet | src/shared/common_helpers.py:130-169 | `ListWith`, the list after a set: a list get along the same path yields the value set |
| CommonHelpers.ListLeftAgrees | src/shared/common_helpers.py:145-169 | a list set that succeeds leaves exactly the list `ListWith` computes |
| CommonHelpers.PartialSetKeepsPadding | src/shared/common_helpers.py:159-165 | a set that raises below the top level keeps the padding it did: `[]` set at `(0, "x")` raises TypeError and leaves `[[]]` |
| CommonHelpers.Pad | src/shared/common_helpers.py:159-160 | the `while` loop computes `Padded` |
| CommonHelpers.SetNestedListValue | src/shared/common_helpers.py:145-169 | the same list object, now holding `ListLeft`: on success that is `ListWith` (padding with `[]`, `None` at the last level); on TypeError or IndexError it is the padding done before the failing step; an empty path raises IndexError and changes nothing |
| CommonHelpers.SetNestedValue | src/shared/common_helpers.py:69-94 | on a dict with a string path, the same object holding `DictWith`; a non-string step into a dict is outside the model; on a list, the same object holding `ListLeft` (`ListWith` on success); an empty path raises IndexError; any other value raises TypeError; on every error but the list padding nothing changes |
| CommonHelpers.GetNestedValueAfterSet | src/shared/common_helpers.py:43-94 | `GetNestedValue` along `keys` after a successful dict or list set along the same `keys` yields the value set |
| Actions.KindNamed | src/builders/build_actions.py:98-112 | the action class named by `action_type`; an unknown name is the ValueError of the loader |
| Actions.KindNamedClassName | src/builders/build_actions.py:99-104 | every action class is found under its own name |
| Actions.SaysFalseMeaning | src/actions/pay_fine_action.py:34-35 | only `False` and the strings reading "false" in any case say false |
| Actions.ActiveMeaning | src/actions/pay_fine_action.py:33-35 | `Active`, the corrected flag: an action is off exactly when `trans_active` or its own `process_active` says false |
| Actions.ActiveAsWrittenIgnoresSetting | src/actions/pay_fine_action.py:33 | `ActiveAsWritten`: a boolean or numeric `trans_active` is never a key of `conf`, so `process_active` is never read |
| Actions.ProcessActiveIgnored | src/actions/pay_fine_action.py:33-35 | an action configured `process_active: false` in a job with `trans_active: true` is active as written |
| Actions.WithSlot | src/actions/pay_fine_action.py:45-46 | `fine[name]` created as `{}` only when missing; the other keys untouched |
| Actions.Write | src/actions/pay_fine_action.py:51-52 | `fine[name][key] = v`: KeyError without `fine[name]`, TypeError when it is not a dict |
| Actions.WriteMeaning | src/actions/pay_fine_action.py:65 | a successful write sets the entry and changes nothing outside the action's sub-dict |
| Actions.CheckNonPositive | src/actions/pay_fine_action.py:47-52 | `amount <= 0` writes `allowed: False` with no backend call |
| Actions.CheckPositive | src/actions/pay_fine_action.py:53-64 | a positive amount sends one POST of `{amount}` to `/accounts/{id}/check-<verb>` |
| Actions.AnswerIsVerdict | src/actions/pay_fine_action.py:64-66 | the backend's answer is stored as the check verdict before its `allowed` entry is read |
| Actions.BlockChecksAllow | src/actions/block_patron_action.py:49-55 | the block action always allows, with no backend call |
| Actions.CheckTouchesOnlyItsSlot | src/actions/pay_fine_action.py:38-77 | `CheckEffect`, what a check leaves: the record changes only under the action's name |
| Actions.RemoveBlockCheckNeedsSlot | src/actions/remove_block_patron_action.py:47-50 | `RemoveBlockCheckAsWritten`: a record without the action's entry raises KeyError; with the entry created first the removal is allowed |
| Actions.WaiveNonPositiveStopsDriver | src/actions/waive_fine_action.py:30-46 | `WaiveCheckReturnAsWritten`: a waive of a non-positive amount returns `None` and the driver's subscript raises TypeError; returning the record, the driver reads the refusal |
| Actions.AppendText | src/actions/block_patron_action.py:68-69 | `staff_info += text`: string concatenation, or a list extended by the text's characters |
| Actions.InactiveRecordsRequest | src/actions/pay_fine_action.py:89-127 | an inactive money action records `NOT PROCESSED` with exactly the URL `/accounts/{id}/<verb>` and the six-field body it would send |
| Actions.ActiveWritesSuccess | src/actions/pay_fine_action.py:99-110 | an active action writes only its success marker and sends nothing |
| Actions.BlockBodyIsRemovable | src/actions/block_patron_action.py:68-88 | a block built for record X is a manual block whose staff note contains `systemID: X` |
| Actions.TaggedBlockMatches | src/actions/remove_block_patron_action.py:68 | a manual block whose staff note contains the record's id matches |
| Actions.RemovalStep | src/actions/remove_block_patron_action.py:68-79 | one loop turn: a match is deleted and noted in the record, anything else is left alone; an error stops the loop |
| Actions.Matching | src/actions/remove_block_patron_action.py:67-68 | the blocks that match, in order, as a sub-list |
| Actions.RemovalDeletesMatching | src/actions/remove_block_patron_action.py:62-87 | with a deleting client, exactly the matching blocks are deleted in order and `delete` describes the last of them |
| Actions.RemovalStepDeletes | src/actions/remove_block_patron_action.py:68-79 | a matching block is deleted and noted |
| Actions.RemovalStepSkips | src/actions/remove_block_patron_action.py:68 | a block that does not match is left alone |
| Actions.MatchingSameId | src/actions/remove_block_patron_action.py:68 | matching depends on the record's id only |
| Actions.RemovalWithoutDelete | src/actions/remove_block_patron_action.py:69-70 | with the repository's client, which has no `delete_request`, the first match raises AttributeError before any deletion reaches the backend |
| Actions.Action.constructor | src/actions/pay_fine_action.py:20-36 | the activation flag is the corrected `Active`, computed once from `conf` and `trans_active` |
| Actions.Action.MakeSlot | src/actions/pay_fine_action.py:45-46 | the record becomes `WithSlot` of its old contents |
| Actions.Action.Put | src/actions/pay_fine_action.py:52 | the record becomes `Write` of its old contents, or is unchanged on error |
| Actions.Action.Check | src/actions/pay_fine_action.py:38-77 | the record and the client log end as `CheckEffect` says: refusal, backend verdict or block allowance (the corrected RemoveBlock and Waive checks) |
| Actions.Action.Execute | src/actions/pay_fine_action.py:79-128 | the record ends as `ExecuteEffect` says: success marker when active, audit marker when inactive, and only the `process` entry written |
| Actions.Action.RemoveOne | src/actions/remove_block_patron_action.py:68-82 | one loop turn as `RemovalStep` says |
| Actions.Action.RemoveBlocks | src/actions/remove_block_patron_action.py:56-87 | GET `/manualblocks`, then the removal loop, as `RemovalSpec` says |
| Actions.Action.RemoveEach | src/actions/remove_block_patron_action.py:67-82 | the loop over the fetched blocks as `RemovalFrom` says |
| Actions.Action.Undo | src/actions/pay_fine_action.py:130-142 | returns true and changes nothing |
| Actions.NewAction | src/builders/build_actions.py:115-116 | the action of `Configure`: a missing `name` is a KeyError, a name that is not a string is outside the model, and the flag is the corrected `Active` |
| BuildActions.ProcessFrom | src/builders/build_actions.py:119-124 | the record loop: every record checked and, when allowed, executed; the first error stops it and later records keep their contents |
| BuildActions.ProcessOne | src/builders/build_actions.py:119-123 | one record: check, read the verdict, execute when allowed |
| BuildActions.RunAction | src/builders/build_actions.py:119-124 | the loop leaves the records as `ProcessFrom` says and returns the list itself |
| BuildActions.AllowedByEntry | src/builders/build_actions.py:122 | the verdict the driver reads depends only on the `check` entry |
| BuildActions.CheckKeepsOtherEntries | src/actions/pay_fine_action.py:38-77 | a check writes nothing but `check` in the action's sub-dict, and a successful check leaves a verdict |
| BuildActions.SettledKeepsOtherEntries | src/actions/pay_fine_action.py:47-52 | the same for a check settled without the backend |
| BuildActions.AnswerKeepsOtherEntries | src/actions/pay_fine_action.py:64-65 | the same after the backend answered |
| BuildActions.ExecuteWritesProcess | src/actions/pay_fine_action.py:99-127 | execute writes only the `process` entry, and always on success |
| BuildActions.FineStepExecutesIffAllowed | src/builders/build_actions.py:121-123 | `FineStep`, one record of the loop: a successful step leaves a readable verdict and a `process` entry exactly when the verdict allows |
| BuildActions.ProcessExecutesIffAllowed | src/builders/build_actions.py:119-124 | over a whole list that finishes, exactly the records whose verdict allows were executed |
| BuildActions.ProcessKeeps | src/builders/build_actions.py:119-124 | what every iteration guarantees of a record it processes holds of every record of a loop that ends without error |
| BuildActions.ProcessLog | src/builders/build_actions.py:119-124 | when each iteration sends at most one request of a kind, the loop sends at most one per record, all of that kind, after the earlier log |
| BuildActions.CheckSendsOnlyCheck | src/actions/pay_fine_action.py:57-64 | a check sends at most one request, a check request |
| BuildActions.FineStepSendsOnlyChecks | src/actions/pay_fine_action.py:105-110 | on one record an action other than the block removal sends at most its check request |
| BuildActions.ProcessSendsOnlyChecks | src/builders/build_actions.py:119-124 | over a list, only check requests are sent, at most one per record: no money moves |
| BuildActions.Remaining | src/builders/build_actions.py:71-72 | the pool positions whose record equals no processed record, in order |
| BuildActions.RemainingDistinct | src/builders/build_actions.py:71-72 | what is left of a pool without repeats has no repeats |
| BuildActions.RemainingMeaning | src/builders/build_actions.py:71-72 | a record stays exactly when it equals no processed record |
| BuildActions.StopProcessingRaises | src/builders/build_actions.py:70-72 | `StopAsWritten`: every configuration with `stop_processing` raises NameError, so no record is ever taken out of a pool |
| BuildActions.WorkingData.constructor | src/builders/build_actions.py:42-43 | the charge and refund lists the driver draws from |
| BuildActions.ActionBuilder.constructor | src/builders/build_actions.py:38-45 | a rule engine on the client and an empty `return_data` |
| BuildActions.ActionBuilder.ProcessFine | src/builders/build_actions.py:87-124 | an action that cannot be built (`ActionFor`: KeyError, ValueError) fails with nothing touched; otherwise the record contents, the result and the client log are those of `ProcessFrom` over the old contents |
| BuildActions.ActionBuilder.Run | src/builders/build_actions.py:47-75 | without configurations nothing is sent and `return_data` stays empty; on success every configuration is a named dict whose name is a key of `return_data`; every stored record comes from the two working lists |
| BuildActions.ActionBuilder.RunConfig | src/builders/build_actions.py:49-75 | for a named configuration: `return_data[name]` holds the list `ConfigRun` keeps (filters in order, then the action), the records and the log as `ConfigRun` says, its error otherwise; with `stop_processing` the processed records are taken out of the chosen list (`Stored`) |
| BuildActions.ActionBuilder.RunNamed | src/builders/build_actions.py:50-75 | one configuration with a string name, as `ConfigRun` says, then stored and withdrawn as `Stored` says |
| BuildActions.ActionBuilder.Keep | src/builders/build_actions.py:65-72 | the processed list stored under its name, then the lists as `Stored` says |
| BuildActions.ActionBuilder.Withdraw | src/builders/build_actions.py:70-72 | with `stop_processing` the chosen list becomes `Remaining` of it and the other is kept; without, both are kept |
| BuildActions.ActionBuilder.FilterAndProcess | src/builders/build_actions.py:57-65 | the result is the list `FilterChain` keeps of the pool over the resolved filters, and the records and the log are those of `ConfigRun`; without filters it is the pool itself |
| BuildActions.ActionBuilder.TakeOut | src/builders/build_actions.py:71-72 | the pool becomes the records of `Remaining`, in order |
| BuildActions.ActionBuilder.ApplyFilters | src/builders/build_actions.py:57-63 | each named filter applied in order to the previous output: the result and the kept dicts are those of `FilterChain` over the resolved rules |
| BuildActions.ActionFor | src/builders/build_actions.py:94-116 | KeyError without `name` or `action_type`, the ValueError of an unknown `action_type`, otherwise the action of that class on `conf` with the corrected flag |
| BuildActions.ActionBuilder.GetProcessData | src/builders/build_actions.py:78-85 | `return_data` stored under `process_data` in the same bundle, which is returned |
| Pipeline.SelectFrom | src/shared/data_processor.py:111-113 | every selected record is a record of the list, at a handled index |
| Pipeline.SelectDistinct | src/shared/data_processor.py:111-113 | a selection from a list without repeats has no repeats |
| Pipeline.FilterPool | src/builders/build_actions.py:62-63 | `general_filter_function` as the caller sees it: the result is what `Kept` keeps of the pool (the passing records in order, holding the kept dicts), or its error; what it logs comes from the pool |
| Pipeline.KeptFrom | src/shared/data_processor.py:111-113 | `Kept`, what one filter keeps: a list without repeats drawn from the pool |
| Pipeline.FilterChainFrom | src/builders/build_charges.py:111-114 | `FilterChain`, the filters in order each on the previous output: a list without repeats drawn from the pool |
| Pipeline.StageConfigs | src/builders/build_charges.py:100-102 | `settings[section][key]` when both are present, no configurations otherwise |
| Pipeline.ConfigDict | src/builders/build_charges.py:102-103 | a configuration that is not a dict fails at its first subscript |
| Pipeline.FormatterStep | src/shared/data_processor.py:127-158 | `update_field_value` reads its configuration, then rewrites every record |
| Pipeline.MergerStep | src/shared/data_processor.py:168-210 | `merge_field_data` reads its configuration; a merge type other than FIELD or FILE is passed over |
| Pipeline.RewrittenLength | src/builders/build_charges.py:100-109 | a rewriting stage neither adds nor drops records |
| Pipeline.RewrittenEmpty | src/builders/build_charges.py:102-103 | a configuration that is not a dict stops the stage with TypeError |
| Pipeline.RewrittenNext | src/builders/build_charges.py:102-103 | a configuration that goes through hands the rewritten records to the next |
| Pipeline.RewrittenStops | src/builders/build_charges.py:102-103 | a configuration that fails stops the stage with its error |
| Pipeline.FormatOnce | src/builders/build_charges.py:103 | one formatter: the record contents move one configuration along `Rewritten` |
| Pipeline.Formatters | src/builders/build_charges.py:100-103 | the formatter loop: record contents end as `Rewritten` over all configurations; the list itself is handed on |
| Pipeline.MergeOnce | src/builders/build_charges.py:108 | one merger, as `FormatOnce` |
| Pipeline.Mergers | src/builders/build_charges.py:106-108 | the merger loop, as `Formatters` |
| Pipeline.Filters | src/builders/build_charges.py:111-114 | each filter on the previous output: the result and the kept dicts are those of `FilterChain` over the configurations, or its error; without filters nothing changes; the error log grows only by records of the input |
| Pipeline.ApiMergesPassOver | src/builders/build_charges.py:89-93 | the API merge type is neither FIELD nor FILE, so both API merges pass the records over |
| Pipeline.ApiMerges | src/builders/build_charges.py:89-93 | the two API merges, in either order, leave list and records as they were |
| Pipeline.Counters | src/shared/data_processor.py:36-42 | `get_filter_data()` is `None` for no counters, otherwise the counters |
| Pipeline.AddCountersAsWritten | src/builders/build_charges.py:117 | as written, `update(None)` raises TypeError when no filter ran |
| Pipeline.NoFiltersRaiseAsWritten | src/builders/build_charges.py:117 | a job without filters never gets its summary: a fresh rule engine has no counters |
| Pipeline.AddCounters | src/builders/build_charges.py:117 | corrected: the counters over the summary, nothing added without filters |
| Pipeline.AddCountersAgrees | src/builders/build_charges.py:117 | the corrected update agrees with the as-written one wherever that one succeeds |
| Pipeline.ChargeSummaryKeys | src/builders/build_charges.py:121-123 | the four `charge_*` entries of the summary |
| Pipeline.ErrorsSummaryKeys | src/builders/build_charges.py:124-126 | the four `errors_*` entries of the summary |
| Pipeline.SummaryKeysAreNotCounters | src/builders/build_charges.py:117-126 | no summary key is a counter name, so neither overwrites the other |
| Pipeline.SummarisedMeaning | src/builders/build_charges.py:117-133 | the summary holds its keys, the two record counts, every counter, and every earlier entry nothing replaces |
| Pipeline.OwnCountsKept | src/builders/build_charges.py:96 | the builders' own counts survive the summary |
| Pipeline.SummaryCounts | src/builders/build_charges.py:96-133 | the summary holds the raw record count, both record counts, every rule counter and any patron count |
| Pipeline.Finish | src/builders/build_charges.py:117-135 | the result is `{data, error, summary}` with the summary of `Summarised` over the corrected `AddCounters`, or that summary's error |
| Pipeline.ReformattedLength | src/builders/build_charges.py:100-109 | formatters and mergers keep every record |
| Pipeline.Stages | src/builders/build_charges.py:100-115 | all formatters, then all mergers, then all filters of one record kind: the survivors and their contents are those of `Staged`, a sub-list of the input without repeats; without filters they are the input with the contents of `Reformatted` |
| Pipeline.Process | src/builders/build_charges.py:100-135 | the stages as `Staged` says, then the summary of `Summarised` over the counters and the surviving contents, with the surviving records a sub-list of the input |
| BuildCharges.ChargesQuery | src/builders/build_charges.py:143-155 | open accounts created after `charges_max_age` days ago and before `charge_days_outstanding` days ago, at most `max_fines_to_be_pulled` |
| BuildCharges.ChargesQueryDefaults | src/builders/build_charges.py:143-146 | without settings: 365 days back to today, limit 10000000 |
| BuildCharges.Outstanding | src/builders/build_charges.py:158-162 | `resultInfo.totalRecords` and `accounts` of the answer |
| BuildCharges.ChargeBuilder.constructor | src/builders/build_charges.py:50-69 | the query from the settings and `daysAgo`, empty counts, a rule engine with no data sets |
| BuildCharges.ChargeBuilder.GetOutstandingFinesAll | src/builders/build_charges.py:137-162 | one GET of the query; `reportedRecordCount` noted and the accounts returned as fresh records |
| BuildCharges.ChargeBuilder.Fetch | src/builders/build_charges.py:79-96 | fetch, the two API merges, `rawRecordCount` the length after them |
| BuildCharges.ChargeBuilder.GetCharges | src/builders/build_charges.py:72-135 | fetch, the charge stages as `Staged` says, the summary; the result `data` is a sub-list of the fetched records |
| BuildCredits.RefundBody | src/builders/build_credits.py:163-167 | the report body: refunds from `start` to `end`, all owners |
| BuildCredits.CreditsReport | src/builders/build_credits.py:156-167 | refunds from `credit_days_outstanding` days ago (1 when falsy) to yesterday |
| BuildCredits.FalsyDaysIsYesterday | src/builders/build_credits.py:156-160 | a falsy setting asks for yesterday only |
| BuildCredits.TruthyDaysWindow | src/builders/build_credits.py:156-160 | a truthy setting read as `n` asks from `n` days ago to yesterday; an unreadable one fails as `int()` does |
| BuildCredits.ReportEntries | src/builders/build_credits.py:172-176 | the report's `reportData`; a non-empty dict fails on its first key |
| BuildCredits.AccountUrl | src/builders/build_credits.py:188 | `/accounts/{feeFineId}`, failing without a `feeFineId` |
| BuildCredits.WithReportData | src/builders/build_credits.py:190 | the account with `report_data` set to the credit; only a dict takes it |
| BuildCredits.FeeFine | src/builders/build_credits.py:187-191 | one lookup: one GET of the credit's account, which gets the credit attached |
| BuildCredits.FeeFinesFromStep | src/builders/build_credits.py:186-191 | one turn: the lookup fails, ending the loop, or adds its account |
| BuildCredits.FeeFinesFromFound | src/builders/build_credits.py:186-199 | a run of successful lookups moves the loop on, adding their accounts and requests in order |
| BuildCredits.FeeFinesAllFound | src/builders/build_credits.py:186-199 | when every lookup succeeds, one account per credit, in order, each carrying its credit, after one GET each |
| BuildCredits.FeeFinesFirstMiss | src/builders/build_credits.py:186-199 | the first failing lookup fails the loop with its error after the GETs before it |
| BuildCredits.CreditBuilder.constructor | src/builders/build_credits.py:47-67 | the report body from the settings and `daysAgo`, empty counts, a rule engine with no data sets |
| BuildCredits.CreditBuilder.GetOutstandingCreditsAll | src/builders/build_credits.py:149-176 | one POST of the report; its credits returned |
| BuildCredits.CreditBuilder.FetchAccount | src/builders/build_credits.py:188-191 | one turn of the lookup loop, as `FeeFine` says |
| BuildCredits.CreditBuilder.FetchAccounts | src/builders/build_credits.py:186-199 | the lookup loop, as `FeeFines` says |
| BuildCredits.CreditBuilder.FeeFineData | src/builders/build_credits.py:178-199 | the accounts of the loop as fresh records |
| BuildCredits.CreditBuilder.Collect | src/builders/build_credits.py:81-86 | the report, then one lookup per credit: one record per credit |
| BuildCredits.CreditBuilder.Fetch | src/builders/build_credits.py:81-98 | collect, the two API merges, `rawRecordCount` the length after them |
| BuildCredits.CreditBuilder.GetCredits | src/builders/build_credits.py:70-147 | fetch, the credit stages as `Staged` says, the summary under the labels `charge` and `errors` |
| TemplateProcessor.LevelNamed | src/shared/template_processor.py:79-96 | the five level names, and no other |
| TemplateProcessor.Select | src/shared/template_processor.py:80-96 | a single part unchanged, BOTH as `{charge, credit}`, ALL_DATA as `{charge, credit, process}` |
| TemplateProcessor.ProcessData | src/shared/template_processor.py:71-104 | the selection of the upper-cased level; an unknown level is ValueError and a non-string level AttributeError |
| TemplateProcessor.UpperIgnoresCase | src/shared/template_processor.py:79 | upper-casing after lower- or upper-casing gives the same text |
| TemplateProcessor.LevelIgnoresCase | src/shared/template_processor.py:79 | the level matches without regard to case |
| TemplateProcessor.AllDataExtendsBoth | src/shared/template_processor.py:84-96 | whenever ALL_DATA exists, BOTH exists and is ALL_DATA without `process` |
| TemplateProcessor.ProcessTemplate | src/shared/template_processor.py:34-69 | the level's data first, then its JSON for DUMP_JSON, otherwise the rendered template |
| TemplateProcessor.DumpJsonNeverLoads | src/shared/template_processor.py:52-54 | DUMP_JSON, in any case, never loads a template |
| HandlebarsHelpers.Repeat | src/shared/handlebars_helpers.py:40 | `n` copies of the fill character |
| HandlebarsHelpers.WidthOf | src/shared/handlebars_helpers.py:29 | the width is an `int` or a `bool`; anything else is TypeError |
| HandlebarsHelpers.FillOf | src/shared/handlebars_helpers.py:29 | the fill is exactly one character, otherwise TypeError |
| HandlebarsHelpers.LeftPad | src/shared/handlebars_helpers.py:29-40 | length `max(len(text), width)`, the text a suffix, every padding character the fill, no truncation |
| HandlebarsHelpers.RightPad | src/shared/handlebars_helpers.py:45-56 | the same with the text a prefix |
| HandlebarsHelpers.EmptyValueIsAllFill | src/shared/handlebars_helpers.py:40 | an empty value pads to exactly `width` fill characters on either side |
| HandlebarsHelpers.PadsAreRotations | src/shared/handlebars_helpers.py:40-56 | the two results are rotations of each other |
| BuildConnectors.TargetImported | src/builders/build_connectors.py:127-132 | as written: the class is found only when `connector_type` is its class name and the derived module is its file |
| BuildConnectors.PascalToSnakeLast | src/shared/common_helpers.py:24 | the derived module name ends with the class name's last character, lower-cased |
| BuildConnectors.SharePointNeverImported | src/builders/build_connectors.py:127-132 | as written, no `connector_type` loads the SharePoint class |
| BuildConnectors.TargetNamed | src/builders/build_connectors.py:130-132 | corrected: the class named by `connector_type`, or none |
| BuildConnectors.TargetNamedClassName | src/builders/build_connectors.py:130-132 | every connector class is found under its own name |
| BuildConnectors.OpNamed | src/builders/build_connectors.py:148-157 | CREATE, UPDATE, DELETE and no other upper-cased action |
| BuildConnectors.ShipmentFor | src/builders/build_connectors.py:118-166 | class first (KeyError, TypeError or ValueError), then `env_key`, then the action (ValueError outside the three), then the package |
| BuildConnectors.ExtractData | src/builders/build_connectors.py:103-116 | the value at the dot path, `None` when a segment is missing or an intermediate is not a dict |
| BuildConnectors.ExtractPathAppend | src/builders/build_connectors.py:111-116 | following a longer path is following its parts in turn |
| BuildConnectors.ExtractAgreesWithNestedGet | src/builders/build_connectors.py:103-116 | where the nested dict get of the common helpers answers, the extraction gives the same value |
| BuildConnectors.ExtractDottedPath | src/builders/build_connectors.py:110 | `a.b` is key `a`, then key `b` |
| BuildConnectors.KeyOf | src/builders/build_connectors.py:91-98 | a field name is accepted exactly when it is a string |
| BuildConnectors.PatternEntry | src/builders/build_connectors.py:89-98 | DYNAMIC extracts, STATIC takes `field_format`, DATE formats today; any other type sets nothing |
| BuildConnectors.RowFromFields | src/builders/build_connectors.py:87-99 | a row holds the fields some pattern sets, each with the last such pattern's value |
| BuildConnectors.RowFields | src/builders/build_connectors.py:87-99 | every field of a row comes from a pattern, and every pattern's field is in the row |
| BuildConnectors.RowsFromRows | src/builders/build_connectors.py:86-99 | one row per element, in order |
| BuildConnectors.InlineRowPerElement | src/builders/build_connectors.py:76-101 | inline mapping emits exactly one row per element of `data`, in order, each from its own element |
| BuildConnectors.PayloadOf | src/builders/build_connectors.py:62-71 | TEMPLATE gives the template output, INLINE the rows, any other mapping type nothing |
| BuildConnectors.ShipOne | src/builders/build_connectors.py:62-74 | an unknown mapping type ships nothing; otherwise the package of its payload |
| BuildConnectors.ShipsFor | src/builders/build_connectors.py:58-74 | the configurations in order |
| BuildConnectors.NoConnectorsShipNothing | src/builders/build_connectors.py:58 | a missing or `None` `connectors` setting ships nothing |
| BuildConnectors.ShipFromCount | src/builders/build_connectors.py:59-74 | a completed run ships once per configuration that ships, in order |
| BuildConnectors.KnownCountShips | src/builders/build_connectors.py:62-71 | on a completed run a configuration ships exactly when its mapping type is known |
| BuildConnectors.ShipsOncePerKnownMapping | src/builders/build_connectors.py:58-74 | a completed run ships exactly once per TEMPLATE or INLINE configuration |
| BuildConnectors.Sender.constructor | src/builders/build_connectors.py:34-53 | the working data and today's formatter; nothing shipped |
| BuildConnectors.Sender.BuildRow | src/builders/build_connectors.py:87-99 | the inner loop builds `Row` |
| BuildConnectors.Sender.ProcessInline | src/builders/build_connectors.py:76-101 | the loops compute `Inline` |
| BuildConnectors.Sender.ShipPackage | src/builders/build_connectors.py:118-166 | the shipment of `ShipmentFor` is recorded, or its error returned |
| BuildConnectors.Sender.Prepare | src/builders/build_connectors.py:62-71 | one configuration's payload, as `PayloadOf` says |
| BuildConnectors.Sender.Send | src/builders/build_connectors.py:58-74 | the shipments of `Shipments`, in order |
| JobProcessor.RuleOf | src/job_processor.py:99-101 | a rule is set unless missing, `None` or `''` |
| JobProcessor.CheckDays | src/job_processor.py:87-106 | open without `run_days`; otherwise today's weekday (Sunday 0) must be in it |
| JobProcessor.CheckMonth | src/job_processor.py:108-147 | EVERY, ODD, EVEN in any case; other strings never; a list by membership; other values ValueError |
| JobProcessor.CheckMonthMeaning | src/job_processor.py:124-146 | the month rule in words, every case |
| JobProcessor.OddEvenMonthsPartition | src/job_processor.py:130-137 | ODD and EVEN split the months |
| JobProcessor.CheckDayAsWritten | src/job_processor.py:149-204 | the day gate as written, where ODD only ever assigns False |
| JobProcessor.OddDayNeverRuns | src/job_processor.py:178-180 | as written, an ODD day rule never runs |
| JobProcessor.CheckDay | src/job_processor.py:149-204 | corrected: ODD admits the odd days |
| JobProcessor.CheckDayFixesOdd | src/job_processor.py:178-180 | the corrected gate differs from the written one exactly on odd days of ODD rules |
| JobProcessor.DayRuleMeaning | src/job_processor.py:168-203 | `DayRule`, the named rules ODD aside: EVERY always, EVEN even days, FIRST day 1, LAST the month's last day, WEEKDAY 1..5, WEEKEND 0 or 6; ODD and every other name never |
| JobProcessor.CheckDayMeaning | src/job_processor.py:168-203 | the corrected day rule in words, every case: ODD the odd days (in `CheckDay`), other strings by `DayRule`, a list by membership of today's day, other values ValueError |
| JobProcessor.Gate | src/job_processor.py:35 | the three gates in turn (the day gate the corrected `CheckDay`), each consulted only when the earlier ones admit |
| JobProcessor.Passing | src/job_processor.py:34-37 | the admitted jobs in order; the first gate that raises ends the selection |
| JobProcessor.PassingMeaning | src/job_processor.py:34-37 | the selected jobs are exactly those all gates admit, in configuration order |
| JobProcessor.Kept | src/job_processor.py:34-37 | a job is kept exactly when its gate admits it |
| JobProcessor.Scheduler.constructor | src/job_processor.py:27-33 | no active jobs yet |
| JobProcessor.Scheduler.Runs | src/job_processor.py:35 | the short-circuit chain computes `Gate` |
| JobProcessor.Scheduler.SelectActive | src/job_processor.py:34-37 | `active_jobs` gains exactly the jobs of `Passing`, or the error of the document or a gate is returned |
| YamlLoader.WordRun | src/shared/yaml_loader.py:40 | the run of word characters a text starts with |
| YamlLoader.PlaceholderAt | src/shared/yaml_loader.py:40 | the placeholder `${name}` a text starts with, if any |
| YamlLoader.PlaceholderAtName | src/shared/yaml_loader.py:40 | every `${name}` with a word name is a placeholder |
| YamlLoader.Replacement | src/shared/yaml_loader.py:41-45 | the variable's text, or the placeholder itself when unknown |
| YamlLoader.Subst | src/shared/yaml_loader.py:38-46 | one left-to-right pass; it fails only as `SubstError` says |
| YamlLoader.NoPlaceholdersNoChange | src/shared/yaml_loader.py:38-46 | text without placeholders comes back unchanged |
| YamlLoader.UnknownPlaceholdersKept | src/shared/yaml_loader.py:41-45 | unknown placeholders are left verbatim |
| YamlLoader.PlaceholderReplacedOnce | src/shared/yaml_loader.py:40-46 | a known placeholder is replaced by its text, which is not scanned again |
| YamlLoader.PlainCharCopied | src/shared/yaml_loader.py:40 | a character that opens no placeholder is copied |
| YamlLoader.PlaceholderNeedsDict | src/shared/yaml_loader.py:41-45 | with variables that are not a dict, the first placeholder raises |
| YamlLoader.Replace | src/shared/yaml_loader.py:36-52 | strings substituted, lists with the same length and dicts with the same keys rebuilt pointwise, other values kept |
| YamlLoader.ReplaceKeepsUnknown | src/shared/yaml_loader.py:36-52 | a document none of whose placeholders names a variable comes back as it was |
| YamlLoader.ReplaceNeedsDict | src/shared/yaml_loader.py:36-52 | with variables that are not a dict, any placeholder raises AttributeError |
| YamlLoader.ConcatVars | src/shared/yaml_loader.py:75 | two lists concatenate, two strings into their characters, otherwise TypeError |
| YamlLoader.Flatten | src/shared/yaml_loader.py:76-78 | the dicts merged in order, later wins |
| YamlLoader.FlattenLaterWins | src/shared/yaml_loader.py:76-78 | succeeds exactly on a list of dicts; all their keys, each with the last value |
| YamlLoader.IncludeVars | src/shared/yaml_loader.py:74-78 | the main `vars` list, then the include's own, flattened |
| YamlLoader.IncludeData | src/shared/yaml_loader.py:72-93 | loaded, substituted, without `vars`; a non-dict is AttributeError, so the ValueError is unreachable |
| YamlLoader.MergeFromFields | src/shared/yaml_loader.py:70-93 | a successful merge has the main keys and the includes' keys, each from the last include that has it, else from main |
| YamlLoader.ListVarsBreakMainPlaceholders | src/shared/yaml_loader.py:65-67 | `MainVarsAsWritten`: a main document whose `vars` is a list of dicts cannot hold a placeholder |
| YamlLoader.MainVars | src/shared/yaml_loader.py:65-67 | corrected: a `vars` list of dicts flattened, any other value used as it is |
| YamlLoader.MainSeesIncludeVars | src/shared/yaml_loader.py:65-78 | corrected, the main document sees the variables an include without its own `vars` sees |
| YamlLoader.LoadedConfig | src/shared/yaml_loader.py:56-97 | the main document substituted with the corrected `MainVars`, the includes merged in order when `include` is a list, and no `include` key |
| YamlLoader.NoIncludeListNoMerge | src/shared/yaml_loader.py:70-71 | without an `include` list no other document is read |
| YamlLoader.MainVarsSectionKept | src/shared/yaml_loader.py:86-95 | the main `vars` section survives the merge |
| YamlLoader.Loader.constructor | src/shared/yaml_loader.py:20-27 | the document loader |
| YamlLoader.Loader.LoadConfig | src/shared/yaml_loader.py:56-97 | the main document loaded and substituted, the include loop, then `include` removed: the result is `LoadedConfig` |
| YamlLoader.Loader.MergeIncludes | src/shared/yaml_loader.py:72-93 | the loop over the includes, each loaded, substituted and merged with `update` in list order, computes `MergeFrom` |

## Left out

- HTTP, authentication and the FOLIO client's constructor (`folio_connector.py:29-93`): the backend is the oracle `Client.respond`. The repository's client has no `allow_errors` parameter and no `delete_request`; the model keeps both failures.
- Logging and `print`: they change no state the program reads.
- Clock, environment and files: `date.today()`, `strftime`, `dateparser`, `os.getenv`, `EnvLoader` and file reads are parameters (`daysAgo`, `formatToday`, `expire`, `env`, `rules`, `load`). `FileLoader` is not part of this model.
- Template rendering with pybars and the text of `json.dumps`: `ProcessTemplate` returns the selected data tagged with what would be done to it (`Dumped`, or `Rendered` with the template file name); the rendered or dumped text is not modelled. `format_date` and `format_money` are not modelled (date parsing and float formatting).
- The connector classes (AirTable, SharePoint) and what their `write_rows`, `update_rows` and `delete_rows` return: a shipment is recorded when one would be called.
- `SendToConnecter.__init__` does its work in the constructor; the model splits it into `Sender.constructor` and `Sender.Send`.
- `JobProcessor.process_active_jobs`: YAML loading, JSON dumps to disk and the export wiring. The selection of today's jobs is modelled.
- `YamlLoader.Loader.LoadConfig`: file loading is the `load` parameter.
- Amounts are integers. `gen_data_summary` accumulates floats; the model makes no claim about rounding.
- `str()` of a list or dict (its `repr` text) is an `Unmodelled` error, as are dict keys that are not strings.
- `PyStrings.Lower`/`Upper` and the `\w` of placeholders cover ASCII only.
- Dict iteration order: a map keeps no order. Iterating a non-empty dict is modelled only where the result does not depend on the order (the first step raises, or every key behaves alike).
- Record lists are required to hold distinct objects (`Distinct`). Every record list of the program is a decoded JSON array or a sub-list of one, so this holds wherever the program builds one.
- A `timedelta` overflow on a huge day count is not modelled.
- The rule engine's `script_dir`: the builders pass the backend client in its place, so the data set path cannot be built. `DataRules.NoDataSetsWithoutDirectory` states the TypeError that follows; a filter or FILE merge with a data set takes the data set as a parameter.
- `BuildCharges.ChargeBuilder.GetCharges` and `BuildCredits.CreditBuilder.GetCredits`: the final assignment of the summary back into the builder's `__filter_data` is not stated; the summary is returned as the result's `summary`.
- `BuildCredits.CreditBuilder.FetchAccounts`: a fetched account that is not a dict fails in `WithReportData`; what partial list the loop leaves then is not stated.
- `JobProcessor.Scheduler.SelectActive`: on an error the jobs already appended to `activeJobs` are not stated, because the constructor that runs the loop raises and the object is never used.
- BuildActions.ActionBuilder.Run: the `working_data` bundle is the class `WorkingData`, holding only the charge list, the refund list and `process_data`. Two things of the dict it stands for are not modelled: the KeyError of `working_data["charge_data"]["data"]` or `working_data["refund_data"]["data"]` when an entry is missing (`build_actions.py:42-43`), and the bundle's other entries, which `get_process_data` returns along with `process_data`. `return_data` holds record lists; partial updates left behind by an error are not stated.
- BuildCharges.ChargeBuilder.GetOutstandingFinesAll: a non-array `accounts`, or an element of it that is not an object, is refused with TypeError (`Records.FromJson`), because the records of the model are dict objects. The program returns `data['accounts']` unchecked (`build_charges.py:162`) and can carry on, for example with `accounts: {}`.
- Shared objects inside a record: MOVE (`data_processor.py:157`) and the FILE merge (`data_processor.py:209`) put the same object in two places. Record fields are `Json` values, so the two places hold equal copies, and a later in-place change to one of them is not seen through the other.
- `int()` also accepts the decimal digits of other scripts (`'٣'` reads as 3); `PyStrings.IsDigit` covers the ASCII digits only. Its whitespace is that of `str.isspace` (`PyStrings.IsSpace`).
- Actions.Action.constructor: holds the corrected `Active`. As written, `process_active: false` with `trans_active: true` gives an active action (`Actions.ProcessActiveIgnored`).
- Actions.NewAction: builds with the corrected `Active`, as `Actions.Action.constructor` does.
- Actions.Action.Check: runs the corrected RemoveBlock and Waive checks. As written, a fresh record raises KeyError in the block removal check (`Actions.RemoveBlockCheckNeedsSlot`), and a waive of `amount: 0` returns `None` (`Actions.WaiveNonPositiveStopsDriver`).
- BuildActions.ProcessFrom: runs the corrected checks of `Actions.Action.Check`, so a fresh record under RemoveBlock and a waive of `amount: 0` do not raise as they do in the code.
- BuildActions.ProcessOne: the same corrected checks as `BuildActions.ProcessFrom`.
- BuildActions.RunAction: the same corrected checks as `BuildActions.ProcessFrom`.
- BuildActions.ActionFor: builds with the corrected `Active`.
- BuildActions.ActionBuilder.ProcessFine: the corrected flag and checks of `BuildActions.ActionFor` and `BuildActions.ProcessFrom`.
- BuildActions.ActionBuilder.FilterAndProcess: the corrected flag and checks of `BuildActions.ActionBuilder.ProcessFine`.
- BuildActions.ActionBuilder.RunNamed: with `stop_processing` it takes the processed records out of the chosen list (`BuildActions.ActionBuilder.TakeOut`); as written the code raises NameError (`BuildActions.StopProcessingRaises`). It also inherits the corrected flag and checks.
- BuildActions.ActionBuilder.Keep: takes records out with `stop_processing` where the code raises NameError, as `BuildActions.ActionBuilder.RunNamed`.
- BuildActions.ActionBuilder.Withdraw: the corrected `stop_processing` of `BuildActions.ActionBuilder.RunNamed`.
- BuildActions.ActionBuilder.RunConfig: the corrected `stop_processing`, flag and checks of `BuildActions.ActionBuilder.RunNamed`.
- BuildActions.ActionBuilder.Run: the corrected `stop_processing`, flag and checks of `BuildActions.ActionBuilder.RunNamed`. What `return_data` holds is stated per configuration by `BuildActions.ActionBuilder.RunConfig`, not for the whole loop.
- Pipeline.Finish: adds the counters with the corrected `AddCounters`. As written, a job without `charge_filters` or `credit_filters` raises TypeError before the summary (`Pipeline.NoFiltersRaiseAsWritten`).
- Pipeline.Process: the corrected summary of `Pipeline.Finish`.
- BuildCharges.ChargeBuilder.GetCharges: the corrected summary of `Pipeline.Finish`, so a job without `charge_filters` gets a summary where the code raises TypeError.
- BuildCredits.CreditBuilder.GetCredits: the corrected summary of `Pipeline.Finish`, so a job without `credit_filters` gets a summary where the code raises TypeError.
- BuildConnectors.ShipmentFor: looks the connector class up with the corrected `TargetNamed`. As written, `connector_type: SharePointConnection` raises ValueError (`BuildConnectors.SharePointNeverImported`).
- BuildConnectors.ShipOne: ships SharePoint packages through `BuildConnectors.ShipmentFor` where the code raises ValueError.
- BuildConnectors.Sender.ShipPackage: records a SharePoint shipment where the code raises ValueError.
- BuildConnectors.Sender.Send: its shipments include SharePoint ones where the code raises ValueError.
- BuildConnectors.ShipsFor: the corrected class lookup of `BuildConnectors.ShipmentFor`.
- JobProcessor.Gate: uses the corrected `CheckDay`, so a job with `run_on_day: ODD` runs on odd days; as written it never runs (`JobProcessor.OddDayNeverRuns`).
- JobProcessor.Passing: selects through the corrected `CheckDay` of `JobProcessor.Gate`.
- JobProcessor.PassingMeaning: about the corrected `JobProcessor.Passing`.
- JobProcessor.Kept: about the corrected `JobProcessor.Gate`.
- JobProcessor.Scheduler.Runs: the chain calls the corrected `CheckDay`.
- JobProcessor.Scheduler.SelectActive: gains the jobs of the corrected `JobProcessor.Passing`.
- YamlLoader.LoadedConfig: substitutes the main document with the corrected `MainVars`. As written, a main document with `vars: [{a: 1}]` and a placeholder `${a}` raises AttributeError (`YamlLoader.ListVarsBreakMainPlaceholders`).
- YamlLoader.Loader.LoadConfig: computes `YamlLoader.LoadedConfig`, with the corrected `MainVars`.
- The superseded copies (`src/build_charges.py`, `src/build_credits.py`, `src/builders/process_fines.py`, `src/builders/build_connters.py`, `src/export.py`, `src/builders/build_export.py`, `src/handlebars_helpers.py`, `src/pystache_helpers.py`), the exporters, the uploaders and the entry points are not part of this model.

## Findings

| source | as written | input that shows it | evidently intended | confidence | as-written member | corrected member |
|---|---|---|---|---|---|---|
| src/builders/build_actions.py:70-72 | `fines = [item for item in fines if item not in working_data]` reads `fines`, which `__init__` never binds | any action configuration with `stop_processing: true` | remove the processed records from the list the configuration drew from | not executed | BuildActions.StopProcessingRaises | BuildActions.ActionBuilder.TakeOut |
| src/actions/waive_fine_action.py:30-46 | the non-positive branch falls off the end of `check`, which returns `None` | a waive of a record with `amount: 0` | return the record with the refusal, as the other money actions do | not executed | Actions.WaiveNonPositiveStopsDriver | Actions.CheckNonPositive |
| src/actions/remove_block_patron_action.py:47-50 | `fine[name]["check"] = ...` without creating `fine[name]` | any record without the action's entry, which is every fresh record | create `fine[name]` first, as the other five checks do | not executed | Actions.RemoveBlockCheckNeedsSlot | Actions.BlockChecksAllow |
| src/job_processor.py:178-180 | the ODD branch of `__check_day` assigns False | `run_on_day: ODD` on the 1st of a month | admit the odd days of the month | not executed | JobProcessor.OddDayNeverRuns | JobProcessor.CheckDayFixesOdd |
| src/actions/pay_fine_action.py:33 | `conf["process_active"] if trans_active in conf else True` tests the value of `trans_active` as a key | `process_active: false` with `trans_active: true` | test `"process_active" in conf` | not executed | Actions.ProcessActiveIgnored | Actions.ActiveMeaning |
| src/builders/build_charges.py:117 | `update(get_filter_data())` where `get_filter_data()` is `None` until a filter has run | a job with no `charge_filters` | add nothing when there are no counters | not executed | Pipeline.NoFiltersRaiseAsWritten | Pipeline.AddCountersAgrees |
| src/shared/yaml_loader.py:65-67 | the main document is substituted from its `vars` value itself, a list, which has no `get` | a main document with `vars: [{a: 1}]` and a placeholder `${a}` | flatten the list of dicts, as is done for includes | not executed | YamlLoader.ListVarsBreakMainPlaceholders | YamlLoader.MainSeesIncludeVars |
| src/builders/build_connectors.py:127-132 | the module is derived from `connector_type` and the class looked up under the same name | `connector_type: SharePointConnection`, whose module is `share_point_connector` | every connector class found under its own name | not executed | BuildConnectors.SharePointNeverImported | BuildConnectors.TargetNamedClassName |
