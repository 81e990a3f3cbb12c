# Log combiner and batch input generator, modelled in Dafny

Two scripts from a bioinformatics pipeline.

`software/combine_logs.py` reads newline-delimited JSON execution logs, one `.log` file
per sample, and combines them into one wide table:

- the nested `input`, `output` and `analysis` documents are flattened
  (`pd.json_normalize`);
- the list columns `input.janeAdapter.assets` and `isolates` are exploded and flattened
  beside the other columns;
- the three tables and the residual log table are concatenated and transposed into a
  two-column `variable` / sample table;
- the samples of a directory are left-merged on `variable`;
- the column names are cut to their last path segment, and rows with a repeated
  `variable` are dropped.

It also defines `convert_nested_strings_to_json`, which replaces every string of a JSON
document that itself parses as JSON with its (converted) parse.

`software/th_adapter_RNA.py` checks its command line, then stamps each row of a CSV into
a fixed template document. It writes each document, wrapped in a one-element list, to
`./input_json/<order_id>.json`, and launches an executor once per written name.

## Layout

| file | module | what it holds |
|---|---|---|
| `wrappers.dfy` | `Wrappers` | `Option`, `Result` |
| `json_value.dfy` | `JsonValue` | JSON values; objects as ordered field lists with Python dict lookup and assignment |
| `text.dfy` | `Text` | `str.endswith`, `os.path.join`, `s.split('/')[-1]` |
| `seqs.dfy` | `Seqs` | facts about sequences used as single proof steps |
| `runs.dfy` | `Runs` | a loop that applies a step per element, and the states it passes through |
| `frames.dfy` | `Frames` | the pandas operations used, over a column-major table with an explicit height |
| `combine_logs.dfy` | `CombineLogs` | the parse, expand, combine, accumulate and post-process steps, and the loop of `combine_all_logs` |
| `nested_json.dfy` | `NestedJson` | `convert_nested_strings_to_json`: a specification function and the recursive method with its two in-place loops |
| `th_adapter.dfy` | `ThAdapter` | the argv guard, the template, the class `Batch` holding the template, the name list and the files, and the launch loop |

How the pieces are modelled:

- **Tables.** A table is a sequence of named columns and a row count. Rows are aligned
  by position: the model takes every frame the script builds to carry the default
  `0..n-1` index, as `json_normalize` gives it in older pandas (see "Left out").
  Duplicate column names are allowed, as in pandas.
- **JSON.** Objects keep their keys in insertion order. `Get` is `d[k]`, and `Assign` is
  `d[k] = v`.
- **The outside world.** The directory listing, `read_logs`, `pd.read_csv` and
  `json.loads` are parameters: a sequence of names, a function from path to table or
  error, a sequence of rows, and a partial parser.
- **Errors.** The exceptions the code raises on the paths it takes are values of
  `Frames.Error`: `KeyError`, `UnboundLocalError`, and the length mismatch of a column
  rename.

`th_adapter_RNA.py` changes state step by step, so the model is a class. `Batch.data`
is the template that the loop mutates through the alias `temp_data`. `Batch.nameList`
is `json_name_list`, and `Batch.files` maps each written path to the document written
there. `Batch.StampRow` is one pass of the loop body, and `Batch.WriteInputs` is the
loop. Both are proved against the functions `Stamp`, `StampAll`, `Paths` and `Written`,
and the lemmas beside those state what the script promises.

The loop of `combine_all_logs` is the method `CombineLogs.CombineLogsWith`. It is proved
equal to the function `CombineWith`, which is the fold of the samples (`Accumulate`)
followed by `PostProcess`. `convert_nested_strings_to_json` is the method
`NestedJson.ConvertNested`. It rewrites list elements and object values one at a time,
as the source does, and is proved equal to the function `Converted`.

### Where the code departs from its documented intent (the model follows the code)

- **The merge is a left join.** `temp_df.merge(..., how='left')` keeps exactly the
  accumulator's rows. The final variables are therefore those of the first sample with
  rows, not the union over all samples (`CombineVariables`, `AccumulateKeys`,
  `MergeKeepsKeySet`). Variables found only in later samples are lost.
- **An empty directory fails.** The accumulator stays `pd.DataFrame()`, and
  `set_index('variable')` raises `KeyError`. No empty table comes back
  (`EmptyDirectoryFails`).
- **A null first `output` fails.** `output_df` is bound only when the first record's
  `output` is not null, and it is returned unconditionally, so the function raises
  `UnboundLocalError` (`ParseLogs`).
- **Only single-record logs succeed.** `combine_parsed_dfs` renames the transposed table
  to two columns. That works only when the column-wise concatenation has exactly one
  row (`CombineParsed`). So a sample exists only for a log with exactly one record,
  whose asset list and isolate list each hold at most one element
  (`SampleNeedsSingleRecord`). A log whose assets list has two elements ends in a length
  mismatch.
- **Exploded rows get no values carried forward (older pandas).** With a fresh
  `0..n-1` index on the normalised elements, the concatenation aligns rows by position,
  and the columns kept beside an exploded list are padded with nulls on the extra rows,
  not repeated (`ExpandListColumns`). What happens there depends on the pandas version:
  `explode` repeats the row's label once per element, and a `json_normalize` that keeps
  that index makes `concat` repeat the row or refuse the duplicate labels. The success
  condition is the same either way, since a list of two or more elements makes the
  combine step fail; only the error raised can differ.
- **Samples before the first one with rows leave no column.** An empty accumulator is
  replaced, not merged into, so the combined table has `variable` and then one column
  per `.log` entry from the first sample with rows on, each named by the entry
  (`CombineNames`).
- **Repeated names survive the combine step.** `combine_parsed_dfs` keeps repeated
  column names as repeated `variable` rows (`CombineParsedRows`). Only the final
  `drop_duplicates` removes them, keeping the first.
- **The argument check tests the suffix `csv` without the dot.** A name such as
  `datacsv` is accepted (`ArgvGuard`).
- **The template is not copied.** `temp_data = data` is an alias, so the template itself
  is stamped on every pass, and after the loop it holds the last row's values
  (`StampAllLast`). Each written document still depends only on its own row, because
  every stamped field is rewritten before `json.dumps` (`StampAbsorbs`,
  `WrittenDocument`).
- **`convert_nested_strings_to_json` is never called** by `combine_all_logs`. It is
  modelled on its own.

## Model

| member | source | states |
|---|---|---|
| ThAdapter.ArgvGuard | software/th_adapter_RNA.py:17-19 | the run continues exactly when there are at least two argv entries and `argv[1]` ends in `csv`, and then yields that path; otherwise the exit status is 1 |
| ThAdapter.TemplateFull | software/th_adapter_RNA.py:22-59 | the template is an object whose `environment.CONFIG` is an object holding every key the loop assigns, and it has a `transform_id` |
| ThAdapter.TemplateConfigKeys | software/th_adapter_RNA.py:27-56 | the template's CONFIG dict holds all seven keys the loop assigns |
| ThAdapter.AssignmentsKeys | software/th_adapter_RNA.py:75-89 | a row's CONFIG assignments target exactly `order_id`, `tarball`, `tumor_fastq_archive`, `docker_image`, `workflow`, `cancer_type`, `assay`, in that order |
| ThAdapter.StampedKeysDistinct | software/th_adapter_RNA.py:75-89 | the seven assigned CONFIG keys are pairwise different |
| ThAdapter.AssignmentValue | software/th_adapter_RNA.py:75-89 | each assigned key is bound, among a row's assignments, to the value that row gives it |
| ThAdapter.AssignRow | software/th_adapter_RNA.py:75-89 | the seven assignment statements, in the script's order, give the CONFIG dict that the specification `StampConfig` describes |
| ThAdapter.AssignmentsPresent | software/th_adapter_RNA.py:75-89 | on a CONFIG dict holding the stamped keys, every key a row assigns is already present |
| ThAdapter.StampConfigKeys | software/th_adapter_RNA.py:75-89 | on a CONFIG dict holding the stamped keys, the assignments neither add nor move a key |
| ThAdapter.StampConfigAgain | software/th_adapter_RNA.py:75-89 | stamping CONFIG with one row and then another is stamping it with the second row alone |
| ThAdapter.WithConfigShape | software/th_adapter_RNA.py:75-89 | writing a CONFIG dict back through `environment` keeps the document stampable, and CONFIG is then that dict |
| ThAdapter.SetTopKeepsStampable | software/th_adapter_RNA.py:74 | setting the top-level `transform_id` leaves `environment` and its CONFIG untouched |
| ThAdapter.StampShape | software/th_adapter_RNA.py:73-89 | a stamped document has the row's `transform_id`; every other top-level key and every other `environment` key is unchanged; its CONFIG is the stamped CONFIG |
| ThAdapter.Stamp | software/th_adapter_RNA.py:73-89 | a stamped document can be stamped again |
| ThAdapter.WithConfig | software/th_adapter_RNA.py:75-89 | writing CONFIG back through `environment` gives an object |
| ThAdapter.StampValues | software/th_adapter_RNA.py:73-89 | after stamping, `transform_id`, `order_id`, `tarball` (the order id again), `tumor_fastq_archive`, `docker_image`, `workflow`, `cancer_type` and `assay` hold the row's values; every other CONFIG key holds what it held before |
| ThAdapter.StampFull | software/th_adapter_RNA.py:73-89 | stamping a document that has every stamped key gives one that still has them all |
| ThAdapter.StampAbsorbs | software/th_adapter_RNA.py:73-89 | stamping one row and then another gives the same document as stamping only the second: nothing of an earlier row leaks into a later document |
| ThAdapter.StepAbsorbs | software/th_adapter_RNA.py:72-89 | on the template, every pass of the loop overrides all the earlier passes |
| ThAdapter.StampAllLast | software/th_adapter_RNA.py:72-89 | after a non-empty run, the shared template equals the template stamped with the last row alone |
| ThAdapter.Wrapped | software/th_adapter_RNA.py:90 | each serialised value is a one-element list holding the document |
| ThAdapter.PathOf | software/th_adapter_RNA.py:93 | the path ends in `.json`, is 18 characters longer than the order id, and holds the order id right after `./input_json/` |
| ThAdapter.PathOfInjective | software/th_adapter_RNA.py:93-94 | two order ids share a path only when they are equal |
| ThAdapter.Paths | software/th_adapter_RNA.py:92-93 | the name list has one path per row, in row order, each built from that row's order id; a repeated order id gives a repeated entry |
| ThAdapter.PathsStep | software/th_adapter_RNA.py:92-93 | one more row appends that row's path to the name list |
| ThAdapter.PathsLatest | software/th_adapter_RNA.py:92-93 | a row whose order id no later row repeats has a path no later entry repeats |
| ThAdapter.Documents | software/th_adapter_RNA.py:90-91 | one serialised document per row |
| ThAdapter.DocumentAt | software/th_adapter_RNA.py:72-91 | the document serialised on pass `k` is the one-element list holding the template stamped with row `k` alone, whatever earlier passes stamped |
| ThAdapter.WriteAllKeys | software/th_adapter_RNA.py:94-95 | after the writes, the files are exactly the earlier files plus the written paths |
| ThAdapter.WriteAllLatest | software/th_adapter_RNA.py:94-95 | a path that no later write targets holds the document written to it |
| ThAdapter.WriteAllStep | software/th_adapter_RNA.py:94-95 | one more write replaces that path's content and nothing else |
| ThAdapter.WrittenPaths | software/th_adapter_RNA.py:92-95 | every listed path is written, and only those |
| ThAdapter.WrittenDocument | software/th_adapter_RNA.py:72-95 | the file of a row whose order id no later row shares holds the one-element list of the template stamped with that row alone, despite the aliasing; with a shared order id, the later row's document is the one left |
| ThAdapter.WrittenStep | software/th_adapter_RNA.py:90-95 | one more row writes the wrapped, shared template, as stamped so far, to that row's path |
| ThAdapter.Batch.constructor | software/th_adapter_RNA.py:22-69 | the batch starts with the template, an empty name list and no files |
| ThAdapter.Batch.StampRow | software/th_adapter_RNA.py:73-95 | one pass stamps the shared template in place, appends the row's path to the name list, and writes the wrapped, stamped template to that path |
| ThAdapter.Batch.WriteInputs | software/th_adapter_RNA.py:72-95 | after the loop, the template is the run of stamps over the rows, the name list has the rows' paths appended, and the files are the writes of the rows' documents |
| ThAdapter.Batch.WriteRow | software/th_adapter_RNA.py:72-95 | one pass of the loop keeps the loop's state equal to the specification after one more row |
| ThAdapter.Command | software/th_adapter_RNA.py:99-108 | the launched command has seven words, with the input file as the fifth |
| ThAdapter.LaunchAll | software/th_adapter_RNA.py:98-110 | one launch per name-list entry, in order, each with that entry's command |
| ThAdapter.LaunchesWrittenFiles | software/th_adapter_RNA.py:92-110 | given one launch per name-list entry, every launch has seven words and reads a file that the first loop wrote, even when two rows share an order id |
| JsonValue.Get | software/th_adapter_RNA.py:75 | `d[k]` finds a value exactly when `k` is a key, and the value is one stored under `k` |
| JsonValue.Assign | software/th_adapter_RNA.py:74 | `d[k] = v` keeps an existing key in place with the new value and leaves other entries alone; a new key is appended |
| JsonValue.Overwrite | software/th_adapter_RNA.py:74 | replacing the value of a present key keeps the key list and changes only that key's entries |
| JsonValue.GetAssign | software/th_adapter_RNA.py:74 | after `d[k] = v`, `d[k]` is `v` and every other key reads as before |
| JsonValue.GetAppend | software/th_adapter_RNA.py:74 | after a new key is appended, looking it up gives the new value, and other keys read as before |
| JsonValue.GetOverwrite | software/th_adapter_RNA.py:74 | after an overwrite, the overwritten key reads the new value and other keys read as before |
| JsonValue.GetUnique | software/th_adapter_RNA.py:75 | a key held once reads its one value |
| JsonValue.AssignAt | software/th_adapter_RNA.py:74 | an assignment changes exactly the entries of its own key |
| JsonValue.AssignTwice | software/th_adapter_RNA.py:75-89 | assigning a key twice equals assigning the second value |
| JsonValue.AssignPairAgain | software/th_adapter_RNA.py:75-89 | two present keys assigned and then reassigned keep only the second pair of values |
| JsonValue.AssignAllSnoc | software/th_adapter_RNA.py:75-89 | one more assignment in the sequence applies after the earlier ones |
| JsonValue.GetAssignAll | software/th_adapter_RNA.py:75-89 | after a sequence of assignments, a key reads the value the sequence gives it, or its old value if the sequence does not assign it |
| JsonValue.AssignAllAt | software/th_adapter_RNA.py:75-89 | after a sequence of assignments, each existing entry holds the value the sequence gives its key, or is unchanged |
| JsonValue.AssignAllKeys | software/th_adapter_RNA.py:75-89 | assignments to keys that are already present leave the key list as it was |
| JsonValue.AssignAllAgain | software/th_adapter_RNA.py:73-89 | assignments to present keys, followed by assignments covering all of those keys, leave only the second values |
| Runs.RunLast | software/th_adapter_RNA.py:72-89 | when every step overrides the earlier ones, a run ends as the last step alone makes it |
| Runs.TraceAt | software/th_adapter_RNA.py:72-91 | the state recorded after element `k` is the run over the first `k + 1` elements |
| Runs.RunStep | software/th_adapter_RNA.py:72-89 | one more element is one more step |
| Runs.TraceStep | software/th_adapter_RNA.py:72-91 | one more element records one more state |
| Runs.Trace | software/th_adapter_RNA.py:72-91 | one recorded state per element |
| CombineLogs.ParseLogs | software/combine_logs.py:20-43 | success exactly when `input`, `output` and `analysis` exist, there is a first record, and its `output` is not null; the residual table keeps every other column in order; the three tables are the flattened columns; a null first output ends in `UnboundLocalError` |
| CombineLogs.ParseJaneInput | software/combine_logs.py:45-70 | succeeds exactly when the assets column exists, otherwise `KeyError` on that column; never fewer rows than the input |
| CombineLogs.ParseAnalysis | software/combine_logs.py:73-95 | succeeds exactly when the isolates column exists, otherwise `KeyError` on that column; never fewer rows than the input |
| CombineLogs.ExpandList | software/combine_logs.py:61-67 | the list column must exist (otherwise `KeyError`); the result has as many rows as the explode makes, never fewer than the input |
| CombineLogs.ExpandListColumns | software/combine_logs.py:61-67 | the list column is removed; every other column is kept in order, null-padded below its own rows; the flattened element columns follow |
| CombineLogs.ExpandListIs | software/combine_logs.py:88-93 | expanding is dropping the list column and concatenating the flattened elements beside the rest |
| CombineLogs.Elements | software/combine_logs.py:88 | the flattened elements have one row per exploded cell |
| CombineLogs.ExpandedHeight | software/combine_logs.py:88-93 | with the list column present, expansion succeeds with one row per exploded cell, at least as many as before |
| CombineLogs.CombineParsed | software/combine_logs.py:98-117 | succeeds exactly when the concatenation of the three tables has one row, and then gives the two columns `variable` and the sample id; otherwise it is the length mismatch of the rename |
| CombineLogs.Transposed | software/combine_logs.py:110-114 | the transposed one-row table lists the former column names under `variable`, with each column's value beside it |
| CombineLogs.CombineParsedRows | software/combine_logs.py:107-114 | the sample's `variable` rows are the log columns, then the jane columns, then the analysis columns, in order and with repeated names kept; each value is that column's first cell or null |
| CombineLogs.FirstValues | software/combine_logs.py:110-112 | one value per column: its first cell, or null for an empty column |
| CombineLogs.ConcatThree | software/combine_logs.py:107 | concatenating three tables keeps all their columns in order, each padded with nulls to the tallest |
| CombineLogs.ConcatThreeAt | software/combine_logs.py:107 | each column of the three-way concatenation is the corresponding input column, padded |
| CombineLogs.FirstRowPadded | software/combine_logs.py:110-112 | the one row of the padded concatenation holds each column's first cell, or null where that table had no rows |
| CombineLogs.Labels | software/combine_logs.py:112 | the `variable` cells are the former column names, in order |
| CombineLogs.SampleOf | software/combine_logs.py:150-153 | a successful sample has the two columns `variable` and its name |
| CombineLogs.SampleOfParsed | software/combine_logs.py:151-153 | a sample built from parsed tables has `variable` and a value column named by the sample id |
| CombineLogs.SampleNeedsSingleRecord | software/combine_logs.py:150-153 | a sample exists only for a log with exactly one record whose asset list and isolate list each explode to one row |
| CombineLogs.ParsedSampleHeights | software/combine_logs.py:150-153 | a successful sample needs the asset and isolate columns, and at most one row in each of the tables being combined |
| CombineLogs.CombinedHeights | software/combine_logs.py:107-114 | the combine step succeeds only when every input table has at most one row |
| CombineLogs.ParsedHeights | software/combine_logs.py:29-41 | the residual, input and analysis tables have one row per log record |
| CombineLogs.Positions | software/combine_logs.py:161 | exactly the right rows holding a key, each once and ascending, and none when the key is absent |
| CombineLogs.RowMatches | software/combine_logs.py:161 | a left row pairs with every right row holding its key and only those, or with none when the key is absent |
| CombineLogs.MergeRows | software/combine_logs.py:161 | every merged row refers to a left row, and a partner on the right always holds the same key |
| CombineLogs.MergeRowsComplete | software/combine_logs.py:161 | every (left row, right row) pair with equal keys is a merged row, so a key the sample repeats multiplies the left row |
| CombineLogs.MergeRowsKeepLeft | software/combine_logs.py:161 | the left merge keeps every accumulator row at least once |
| CombineLogs.MergeRowsOrdered | software/combine_logs.py:161 | the left merge keeps the accumulator's row order, and a row lacks a partner only when the sample lacks its key |
| CombineLogs.RightCells | software/combine_logs.py:161 | the new column holds the sample's value on matched rows and null elsewhere |
| CombineLogs.LeftMerge | software/combine_logs.py:161 | the merge keeps `variable` first, appends the sample's column, and loses no row |
| CombineLogs.MergeKeepsKeySet | software/combine_logs.py:161 | the merged variables are exactly the accumulator's: a later sample adds none |
| CombineLogs.Step | software/combine_logs.py:156-162 | an empty accumulator is replaced by the sample; a non-empty one is merged and keeps its variables |
| CombineLogs.Accumulate | software/combine_logs.py:143-162 | no sample leaves the empty frame; any sample leaves a table keyed by `variable` |
| CombineLogs.AccumulateStep | software/combine_logs.py:156-162 | one more sample is one more step of the loop body |
| CombineLogs.FirstNonEmpty | software/combine_logs.py:156 | the first sample with rows; all before it are empty |
| CombineLogs.AccumulateKeys | software/combine_logs.py:143-162 | the accumulator is empty exactly when every sample is, and otherwise its variables are those of the first sample with rows |
| CombineLogs.LogNames | software/combine_logs.py:145-147 | the processed entries are at most the listing |
| CombineLogs.LogNamesMembers | software/combine_logs.py:145-147 | exactly the entries ending in `.log` are processed; none are processed when no entry ends so |
| CombineLogs.SamplerAt | software/combine_logs.py:148-153 | the sampler gives each entry the sample of its joined path |
| CombineLogs.CollectOk | software/combine_logs.py:145-153 | the loop gets through its entries exactly when every one of them yields a sample |
| CombineLogs.CollectFirstError | software/combine_logs.py:145-153 | otherwise the run fails with the error of the first entry that fails |
| CombineLogs.CollectOrder | software/combine_logs.py:145-153 | on success there is one sample per entry, in listing order |
| CombineLogs.LogSamples | software/combine_logs.py:145-153 | one sample per `.log` entry, in listing order, each with its value column named by the joined path |
| CombineLogs.LogSamplesOk | software/combine_logs.py:145-153 | the samples exist exactly when every `.log` entry yields one |
| CombineLogs.LogSamplesStep | software/combine_logs.py:145-153 | a `.log` entry adds its sample or ends the run with its error; any other entry changes nothing |
| CombineLogs.LogNamesAppend | software/combine_logs.py:145-147 | filtering a concatenated listing is concatenating the filtered parts |
| CombineLogs.CollectAbort | software/combine_logs.py:145-153 | an entry whose sample fails decides the outcome of the whole run |
| CombineLogs.CollectStep | software/combine_logs.py:145-153 | one more entry either appends its sample or stops the run with its error; an earlier error stays |
| CombineLogs.CollectErrPrefix | software/combine_logs.py:145-153 | once an entry has failed, later entries do not change the outcome |
| CombineLogs.LogNamesStep | software/combine_logs.py:145-147 | one more listing entry is processed exactly when it ends in `.log` |
| CombineLogs.ShortNames | software/combine_logs.py:169 | each column name becomes its last `/` segment, and the cells are unchanged |
| CombineLogs.RenameIndex | software/combine_logs.py:174 | a column called `index` is renamed `variable`; the rest are kept |
| CombineLogs.PostProcess | software/combine_logs.py:165-180 | succeeds exactly when there is a `variable` column (otherwise `KeyError`); the result has `variable` first and one column per other accumulator column |
| CombineLogs.Reindexed | software/combine_logs.py:165-174 | `variable` is put back first with its values, and the other columns follow with shortened names; `variable` itself is not shortened |
| CombineLogs.PostProcessKeys | software/combine_logs.py:165-180 | after post-processing, each of the accumulator's variables appears exactly once |
| CombineLogs.EmptyDirectoryFails | software/combine_logs.py:143-165 | a listing without `.log` entries ends in `KeyError('variable')` instead of an empty table, for any per-file pipeline of the right shape (`CombineAll`'s included) |
| CombineLogs.CombineVariables | software/combine_logs.py:136-183 | the combined table has `variable` first, no repeated variable, and exactly the variables of the first sample with rows |
| CombineLogs.AccumulateNames | software/combine_logs.py:143-162 | after the loop the accumulator's columns are `variable`, then the value column of each sample from the first one with rows on (the last sample when none has rows) |
| CombineLogs.PostProcessNames | software/combine_logs.py:165-174 | post-processing keeps the column order: `variable` first, then each other column under its last path segment, `index` becoming `variable` |
| CombineLogs.ReindexedNames | software/combine_logs.py:165-174 | before `drop_duplicates` the columns are `variable`, then each other column under its last path segment, `index` becoming `variable` |
| CombineLogs.PostProcessEntries | software/combine_logs.py:165-180 | an accumulator whose value columns are joined `.log` entries comes out of post-processing with the entries themselves as column names |
| CombineLogs.EntryColumn | software/combine_logs.py:147-174 | a `.log` entry's column, once shortened, is named by the entry itself, and is neither `variable` nor `index` |
| CombineLogs.CombineNames | software/combine_logs.py:136-183 | for a listing of plain entries, the combined table's columns are `variable`, then one per `.log` entry from the first sample with rows on, named by the entry |
| CombineLogs.CombineLogsWith | software/combine_logs.py:136-183 | the loop over the listing, with its early exit on an error, computes `CombineWith` |
| CombineLogs.Visit | software/combine_logs.py:147-162 | one pass of the loop body: an error it returns is the outcome of the whole run; otherwise the loop invariant holds for one more entry |
| CombineLogs.Absorb | software/combine_logs.py:156-162 | the sample replaces an empty accumulator or is left-merged into any other |
| CombineLogs.CombineAllLogs | software/combine_logs.py:136-183 | `combine_all_logs` with the per-file pipeline of lines 149-153 |
| CombineLogs.SamplePipelineShaped | software/combine_logs.py:150-153 | the per-file pipeline always yields two-column samples named by the file |
| Frames.FindColumn | software/combine_logs.py:29 | the first column with the name, found exactly when the name is present |
| Frames.Select | software/combine_logs.py:29 | `df[name]` gives that column's cells exactly when the name is present, else `KeyError` |
| Frames.Pad | software/combine_logs.py:67 | a column padded to `h` rows keeps its cells and adds nulls below |
| Frames.PadAll | software/combine_logs.py:67 | every column padded to the common height, names and order kept |
| Frames.PadTwice | software/combine_logs.py:107 | padding twice is padding once to the larger height |
| Frames.Concat | software/combine_logs.py:67 | the concatenation is as tall as the taller table and has all the columns of both |
| Frames.ConcatColumns | software/combine_logs.py:67 | the columns of the left table, then those of the right, in order, each padded |
| Frames.ConcatTaller | software/combine_logs.py:67 | a table at least as tall as the other keeps its columns unchanged |
| Frames.Without | software/combine_logs.py:41 | the kept columns are exactly those whose name is not listed |
| Frames.WithoutNames | software/combine_logs.py:41 | no kept column has a listed name |
| Frames.Drop | software/combine_logs.py:41 | `df.drop(columns=...)` succeeds exactly when every listed name exists, and removes those columns only; a missing name is a `KeyError` |
| Frames.FirstMissing | software/combine_logs.py:41 | none exactly when every name to drop is present; otherwise a name that is absent |
| Frames.Explode | software/combine_logs.py:61 | as many rows as the exploded count, never fewer than the input has |
| Frames.ExplodeCell | software/combine_logs.py:61 | a cell explodes to its row count, at least one row |
| Frames.Distinct | software/combine_logs.py:29 | the column paths are each key once, and all of them |
| Frames.AllKeys | software/combine_logs.py:29 | every key of every record appears, and only those |
| Frames.Normalize | software/combine_logs.py:29 | `json_normalize` gives one row per record |
| Frames.NormalizeColumns | software/combine_logs.py:29 | one uniquely named column per key path, holding each record's value there or null |
| Frames.NormalizedColumn | software/combine_logs.py:29 | one cell per record: the record's value at that path, or null |
| Frames.FlattenAll | software/combine_logs.py:29 | each record flattened to its key paths, one per record |
| Frames.Gather | software/combine_logs.py:177 | keeping chosen rows of a column, in the order given |
| Frames.GatherAll | software/combine_logs.py:177 | the same rows kept in every column |
| Frames.GatherSameValues | software/combine_logs.py:161 | gathering rows that include every row of a column keeps exactly its values, so the merge neither adds nor loses a variable |
| Frames.FirstOccurrencesSpec | software/combine_logs.py:177 | the kept rows are exactly the first appearances of their value, ascending |
| Frames.FirstOccurrencesDistinct | software/combine_logs.py:177 | the kept rows hold each value once, and every value |
| Frames.FirstIndex | software/combine_logs.py:177 | the first row holding a value |
| Frames.DropDuplicates | software/combine_logs.py:177 | `drop_duplicates(subset='variable')` keeps the column names and the first row for each value |
| Frames.DropDuplicatesKeys | software/combine_logs.py:177-180 | afterwards `variable` holds each of its former values exactly once |
| Text.Join | software/combine_logs.py:148 | the joined path ends with the entry's name, and an absolute name replaces the directory |
| Text.LastSegment | software/combine_logs.py:169 | the last segment has no `/`, ends the name, is the whole name when it has no `/`, and follows a `/` otherwise |
| Text.LastSegmentAfterSlash | software/combine_logs.py:148-169 | a name without `/` appended after a `/` is the last segment |
| Text.LastSegmentOfJoin | software/combine_logs.py:148-169 | the shortened name of a joined path is the directory entry itself |
| NestedJson.Converted | software/combine_logs.py:119-133 | an object keeps exactly its keys, and a list keeps its length |
| NestedJson.ConvertedNode | software/combine_logs.py:121-133 | an unparseable string is kept; a parseable string becomes its converted parse; object values and list elements are converted in place; other scalars are unchanged |
| NestedJson.ConvertedSettled | software/combine_logs.py:121-133 | no string the parser accepts is left in the result |
| NestedJson.SettledUnchanged | software/combine_logs.py:119-133 | a document with nothing left to parse comes back unchanged |
| NestedJson.ConvertIdempotent | software/combine_logs.py:119-133 | converting twice is converting once |
| NestedJson.ConvertNested | software/combine_logs.py:119-133 | the recursive function, rewriting dict values and list elements in place, computes `Converted` |

## Left out

- File and process I/O are parameters or left out:
  - `pd.read_json` (`read_logs`) and `pd.read_csv`: their tables are given;
  - `os.listdir`: its order is a given sequence of names;
  - `os.path.exists` and `os.mkdir`;
  - the file writes: modelled as a map from path to the document written;
  - `subprocess.run` and `time.sleep`: only the commands are recorded.
- The text of `json.dumps` and the JSON syntax that `json.loads` accepts are not
  modelled. A written file holds the document itself, and the parser is a parameter that
  only has to return strings shorter than its input, as any JSON text does.
- Frames.Normalize: does not model the exact naming and index rules of
  `pd.json_normalize`. Nested objects become dotted key paths, lists are leaves, and a
  missing path is null.
- The floating-point NaN that pandas puts in place of null, and dtype coercion, are not
  modelled. A missing value is `JNull`.
- CombineLogs.LeftMerge: does not model the `_x`/`_y` suffixes pandas adds when two
  samples have the same column name. Every column keeps its name, so two samples from
  the same path give two columns with the same name.
- The `output` table that `parse_logs_df` builds is never used later in the script. It is
  kept only where it decides an outcome: the `UnboundLocalError` of a null first output.
- The `counter` variable of `combine_all_logs` is never read, so it is not modelled.
- `main` and the `__main__` block of `combine_logs.py` are not modelled.
- NestedJson.ConvertNested: does not model the aliasing of the in-place update. The
  method rewrites a value copy element by element in the source's order. When a shared
  dict appears twice in a document, the source would convert the already-converted copy
  once more; this is not captured.
- Row-index bookkeeping (`reset_index`, `set_index`) is positional throughout. The model
  assumes that `json_normalize` returns a fresh `0..n-1` index, so every frame has that
  index and `reset_index(drop=True)` changes nothing. With a `json_normalize` that keeps
  the exploded Series' repeated labels, `concat(axis=1)` aligns by label instead; that is
  not modelled. It changes only which error a multi-element list raises, not whether a
  sample succeeds.
- CombineLogs.CombineNames: states the column names only for listings whose entries
  contain no `/`, which is what `os.listdir` returns; a name with a `/` is not a
  directory entry.
- JSON numbers are integers (`JNum(int)`); a number with a fraction is not represented.
  The scripts only carry numbers through and never compute with them.
- A CSV that lacks a column the loop reads (a `KeyError` from `input_csv.loc`) is not
  modelled. A row carries the seven cells read. The cells are taken as strings, where
  pandas could give numbers.
- A template that the loop cannot stamp cannot arise, since the template has every key.
  `ThAdapter.StampStep` leaves such a document unchanged, and `Batch.StampRow` requires
  a stampable template.

