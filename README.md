# Crispify inference orchestration, modelled in Dafny

Crispify is an Android app that rewrites a selected text in plainer language with an
on-device language model. This project models the layer that orchestrates inference
and proves properties of that model:

- **Diagnostics store** (`Diagnostics`). An opt-in FIFO store of at most 100 metrics
  that records nothing while the `diagnostics_enabled` preference is off and is emptied
  when the user opts out. It also covers the ratings attached to each metric, the
  error-code lookup, and the export report that groups the stored metrics by type.
- **Model provisioning** (`AssetProvisioning`). `getModelPath` keeps a previously
  extracted GGUF file when it is valid and a sidecar meta record still describes the
  packaged asset. Otherwise it copies the asset in reads of 1 to 8192 bytes with clamped
  progress, writes the meta record, and validates the copy. The file system is a map
  from path to bytes.
- **Engine lifecycle** (`Engine`). `initialize` emits 0, 0.5 and 1.0. It scales
  extraction progress into [0, 0.5] and load progress into [0.5, 1]. When an exception
  ends it, it releases the native library and wraps the error; an `OutOfMemoryError`
  passes through unwrapped. `processText` is refused until
  initialization succeeded.
- **Request orchestration** (`ProcessScreen`). Every `processText` call of the screen
  supersedes the previous one. It initializes the engine on demand and refuses inputs
  over 1200 tokens. It cleans the engine's answer, reveals it word by word, maps errors
  to messages and error codes, and records the session's metrics.
- **Backend producers** (`NativeLibrary`, `NativeStub`). The Kotlin development mock
  of the native library and the C++ `LlamaWrapper` stub are small loaded/cancelled
  state machines. Each emits a token stream of an exact shape.
- **Prompt substitution** (`PromptTemplates`). Every `{{INPUT}}` in the template is
  replaced by the input, without overlap and from left to right.
- **Onboarding** (`Onboarding`). The first-launch screen's state shows loading
  progress, an error with a retry, and the diagnostics opt-in. It persists its
  preferences.

`Text` models the Kotlin, Java and C++ string operations the code relies on:

- `substringBefore` and `substringAfter`;
- `trim`, using `Char.isWhitespace`;
- `split(Regex("\\s+"))`, which keeps empty pieces at the ends;
- `lineSequence`, `toLongOrNull` and `replace`;
- `std::istringstream >> word`.

`Preferences` models the DataStore as a map from key to boolean, in which a missing
key reads as false. `Wrappers` holds `Option`, `Result` and `Outcome`.

Some modelling choices:

- **Results as values.** Exceptions become `Result`/`Outcome` values.
- **Outside world as parameters.** These are parameters of the modelled calls:
  - clocks (`now`, `elapsedMs`);
  - the token counter (`count: string -> nat` with `count("") == 0`);
  - how I/O calls fail (`metaReadFails`, `metaWriteFails`);
  - what a native library answers (`LoadReply`, `GenerateReply`), including an
    `OutOfMemoryError`, which is no `Exception`;
  - how many bytes each read of the asset stream returns (`readSizes`);
  - what the screen's engine call answers (`EngineReply`);
  - how the screen's initialization ends (`InitReply`: it completes, throws, or runs out
    of memory).
- **Cancellation.** A cancellation that arrives concurrently is an oracle
  (`Cancel = NeverCancelled | CancelledAt(k)`). It says which read of the cancel flag
  first sees the flag set.
- **Superseding calls.** On the screen, each coroutine is a job in a map keyed by
  its sequence number. Only the latest job is current. A job advances one suspension
  point at a time.
- **Floating point.** Floats and doubles are `real`.

Where the specification and the code differ, the model follows the code:

- `initialize` always resets the flag before it runs again.
- The screen initializes the engine before checking the token budget.
- The screen's engine call returns a string. The engine's own `processText` has a
  different signature, so the screen's engine is abstract.
- The extracted copy is written straight to the final path.
- The meta record is written before the copy is validated.
- A failed validation deletes only the model file.
- The C++ stub sends no final delivery after a cancellation, while the Kotlin mock
  does.
- An answer with no words leaves the previous call's text on the screen rather than
  clearing it.

## Model

Paths are relative to the repository root.

| member | source | states |
|---|---|---|
| Diagnostics.TruncateReal | app/src/main/java/com/clickapps/crispify/diagnostics/DiagnosticsManager.kt:195 | a Double's `toLong` rounds toward zero: the result is within one of the value, on the same side of zero |
| Diagnostics.Saturate | app/src/main/java/com/clickapps/crispify/diagnostics/DiagnosticsManager.kt:195 | out-of-range doubles saturate to the bounds; in-range values are unchanged |
| Diagnostics.WrapInt | app/src/main/java/com/clickapps/crispify/diagnostics/DiagnosticsManager.kt:205 | a Long narrowed by `toInt` lands in the Int range, is congruent to the Long modulo 2^32, and is unchanged when it already fits |
| Diagnostics.FindByCode | app/src/main/java/com/clickapps/crispify/diagnostics/DiagnosticsManager.kt:256-258 | `find` returns a listed error carrying the code, or none exactly when no listed error carries it |
| Diagnostics.FromCodeRoundTrip | app/src/main/java/com/clickapps/crispify/diagnostics/DiagnosticsManager.kt:248-258 | `fromCode(e.code) == e` for every error code |
| Diagnostics.FromCodeOther | app/src/main/java/com/clickapps/crispify/diagnostics/DiagnosticsManager.kt:256-258 | every integer that is none of 0, 1001..1004 maps to UNKNOWN |
| Diagnostics.TtftThresholds | app/src/main/java/com/clickapps/crispify/diagnostics/DiagnosticsManager.kt:174-182 | time to first token in ms: Fast iff < 2000, Okay iff 2000 <= t < 4000, Slow iff >= 4000 |
| Diagnostics.TpsThresholds | app/src/main/java/com/clickapps/crispify/diagnostics/DiagnosticsManager.kt:184-192 | tokens/s: Good iff > 50, Acceptable iff in (20, 50], Slow iff <= 20 |
| Diagnostics.MemoryThresholds | app/src/main/java/com/clickapps/crispify/diagnostics/DiagnosticsManager.kt:194-202 | memory in MB: Low iff < 100, Normal iff 100 <= mb < 200, High iff >= 200; a Double below 100 is Low |
| Diagnostics.TtftMonotone | app/src/main/java/com/clickapps/crispify/diagnostics/DiagnosticsManager.kt:174-182 | a slower first token never gets a better rating |
| Diagnostics.RatingExamples | app/src/main/java/com/clickapps/crispify/diagnostics/DiagnosticsManager.kt:174-202 | 2800 ms reads as 2.8 s and is Okay; 45.5 tokens/s is Acceptable; 120 MB is Normal |
| Diagnostics.InterpretRecordedError | app/src/main/java/com/clickapps/crispify/diagnostics/DiagnosticsManager.kt:204-207 | the metric `recordError(e)` stores is interpreted as e's description |
| Diagnostics.Bounded | app/src/main/java/com/clickapps/crispify/diagnostics/DiagnosticsManager.kt:71-76 | the capped store never holds more than 100 metrics |
| Diagnostics.BoundedBelowCap | app/src/main/java/com/clickapps/crispify/diagnostics/DiagnosticsManager.kt:71-76 | below the cap, an offer keeps every entry and appends the new one |
| Diagnostics.BoundedEvictsOldest | app/src/main/java/com/clickapps/crispify/diagnostics/DiagnosticsManager.kt:71-76 | at the cap, an offer evicts exactly the oldest entry and keeps the rest in order |
| Diagnostics.BoundedAppend | app/src/main/java/com/clickapps/crispify/diagnostics/DiagnosticsManager.kt:71-76 | capping after every offer equals capping once after all of them |
| Diagnostics.BoundedFive | app/src/main/java/com/clickapps/crispify/diagnostics/DiagnosticsManager.kt:100-104 | five offers, each capped, store what one capped offer of all five stores |
| Diagnostics.DiagnosticsManager.constructor | app/src/main/java/com/clickapps/crispify/diagnostics/DiagnosticsManager.kt:22-32 | a new manager starts with an empty queue over the given preference store |
| Diagnostics.DiagnosticsManager.SetDiagnosticsEnabled | app/src/main/java/com/clickapps/crispify/diagnostics/DiagnosticsManager.kt:48-57 | the preference is stored; opting out empties the store; opting in leaves it unchanged |
| Diagnostics.DiagnosticsManager.RecordMetric | app/src/main/java/com/clickapps/crispify/diagnostics/DiagnosticsManager.kt:62-77 | when enabled, the store becomes the capped store plus the new metric; when disabled (also when the key is absent) it is unchanged; at most 100 entries are kept |
| Diagnostics.DiagnosticsManager.RecordError | app/src/main/java/com/clickapps/crispify/diagnostics/DiagnosticsManager.kt:82-84 | records an ERROR_CODE metric whose value is the error's code, under the same gate and cap |
| Diagnostics.DiagnosticsManager.RecordProcessingSession | app/src/main/java/com/clickapps/crispify/diagnostics/DiagnosticsManager.kt:90-105 | when enabled, appends exactly INPUT_LENGTH, OUTPUT_LENGTH, TIME_TO_FIRST_TOKEN, TOKENS_PER_SECOND and MEMORY_PEAK_MB with the given values, capped; when disabled it changes nothing |
| Diagnostics.DiagnosticsManager.ClearMetrics | app/src/main/java/com/clickapps/crispify/diagnostics/DiagnosticsManager.kt:110-112 | the store is empty afterwards |
| Diagnostics.DiagnosticsManager.GetStoredMetrics | app/src/main/java/com/clickapps/crispify/diagnostics/DiagnosticsManager.kt:117-119 | returns the stored metrics, oldest first |
| Diagnostics.DiagnosticsManager.ExportMetrics | app/src/main/java/com/clickapps/crispify/diagnostics/DiagnosticsManager.kt:125-167 | the loop over the groups builds exactly the export that `ExportOf` describes |
| Diagnostics.GroupReport | app/src/main/java/com/clickapps/crispify/diagnostics/DiagnosticsManager.kt:142-162 | the loop over one group's metrics builds exactly that group's lines: heading, entries, summary for numeric types, blank |
| Diagnostics.DistinctTypes | app/src/main/java/com/clickapps/crispify/diagnostics/DiagnosticsManager.kt:140 | the group keys are exactly the types present in the store, each listed once |
| Diagnostics.FirstIndex | app/src/main/java/com/clickapps/crispify/diagnostics/DiagnosticsManager.kt:140 | the position of a type's first stored metric: no earlier metric has that type |
| Diagnostics.DistinctTypesInOrder | app/src/main/java/com/clickapps/crispify/diagnostics/DiagnosticsManager.kt:140 | the group keys come in the order of their first occurrence in the store, as `groupBy`'s LinkedHashMap keeps them |
| Diagnostics.OfType | app/src/main/java/com/clickapps/crispify/diagnostics/DiagnosticsManager.kt:140 | a group is no longer than the store |
| Diagnostics.OfTypeMembers | app/src/main/java/com/clickapps/crispify/diagnostics/DiagnosticsManager.kt:140 | a group holds exactly the stored metrics of its type |
| Diagnostics.OfTypeSnoc | app/src/main/java/com/clickapps/crispify/diagnostics/DiagnosticsManager.kt:140 | a later metric joins the end of its own type's group and no other |
| Diagnostics.GroupsPartition | app/src/main/java/com/clickapps/crispify/diagnostics/DiagnosticsManager.kt:140 | grouping partitions the store: the groups' sizes add up to the number of metrics |
| Diagnostics.Entries | app/src/main/java/com/clickapps/crispify/diagnostics/DiagnosticsManager.kt:145-148 | one entry line per metric of the group |
| Diagnostics.EntriesSnoc | app/src/main/java/com/clickapps/crispify/diagnostics/DiagnosticsManager.kt:145-148 | one more metric adds its entry line at the end |
| Diagnostics.Values | app/src/main/java/com/clickapps/crispify/diagnostics/DiagnosticsManager.kt:152 | the summary's values are the group's values as doubles, in order |
| Diagnostics.GroupsLinesSnoc | app/src/main/java/com/clickapps/crispify/diagnostics/DiagnosticsManager.kt:142-162 | one more group appends its lines after the earlier groups' lines |
| Diagnostics.EntryCountGroup | app/src/main/java/com/clickapps/crispify/diagnostics/DiagnosticsManager.kt:142-162 | a group's lines carry one entry per metric of that type |
| Diagnostics.EntryCountGroups | app/src/main/java/com/clickapps/crispify/diagnostics/DiagnosticsManager.kt:142-162 | the entries of several groups add up to their types' metric counts |
| Diagnostics.ExportShape | app/src/main/java/com/clickapps/crispify/diagnostics/DiagnosticsManager.kt:125-164 | the export is "No diagnostics data available." iff the store is empty; otherwise it opens with the title, the time, the metric count and a blank line, and ends with the end marker |
| Diagnostics.ExportListsEveryMetric | app/src/main/java/com/clickapps/crispify/diagnostics/DiagnosticsManager.kt:136-148 | a non-empty export has exactly one entry line per stored metric |
| Diagnostics.ExportFromStore | app/src/main/java/com/clickapps/crispify/diagnostics/DiagnosticsManager.kt:125-167 | every report line is fixed text or is determined by the store: the generation time is `now`, the count is the store's size, each heading names a stored type, each entry renders one stored metric, and each summary holds the average, minimum and maximum of a stored numeric type's values |
| Diagnostics.MinIsLeast | app/src/main/java/com/clickapps/crispify/diagnostics/DiagnosticsManager.kt:155 | the summary minimum is a value of the group and at most every value |
| Diagnostics.MaxIsGreatest | app/src/main/java/com/clickapps/crispify/diagnostics/DiagnosticsManager.kt:156 | the summary maximum is a value of the group and at least every value |
| Diagnostics.AverageBetween | app/src/main/java/com/clickapps/crispify/diagnostics/DiagnosticsManager.kt:154-156 | the average lies between the minimum and the maximum |
| Diagnostics.SummaryConsistent | app/src/main/java/com/clickapps/crispify/diagnostics/DiagnosticsManager.kt:151-160 | a summary line, when present, has Min <= Avg <= Max |
| AssetProvisioning.EncodeAscii | app/src/main/java/com/clickapps/crispify/engine/ModelAssetManager.kt:133 | writing ASCII text as UTF-8 produces one byte per character |
| AssetProvisioning.DecodeText | app/src/main/java/com/clickapps/crispify/engine/ModelAssetManager.kt:53 | reading bytes back produces one character per byte |
| AssetProvisioning.DecodeEncode | app/src/main/java/com/clickapps/crispify/engine/ModelAssetManager.kt:53 | reading back ASCII text that was written returns the text |
| AssetProvisioning.MetaTextAscii | app/src/main/java/com/clickapps/crispify/engine/ModelAssetManager.kt:133 | the meta record is ASCII, so its write/read round trip is exact |
| AssetProvisioning.FieldValue | app/src/main/java/com/clickapps/crispify/engine/ModelAssetManager.kt:56-57 | `substringAfter(":", "").trim()` of a `key: value` line with an unpadded value is the value |
| AssetProvisioning.PathField | app/src/main/java/com/clickapps/crispify/engine/ModelAssetManager.kt:56 | the written path line parses back to the asset path |
| AssetProvisioning.SizeField | app/src/main/java/com/clickapps/crispify/engine/ModelAssetManager.kt:57 | the written size line parses back to the size's decimal text |
| AssetProvisioning.PathLineUnbroken | app/src/main/java/com/clickapps/crispify/engine/ModelAssetManager.kt:133 | the path line holds no line break |
| AssetProvisioning.SizeLineUnbroken | app/src/main/java/com/clickapps/crispify/engine/ModelAssetManager.kt:133 | the size line holds no line break |
| AssetProvisioning.MetaLines | app/src/main/java/com/clickapps/crispify/engine/ModelAssetManager.kt:54-55 | `lineSequence` of the written record is the path line, the size line, and an empty last line |
| AssetProvisioning.MetaFields | app/src/main/java/com/clickapps/crispify/engine/ModelAssetManager.kt:54-57 | the first `assetPath:` and `assetSize:` lines give the path and the size text |
| AssetProvisioning.MetaRoundTrip | app/src/main/java/com/clickapps/crispify/engine/ModelAssetManager.kt:54-57 | parsing the record written for size N gives back the asset path and N, for every N in the Long range |
| AssetProvisioning.FreshMetaNoReplace | app/src/main/java/com/clickapps/crispify/engine/ModelAssetManager.kt:52-66 | a freshly written record, with a file of the known asset length, calls for no replacement |
| AssetProvisioning.NoMetaFile | app/src/main/java/com/clickapps/crispify/engine/ModelAssetManager.kt:53-62 | with no meta file, a replacement is needed iff the asset size is known and the file length differs from it |
| AssetProvisioning.ChangedAssetNeedsReplace | app/src/main/java/com/clickapps/crispify/engine/ModelAssetManager.kt:60 | a record of another positive size than the known asset size forces a replacement |
| AssetProvisioning.UnreadableMetaNeedsReplace | app/src/main/java/com/clickapps/crispify/engine/ModelAssetManager.kt:63-66 | a meta read that throws forces a replacement |
| AssetProvisioning.Clamp | app/src/main/java/com/clickapps/crispify/engine/ModelAssetManager.kt:119 | `coerceIn(0, 1)` lands in [0, 1] and keeps values already there |
| AssetProvisioning.NextTotal | app/src/main/java/com/clickapps/crispify/engine/ModelAssetManager.kt:114-116 | each read before the end copies between 1 and 8192 bytes and never runs past the end; the stream's pick is honoured when it is in that range, and a full-buffer read copies min(8192, remaining) |
| AssetProvisioning.CopyProgressAbove | app/src/main/java/com/clickapps/crispify/engine/ModelAssetManager.kt:114-121 | every later report is at least the current clamped fraction |
| AssetProvisioning.CopyProgressNonDecreasing | app/src/main/java/com/clickapps/crispify/engine/ModelAssetManager.kt:114-121 | the loop's reports never decrease and lie in [0, 1] |
| AssetProvisioning.CopyProgressReachesOne | app/src/main/java/com/clickapps/crispify/engine/ModelAssetManager.kt:114-121 | when the size is the true length, the last read reports exactly 1.0, whatever sizes the reads return |
| AssetProvisioning.ExtractionProgressShape | app/src/main/java/com/clickapps/crispify/engine/ModelAssetManager.kt:106-124 | with the descriptor length or the 200,000,000 fallback and for every sequence of read sizes, a copy's reports are non-decreasing, lie in [0, 1], and end at 1.0 |
| AssetProvisioning.ModelAssetManager.constructor | app/src/main/java/com/clickapps/crispify/engine/ModelAssetManager.kt:36-42 | the manager is over the given files directory, asset and file map |
| AssetProvisioning.ModelAssetManager.PathsDistinct | app/src/main/java/com/clickapps/crispify/engine/ModelAssetManager.kt:41-42 | the model file and the meta file are different paths |
| AssetProvisioning.ModelAssetManager.IsModelValid | app/src/main/java/com/clickapps/crispify/engine/ModelAssetManager.kt:144-174 | valid iff the file exists, is at least 100,000,000 bytes long, and starts with G, G, U, F |
| AssetProvisioning.ModelAssetManager.DeleteModel | app/src/main/java/com/clickapps/crispify/engine/ModelAssetManager.kt:179-186 | removes the model file and no other file |
| AssetProvisioning.ModelAssetManager.GetModelSize | app/src/main/java/com/clickapps/crispify/engine/ModelAssetManager.kt:191-195 | 0 when the model file is absent, its length otherwise |
| AssetProvisioning.ModelAssetManager.IsModelExtracted | app/src/main/java/com/clickapps/crispify/engine/ModelAssetManager.kt:200-204 | true iff a valid model file is at the model path |
| AssetProvisioning.ModelAssetManager.ExtractModelFromAssets | app/src/main/java/com/clickapps/crispify/engine/ModelAssetManager.kt:97-139 | a missing asset fails with "Failed to extract model: …" and touches no file; otherwise the target holds the asset's bytes, the progress is the copy's reports, and the meta record is written unless its write fails |
| AssetProvisioning.ModelAssetManager.CopyAsset | app/src/main/java/com/clickapps/crispify/engine/ModelAssetManager.kt:99-125 | the destination bytes equal the source bytes whatever sizes the stream's reads return, and each read's report is clamp(written / size) |
| AssetProvisioning.ModelAssetManager.ShouldReuse | app/src/main/java/com/clickapps/crispify/engine/ModelAssetManager.kt:50-66 | reuse iff a valid copy exists and `needsReplace` is false |
| AssetProvisioning.ModelAssetManager.RemoveStaleCopy | app/src/main/java/com/clickapps/crispify/engine/ModelAssetManager.kt:73-77 | deletes the stale copy and its meta record and nothing else |
| AssetProvisioning.ModelAssetManager.GetModelPath | app/src/main/java/com/clickapps/crispify/engine/ModelAssetManager.kt:34-92 | the files, result and progress after the call are exactly `Provision` of the files before it |
| AssetProvisioning.ProvisionSuccessValid | app/src/main/java/com/clickapps/crispify/engine/ModelAssetManager.kt:85-91 | a returned path is the model path, and a valid model is there |
| AssetProvisioning.ProvisionInvalidRemoved | app/src/main/java/com/clickapps/crispify/engine/ModelAssetManager.kt:85-88 | a copy that fails validation is deleted and the call fails with "Extracted model validation failed" |
| AssetProvisioning.ProvisionProgress | app/src/main/java/com/clickapps/crispify/engine/ModelAssetManager.kt:68-124 | every successful call reports non-decreasing progress in [0, 1] that ends at 1.0; the fast path reports exactly [1.0] |
| AssetProvisioning.ExtractedCopyReusable | app/src/main/java/com/clickapps/crispify/engine/ModelAssetManager.kt:129-134 | after an extraction whose meta write succeeds, the copy qualifies for reuse |
| AssetProvisioning.SecondCallReuses | app/src/main/java/com/clickapps/crispify/engine/ModelAssetManager.kt:50-71 | after a successful call that wrote its record, a second call takes the fast path: no file changes and the only report is 1.0 |
| Engine.Scaled | app/src/main/java/com/clickapps/crispify/engine/LlamaEngine.kt:51 | scaling reports one value per sub-step report |
| Engine.ScaledRange | app/src/main/java/com/clickapps/crispify/engine/LlamaEngine.kt:49-70 | extraction progress in [0, 1] is reported in [0, 0.5], and load progress in [0.5, 1], in the same order |
| Engine.InitStopsAtProvisioning | app/src/main/java/com/clickapps/crispify/engine/LlamaEngine.kt:84-95 | a provisioning failure emits only 0, then fails with "Model initialization failed: " + its message |
| Engine.InitGoesOnToLoad | app/src/main/java/com/clickapps/crispify/engine/LlamaEngine.kt:56-82 | once the file is provisioned, the outcome is the load's outcome, after 0 and 0.5 are emitted |
| Engine.InitSucceeds | app/src/main/java/com/clickapps/crispify/engine/LlamaEngine.kt:43-82 | succeeds iff provisioning succeeds and the load returns true; success emits exactly [0, 0.5, 1.0] |
| Engine.InitFailureWrapped | app/src/main/java/com/clickapps/crispify/engine/LlamaEngine.kt:73-95 | every failure surfaces as a model-initialization error naming its cause, except an `OutOfMemoryError` of the load, which passes through unwrapped, and exactly then |
| Engine.InitReportedProgress | app/src/main/java/com/clickapps/crispify/engine/LlamaEngine.kt:43-82 | with sub-step progress in order and within [0, 1], all of `onProgress`'s values are in order and within [0, 1] |
| Engine.LlamaEngine.constructor | app/src/main/java/com/clickapps/crispify/engine/LlamaEngine.kt:27-30 | a new engine is not initialized |
| Engine.LlamaEngine.Initialize | app/src/main/java/com/clickapps/crispify/engine/LlamaEngine.kt:36-96 | resets the flag, provisions, then loads; the flag and the library's loaded state end true iff the outcome is success; an exception releases the library exactly once, an `OutOfMemoryError` of the load not at all |
| Engine.LlamaEngine.AfterProvisioning | app/src/main/java/com/clickapps/crispify/engine/LlamaEngine.kt:56-95 | what happens after provisioning answers: outcome, emitted and reported values as `InitOutcome`, `InitEmitted` and `InitReported` say |
| Engine.LlamaEngine.LoadPhase | app/src/main/java/com/clickapps/crispify/engine/LlamaEngine.kt:62-82 | the load's scaled progress, then 1.0 on success; a false return or an exception fails and releases; an `OutOfMemoryError` fails unwrapped without releasing |
| Engine.LlamaEngine.ProcessText | app/src/main/java/com/clickapps/crispify/engine/LlamaEngine.kt:103-125 | refused with IllegalStateException before initialization, without calling the library; otherwise passes on the deliveries unchanged, wraps a library exception as "Failed to process text: …", and lets an `OutOfMemoryError` through |
| Engine.LlamaEngine.CancelProcessing | app/src/main/java/com/clickapps/crispify/engine/LlamaEngine.kt:130-132 | forwards exactly one cancel to the library and changes nothing else |
| Engine.LlamaEngine.IsInitialized | app/src/main/java/com/clickapps/crispify/engine/LlamaEngine.kt:137 | ready only with the flag set and the library loaded; under the engine's invariant, ready iff the flag is set |
| Engine.LlamaEngine.Release | app/src/main/java/com/clickapps/crispify/engine/LlamaEngine.kt:147-150 | clears the flag and releases the library once; `isInitialized` is then false |
| Engine.InitReportsInOrder | app/src/main/java/com/clickapps/crispify/engine/LlamaEngine.kt:49-70 | whatever the files, provisioning's reports keep `onProgress` in order and within [0, 1] for any in-order load |
| Engine.MockLoadInOrder | app/src/main/java/com/clickapps/crispify/engine/LlamaNativeLibrary.kt:98-101 | the development mock's load progress meets `InitReportsInOrder`'s condition |
| NativeLibrary.Stop | app/src/main/java/com/clickapps/crispify/engine/LlamaNativeLibrary.kt:122-126 | the loop runs up to the first flag read that sees a cancel, and no further |
| NativeLibrary.TenthsShape | app/src/main/java/com/clickapps/crispify/engine/LlamaNativeLibrary.kt:98-101 | the values are i/10 for each i in the range, in order |
| NativeLibrary.TenthsProgress | app/src/main/java/com/clickapps/crispify/engine/LlamaNativeLibrary.kt:98-101 | they strictly increase, start at lo/10, end at hi/10, and lie in [0, 1] |
| NativeLibrary.SimplifyNoTargets | app/src/main/java/com/clickapps/crispify/engine/LlamaNativeLibrary.kt:114-117 | a text without "utilize", "implement" or "functionality" is not changed by the substitutions |
| NativeLibrary.AbsentUnchanged | app/src/main/java/com/clickapps/crispify/engine/LlamaNativeLibrary.kt:114-117 | `replace` of an absent pattern is the identity |
| NativeLibrary.MockFinishesOnceFrom | app/src/main/java/com/clickapps/crispify/engine/LlamaNativeLibrary.kt:122-133 | the mock's stream always ends with exactly one finished delivery |
| NativeLibrary.MockText | app/src/main/java/com/clickapps/crispify/engine/LlamaNativeLibrary.kt:122-133 | the delivered text is the tokens streamed before the cancel, joined by single spaces |
| NativeLibrary.MockLengthFrom | app/src/main/java/com/clickapps/crispify/engine/LlamaNativeLibrary.kt:122-133 | one delivery per streamed token, plus one when cancelled |
| NativeLibrary.MockUncancelled | app/src/main/java/com/clickapps/crispify/engine/LlamaNativeLibrary.kt:114-133 | uncancelled, one delivery per split piece of the substituted text; together they spell that text with each whitespace run collapsed to one space; only the last is finished |
| NativeLibrary.MockCancelled | app/src/main/java/com/clickapps/crispify/engine/LlamaNativeLibrary.kt:122-126 | a cancel seen at step k delivers the first k tokens, then exactly one ("", true), then nothing |
| NativeLibrary.MockCancelledLast | app/src/main/java/com/clickapps/crispify/engine/LlamaNativeLibrary.kt:122-126 | the final ("", true) sits right after the k-th token |
| NativeLibrary.MockLlamaNativeLibrary.constructor | app/src/main/java/com/clickapps/crispify/engine/LlamaNativeLibrary.kt:92-94 | a new mock is neither loaded nor cancelled |
| NativeLibrary.MockLlamaNativeLibrary.LoadModel | app/src/main/java/com/clickapps/crispify/engine/LlamaNativeLibrary.kt:96-104 | reports exactly 1/10 .. 10/10, returns true and leaves the model loaded |
| NativeLibrary.MockLlamaNativeLibrary.ProcessText | app/src/main/java/com/clickapps/crispify/engine/LlamaNativeLibrary.kt:106-134 | before a load, fails with "Model not loaded" and delivers nothing; otherwise clears the cancel flag first, so an earlier cancel has no effect, and delivers `MockDeliveries` |
| NativeLibrary.MockLlamaNativeLibrary.StreamTokens | app/src/main/java/com/clickapps/crispify/engine/LlamaNativeLibrary.kt:122-133 | the loop delivers exactly `MockDeliveriesFrom(tokens, cancel, 0)`; the flag ends set iff a cancel was seen |
| NativeLibrary.MockLlamaNativeLibrary.CancelProcessing | app/src/main/java/com/clickapps/crispify/engine/LlamaNativeLibrary.kt:136-138 | sets the cancel flag only |
| NativeLibrary.MockLlamaNativeLibrary.ReleaseModel | app/src/main/java/com/clickapps/crispify/engine/LlamaNativeLibrary.kt:140-142 | the model is no longer loaded |
| NativeLibrary.MockLlamaNativeLibrary.GetMemoryUsage | app/src/main/java/com/clickapps/crispify/engine/LlamaNativeLibrary.kt:146-149 | 100 MiB when loaded, 0 otherwise |
| NativeLibrary.NativeBackend.constructor | app/src/main/java/com/clickapps/crispify/engine/LlamaNativeLibrary.kt:20-56 | a library behind the interface, with the given loaded state and no calls yet |
| NativeLibrary.NativeBackend.LoadModel | app/src/main/java/com/clickapps/crispify/engine/LlamaNativeLibrary.kt:28 | the reported progress and the verdict, exception or `OutOfMemoryError`; loaded iff it returned true |
| NativeLibrary.NativeBackend.ProcessText | app/src/main/java/com/clickapps/crispify/engine/LlamaNativeLibrary.kt:35 | the deliveries, then a return or a throw; counted as one request |
| NativeLibrary.NativeBackend.CancelProcessing | app/src/main/java/com/clickapps/crispify/engine/LlamaNativeLibrary.kt:40 | counted as one cancel request; nothing else changes |
| NativeLibrary.NativeBackend.ReleaseModel | app/src/main/java/com/clickapps/crispify/engine/LlamaNativeLibrary.kt:45 | no longer loaded; counted as one release |
| NativeStub.SimplifyWord | app/src/main/cpp/llama_wrapper.cpp:80-82 | only the whole words "utilize", "implement" and "functionality" are replaced |
| NativeStub.SimplifyWords | app/src/main/cpp/llama_wrapper.cpp:74-85 | each word is simplified on its own, in order |
| NativeStub.StubText | app/src/main/cpp/llama_wrapper.cpp:74-92 | the delivered text is the simplified words seen before the cancel, joined by single spaces |
| NativeStub.StubFinishesOnceFrom | app/src/main/cpp/llama_wrapper.cpp:74-97 | uncancelled, exactly the last delivery is finished |
| NativeStub.StubCancelledNeverFinishes | app/src/main/cpp/llama_wrapper.cpp:95-97 | with a cancel seen by the final check, no delivery is finished |
| NativeStub.StubLast | app/src/main/cpp/llama_wrapper.cpp:94-97 | uncancelled, the stream ends with ("", true) |
| NativeStub.StubUncancelled | app/src/main/cpp/llama_wrapper.cpp:69-97 | uncancelled: the words w1, " ", w2, …, wn, simplified whole-word, then ("", true), finishing exactly once |
| NativeStub.StubCancelled | app/src/main/cpp/llama_wrapper.cpp:74-97 | a cancel seen at check k yields the first k simplified words and no final delivery |
| NativeStub.LlamaWrapper.constructor | app/src/main/cpp/llama_wrapper.cpp:12-23 | a new wrapper is unloaded with no memory in use |
| NativeStub.LlamaWrapper.LoadModel | app/src/main/cpp/llama_wrapper.cpp:32-53 | with a callback, reports 0/10 .. 10/10 in order; then loaded, 100 MiB in use, returns true |
| NativeStub.LlamaWrapper.ProcessText | app/src/main/cpp/llama_wrapper.cpp:55-106 | unloaded: exactly ("", true); loaded: the stream `StubDeliveries` describes; nothing without a callback |
| NativeStub.LlamaWrapper.ReleaseModel | app/src/main/cpp/llama_wrapper.cpp:108-119 | unloaded with no memory in use |
| NativeStub.LlamaWrapper.Destroy | app/src/main/cpp/llama_wrapper.cpp:25-30 | the destructor releases exactly when a model is loaded |
| NativeStub.LlamaWrapper.GetMemoryUsage | app/src/main/cpp/llama_wrapper.cpp:121-127 | memory is in use iff a model is loaded |
| NativeStub.TenthsSnoc | app/src/main/cpp/llama_wrapper.cpp:36-41 | one more turn of the progress loop appends i/10 |
| PromptTemplates.NoPlaceholderUnchanged | app/src/main/java/com/clickapps/crispify/engine/prompt/PromptTemplates.kt:18-20 | a template without `{{INPUT}}` is returned unchanged |
| PromptTemplates.PromptContainsInput | app/src/main/java/com/clickapps/crispify/engine/prompt/PromptTemplates.kt:18-20 | a template with the placeholder yields a prompt containing the input |
| PromptTemplates.PromptLength | app/src/main/java/com/clickapps/crispify/engine/prompt/PromptTemplates.kt:18-20 | the prompt's length is \|template\| + k·(\|input\| − 9), for k non-overlapping left-to-right occurrences |
| PromptTemplates.SubstituteSelf | app/src/main/java/com/clickapps/crispify/engine/prompt/PromptTemplates.kt:18-20 | substituting the placeholder for itself is the identity |
| PromptTemplates.NoPlaceholderLeft | app/src/main/java/com/clickapps/crispify/engine/prompt/PromptTemplates.kt:18-20 | with no '{' in the input nor in the template outside its placeholders, no placeholder is left |
| Preferences.PreferenceStore.Set | app/src/main/java/com/clickapps/crispify/ui/onboarding/FirstLaunchViewModel.kt:115-117 | writes one key and reads it back |
| Onboarding.LastEmitted | app/src/main/java/com/clickapps/crispify/ui/onboarding/FirstLaunchViewModel.kt:89-97 | the last collected value, if any; none exactly when only callback values exist |
| Onboarding.Replay | app/src/main/java/com/clickapps/crispify/ui/onboarding/FirstLaunchViewModel.kt:84-97 | progress is the last value of either kind, loading is `p < 1` of the last collected value, and the error and opt-in fields are untouched |
| Onboarding.OnFailure | app/src/main/java/com/clickapps/crispify/ui/onboarding/FirstLaunchViewModel.kt:98-106 | loading stops, the error is shown as "Failed to initialize AI model: " + message, and the progress stays |
| Onboarding.OnRetry | app/src/main/java/com/clickapps/crispify/ui/onboarding/FirstLaunchViewModel.kt:138-146 | every field except the opt-in goes back to its default |
| Onboarding.CompletedFlowLoaded | app/src/main/java/com/clickapps/crispify/ui/onboarding/FirstLaunchViewModel.kt:89-97 | a flow that ends at 1.0 leaves the model loaded at full progress |
| Onboarding.RetryRecovers | app/src/main/java/com/clickapps/crispify/ui/onboarding/FirstLaunchViewModel.kt:138-147 | a retry whose run completes clears the error and ends loaded at 1.0, keeping the opt-in |
| Onboarding.FailedRetryAtZero | app/src/main/java/com/clickapps/crispify/ui/onboarding/FirstLaunchViewModel.kt:138-147 | a retry whose run throws at once shows the error with the progress at 0 |
| Onboarding.FirstLaunchViewModel.constructor | app/src/main/java/com/clickapps/crispify/ui/onboarding/FirstLaunchViewModel.kt:17-59 | starts from the default state (loading, 0, opt-in false, no error), loads the opt-in, then runs the initializer, whose run completes, throws an exception, or lets an `Error` escape |
| Onboarding.FirstLaunchViewModel.LoadDiagnosticsPreference | app/src/main/java/com/clickapps/crispify/ui/onboarding/FirstLaunchViewModel.kt:64-76 | the opt-in shown is the stored one, false when the key is missing |
| Onboarding.FirstLaunchViewModel.InitializeModel | app/src/main/java/com/clickapps/crispify/ui/onboarding/FirstLaunchViewModel.kt:81-108 | applying the progress values in order and then the run's end gives `InitOutcome`: an exception shows the error screen, an escaping `Error` (which `catch (e: Exception)` does not catch) leaves the state as the progress left it |
| Onboarding.EscapedErrorLeavesLoading | app/src/main/java/com/clickapps/crispify/ui/onboarding/FirstLaunchViewModel.kt:84-107 | an `Error` escaping a run whose collected values stayed below 1.0 is not caught: the state is left as the progress values left it, marked loading with no error, and the `Error` reaches the thread's uncaught-exception handler |
| Onboarding.EngineOutOfMemoryLeavesLoading | app/src/main/java/com/clickapps/crispify/engine/LlamaEngine.kt:84-95 | joined to the engine (FirstLaunchViewModel.kt:98): a model load that runs out of memory escapes the screen's handler; the state is left marked loading with no error, and the `Error` reaches the thread's uncaught-exception handler |
| Onboarding.FirstLaunchViewModel.ToggleDiagnostics | app/src/main/java/com/clickapps/crispify/ui/onboarding/FirstLaunchViewModel.kt:113-122 | stores `diagnostics_enabled = b` and shows b; no other field changes |
| Onboarding.FirstLaunchViewModel.OnDismiss | app/src/main/java/com/clickapps/crispify/ui/onboarding/FirstLaunchViewModel.kt:127-133 | stores `first_launch_complete = true` and leaves the screen's state alone |
| Onboarding.FirstLaunchViewModel.RetryModelInitialization | app/src/main/java/com/clickapps/crispify/ui/onboarding/FirstLaunchViewModel.kt:138-148 | resets the state as `OnRetry` says, then runs the initializer again, with the same three ways for the run to end |
| ProcessScreen.EngineOutcome | app/src/main/java/com/clickapps/crispify/ui/process/ProcessTextViewModel.kt:49-127 | streams iff the engine is (made) ready, the input fits, and it answers; over 1200 is TEXT_TOO_LONG; OUT_OF_MEMORY iff initialization or the engine call ran out of memory; an initialization that throws, and any other refusal, is the generic error |
| ProcessScreen.InitOutOfMemoryReachesScreen | app/src/main/java/com/clickapps/crispify/engine/LlamaEngine.kt:84-95 | joined to the engine's `initialize`: a load that runs out of memory, and exactly that, reaches the screen's OUT_OF_MEMORY handler (ProcessTextViewModel.kt:111-118); every other failed initialization reaches the generic one |
| ProcessScreen.GateBoundary | app/src/main/java/com/clickapps/crispify/ui/process/ProcessTextViewModel.kt:59-60 | counts of 1190 and exactly 1200 reach the engine; 1201 is refused as too long |
| ProcessScreen.CleanedIgnoresTail | app/src/main/java/com/clickapps/crispify/ui/process/ProcessTextViewModel.kt:78-80 | everything from the first "### End" on is dropped, and the rest is trimmed |
| ProcessScreen.CleanedOneWord | app/src/main/java/com/clickapps/crispify/ui/process/ProcessTextViewModel.kt:78-83 | a single word without '#' is its own cleaned answer and its only streamed word |
| ProcessScreen.CleanedUnpadded | app/src/main/java/com/clickapps/crispify/ui/process/ProcessTextViewModel.kt:78-80 | an unpadded text without '#' is left as it is by cleaning |
| ProcessScreen.OneWordSplit | app/src/main/java/com/clickapps/crispify/ui/process/ProcessTextViewModel.kt:83 | a text without whitespace splits into itself |
| ProcessScreen.StreamWords | app/src/main/java/com/clickapps/crispify/ui/process/ProcessTextViewModel.kt:83 | no streamed word is empty |
| ProcessScreen.Throughput | app/src/main/java/com/clickapps/crispify/ui/process/ProcessTextViewModel.kt:99-101 | 0 when the elapsed time is <= 0; otherwise tokens·1000 / elapsed; never negative |
| ProcessScreen.MemoryMb | app/src/main/java/com/clickapps/crispify/ui/process/ProcessTextViewModel.kt:97 | whole MiB, truncated: mb·2^20 <= bytes < (mb+1)·2^20 |
| ProcessScreen.BuilderStep | app/src/main/java/com/clickapps/crispify/ui/process/ProcessTextViewModel.kt:85-89 | appending a word (after a space unless empty) keeps the builder the join of the words so far, which is a prefix of the full join |
| ProcessScreen.JoinExtend | app/src/main/java/com/clickapps/crispify/ui/process/ProcessTextViewModel.kt:87-88 | the builder is empty exactly when it holds no word, so the space rule yields single-space joins |
| ProcessScreen.Failed | app/src/main/java/com/clickapps/crispify/ui/process/ProcessTextViewModel.kt:111-127 | every catch stops processing, shows its message and keeps the text |
| ProcessScreen.Settled | app/src/main/java/com/clickapps/crispify/ui/process/ProcessTextViewModel.kt:83-127 | a finished call is never processing, and shows no error iff the engine's answer was streamed |
| ProcessScreen.StaleJobOverwritesSuccess | app/src/main/java/com/clickapps/crispify/ui/process/ProcessTextViewModel.kt:119-127 | on a screen built without a diagnostics manager, a successful "Done." screen turns into the generic error when the superseded job resumes as written; with a manager it stays |
| ProcessScreen.ProcessTextViewModel.constructor | app/src/main/java/com/clickapps/crispify/ui/process/ProcessTextViewModel.kt:23-34 | starts idle with empty text, no error and no job |
| ProcessScreen.ProcessTextViewModel.ProcessText | app/src/main/java/com/clickapps/crispify/ui/process/ProcessTextViewModel.kt:40-43 | a new job becomes current and the screen shows processing with no error |
| ProcessScreen.ProcessTextViewModel.Reject | app/src/main/java/com/clickapps/crispify/ui/process/ProcessTextViewModel.kt:111-127 | ends the job, records the error code when diagnostics are on, and shows the message |
| ProcessScreen.ProcessTextViewModel.RunEngine | app/src/main/java/com/clickapps/crispify/ui/process/ProcessTextViewModel.kt:49-81 | the engine is asked once with the templated prompt iff the call gets that far; a refusal ends the job as `EngineOutcome` says, and an answer is held cleaned |
| ProcessScreen.ProcessTextViewModel.Admit | app/src/main/java/com/clickapps/crispify/ui/process/ProcessTextViewModel.kt:51-69 | initializes first, then gates the raw input (not the prompt) at 1200; an initialization that runs out of memory records OUT_OF_MEMORY, one that throws PROCESSING_FAILED; the flag is set iff the engine was or became ready |
| ProcessScreen.ProcessTextViewModel.Hold | app/src/main/java/com/clickapps/crispify/ui/process/ProcessTextViewModel.kt:78-84 | keeps the cleaned answer and its words, with nothing revealed yet |
| ProcessScreen.ProcessTextViewModel.Append | app/src/main/java/com/clickapps/crispify/ui/process/ProcessTextViewModel.kt:85-90 | publishes the next word; what is published is always a prefix of the final text |
| ProcessScreen.ProcessTextViewModel.Finish | app/src/main/java/com/clickapps/crispify/ui/process/ProcessTextViewModel.kt:93-109 | ends idle with no error showing the words joined by single spaces, and records the five session metrics, the lengths counted in UTF-16 code units |
| ProcessScreen.ProcessTextViewModel.ResumeSuperseded | app/src/main/java/com/clickapps/crispify/ui/process/ProcessTextViewModel.kt:41-42 | a superseded job ends without touching the screen or the store |
| ProcessScreen.ProcessTextViewModel.ResumeSupersededAsWritten | app/src/main/java/com/clickapps/crispify/ui/process/ProcessTextViewModel.kt:119-127 | as written, the cancellation is caught as an Exception; with a diagnostics manager the suspending `recordError` (line 120) rethrows it and nothing changes, without one the generic error is shown and nothing is recorded |
| ProcessScreen.ProcessTextViewModel.StreamToEnd | app/src/main/java/com/clickapps/crispify/ui/process/ProcessTextViewModel.kt:84-109 | the streaming loop ends idle with all words joined by single spaces, and records the session with UTF-16 lengths |
| ProcessScreen.RunToEnd | app/src/main/java/com/clickapps/crispify/ui/process/ProcessTextViewModel.kt:49-128 | a launched job run to its end leaves the screen as `Settled` says |
| ProcessScreen.ProcessUndisturbed | app/src/main/java/com/clickapps/crispify/ui/process/ProcessTextViewModel.kt:40-128 | one uninterrupted call settles the screen as `Settled` says, and the engine sees at most the one templated prompt |
| Text.SubstringBefore | app/src/main/java/com/clickapps/crispify/ui/process/ProcessTextViewModel.kt:79 | a prefix of the text that ends at the first delimiter, or the whole text; it never holds the delimiter |
| Text.IndexOf | app/src/main/java/com/clickapps/crispify/ui/process/ProcessTextViewModel.kt:79 | the first occurrence of the pattern, or none exactly when the pattern does not occur |
| Text.SubstringAfter | app/src/main/java/com/clickapps/crispify/engine/ModelAssetManager.kt:56-57 | the text after the first occurrence of the delimiter, or the fallback when it does not occur |
| Text.FirstStartingWith | app/src/main/java/com/clickapps/crispify/engine/ModelAssetManager.kt:54-55 | the first line with the prefix, or none exactly when no line has it |
| Text.ToLongOrNull | app/src/main/java/com/clickapps/crispify/engine/ModelAssetManager.kt:57 | a parsed number always lies in the Long range |
| Text.FilterNonEmpty | app/src/main/java/com/clickapps/crispify/ui/process/ProcessTextViewModel.kt:83 | keeps only non-empty pieces, all taken from the input |
| Text.Utf16Length | app/src/main/java/com/clickapps/crispify/ui/process/ProcessTextViewModel.kt:104-105 | Kotlin's `length`: between one and two code units per character, and one per character exactly when no character lies outside the Basic Multilingual Plane |
| Text.Utf16LengthConcat | app/src/main/java/com/clickapps/crispify/ui/process/ProcessTextViewModel.kt:104-105 | the UTF-16 length of a concatenation is the sum of the lengths |
| Text.Utf16LengthOfEmoji | app/src/main/java/com/clickapps/crispify/ui/process/ProcessTextViewModel.kt:104-105 | an emoji is one character but two UTF-16 code units |
| Text.Trim | app/src/main/java/com/clickapps/crispify/ui/process/ProcessTextViewModel.kt:80 | no whitespace at either end; empty only for all-whitespace texts |
| Text.TrimPadded | app/src/main/java/com/clickapps/crispify/ui/process/ProcessTextViewModel.kt:80 | trimming strips exactly the surrounding whitespace |
| Text.FilterRegexSplit | app/src/main/java/com/clickapps/crispify/ui/process/ProcessTextViewModel.kt:83 | the non-empty pieces of `split(Regex("\\s+"))` are the whitespace-separated words |
| Text.JoinPrefix | app/src/main/java/com/clickapps/crispify/ui/process/ProcessTextViewModel.kt:85-89 | joining the first k words is a prefix of joining all of them |
| Text.JoinRegexSplit | app/src/main/java/com/clickapps/crispify/engine/LlamaNativeLibrary.kt:119 | rejoining the split pieces with single spaces collapses each whitespace run to one space |
| Text.LongRoundTrip | app/src/main/java/com/clickapps/crispify/engine/ModelAssetManager.kt:57 | `toLongOrNull` reads back every Long printed in decimal |
| Text.LinesOfTwo | app/src/main/java/com/clickapps/crispify/engine/ModelAssetManager.kt:54 | two unbroken lines, each ended by "\n", split into the two lines and an empty last one |
| Text.ReplaceFromLength | app/src/main/java/com/clickapps/crispify/engine/prompt/PromptTemplates.kt:19 | each replaced occurrence changes the length by \|replacement\| − \|pattern\| |

## Left out

- The Compose UI and the activities are not part of this model: rendering, intents and the clipboard.
- The JNI glue (`crispify_jni.cpp`, `token_callback.cpp`) and `LlamaNativeLibraryImpl` are not modelled. They are `external` natives and JNIEnv handling.
- The token counter is a parameter `count: string -> nat` with `count("") == 0`, because JTokkit's CL100K_BASE encoding cannot be seen. The model keeps the limit of 1200.
- `loadLevelingTemplate` is not modelled; it is resource I/O. The template is a parameter.
- The engine's `getMemoryUsage` is not modelled: it forwards to the library. The screen takes the byte count as a parameter.
- The `ModelDiagnostics` record is not modelled; nothing in the core uses it.
- Concurrency is not modelled: coroutines, dispatchers, `@Volatile`, the thread safety of `ConcurrentLinkedQueue`, and `Thread.sleep`/`delay`.
  - Calls are sequential.
  - A screen job advances one suspension point at a time.
  - A concurrent cancel is the `Cancel` oracle.
- Floating point: progress, tokens per second and averages are exact `real`s, not IEEE floats or doubles.
- `MetricType.format` and `SimpleDateFormat` are left out. Report lines carry the values; the time is the `now` parameter.
- Clocks (`System.currentTimeMillis`) are parameters.
- Onboarding.EscapedErrorLeavesLoading and Onboarding.EngineOutOfMemoryLeavesLoading: state only the screen state an uncaught `Error` leaves behind. What happens after it, its delivery to the thread's uncaught-exception handler and the process ending, is not modelled.
- Diagnostics.DiagnosticsManager.RecordProcessingSession: gives the five metrics one timestamp `now`, while each `recordMetric` reads the clock afresh; in the model the five timestamps are equal.
- An `OutOfMemoryError` during provisioning (extraction or validation) is not modelled; only the library's load and generation can run out of memory.
- Unicode is simplified:
  - the meta file is treated as ASCII;
  - `readText` maps a non-ASCII byte to U+FFFD, one character per byte, rather than decoding UTF-8;
  - `\s` is the ASCII whitespace set;
  - `Char.isWhitespace` covers the Latin-1 and common Unicode spaces the model lists;
  - strings are sequences of code points; the lengths recorded as metrics are counted in UTF-16 code units (`Utf16Length`), but other Kotlin indices (`indexOf`, `substring`) are taken over code points.
- The descriptor length of the asset is its content length, or −1 when the asset is missing or its descriptor length is unknown (`lengthKnown` false).
- Disk failures other than the meta read and the meta write are not modelled: directory creation, the write of the copy, and `delete`.
- The onboarding screen reads the preference once. Later emissions of the DataStore flow are not modelled.
- The screen's engine is abstract, as "answers a text, throws an OutOfMemoryError, or throws another exception". The call signature in `ProcessTextViewModel` does not match `LlamaEngine.processText`.
- `StreamToEnd`, `RunToEnd` and `ProcessUndisturbed` describe a call that no newer call supersedes. Interleavings are described by the single-step methods instead.
- AssetProvisioning.SecondCallReuses: requires the asset to be at most `Long.MAX_VALUE` bytes long, because the meta record's size is parsed with `toLongOrNull`.
- AssetProvisioning.ExtractedCopyReusable: requires the same `Long.MAX_VALUE` bound on the asset's length.
- NativeStub.LlamaWrapper.GetMemoryUsage: requires the wrapper's invariant (memory is in use exactly when a model is loaded), which every other member keeps.
- Engine.LlamaEngine.IsInitialized: states "ready iff initialized" only under the engine's invariant (initialized implies loaded), which every member keeps.
- ProcessScreen.MemoryMb: takes a non-negative byte count, since the library never reports a negative one.

## Findings

| source | as written | input that shows it | evidently intended | confidence | as-written member | corrected member |
|---|---|---|---|---|---|---|
| app/src/main/java/com/clickapps/crispify/ui/process/ProcessTextViewModel.kt:119-127 | `catch (e: Exception)` also catches the `CancellationException` of a job superseded by `currentJob?.cancel()` (line 41). On a screen built with the constructor's default `diagnosticsManager = null` (line 28), nothing records the error and the handler shows "An error occurred. Please try again." over the newer call's state. With a manager, the suspending `recordError` rethrows the cancellation first and nothing changes | a screen without a diagnostics manager: call A suspends in the engine call; call B answers "Done." and finishes; A resumes, is cancelled, its catch runs, and the screen becomes `UiState(false, "Done.", Some(GENERIC_MESSAGE))` | a superseded job ends silently and leaves the newer call's screen alone | low, not executed | ProcessScreen.ProcessTextViewModel.ResumeSupersededAsWritten, ProcessScreen.StaleJobOverwritesSuccess | ProcessScreen.ProcessTextViewModel.ResumeSuperseded |
