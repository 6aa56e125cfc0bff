# Block workshop session logic, modelled in Dafny

This project models the session and data logic of a 3D massing workshop. In the workshop a user arranges rectangular
blocks, which are stacks of levels with a footprint, position, rotation and program. The user can undo and redo
edits, load and save `.tbk` model files, pull surrounding buildings from a map service, and compare scenario
options. Every part is modelled as immutable datatypes with pure state-transformer functions. Methods are used only
where the source has a loop worth proving against its functional definition.

| file | models |
|---|---|
| `types.dfy` | blocks, partial block updates and saved models (`src/shared/types.ts`, legacy `types/blocks.ts`) |
| `wrappers.dfy`, `seqs.dfy` | `Option`/`Result`, and sequence filtering with subsequence laws |
| `js_values.dfy` | the untrusted JavaScript values the parsers receive: finite or non-finite numbers, `JSON.parse` output, truthiness |
| `text_parse.dfy` | the digit-and-point subset of `parseFloat`, `parseInt(_, 10)` and `String(n)` |
| `blocks_store.dfy`, `blocks_history_laws.dfy` | the undo/redo block store and the laws that relate its operations |
| `blocks_page.dfy` | the blocks page: transform records and their own undo stack, model validation, duplication, the level stepper |
| `context_store.dfy` | the surrounding-buildings store and the parsing of a map-service response |
| `context_prep.dfy` | turning [lat, lon] footprints into local rings with counters, a cap and resolved heights |
| `tbk.dfy` | the context part of the `.tbk` archive: what is written, and what is read back |
| `scenarios_store.dfy` | the scenario comparison list of at most three options |
| `metrics_calc.dfy`, `unit_conversion.dfy` | floor-area totals and metric/imperial conversion |
| `legacy_*.dfy` | the legacy prototype: its store with base-26 names and a drag snapshot, its units, metrics and block card |

The model follows the code, including where its behaviour may be unexpected:
- The current store's `removeBlock` has no last-block guard. The guard exists only as a disabled button.
- Default block names in the current store are one character code after "A". They do not roll over to "AA".
- A footprint with fewer than three points, or with a non-finite point, is rejected by the conversion itself. It is
  therefore counted as `skippedOther`, and the `skippedTooFewPoints` and `skippedNaN` counters never move.
- The jitter of an inferred height is the factor `0.9 + 0.2 * noise`, which lies in [0.7, 1.1].
- The selection is an ordered list, and an additive selection appends at the end.
- The legacy `updateBlock` reindexes after merging, so a `name` in the update is overwritten by the positional name.
- A building cap of 0 still admits one building, because the loops push before they test the cap.

## Model

| member | source | states |
|---|---|---|
| BlocksStore.DefaultNameChar | src/shared/stores/blocksStore.ts:32-46 | the first 26 default names are the capitals "A" to "Z", in order |
| BlocksHistoryLaws.DefaultNamesDoNotWrap | src/shared/stores/blocksStore.ts:32-46 | index 26 is named "Block [", not "Block AA", and the name repeats after 65536 indices |
| BlocksStore.EnsureRotation | src/shared/stores/blocksStore.ts:48-53 | all three rotations end up present: an absent one becomes 0 and a present one is kept. No other field changes, and a block that already has all three is returned unchanged |
| BlocksStore.Normalize | src/shared/stores/blocksStore.ts:58-61 | snapshotting the blocks keeps their number, their order and their ids, and leaves every block with its rotations filled in |
| BlocksStore.NormalizeIdempotent | src/shared/stores/blocksStore.ts:48-53 | normalizing twice gives the same list as normalizing once |
| BlocksStore.NormalizeFixesNormalized | src/shared/stores/blocksStore.ts:48-53 | a list whose rotations are all present is already normalized |
| BlocksStore.PushPast | src/shared/stores/blocksStore.ts:56-67 | the current snapshot goes on top of the past and the older entries are kept, minus the oldest once there are 50. A past within 50 entries stays within 50 |
| BlocksStore.Initial | src/shared/stores/blocksStore.ts:69-75 | a new store holds exactly `defaultBlock(0)` with the given id, selected, in metric units, with empty stacks, and is well-formed |
| BlocksStore.AddBlock | src/shared/stores/blocksStore.ts:76-80 | a default block with the next index goes last, the units and the selection stay, and the change is recorded |
| BlocksStore.UpdateBlock | src/shared/stores/blocksStore.ts:81-85 | only blocks with the id are merged with the changes, and order and length are kept. An unknown id leaves the blocks equal but is still recorded |
| BlocksStore.RemoveBlock | src/shared/stores/blocksStore.ts:86-91 | no block and no selection entry keeps the id. Everything else survives as an order-preserving subsequence, and the removal is recorded |
| BlocksHistoryLaws.RemovingTheOnlyBlockEmptiesTheStore | src/shared/stores/blocksStore.ts:86-91 | removing the only block leaves the store with no blocks |
| BlocksStore.SetUnits | src/shared/stores/blocksStore.ts:92-96 | only the units change. A silent change leaves the history alone and any other change is recorded |
| BlocksStore.ResetBlocks | src/shared/stores/blocksStore.ts:97-110 | both stacks are emptied. A model's units and normalized blocks are loaded, with the first id selected if it is non-empty; without a model there is one default metric block |
| BlocksHistoryLaws.ResetWithoutModelIsInitial | src/shared/stores/blocksStore.ts:108-109 | resetting without a model gives exactly the store as created |
| BlocksHistoryLaws.SaveThenLoadRoundTrip | src/shared/stores/blocksStore.ts:97-119 | loading a saved model restores the live units and the live blocks with rotations filled in (exactly the live blocks when they were already filled), with empty stacks and the first block selected |
| BlocksStore.GetModelSnapshot | src/shared/stores/blocksStore.ts:111-119 | the saved model carries the live units, the live blocks with `ensureRotation` applied (the same list an undo snapshot stores) and the given timestamp |
| BlocksStore.SelectBlock | src/shared/stores/blocksStore.ts:120-133 | no id clears the selection, and a plain select gives exactly that id. An additive select of a present id removes only that id, keeping every other selected id in order; an absent id is appended. Blocks and history never change |
| BlocksHistoryLaws.ToggleTwiceRestores | src/shared/stores/blocksStore.ts:120-133 | toggling an unselected id twice gives back the original selection |
| BlocksStore.ClearSelection | src/shared/stores/blocksStore.ts:134 | the selection becomes empty and nothing else changes |
| BlocksStore.KeepPresent | src/shared/stores/blocksStore.ts:135-150 | the filtered selection holds exactly the entries that name a present block, in their original order |
| BlocksStore.Undo | src/shared/stores/blocksStore.ts:135-150 | with an empty past nothing changes. Otherwise the newest past entry becomes live, the live state goes to the front of the future (capped at 50), and the selection is filtered to the restored blocks |
| BlocksStore.Redo | src/shared/stores/blocksStore.ts:151-166 | the mirror of undo: it takes the front of the future, pushes the live state onto the past, and keeps the newest 50 entries of the past, so at the cap the oldest entry is dropped |
| BlocksStore.ApplyBatch | src/shared/stores/blocksStore.ts:167-186 | a draft equal to the live units and blocks changes nothing and records nothing. Any other draft is loaded as the mutator returned it, recorded once, and the future is cleared |
| BlocksHistoryLaws.IdentityBatchIsNoOp | src/shared/stores/blocksStore.ts:167-186 | a batch that edits nothing on a normalized store leaves it exactly as it was |
| BlocksHistoryLaws.IdentityBatchRecordsWhenRotationMissing | src/shared/stores/blocksStore.ts:167-186 | if some rotation is absent, even a batch that edits nothing records an undo step |
| BlocksHistoryLaws.RecordingKeepsValid | src/shared/stores/blocksStore.ts:56-67 | any recording step keeps both stacks within 50 entries and every stored snapshot normalized |
| BlocksHistoryLaws.OperationsKeepValid | src/shared/stores/blocksStore.ts:76-186 | every store operation preserves well-formedness |
| BlocksHistoryLaws.UndoKeepsValid | src/shared/stores/blocksStore.ts:135-150 | undo preserves well-formedness |
| BlocksHistoryLaws.RedoKeepsValid | src/shared/stores/blocksStore.ts:151-166 | redo preserves well-formedness |
| BlocksHistoryLaws.UndoAfterRecording | src/shared/stores/blocksStore.ts:135-150 | undoing a recorded change restores the units and the normalized blocks from before it, and the past as it was when that was under the cap |
| BlocksHistoryLaws.RedoAfterUndo | src/shared/stores/blocksStore.ts:135-166 | redo after undo restores the units, the normalized blocks and the past. It restores the future when that was under the cap, and leaves a subsequence of the selection |
| BlocksHistoryLaws.UndoAfterRedo | src/shared/stores/blocksStore.ts:135-166 | undo after redo restores the units, the normalized blocks and the future, and restores the past when that was under the cap |
| BlocksPage.PickTransformState | src/modules/blocks/BlocksPage.tsx:25-30 | the pose copies the position and the yaw, with an absent yaw read as 0 |
| BlocksPage.TransformChangeLaws | src/modules/blocks/BlocksPage.tsx:32-33 | the change test is false exactly when the positions and the defaulted yaws agree. It is irreflexive and symmetric, and an absent yaw equals a zero yaw |
| BlocksPage.PickIgnoresRotationDefaults | src/modules/blocks/BlocksPage.tsx:25-33 | filling in rotations does not change the picked pose |
| BlocksPage.CaptureTransformStart | src/modules/blocks/BlocksPage.tsx:91-95 | the start pose is recorded only for a found block that is not already the active one. The stacks never change |
| BlocksPage.FinalizeTransformRecord | src/modules/blocks/BlocksPage.tsx:97-108 | a record is pushed, and the redo stack cleared, exactly when the active block matches and its pose changed. The active drag is always cleared |
| BlocksPage.UndoLast | src/modules/blocks/BlocksPage.tsx:110-116 | an empty stack changes nothing. Otherwise the top record moves to the redo stack, its block gets the old pose, and that block is selected |
| BlocksPage.RedoLast | src/modules/blocks/BlocksPage.tsx:118-124 | the mirror of undoLast, applying the record's new pose |
| BlocksPage.UndoLastThenRedoLast | src/modules/blocks/BlocksPage.tsx:110-124 | after undoLast the record's block shows its old pose. After redoLast as well, both stacks are back as they were and the block stands at its new pose |
| BlocksPage.PurgeStaleRecords | src/modules/blocks/BlocksPage.tsx:186-190 | exactly the records whose block still exists are kept, in order, on both stacks |
| BlocksPage.OnTransform | src/modules/blocks/BlocksPage.tsx:213-225 | an unknown block changes nothing. Otherwise the new pose is written to the block, and a record is pushed exactly when the active drag on it changed the pose |
| BlocksPage.FindBlock | src/modules/blocks/BlocksPage.tsx:215 | the position found is the first block with the id, and there is none exactly when no block has it |
| BlocksPage.CheckBlocks | src/modules/blocks/BlocksPage.tsx:592-594 | the block list passes exactly when every entry has a truthy id and a string name |
| BlocksPage.ValidateTBK | src/modules/blocks/BlocksPage.tsx:588-595 | a model is accepted exactly when it has schema version 1, metric or imperial units, and valid block entries. A null model fails with a TypeError, and a wrong schema version fails with its own message before any other check |
| BlocksPage.DuplicateBlock | src/modules/blocks/BlocksPage.tsx:369-383 | one block is added, carrying the source's fields with the new id, the name plus " copy", x and z moved by 2, and a yaw defaulted to 0. Earlier blocks are kept |
| BlocksPage.DuplicateTakesTwoUndoSteps | src/modules/blocks/BlocksPage.tsx:369-383 | one undo leaves the default block the duplicate started from, and a second undo restores the list as it was |
| BlocksPage.StepLevel | src/modules/blocks/BlocksPage.tsx:817-820 | the stepped level count stays in [1, 60]. It is the plain sum inside that range and the nearer bound outside it |
| ContextStore.Initial | src/shared/stores/contextStore.ts:30-36 | a new store has no centre, radius 100, idle status and a consistent building count |
| ContextStore.SetCenter | src/shared/stores/contextStore.ts:37 | only the centre changes |
| ContextStore.SetRadiusM | src/shared/stores/contextStore.ts:38 | only the radius changes |
| ContextStore.ClearContext | src/shared/stores/contextStore.ts:39-48 | every data field returns to its initial value and the controller is left as it was |
| ContextStore.CancelFetch | src/shared/stores/contextStore.ts:49-53 | the controller is dropped, the status is idle, the error is "Cancelled" and the key is cleared. Centre, radius and buildings are kept |
| ContextStore.UpdatesKeepConsistent | src/shared/stores/contextStore.ts:37-53 | every update keeps the count equal to the number of buildings, and clearing twice is clearing once |
| ContextStore.NodePoint | src/shared/stores/contextStore.ts:133 | a node with numeric lat and lon gives a finite two-entry point |
| ContextStore.ParseGeometry | src/shared/stores/contextStore.ts:128-137 | a non-array gives nothing. Otherwise the result is the points of the nodes with numeric coordinates, in order, but only when there are at least three |
| ContextStore.ParseHeight | src/shared/stores/contextStore.ts:139-146 | missing tags or a falsy height give nothing. Otherwise the value is the parse of the tag with everything but digits and points removed, which is never negative |
| ContextStore.KeptDecimalIsUnsigned | src/shared/stores/contextStore.ts:142 | text made of digits and points has no sign, so its parse is non-negative |
| ContextStore.ParseLevels | src/shared/stores/contextStore.ts:148-155 | missing tags or falsy levels give nothing. Otherwise the value is exactly what `parseInt` of the tag's string gives, and nothing when that fails |
| ContextStore.TagsParseBack | src/shared/stores/contextStore.ts:139-155 | a height and a level count written as plain numbers parse back to those numbers |
| ContextStore.ParseElement | src/shared/stores/contextStore.ts:112-123 | an element becomes a building exactly when it is truthy, has geometry, is a way or relation, and has at least three parsed points. Its id is "type/id" |
| ContextStore.ParseOverpassBuildings | src/shared/stores/contextStore.ts:108-126 | no elements gives no buildings and count 0, a string gives none, and any other non-array throws. For an array the buildings are exactly those of the elements in order, the count equals their number, and each building comes from an element of the input |
| ContextStore.ParseElements | src/shared/stores/contextStore.ts:111-124 | every element that parses contributes its building, and every building comes from some element; order and multiplicity are given by `ParseElementsInOrder` |
| ContextStore.ParseElementsInOrder | src/shared/stores/contextStore.ts:111-124 | no elements give no buildings, and one more element appends its building at the end exactly when it parses |
| ContextStore.ParsedFootprints | src/shared/stores/contextStore.ts:115 | every parsed building has a footprint of at least three points |
| TextParse.ParseFloat | src/shared/stores/contextStore.ts:142 | a number is read only from text that contains a digit |
| TextParse.ParseInt | src/shared/stores/contextStore.ts:151 | a number is read only from text that contains a digit |
| TextParse.KeepDecimalChars | src/shared/stores/contextStore.ts:142 | the filtered text holds only digits and points, and keeps every digit and point of the input |
| TextParse.ParseIntOfNatToString | src/shared/stores/contextStore.ts:151 | `parseInt` reads a rendered natural number back exactly |
| TextParse.ParseFloatOfNatToString | src/shared/stores/contextStore.ts:142 | `parseFloat` reads a rendered natural number back exactly |
| ContextPrep.At | src/shared/context/prepareContextPayload.ts:128-131 | an entry that exists is read as is, and reading past the end of a point gives a non-finite value |
| ContextPrep.SwapPoint | src/shared/context/prepareContextPayload.ts:117-127 | a swapped point is the pair of the original's second and first entries; `SwapPointTwice` and `SwappedPointProjectsAsLatLon` say what that transposition preserves |
| ContextPrep.SwapPointTwice | src/shared/context/prepareContextPayload.ts:123-125 | swapping twice gives back the point's first two entries |
| ContextPrep.SwappedPointProjectsAsLatLon | src/shared/context/prepareContextPayload.ts:119-133 | a [lon, lat] point, once swapped, projects to the same local point as [lat, lon] |
| ContextPrep.Oriented | src/shared/context/prepareContextPayload.ts:117-127 | every point is transposed when one of the first two is out of range, and none otherwise |
| ContextPrep.ProjectionIsInvertible | src/shared/context/prepareContextPayload.ts:128-137 | with a non-zero cosine the local point determines the original lat and lon |
| ContextPrep.ConvertFootprintToLocal | src/shared/context/prepareContextPayload.ts:109-144 | a conversion exists exactly when the footprint has at least three points that all project. The ring is the projected points, with the first appended exactly when it is more than 0.01 from the last on some axis |
| ContextPrep.PolygonAreaLoop | src/shared/context/prepareContextPayload.ts:150-158 | the accumulating loop computes the shoelace area of the ring |
| ContextPrep.ReversedRingNegatesArea | src/shared/context/prepareContextPayload.ts:150-158 | reversing a ring negates its signed area, so the degenerate-area test does not depend on orientation |
| ContextPrep.ResolveBuildingHeight | src/shared/context/prepareContextPayload.ts:99-107 | a finite height is used as is, otherwise finite levels times 3.2, otherwise there is no height |
| ContextPrep.Clamp | src/shared/context/prepareContextPayload.ts:180-182 | the result never exceeds the upper bound and is within the bounds when they are ordered. A value inside the range is returned unchanged and one outside gives the nearer bound |
| ContextPrep.Sort | src/shared/context/prepareContextPayload.ts:160-162 | the sorted samples are ascending and a permutation of the input |
| ContextPrep.MedianWithinSamples | src/shared/context/prepareContextPayload.ts:160-168 | the median lies between some sample below it and some sample above it |
| ContextPrep.Utf16 | src/shared/context/prepareContextPayload.ts:170-178 | a character becomes one code unit below U+10000 and a surrogate pair above it, each unit below 0x10000 |
| ContextPrep.HashLoop | src/shared/context/prepareContextPayload.ts:170-176 | the 32-bit loop equals the hash defined over the code units |
| ContextPrep.SeededNoise | src/shared/context/prepareContextPayload.ts:170-178 | the noise is a deterministic function of the seed and lies in [-1, 1] |
| ContextPrep.InferredHeightBounds | src/shared/context/prepareContextPayload.ts:79-86 | with noise in [-1, 1] an inferred height lies between 0.7 and 1.1 times the fallback |
| ContextPrep.FinalHeight | src/shared/context/prepareContextPayload.ts:82-94 | every output height lies in [6, 80]. An explicit height is only clamped and never jittered |
| ContextPrep.Classify | src/shared/context/prepareContextPayload.ts:46-73 | a building is never skipped as too short or non-finite, and an accepted one keeps its id and its resolved height |
| ContextPrep.ClassifyFollowsConversion | src/shared/context/prepareContextPayload.ts:47-61 | a building counts in skippedOther exactly when its conversion fails, and a swap is counted exactly when the conversion transposed it |
| ContextPrep.TallyPartitions | src/shared/context/prepareContextPayload.ts:46-73 | each building looked at is counted in exactly one of validCount and the skip counters |
| ContextPrep.ImpossibleSkipsStayZero | src/shared/context/prepareContextPayload.ts:28-36 | the too-short and non-finite counters stay 0 |
| ContextPrep.StopPoint | src/shared/context/prepareContextPayload.ts:72 | the scan looks at every building, unless the accepted count reaches the cap, and then it stops right after that building |
| ContextPrep.StopPointUnique | src/shared/context/prepareContextPayload.ts:72 | no other position has the stop point's properties |
| ContextPrep.HeightSamples | src/shared/context/prepareContextPayload.ts:79 | there are no more samples than accepted buildings |
| ContextPrep.BuildPayload | src/shared/context/prepareContextPayload.ts:82-94 | there is one mesh per accepted building, in order, with its id and ring |
| ContextPrep.ScanBuildings | src/shared/context/prepareContextPayload.ts:46-73 | the loop keeps the accepted buildings and counts the verdicts up to the stop point |
| ContextPrep.StopTallyBounds | src/shared/context/prepareContextPayload.ts:46-73 | up to the stop point the valid count is within the cap, and the valid and skip counters add up to the number of buildings looked at |
| ContextPrep.PrepareContextPayload | src/shared/context/prepareContextPayload.ts:22-97 | no centre or no buildings gives no payload and zero counters. Otherwise validCount is the payload length and within the cap, the counters add up to inputCount when the cap is not reached, and every height lies in [6, 80] |
| Tbk.ArchiveFiles | src/shared/utils/tbk.ts:9-16 | the archive always holds the model file first, and holds the context file exactly when there is a context with a centre and buildings |
| Tbk.PairPoint | src/shared/utils/tbk.ts:66-68 | a kept point becomes its first two entries, as finite numbers with the same values |
| Tbk.PairPointIgnoresTail | src/shared/utils/tbk.ts:64-68 | entries after the first two do not affect the kept point |
| Tbk.SanitizePoints | src/shared/utils/tbk.ts:64-69 | the kept points are exactly the arrays of at least two finite entries, in order, cut to two entries |
| Tbk.NumberField | src/shared/utils/tbk.ts:74-75 | a field is kept exactly when it is a number |
| Tbk.SanitizeEntry | src/shared/utils/tbk.ts:62-76 | every kept entry has a string id, at least three finite points, and only numeric heights and levels |
| Tbk.SanitizeEntryKeeps | src/shared/utils/tbk.ts:62-76 | an entry is kept exactly when it is truthy, has a string id and an array footprint, and yields at least three points |
| Tbk.SanitizedEntries | src/shared/utils/tbk.ts:61-76 | without a cap the surviving entries are no more than the input, and each is sanitized |
| Tbk.SanitizedStep | src/shared/utils/tbk.ts:61-76 | looking at one more entry appends its sanitized form exactly when it survives |
| Tbk.SanitizedEntriesAreSurvivors | src/shared/utils/tbk.ts:61-76 | without a cap the result is exactly the sanitized forms of the surviving entries, in input order |
| Tbk.SanitizeBuildings | src/shared/utils/tbk.ts:59-80 | the output is a prefix of the surviving entries, at most the cap long, and is all of them when the cap is not reached |
| Tbk.SanitizeBuildingsLoop | src/shared/utils/tbk.ts:59-80 | the loop with its early break computes that capped prefix |
| Tbk.ParseContextFile | src/shared/utils/tbk.ts:43-57 | a file parses exactly when it is an object with the schema version, a numeric centre, a numeric radius and a building array. Source defaults to "tbk" and fetchedAt to nothing |
| Tbk.ParseReadsFields | src/shared/utils/tbk.ts:43-57 | an object with well-typed fields parses to the context those fields spell |
| Tbk.EntriesRoundTrip | src/shared/utils/tbk.ts:59-80 | sanitizing the written form of sanitized buildings gives them back |
| Tbk.ContextFileRoundTrip | src/shared/utils/tbk.ts:43-80 | a context with a centre and at most the cap of sanitized buildings survives being written and read back |
| ScenariosStore.Initial | src/shared/stores/scenariosStore.ts:58-60 | the list starts empty, with nothing selected |
| ScenariosStore.AddOption | src/shared/stores/scenariosStore.ts:61-68 | a full list is left alone. Otherwise the option goes last and is selected, and the bound of three holds |
| ScenariosStore.ReplaceOption | src/shared/stores/scenariosStore.ts:69-73 | length and order are kept, only entries with the id are replaced, and the new option's id is selected even when nothing matched |
| ScenariosStore.ReplaceAbsentKeepsOptions | src/shared/stores/scenariosStore.ts:69-74 | replacing an absent id is the same as selecting the new id |
| ScenariosStore.ReplaceAfterAdd | src/shared/stores/scenariosStore.ts:61-73 | adding an option and then replacing it by id is the same as adding the replacement |
| ScenariosStore.SelectOption | src/shared/stores/scenariosStore.ts:74 | the id is selected without checking it is in the list |
| ScenariosStore.DefaultOption | src/shared/stores/scenariosStore.ts:15-56 | the demo option is a two-block metric model whose metrics are computed from it |
| ScenariosStore.DemoMetrics | src/shared/stores/scenariosStore.ts:15-56 | the demo option totals 4650 m² over 16 levels: 2400 m² mixed use and 2250 m² residential |
| ScenariosStore.SeedIfEmpty | src/shared/stores/scenariosStore.ts:75-82 | an empty list gets the demo option, selected, and any other list is untouched |
| ScenariosStore.SeedIfEmptyIdempotent | src/shared/stores/scenariosStore.ts:75-82 | seeding twice is seeding once, whatever the second call draws |
| ScenariosStore.OperationsKeepBound | src/shared/stores/scenariosStore.ts:61-82 | no operation takes the list past three options |
| MetricsCalc.Tally | src/shared/utils/metrics.ts:9-16 | the accumulation equals the reference sums of levels and of converted floor area, with a key exactly for each program in use |
| MetricsCalc.ComputeMetrics | src/shared/utils/metrics.ts:4-24 | the model's units are kept, and the totals equal the reference sums. An empty model gives zero totals and an empty map |
| MetricsCalc.UnusedProgramHasNoArea | src/shared/utils/metrics.ts:13-14 | a program no block uses has no floor area |
| MetricsCalc.ProgramAreasSumToTotal | src/shared/utils/metrics.ts:13-14 | the per-program areas add up to the total floor area |
| UnitConversion.ToMeters | src/shared/utils/units.ts:5-7 | metric values are unchanged, and an imperial value is the metres that times 3.28084 give the feet |
| UnitConversion.ToFeet | src/shared/utils/units.ts:9-11 | imperial values are unchanged, and a metric value is the feet that divided by 3.28084 give the metres |
| UnitConversion.SquareValue | src/shared/utils/units.ts:13-15 | metric areas are unchanged, and imperial areas are divided by the factor squared |
| UnitConversion.AreaSuffix | src/shared/utils/units.ts:17-18 | the suffix is "ft²" exactly for imperial and "m²" exactly for metric |
| UnitConversion.MetersFeetRoundTrip | src/shared/utils/units.ts:5-11 | converting metres to feet and back, or feet to metres and back, gives the value again |
| UnitConversion.SquareValueIsProductOfLengths | src/shared/utils/units.ts:5-15 | converting an area is converting both of its sides |
| LegacyStore.Label | legacy/blocks-prototype/src/store/blocks.ts:8-18 | every label has at least one letter |
| LegacyStore.FormatBlockNameLoop | legacy/blocks-prototype/src/store/blocks.ts:8-18 | the prepending loop computes the bijective base-26 name |
| LegacyStore.ParseFormatRoundTrip | legacy/blocks-prototype/src/store/blocks.ts:8-18 | every name reads back as its index |
| LegacyStore.FormatParseRoundTrip | legacy/blocks-prototype/src/store/blocks.ts:8-18 | every name that reads back is the name of the index it reads back as |
| LegacyStore.FormatBlockNameInjective | legacy/blocks-prototype/src/store/blocks.ts:8-18 | distinct indices get distinct names |
| LegacyStore.FormatBlockNameExamples | legacy/blocks-prototype/src/store/blocks.ts:8-18 | 0, 25, 26 and 702 are named "Block A", "Block Z", "Block AA" and "Block AAA" |
| LegacyStore.Reindex | legacy/blocks-prototype/src/store/blocks.ts:38-42 | every block is named after its position, and nothing but the name changes |
| LegacyStore.ReindexNamedIsIdentity | legacy/blocks-prototype/src/store/blocks.ts:38-42 | reindexing blocks already named by position changes nothing |
| LegacyStore.CreateBlock | legacy/blocks-prototype/src/store/blocks.ts:20-34 | a new block has the given id and the name of its index |
| LegacyStore.Initial | legacy/blocks-prototype/src/store/blocks.ts:77-84 | the store starts with exactly `createBlock(0)` with the given id, selected, in metric units and translate mode, with empty stacks and no snapshot |
| LegacyStore.WithHistory | legacy/blocks-prototype/src/store/blocks.ts:70-75 | the previous blocks go on top of the past, and the future and the pending snapshot are cleared |
| LegacyStore.FirstIndex | legacy/blocks-prototype/src/store/blocks.ts:96-97 | the position found is the first block with the id, and there is none exactly when no block has it |
| LegacyStore.KeepOrFirst | legacy/blocks-prototype/src/store/blocks.ts:133 | the selection is kept while its block is present, and otherwise moves to a present block whenever there is one |
| LegacyStore.AddBlock | legacy/blocks-prototype/src/store/blocks.ts:85-93 | a new block goes last, every block is named by position, the new block is selected, and the change is recorded |
| LegacyStore.DuplicateBlock | legacy/blocks-prototype/src/store/blocks.ts:94-109 | an unknown id changes nothing. Otherwise a copy with the new id, identical but for its name, goes right after the source and is selected |
| LegacyStore.InsertAfter | legacy/blocks-prototype/src/store/blocks.ts:103 | the element lands right after position i and every other element keeps its relative place |
| LegacyStore.UpdateBlock | legacy/blocks-prototype/src/store/blocks.ts:110-118 | the payload is merged into the matching blocks, names follow positions, the selection stays, and the change is recorded |
| LegacyStore.UpdateBlockLive | legacy/blocks-prototype/src/store/blocks.ts:119-122 | the payload is merged into the matching blocks without renaming, and nothing but the blocks changes |
| LegacyStore.Without | legacy/blocks-prototype/src/store/blocks.ts:129 | the id is gone and every other block survives, as an order-preserving subsequence |
| LegacyStore.RemoveBlock | legacy/blocks-prototype/src/store/blocks.ts:123-135 | a single block cannot be removed. Otherwise the remaining blocks are renamed by position, or replaced by a fresh first block, and the selection is kept or moves to the first block |
| LegacyStore.SetUnits | legacy/blocks-prototype/src/store/blocks.ts:136-139 | only the units change, with no history; the early return for equal units is the same state |
| LegacyStore.SelectBlock | legacy/blocks-prototype/src/store/blocks.ts:140 | only the selection changes, to any id or none, with no membership check |
| LegacyStore.SetTransformMode | legacy/blocks-prototype/src/store/blocks.ts:141 | only the transform mode changes |
| LegacyStore.StartSnapshot | legacy/blocks-prototype/src/store/blocks.ts:142-146 | a pending snapshot is kept, and otherwise the current blocks become the snapshot |
| LegacyStore.CommitSnapshot | legacy/blocks-prototype/src/store/blocks.ts:147-155 | with nothing pending nothing changes. Otherwise the snapshot goes on top of the past and the future is cleared |
| LegacyStore.Undo | legacy/blocks-prototype/src/store/blocks.ts:156-172 | a pending snapshot is folded into the past, dropping the future. The top of the past becomes live, the live blocks go on the future, and the selection is kept or moves to the first block |
| LegacyStore.Redo | legacy/blocks-prototype/src/store/blocks.ts:173-185 | the newest future entry becomes live and the live blocks go on the past |
| LegacyHistoryLaws.InitialIsValid | legacy/blocks-prototype/src/store/blocks.ts:77-84 | the initial store never shows or restores an empty list |
| LegacyHistoryLaws.EditsKeepValid | legacy/blocks-prototype/src/store/blocks.ts:85-135 | add, duplicate, update, live update and remove never leave the store without blocks or store an empty list |
| LegacyHistoryLaws.HistoryKeepsValid | legacy/blocks-prototype/src/store/blocks.ts:136-185 | the snapshot, undo, redo and view operations keep that invariant |
| LegacyHistoryLaws.UndoKeepsValid | legacy/blocks-prototype/src/store/blocks.ts:156-172 | undo keeps that invariant |
| LegacyHistoryLaws.RedoKeepsValid | legacy/blocks-prototype/src/store/blocks.ts:173-185 | redo keeps that invariant |
| LegacyHistoryLaws.UndoRedoSelectPresentBlock | legacy/blocks-prototype/src/store/blocks.ts:156-185 | on a valid store an effective undo or redo always selects a block that is present |
| LegacyHistoryLaws.UndoRevertsEdit | legacy/blocks-prototype/src/store/blocks.ts:70-75 | undoing a recorded edit restores the blocks and the past, and leaves the edit as the only redo step |
| LegacyHistoryLaws.UndoRevertsOperations | legacy/blocks-prototype/src/store/blocks.ts:85-135 | one undo reverts each effective add, duplicate, update or remove |
| LegacyHistoryLaws.UndoFoldsPendingSnapshot | legacy/blocks-prototype/src/store/blocks.ts:156-172 | undo with a pending snapshot is the same as committing it first and then undoing |
| LegacyHistoryLaws.StartSnapshotIdempotent | legacy/blocks-prototype/src/store/blocks.ts:142-146 | starting a snapshot twice is starting it once |
| LegacyHistoryLaws.LiveUpdatesKeepHistory | legacy/blocks-prototype/src/store/blocks.ts:119-122 | any sequence of live updates leaves both stacks and the pending snapshot untouched |
| LegacyHistoryLaws.UndoRevertsDrag | legacy/blocks-prototype/src/store/blocks.ts:142-172 | a whole drag (start, live updates, commit) is one undo step that restores the blocks and the past |
| LegacyHistoryLaws.RedoAfterUndo | legacy/blocks-prototype/src/store/blocks.ts:156-185 | redo after undo restores the blocks and both stacks |
| LegacyHistoryLaws.UndoAfterRedo | legacy/blocks-prototype/src/store/blocks.ts:156-185 | undo after redo restores the blocks and both stacks |
| LegacyUnits.LengthLabel | legacy/blocks-prototype/src/lib/units.ts:6-9 | the label is "m" exactly for metric and "ft" exactly for imperial |
| LegacyUnits.AreaLabel | legacy/blocks-prototype/src/lib/units.ts:11-14 | the label is "m²" exactly for metric and "ft²" exactly for imperial |
| LegacyUnits.ToDisplayUnits | legacy/blocks-prototype/src/lib/units.ts:16-17 | metric is unchanged, and imperial is the feet that divided by 3.28084 give the metres |
| LegacyUnits.FromDisplayUnits | legacy/blocks-prototype/src/lib/units.ts:19-20 | metric is unchanged, and imperial is the metres that times 3.28084 give the feet |
| LegacyUnits.ToDisplayArea | legacy/blocks-prototype/src/lib/units.ts:22-23 | metric is unchanged, and imperial areas are scaled by the factor squared |
| LegacyUnits.DisplayRoundTrip | legacy/blocks-prototype/src/lib/units.ts:16-20 | showing and reading back, in either order, gives the value again |
| LegacyUnits.DisplayAreaIsProductOfLengths | legacy/blocks-prototype/src/lib/units.ts:3-23 | the shown area of a rectangle is the product of its shown sides |
| LegacyMetrics.ZeroRecord | legacy/blocks-prototype/src/lib/metrics.ts:9-15 | all five programs are keys, each starting at 0 |
| LegacyMetrics.CalculateMetrics | legacy/blocks-prototype/src/lib/metrics.ts:11-29 | the record always has all five programs |
| LegacyMetrics.EmptyIsZero | legacy/blocks-prototype/src/lib/metrics.ts:11-29 | no blocks gives zero totals and a zero record |
| LegacyMetrics.AppendAddsToOwnProgram | legacy/blocks-prototype/src/lib/metrics.ts:20-26 | appending a block adds its floor area to the total and to its own program only, and its levels to the level total |
| LegacyMetrics.AgreesWithMetricTotals | legacy/blocks-prototype/src/lib/metrics.ts:11-29 | the legacy totals equal the current application's reference sums on a metric model |
| LegacyMetrics.ProgramsSumToTotal | legacy/blocks-prototype/src/lib/metrics.ts:20-26 | the five program entries add up to the total floor area |
| LegacyBlockCard.LengthPatch | legacy/blocks-prototype/src/components/blocks/block-card.tsx:93 | a length update touches neither the id nor the levels |
| LegacyBlockCard.LengthPatchSetsOneField | legacy/blocks-prototype/src/components/blocks/block-card.tsx:93 | merging a length update sets that field and leaves every other field alone |
| LegacyBlockCard.UpdateDraft | legacy/blocks-prototype/src/components/blocks/block-card.tsx:74-76 | the key gets the typed text and every other draft is kept |
| LegacyBlockCard.ClearDraft | legacy/blocks-prototype/src/components/blocks/block-card.tsx:78-84 | the key is gone and every other draft is kept |
| LegacyBlockCard.CommitLength | legacy/blocks-prototype/src/components/blocks/block-card.tsx:86-95 | blank or "-" clears the draft without an update. Text that does not parse keeps the draft. A number is stored in metres and its draft cleared |
| LegacyBlockCard.Round | legacy/blocks-prototype/src/components/blocks/block-card.tsx:104 | the rounded value is the integer within half a unit, with halves rounding up |
| LegacyBlockCard.LevelCount | legacy/blocks-prototype/src/components/blocks/block-card.tsx:104 | the level count is a whole number of at least 1, the nearest integer from 0.5 up |
| LegacyBlockCard.CommitCount | legacy/blocks-prototype/src/components/blocks/block-card.tsx:97-106 | the same guards as commitLength, storing a whole level count of at least 1 |
| LegacyBlockCard.Rerender | legacy/blocks-prototype/src/components/blocks/block-card.tsx:68-70 | a new block id or new units drop every draft, and the same props keep the card as it was |
| LegacyBlockCard.TypeThenCommitShowsNumber | legacy/blocks-prototype/src/components/blocks/block-card.tsx:86-140 | typing a number into a length field and committing it makes the field show that number again |
| LegacyBlockCard.UnparsableTextStays | legacy/blocks-prototype/src/components/blocks/block-card.tsx:86-140 | text that does not parse is neither stored nor lost, and the field keeps showing it |
| LegacyBlockCard.SwitchShowsStoredValues | legacy/blocks-prototype/src/components/blocks/block-card.tsx:68-140 | after switching block or units every length field shows the stored value |

## Left out

- Rendering, the 3D scene, picking and camera control: these are not part of this model.
- The group transform: none of the modelled files has multi-block group transform code, so nothing of it is modelled.
- `fetchContext` and `buildOverpassQuery` (network, `AbortController`): not modelled. The store keeps only whether it holds a controller, and the abort call itself is not modelled.
- The zip and text-decoding I/O of `createTBKArchive` and `parseTBKFile`: only the inclusion predicate and `parseContextFile` are modelled.
- Exporters, page JSX, form widgets, `buildScenarioOption`, and the enabling of the card's remove button: UI glue, not modelled.
- `buildTransformState` (unit conversion through a missing `fromMeters`, and `toFixed` rounding): not modelled. `BlocksPage.OnTransform` takes the converted pose as a parameter.
- `Math.cos` of the centre latitude is the parameter `cosLat`. The `toFixed(6)` of coordinates and of the default seed is the parameter `round6` and the string `defaultSeed`. `String(value)` of a JSON value is the parameter `show`, and `toFixed(2)` in the card is `fixed2`.
- `MAX_CONTEXT_BUILDINGS` and `CONTEXT_SCHEMA_VERSION` are not defined in the modelled files: both are parameters (`cap`, `schemaVersion`).
- Fresh ids (`nanoid`, `crypto.randomUUID`) and clock readings are parameters.
- Numbers are reals. Double rounding, overflow and `-0` are not modelled. NaN and the infinities are one `NonFinite` value, because no modelled operation tells them apart.
- `formatArea`: only the suffix is modelled. `Math.round(value).toLocaleString()` is locale-dependent formatting.
- TextParse.ParseFloat: exponents, the word `Infinity` and non-ASCII whitespace are not modelled, and the contract states only that a parse needs a digit. Exact agreement is proved for plain natural numbers.
- TextParse.ParseInt: the same subset as `parseFloat`. Its contract is weaker in the same way.
- BlocksStore.DefaultNameChar: for indices that land on a UTF-16 surrogate code unit the model yields U+FFFD, because a Dafny `char` cannot hold a lone surrogate. The contract states the letters for indices below 26 only.
- ContextPrep.Median: no contract of its own. `MedianWithinSamples` bounds it by the samples, but which middle element or mean it picks is not stated.
- BlocksHistoryLaws.RedoAfterUndo: the future is restored only when it held fewer than 50 entries, because undo caps it at 50.
- BlocksStore.ApplyBatch: the no-change test compares `JSON.stringify` output, which depends on key order. The model compares values structurally, so two drafts that differ only in key order count as equal here.
- `deepClone` and `cloneBlocks` are identities, because Dafny values are immutable.
