# groove core, modelled in Dafny

groove is a query-analysis pipeline for systematic-review Boolean queries. This project models
four pieces of its sequential logic and proves properties of them:

- **Feature encoding and training lines** (`learning/feature.go`, module `LearningFeature`). This
  covers the fixed feature-id numbering and the encoders for context, keyword, Boolean and
  transformation features. It also covers measurement deltas and the `Features.String`,
  LIBSVM and LIBSVM^rank writers. The writers sort the feature slice in place (an `array`) and
  drop repeated ids. Last come the value-style `Append` operations that grow a query's lineage.
- **The older rewrite feature set** (`rewrite/feature.go`, module `RewriteFeature`). Its ids
  start at 0 and its QPP features are filled by index. `String` does not sort, the writers sort
  but keep repeated ids, and the rank writer numbers features from one. Its `Feature`, `Set`,
  `AverageScore`, `TransformedQuery`, `Append` and `NewTransformedQuery` are the same as in
  the learning package (rewrite/feature.go:15-23, 64-67, 140-155, 165-177), so the module reuses
  the `LearningFeature` members.
- **The QuickRank candidate selector** (`learning/ltr_quickrank.go`, module `QuickRank`). This
  covers the argument map turned into flags, the line written per candidate, and the depth
  counter after a ranking step. It also covers `StoppingCriteria` and the constructor with its
  options. The binary, its pipes, the temporary file and the ranking it returns are inputs
  (`SelectIo`).
- **The pipeline** (`pipeline.go`, module `Groove`). This covers component dispatch in
  `NewGroovePipeline`. It also covers `Execute`: load, the per-query preprocessing fold, the
  complexity sort, the measurement matrix and its formatters, the evaluation gate, the
  Generate/Train/Test sequence and `Done`. Every collaborator's outcome is a field of `Oracle`.
  `Execute` is proved to send exactly `Trace(p, o, sorted)`, the results channel as a sequence.

Shared modules:
- `Results` holds `Error`, `Option`, `Result` and `Collect`. `Collect` is the "run each step, stop at the first
  error" loop.
- `Queries` holds the parts of the query trees and the statistics source that the core reads.
- `Text` holds `%v` of integers, concatenation and `strings.Contains`.
- `Sorting` holds `sort.Sort` as an in-place selection sort by key and `set.Uniq` as an in-place
  keep-first-of-each-run. It also holds the `Deduplicated` predicate, which states what the
  writers print.

Go's `%v` of a `float64` is the parameter `show`. Scores are `real`.

Points where the code is easy to misread, and what the model does:
- A delta is pre − post (learning/feature.go:209).
- The retrieval-size check runs on the current query, not on the chosen candidate
  (learning/ltr_quickrank.go:114).
- The topic written in each QuickRank line (`query.Topic`, learning/ltr_quickrank.go:55) is not
  a field of the `CandidateQuery` shown in learning/feature.go:110-115, so `Select` takes it as a
  parameter.

`QuickRank.Select` and `Groove.Execute` follow the corrected behaviour recorded under
"## Findings": `Select` compares the texts of the two queries, and `Execute` labels each data
column with the name of the query measured in it. The code as written is modelled beside them.

The cqr, stats, analysis, preprocess, output, eval and combinator packages are not part of this
model. Their values are datatypes with only the parts the core reads, or opaque ids and oracle
outcomes. The xtgo/set library's source is not part of this model either: `Sorting.Uniq`
follows the behaviour of its `set.Uniq`, which keeps the first element of each run of equal ids
at the front and returns how many there are.

## Model

| member | source | states |
|---|---|---|
| LearningFeature.Feature.Set | learning/feature.go:24-27 | the copy has the new score and keeps the id |
| LearningFeature.MeasurementFeatureKeys | learning/feature.go:66-78 | the keys are exactly the eleven measurement names; the i-th name maps to id 18 + i |
| LearningFeature.FeatureLayout | learning/feature.go:31-81 | with distinct names: 11 entries, the ids are injective and lie in 18..28, their deltas in 29..39, all above the structural ids and below ChainFeatures = 41 |
| LearningFeature.ContextFeatures | learning/feature.go:178-185 | exactly depth, clause type and children count under ids 1, 2, 3 |
| LearningFeature.KeywordFeatures | learning/feature.go:117-148 | exactly ids 14, 15, 16; each flag is 0 if the key is absent, 2 if its value is boolean true and 1 otherwise (each an if-and-only-if); the third is the number of fields |
| LearningFeature.BooleanFeatures | learning/feature.go:150-176 | one feature with id 17: 1 or/OR, 2 and/AND, 3 not/NOT, 4 for another operator containing "adj", 0 otherwise (each an if-and-only-if) |
| LearningFeature.UpperCaseAdjacencyIsUnknown | learning/feature.go:167-170 | every operator with no lower-case 'a' other than or, OR, not, NOT and AND ("ADJ", "ADJ3", ...) encodes as 0 |
| LearningFeature.UpperCaseAdj3IsUnknown | learning/feature.go:167-170 | the operator "ADJ3" encodes as 0 |
| LearningFeature.AdjacencyFamily | learning/feature.go:167-170 | every operator starting with lower-case "adj" encodes as 4 |
| LearningFeature.TransformationFeature | learning/feature.go:224-239 | id 4, score within 0..5, and 0 exactly for an unknown transformer |
| LearningFeature.TransformationFeatureInjective | learning/feature.go:226-237 | distinct known transformer kinds get distinct features |
| LearningFeature.Deltas | learning/feature.go:188-205 | an executor error is returned as is; otherwise failure exactly when some name is unregistered, with the error of the first such name; on success the ids are exactly those of the names and each id maps to the value of the last measurement with that id |
| LearningFeature.CalcDelta | learning/feature.go:207-212 | pre − post when post has the id, 0 otherwise |
| LearningFeature.ComputeDeltas | learning/feature.go:214-221 | one feature per pre-transformation key, each key visited exactly once in some order, with id key + 11 and score CalcDelta; independently of the order, every key's delta feature is in the result and every result feature is the delta of the key 11 below its id |
| LearningFeature.DeltaIdsDistinct | learning/feature.go:214-221 | the delta ids are pairwise distinct and each is a pre key shifted by 11 |
| LearningFeature.FeaturesString | learning/feature.go:242-251 | "0 " then `id:score ` for the kept features; they are an in-place sorted, deduplicated prefix: ids strictly ascending, every input id exactly once, each kept feature taken from the input; the array stays a permutation |
| LearningFeature.WriteLibSVM | learning/feature.go:254-270 | Scores[0], ` id:score` per deduplicated ascending id, ` #` and ` c` per comment only when comments are given, then a newline; the array is left a permutation of itself whose prefix is exactly the printed features; requires a score |
| LearningFeature.WriteLibSVMRank | learning/feature.go:273-284 | Scores[0] ` qid:`Topic, the deduplicated pairs with ids as they are, and always ` # ` Comment and a newline; the array is left a permutation of itself whose prefix is exactly the printed features |
| LearningFeature.NewLearntFeature | learning/feature.go:305-309 | keeps the features and leaves scores, topic and comment empty |
| LearningFeature.AverageScore | learning/feature.go:287-302 | 0 for no features; otherwise average × count equals the exact sum (a zero total gives 0 as well) |
| LearningFeature.AverageWithinBounds | learning/feature.go:287-302 | the average lies between any lower and upper bound of the scores |
| LearningFeature.TransformedQuery.Append | learning/feature.go:312-316 | the chain grows by one with the old current query last, and the argument becomes current |
| LearningFeature.NewTransformedQuery | learning/feature.go:319-324 | the argument is current and the given chain is the history |
| LearningFeature.AppendAllHistory | learning/feature.go:312-316 | after several appends the old chain is a prefix, followed by the old current query and every appended query but the last, which is current |
| LearningFeature.CandidateQuery.SetTransformationID | learning/feature.go:336-339 | only the transformation id changes |
| LearningFeature.CandidateQuery.Append | learning/feature.go:343-355 | the chain is the parent's chain plus the parent; the features are the receiver's followed by ChainFeatures + i with ancestor i's transformation id; query and transformation id kept |
| LearningFeature.ChainPositionFeatures | learning/feature.go:346-350 | one feature per ancestor, ids strictly ascending from ChainFeatures |
| LearningFeature.NewCandidateQuery | learning/feature.go:327-333 | keeps query and features, transformation id −1, empty chain |
| Sorting.SortBy | learning/feature.go:243 | the array ends ordered by id and is a permutation of what it was |
| Sorting.Swap | learning/feature.go:92 | exchanges two elements and nothing else |
| Sorting.Uniq | learning/feature.go:244 | on sorted input the prefix it returns is the first element of each run of equal ids, and the array stays a permutation |
| Sorting.SortUnique | learning/feature.go:243-245 | the returned prefix is deduplicated in the sense above, and the array stays a permutation |
| Sorting.DedupDeduplicates | learning/feature.go:244-245 | keeping the first of each run of a sorted sequence is deduplicated |
| Sorting.EveryIdExactlyOnce | learning/feature.go:243-249 | every input id is printed, and only once |
| Sorting.DeduplicatedIdsDetermined | learning/feature.go:243-245 | which ids are printed, and in which order, does not depend on the unstable sort |
| Sorting.DeduplicatedOfDistinct | learning/feature.go:243-245 | when no id repeats, the printed features are fully determined |
| Sorting.SortedOfDistinctUnique | rewrite/feature.go:111 | when no id repeats, an unstable sort has only one outcome |
| Text.IntToString | learning/feature.go:248 | decimal digits, with a leading '-' exactly for negative ids |
| Text.NatToStringValue | learning/feature.go:248 | the digits written for a number denote that number |
| Text.NatToStringInjective | learning/feature.go:248 | distinct numbers are written differently |
| Text.IntToStringValue | learning/feature.go:248 | an int is written as its sign and the decimal digits of its magnitude |
| Text.IntToStringInjective | rewrite/feature.go:128-133 | distinct ids and topics are written differently |
| Text.ConcatLoop | learning/feature.go:247-249 | the loop's output is the renderings joined in order |
| Text.ConcatAppend | learning/feature.go:259-266 | rendering a concatenation concatenates the renderings |
| Text.Contains | learning/feature.go:168 | true exactly when the substring occurs at some position |
| RewriteFeature.ContextFeatures | rewrite/feature.go:75-81 | exactly depth, clause type and children count under ids 0, 1, 2 |
| RewriteFeature.QPPFeatures | rewrite/feature.go:84-98 | an executor error is returned with no features; otherwise exactly five features, the i-th with id 8 + i and the i-th executor value |
| RewriteFeature.ContextAndQPPDisjoint | rewrite/feature.go:25-44 | context ids and QPP ids of a candidate are strictly ascending and never collide |
| RewriteFeature.String | rewrite/feature.go:101-107 | `id:score ` per feature in slice order, with no sorting and no prefix |
| RewriteFeature.NewLearntFeature | rewrite/feature.go:157-162 | keeps the score and the features |
| RewriteFeature.WriteLibSVM | rewrite/feature.go:110-124 | sorts in place keeping repeated ids; Score, ` id:score` per feature, the comment block only when comments are given, a newline |
| RewriteFeature.WriteLibSVMRank | rewrite/feature.go:127-137 | sorts in place; Score ` qid:`topic, ` (id+1):score` per feature, always ` # ` comment and a newline |
| RewriteFeature.RankNumbersPositive | rewrite/feature.go:130-133 | every id of the numbering is written as a positive number |
| RewriteFeature.WrittenLineDetermined | rewrite/feature.go:111-115 | with no repeated id, the line does not depend on how the unstable sort ordered the array |
| RewriteFeature.NewCandidateQuery | rewrite/feature.go:180-185 | keeps the query and the features |
| QuickRank.Inc64 | learning/ltr_quickrank.go:125 | Go's `++` on a 64-bit int: one more, wrapping at the top |
| QuickRank.Selector.StoppingCriteria | learning/ltr_quickrank.go:187-189 | true exactly when currentDepth ≥ depth |
| QuickRank.MakeArguments | learning/ltr_quickrank.go:27-37 | length 2·\|map\|; every key visited exactly once, in some order; `--key` at an even index and its rendered value right after it |
| QuickRank.FlagInjective | learning/ltr_quickrank.go:32 | distinct keys give distinct flags |
| QuickRank.EachKeyOnce | learning/ltr_quickrank.go:27-37 | each key occurs as exactly one flag at an even position, followed by its value |
| QuickRank.NewQuickRankQueryCandidateSelector | learning/ltr_quickrank.go:191-217 | binary and arguments kept, currentDepth 0, depth 5 unless a MaxDepth option is given, otherwise the last one; no statistics source unless one is given, otherwise the last one |
| QuickRank.Advance | learning/ltr_quickrank.go:114-131 | everything but currentDepth is unchanged; the new currentDepth of each case is stated by ZeroResultsStop, FixedPointStops and OrdinaryStepCounts |
| QuickRank.ZeroResultsStop | learning/ltr_quickrank.go:118-122 | a step on a query without results sets currentDepth to depth and stops the search |
| QuickRank.FixedPointStops | learning/ltr_quickrank.go:125-129 | a fixed-point step sets currentDepth to MaxInt32, so it stops the search exactly when depth ≤ MaxInt32 |
| QuickRank.OrdinaryStepCounts | learning/ltr_quickrank.go:125 | an ordinary step adds exactly one |
| QuickRank.StopsAfterDepthSteps | learning/ltr_quickrank.go:187-189 | from 0, after k ≤ depth ordinary steps currentDepth is k, and the search stops exactly when k = depth |
| QuickRank.FixedPoint | learning/ltr_quickrank.go:127 | a candidate whose query equals the current one is a fixed point |
| QuickRank.UnchangedQueryStops | learning/ltr_quickrank.go:125-129 | a candidate that repeats the current query stops the search |
| QuickRank.FixedPointAsWritten | learning/ltr_quickrank.go:127 | as written, the test can only hold for a query text starting with "0 " |
| QuickRank.AsWrittenMissesFixedPoint | learning/ltr_quickrank.go:127 | as written, repeating the query "fever" is not detected, though the corrected test detects it |
| QuickRank.Select | learning/ltr_quickrank.go:39-132 | the arguments are the flags then `--test fname`; one `0 qid:topic ` + Features.String line per candidate in order until a write fails; each error path before the retrieval size returns the current query and the unchanged selector; the retrieval size asked for is that of the current query, and its error returns neither; no results returns the current query with currentDepth = depth; otherwise the ranked candidate with the advanced counter |
| Groove.Preprocess | pipeline.go:55-59 | a component holding the processors |
| Groove.MeasurementOutput | pipeline.go:76-80 | a component holding the formatters |
| Groove.TrecOutput | pipeline.go:83-89 | a component holding the path, of a type the dispatch ignores |
| Groove.EvaluationOutput | pipeline.go:92-107 | a component holding formatters and qrels, of a type the dispatch ignores |
| Groove.NewGroovePipeline | pipeline.go:111-132 | the two sources as given; each dispatched field holds the last component of its type, or is empty when there is none; every other field is unset |
| Groove.ConfigurationDetermined | pipeline.go:111-132 | the components determine the pipeline |
| Groove.IgnoredComponentChangesNothing | pipeline.go:117-129 | inserting a component of another type anywhere leaves the pipeline as it was |
| Groove.ApplyAllAppend | pipeline.go:186-200 | running two stage lists is running their concatenation: stages apply in list order |
| Groove.Processed | pipeline.go:180-201 | preprocessing keeps the query's name and topic |
| Groove.RunStages | pipeline.go:186-193 | one stage list applied in order, name and topic kept |
| Groove.RunElasticStages | pipeline.go:194-200 | fatal exactly when there are stages and the source is not Elasticsearch; otherwise the stages applied in order |
| Groove.PreprocessAll | pipeline.go:178-202 | fatal exactly as `Fatal` says; otherwise query i becomes Processed(query i) |
| Groove.RunMeasurement | pipeline.go:227-237 | one row of the matrix, or its first error |
| Groove.RunMeasurements | pipeline.go:224-238 | the headers are the measurements' names, one per measurement in order; the data is MeasureAll |
| Groove.MeasureAllSuccess | pipeline.go:224-238 | on success, one row per measurement and one column per query; cell (i, qi) is measurement i on query qi |
| Groove.MeasureAllFailure | pipeline.go:224-238 | on failure, the error of the first failing pair in measurement-major order, every earlier pair having succeeded |
| Groove.Topics | pipeline.go:180-182 | one label per query, its name, in the order given |
| Groove.RunFormatters | pipeline.go:241-256 | all formatter outputs in order, or the first error; the length check sends nothing |
| Groove.RunMeasurementPhase | pipeline.go:222-261 | sends exactly what MeasurementPhase says |
| Groove.MeasurementPhaseAsWritten | pipeline.go:180-182 | the measurement phase as written, with column labels in load order while the data columns follow the sorted queries; like the corrected phase it sends nothing without formatters and otherwise exactly one result, and a measurement error ends the run identically |
| Groove.MeasurementLabelsAsWrittenMismatch | pipeline.go:180-182 | as written, with two loaded queries reordered by the sort, the formatter labels column 0 "b" though it holds the measurement of "a"; with labels from the sorted queries it says "a" |
| Groove.RunEvaluationPhase | pipeline.go:264-354 | sends exactly what EvaluationPhase says |
| Groove.RunModelPhase | pipeline.go:357-392 | sends exactly what ModelPhase says |
| Groove.Execute | pipeline.go:135-399 | with queries: the processed queries are Processed of the loaded ones, and the sorted ones are a permutation of them in non-decreasing order of Boolean sub-queries; everything sent is Trace |
| Groove.LoadFailureSendsOneError | pipeline.go:159-166 | a failed load sends exactly one Error and returns |
| Groove.FatalSendsNothing | pipeline.go:194-199 | the fatal exit sends nothing, not even Done |
| Groove.DoneOnlyLast | pipeline.go:395-397 | Done is sent at most once and only last; it is sent exactly when the load, the fatal check, the query phases and the model phase all let the run through |
| Groove.MeasurementErrorEndsRun | pipeline.go:228-236 | a measurement error sends exactly one Error, the first failing pair's, and ends the run |
| Groove.NoFormattersNoMeasurements | pipeline.go:222 | without measurement formatters the run does not depend on the measurements or formatters at all |
| Groove.ColumnsLabelledByTheirQuery | pipeline.go:242-247 | each data column is labelled with the name of the query measured in it, so the length check never fires |
| Groove.ModelStepsInOrder | pipeline.go:357-392 | a Generate error makes Train and Test irrelevant, a Train error makes Test irrelevant, and with no error none is sent |
| Groove.EvaluationOnlyWhenGated | pipeline.go:264 | the evaluation phase sends something exactly when its gate holds |
| Groove.MeasurementRunShape | pipeline.go:257-260 | with formatters only, a successful run sends one Measurement result and then Done |

## Left out

- Panics are preconditions or are not modelled. `Scores[0]` on an empty slice becomes a precondition of the learning writers. Indexing the executor's values `m[i]` (learning/feature.go:198, rewrite/feature.go:95) becomes a precondition of `Deltas` and `QPPFeatures` that the executor returns a value per measurement. Not modelled: `os.OpenFile` in Select (learning/ltr_quickrank.go:47-50), the `scores` type assertion (learning/ltr_quickrank.go:104) and `EvaluationOutput`'s file read (pipeline.go:92-100, whose parsed qrels are an input here).
- The rest of Select is I/O, so it is not modelled: the external binary, its pipes and their draining goroutines, `uuid`, the temporary file, `getRanking` (not shown) and file removal. Their outcomes are `SelectIo`.
- `Train` and `Output` of the QuickRank selector are left out. One only runs the binary and the other only delegates to `WriteLibSVMRank`.
- The evaluation goroutines run concurrently, so their interleaving is not modelled. So are the semaphore, the unsynchronised writes to the `measurements` map and `runtime.GC`. Each worker's outcome is an oracle value, and the results are sent in query order. `DoneOnlyLast` and the gate do not depend on that order, because `Execute` waits for every worker before formatting. The evaluation formatters' input map is folded into their oracle outcomes.
- The diskv and file caches and their installation (pipeline.go:142-153) are not modelled, and neither are the model's field assignments for `QueryChain` (pipeline.go:169-176).
- `Model`, the measurements, the formatters, the processors and the transformations are opaque ids whose effect is an `Oracle` field. The measurement executor and statistics source are opaque in the same way.
- Floating point: scores are exact `real`s, so float64 rounding of deltas and averages is not modelled, and `%v` of a float is the parameter `show`.
- Go map iteration order is not fixed. `MakeArguments` and `ComputeDeltas` return the visiting order as a ghost and state order-free properties.
- Slice aliasing of `append` in both `Append` methods is not modelled: chains and features are values. The writers' in-place sort is modelled on an array shared with the caller. The copy of a candidate's features that `Select` hands to `Features.String` is fresh, so the in-place reordering of the candidate's own slice is not visible in the model.
- RewriteFeature.WriteLibSVMRank: `id+1` and the `int64` topic are unbounded integers; their overflow is not modelled.
- QuickRank.Selector: the statistics source is an option value, and the nil source of a selector built without one is `None`.
- QuickRank.Select: a selector built without a statistics source panics when the step reaches the retrieval-size call (learning/ltr_quickrank.go:114, a method call on a nil interface). The model does not check `source` there: the retrieval size is the `SelectIo` outcome, so such a step returns normally.
- The writers' return values: every `WriteLibSVM` and `WriteLibSVMRank` (learning/feature.go:269, 283; rewrite/feature.go:123, 136) returns what `writer.Write` returns, a byte count and an error. The models return the line handed to the writer; the writer and its outcome are not modelled.
- LearningFeature.WriteLibSVM, RewriteFeature.WriteLibSVM: the variadic `comment ...interface{}` (learning/feature.go:254, rewrite/feature.go:110) is a sequence of strings, each the `%v` rendering of one comment value; the rendering of arbitrary Go values is not modelled.
- Logging and console output are not modelled anywhere: the `log.Println`/`log.Printf` calls of `Select` and `Train` (learning/ltr_quickrank.go:84-169), the constructor's `fmt.Printf` (learning/ltr_quickrank.go:215) and the logging in pipeline.go.
- analysis/postqpp/gain.go (floating-point scoring) is not part of this model.

## Findings

| source | as written | input that shows it | evidently intended | confidence | as-written member | corrected member |
|---|---|---|---|---|---|---|
| pipeline.go:180-182 | the topic labels are collected in load order, before the sort at line 207 reorders the data columns that the formatters receive at line 248 | load "b" (two Boolean sub-queries) then "a" (one): column 0 measures "a" but is labelled "b" | label each column with the name of the query measured in it | high; not executed | Groove.MeasurementPhaseAsWritten, Groove.MeasurementLabelsAsWrittenMismatch | Groove.MeasurementPhase with Groove.Topics of the sorted queries, used by Groove.Execute; Groove.ColumnsLabelledByTheirQuery |
| learning/ltr_quickrank.go:127 | `candidate.String()` resolves to the promoted `Features.String`, whose text is "0 " and the feature pairs, and it is compared with the query text | a candidate that repeats the keyword query "fever": the texts "fever" and "0 …" never match, so the search does not stop | compare the texts of the two queries | medium; not executed | QuickRank.FixedPointAsWritten, QuickRank.AsWrittenMissesFixedPoint | QuickRank.FixedPoint, used by QuickRank.Select; QuickRank.UnchangedQueryStops |
