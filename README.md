# MLify backend: the decision logic of the dataset pipeline

MLify takes a CSV upload, stores it, and then, on request, cleans the table and either explains
which columns drive a chosen target column ("business insights") or trains a model on it ("model trainer").
This project is a Dafny model of the logic in that pipeline that makes decisions:

- request validation and the mode branch, and which failures reach the client as 400 or 500;
- the missing-value imputation loop and the three opening trace records;
- the two categorical encodings: `LabelEncoder`, and `pd.factorize` by first appearance;
- the merge, the stable sort by magnitude and the slicing that pick the insight features;
- `_top_k` and its direction and strength labels;
- the fallback bullets and the post-processing of the text generator's reply;
- the storage helpers: the content-type table, the URL lookup chains and the upload checks.

Both copies of the pipeline are modelled: the current one in `backend/main.py` and the older one in
`backend/repositories/upload.py`. The helper in `backend/utils/gemini.py` is modelled too. Lemmas
contrast the three where they drift apart.

Every number the pipeline takes from pandas, scikit-learn or the network is a given value: the median,
the correlation scores, the model metrics, the fetched table, storage and generator replies, and the
`json.loads` outcome. These values are fields of a `Services` / `Env` / `GenAi` value, so each property
holds for every possible answer from outside.

Modules, one per file:

- `Py` (py.dfy): the Python semantics the code relies on. This covers slicing with negative bounds,
  `strip`, `splitlines`, `lower`, JSON values with truthiness, `str` and `repr`, and `Option`/`Result`.
- `Frames` (frames.dfy): columns, cells and dtypes; missing counts; the first mode;
  `factorize`; `LabelEncoder`.
- `Imputation` (imputation.dfy): the fill loop, as a method proved against the `Imputed` function.
- `Trace` (trace.dfy): the `missing_detected`, `missing_handled` and `separate_types` records.
- `Ranking` (ranking.dfy): the dict merge, the stable sort, the insight slices, `_top_k` and plot selection.
- `Narrative` (narrative.dfy): the line-split loop, the fallback bullets, and the reply
  post-processing of both pipelines and of the helper.
- `Storage` (storage.dfy): `backend/utils/supabase.py`.
- `Analyses` (analyses.dfy): the encoding and plotting loops, the scores, and the trace helpers
  shared by both routes.
- `MainPipeline` (main_pipeline.dfy): the `/upload` and `/process` routes of `backend/main.py`.
- `LegacyPipeline` (legacy_pipeline.dfy): `backend/repositories/upload.py`.

The steps that the source runs by mutation are methods, each proved equal to the function that specifies it:

- `ImputeMissing`, the loop that reassigns `df[col]`;
- `EncodeCategoricals`, which fills `le_map`;
- `EmitPlots`, which fills `cat_plots`;
- `CollectLines`, the line loop with its `break`;
- `OpenTrace`, `RunBusiness`, `DispatchData` and `ProcessData`, which append to `steps`.

The lemmas then state the source's promises about those functions.

Four behaviours of the code that a reader might not expect, which the model follows as written:

- The merged correlations that feed `insights` contain the target's own entry, whatever its type.
  A number target is one of the numeric columns and is scored on the numeric side
  (`MainPipeline.NumericTargetScoresItself`). A text or bool target is one of the categorical columns
  and is scored on the categorical side, its label codes against its factorized codes
  (`MainPipeline.CategoricalTargetScoresItself`); a bool target takes this side although
  `is_numeric_dtype` calls it numeric. Only `_top_k` removes the entry. The one exception is a column
  named `_target`: both sides add the encoded target under that name with `.assign`, overwriting such a
  column, and then `.drop` it, so a data column of that name is never scored, a target of that name
  does not score itself, and a table whose only categorical column has that name uploads no category
  plot.
- In `backend/main.py` the fallback bullets are not cut to 220 characters on the no-key, import-failure,
  configuration-failure and generation-failure paths. A long feature name therefore yields a longer bullet
  (`Narrative.MainFallbackCanExceedLimit`).
- In `backend/main.py` a JSON reply that is not a list, or is an empty list, falls to the fallback
  bullets rather than the line split.
- In the older route every 400 it raises itself is re-raised as a 500 whose detail is the text
  `"400: ..."`.

## Model

| member | source | states |
|---|---|---|
| Py.TakeFirst | backend/main.py:256 | a non-negative slice stop keeps the first min(stop, n) elements |
| Py.DropLast | backend/main.py:257 | `s[-k:]` keeps the last min(k, n) elements, the whole list when it is shorter |
| Py.StripIsTrimmedMiddle | backend/main.py:385 | `strip(chars)` returns a contiguous middle part that neither starts nor ends with a stripped character |
| Py.SplitLinesHaveNoBreaks | backend/main.py:384 | no line that `splitlines` yields contains a line boundary |
| Py.SplitLinesOfTerminated | backend/main.py:384 | splitting newline-terminated lines gives the same lines back |
| Py.DictTextIsBraced | backend/main.py:102 | the text of a dict is never empty, so `... or str(file_url)` always yields a non-empty string |
| Frames.NoMissingCount | backend/main.py:137 | a column's missing count is zero exactly when none of its cells is missing |
| Frames.TypeSplitPartitions | backend/main.py:154-155 | each column is in exactly one of the numeric and the categorical selection |
| Frames.FirstModeIsLeastMostFrequent | backend/main.py:142 | `mode().iloc[0]` is a value of the column that no value outnumbers, the least in string order among ties; it is absent exactly for a column with no value |
| Frames.FirstModeUnique | backend/main.py:142 | any value with those properties is the first mode |
| Frames.FactorizeCorrect | backend/main.py:217-218 | `factorize` gives -1 exactly for missing cells; every other code indexes a unique equal to the cell; the uniques are distinct, are exactly the present values, and come in order of first appearance |
| Frames.FactorizeCodesCover | backend/main.py:179 | with no missing cell, every code 0..k-1 is used |
| Frames.LabelEncoderCorrect | backend/main.py:213-215 | the classes are the distinct labels in strictly increasing order, and each label is coded as its index among them |
| Imputation.FillNaLeavesNoGap | backend/main.py:139 | `fillna` with a present value leaves the column without a single gap |
| Imputation.ImputeMissing | backend/main.py:136-144 | the loop computes `Imputed` of the table it started from |
| Imputation.ImputeKeepsPresentCells | backend/main.py:136-144 | imputation never changes a present cell, a column's name, its dtype or its length, and leaves a column without gaps exactly as it was |
| Imputation.ImputeNumericUsesMedian | backend/main.py:138-139 | a gap in a numeric column with at least one number becomes the median of its numbers |
| Imputation.ImputeTextUsesModeOrUnknown | backend/main.py:140-144 | a gap in a non-numeric column becomes its first mode, or "Unknown" when the column has no value |
| Imputation.ImputeColumnGaps | backend/main.py:136-146 | afterwards a column keeps gaps only when it is numeric with no number at all, and then keeps all of them |
| Imputation.AllMissingNumericColumnStaysMissing | backend/main.py:146-151 | an all-missing numeric column is left with its gaps, so the remaining count can be positive |
| Imputation.ImputeKeepsWellFormed | backend/main.py:136-144 | imputation keeps the table well formed and its column names unchanged |
| Trace.MissingByColumn | backend/main.py:133 | the details hold exactly the columns with a positive missing count, each with its count |
| Trace.MissingDetailsSum | backend/main.py:127-131 | the total in the `missing_detected` message is the sum of its details |
| Trace.OpeningSteps | backend/main.py:127-163 | the trace opens with `missing_detected`, `missing_handled`, `separate_types`, all done |
| Trace.TypeSplitCounts | backend/main.py:157-159 | the numeric and categorical counts in `separate_types` add up to the number of columns |
| Trace.RemainingMissingIsUnfillable | backend/main.py:146-151 | `missing_handled` reports exactly the gaps of the numeric columns without a number, never more than were found |
| Ranking.LookupFinds | backend/main.py:250-253 | looking up a key of a dict with distinct keys finds its value |
| Ranking.MergeSemantics | backend/main.py:250-253 | `{**a, **b}` has each key once and holds exactly the keys of both; a shared key takes b's value |
| Ranking.MergeKeysDistinct | backend/main.py:250-253 | the merged keys are a's keys in a's order, then b's new keys in b's order |
| Ranking.MergeDisjoint | backend/main.py:250-253 | with no shared key the merge is concatenation |
| Ranking.Remove | backend/main.py:280-281 | `pop(target, None)` on a copy removes exactly the target's entry |
| Ranking.SortByAbsCorrect | backend/main.py:255 | the sort orders by magnitude, descending, keeps every entry, and keeps the input order among equal magnitudes |
| Ranking.SortSortedIsIdentity | backend/main.py:226 | sorting entries that are already in order changes nothing |
| Ranking.InsightSlices | backend/main.py:254-263 | top features are sorted positions 1 to 3, at most three of them, skipping the strongest; low features are the last min(5, n); an empty merge gives the single note |
| Ranking.InsightsDrift | backend/repositories/upload.py:218-222 | the older slices agree with the current ones whenever a score exists; with none they give two empty lists instead of the note |
| Ranking.LabelThresholds | backend/main.py:274-275 | "positive" exactly for a score above 0, so 0 is "negative"; "strong" exactly for \|s\| >= 0.5, "moderate" for 0.3 <= \|s\| < 0.5, otherwise "weak" |
| Ranking.TopKCorrect | backend/main.py:266-278 | `_top_k` returns min(k, n) records, each an entry of the dict, ordered by magnitude, labelled by its score, none weaker than any entry left out |
| Ranking.TopKWithoutTarget | backend/main.py:280-286 | after the target's entry is removed, `_top_k` never names the target |
| Ranking.PlotColumnsCount | backend/main.py:233 | min(3, n) category columns are plotted |
| Ranking.PlotColumnsOfSorted | backend/main.py:233 | scores already sorted by magnitude are plotted in their own order, the first three |
| Narrative.CollectLines | backend/main.py:383-389 | the line loop with its early break computes `LineFallback` over the reply's lines |
| Narrative.LineFallbackTakesFirst | backend/main.py:383-390 | the loop keeps the first `limit` cleaned non-empty lines, in order |
| Narrative.LineFallbackNoLimit | backend/utils/gemini.py:80-85 | with a limit of zero or less the loop still keeps the first line when it is non-empty, because the test comes after the append |
| Narrative.CleanedBullets | backend/main.py:384-389 | the line split keeps at most `limit` bullets, each non-empty with no surrounding whitespace |
| Narrative.Trim | backend/main.py:392 | no trimmed bullet is longer than 220 characters |
| Narrative.TrimKeeps | backend/main.py:392 | trimming keeps min(n, len) bullets, each the first 220 characters of the original |
| Narrative.MainFallbackShape | backend/main.py:288-298 | one bullet per non-empty driver list, then the generic closing bullet |
| Narrative.MainFallbackLifts | backend/main.py:290-292 | the first bullet says "strongly lifts" exactly for a positive score |
| Narrative.LegacyFallbackShape | backend/repositories/upload.py:331-341 | the older fallback has the same shape, with its own closing bullet |
| Narrative.StrongBoundaryDrift | backend/repositories/upload.py:338 | at exactly 0.5 the older fallback calls a categorical link "moderate", while `_top_k` labels the score "strong" |
| Narrative.MainNarrativeBounds | backend/main.py:300-400 | one to three bullets on every path; the model is named exactly when a reply was generated, and only then are bullets cut to 220 characters; no key gives the fallback and "GEMINI_API_KEY not set" |
| Narrative.MainNarrativeCases | backend/main.py:355-400 | with a generated reply: a non-empty JSON list gives the first three entries as text, each cut to 220 characters, with no error; any other JSON value, the empty list included, gives the trimmed fallback and "AI returned non-JSON or empty"; an unparsable reply gives its first three cleaned non-empty lines, or the fallback when there are none, with "JSON parse error: " and the parser's message |
| Narrative.MainFallbackCanExceedLimit | backend/main.py:302-304 | without a key a fallback bullet can be longer than 220 characters |
| Narrative.NarrativeDrift | backend/repositories/upload.py:402-419 | on a generated reply both pipelines pick the same bullets; on a generation failure the current one drops the model name and the older one keeps it |
| Narrative.LegacyNarrativeBounds | backend/repositories/upload.py:343-426 | the older AI block yields one to three bullets on every path, and names the model exactly when the generator was set up |
| Narrative.LegacyNarrativeCases | backend/repositories/upload.py:382-419 | with a generated reply the older block accepts any JSON list, an empty one falling back; any other JSON value gives the fallback; an unparsable reply gives the rescued lines; the model is named, no error is reported, and every bullet is at most 220 characters |
| Narrative.LegacyNarrativeNoReply | backend/repositories/upload.py:343-350 | without a key, or when importing or configuring the SDK fails, the older block returns the fallback untouched and names no model |
| Narrative.SummarizeCorrect | backend/utils/gemini.py:7-14 | a non-dict gives `[]`; a dict gives min(top_k, n) of its entries, sorted by magnitude, and every entry left out is no stronger than any entry kept |
| Narrative.GeminiInsightsBounds | backend/utils/gemini.py:27-89 | at most `max_points` bullets of at most 220 characters; no key gives `[]`; with a key the call raises exactly when configuring the SDK or building the model raises, both being outside its `try` |
| Narrative.GeminiNonListIsEmpty | backend/utils/gemini.py:75-77 | a JSON reply that is not a list yields `[]` |
| Storage.LoadConfig | backend/utils/supabase.py:10-16 | the import fails only with the missing-credentials message |
| Storage.ConfigDefaults | backend/utils/supabase.py:10-16 | the import succeeds exactly when both credentials are non-empty; the bucket defaults to "mlify-storage"; public read is on exactly when the lowercased setting is "true", which is the default |
| Storage.Ext | backend/utils/supabase.py:27 | `splitext` yields "" or a dot-led suffix of the name with no further dot or slash |
| Storage.ContentTypeOrder | backend/utils/supabase.py:20-30 | the table, looked up with the lowercased extension, wins; otherwise a non-empty guess; otherwise the fallback |
| Storage.ContentTypeExamples | backend/utils/supabase.py:20-30 | an upper-case ".CSV" extension still gives "text/csv" |
| Storage.ExtExamples | backend/utils/supabase.py:27 | a leading dot, or a dot in a directory name, is not an extension |
| Storage.PublicUrlLookup | backend/utils/supabase.py:32-55 | a string reply comes back unchanged; a dict reply yields its first truthy link in the order publicURL, publicUrl, then the nested keys, else its text; a dict result is always truthy |
| Storage.PublicUrlNested | backend/utils/supabase.py:40-41 | the nested `data.publicUrl` is used when both top-level keys are falsy |
| Storage.SignedUrlLookup | backend/utils/supabase.py:57-68 | signedURL, then signedUrl, then the reply's text |
| Storage.UploadContentType | backend/utils/supabase.py:81-83 | an explicit non-empty content type reaches the client as given, so the outcome does not depend on `mimetypes`; without one a ".CSV" key goes up as "text/csv"; upsert becomes "true" or "false" |
| Storage.UploadRefusesNonBytes | backend/utils/supabase.py:79-80 | data that is not bytes raises TypeError whatever the client would do |
| Storage.UploadOutcome | backend/utils/supabase.py:83-87 | a status outside {200, 201} raises RuntimeError; otherwise the URL is public when asked, or by default, and signed otherwise |
| Storage.PublicUrlNeverRuntime | backend/utils/supabase.py:32-55 | the public lookup can only fail by an attribute error |
| Analyses.TargetCodesFirstAppearance | backend/main.py:179 | a text target without gaps is coded by first appearance, with every code 0..k-1 used |
| Analyses.EncodedColumnCorrect | backend/main.py:211-218 | each cell's code indexes its label; the encoder's classes are sorted, and the fallback's come in order of first appearance |
| Analyses.EncodeAllNames | backend/main.py:211 | the encoding loop covers exactly the categorical columns, in order |
| Analyses.EncodeCategoricals | backend/main.py:209-218 | the loop computes `EncodeAll` |
| Analyses.LabelMapCorrect | backend/main.py:209-218 | `le_map` has one entry per categorical column, in column order, whose classes are exactly that column's distinct texts, sorted when `LabelEncoder` ran and in order of first appearance when it fell back to `factorize` |
| Analyses.CorrelationScoresCorrect | backend/main.py:183-190 | one score per column other than `_target`, which `.assign` overwrites and `.drop` removes, each the column's own score, sorted by magnitude; one per column when none has that name; the older route's lines 165 and 195 of `backend/repositories/upload.py` score the same way |
| Analyses.CatScoresCorrect | backend/main.py:219-225 | every encoded column other than `_target` is scored on its own codes, sorted by magnitude, `_target` never appears, and nothing but the encoded columns is scored |
| Analyses.SlotOnlyScoresNothing | backend/main.py:219-225 | when every categorical column is named `_target`, the categorical scores are empty |
| Analyses.EmitPlots | backend/main.py:232-243 | the plot loop computes `EmitAll` |
| Analyses.EmitAllCorrect | backend/main.py:232-243 | one URL per plot, in order, or the first failure |
| Analyses.FailureSticks | backend/main.py:232-243 | once a prefix of the loop fails, the whole loop fails the same way |
| Analyses.FirstFailureFails | backend/main.py:232-243 | a failing first plot fails the loop |
| Analyses.SummaryMissingCounts | backend/main.py:68-70 | the upload summary has one missing count per column, keyed by the columns in order, and its entries with a gap are exactly the per-column missing report of `process_data` |
| Analyses.ImputedTable | backend/main.py:136-144 | the imputed table keeps the column names |
| Analyses.OpenTrace | backend/main.py:127-163 | the first three steps of both routes are `OpeningSteps`, and the table is imputed |
| MainPipeline.SupaKeyShape | backend/main.py:33-36 | the key is the prefix without trailing slashes, "/", the id's first eight characters, "__" and the name |
| MainPipeline.KeyUnder | backend/main.py:33-36 | under a prefix without a trailing slash, the key starts with the prefix and "/" and ends with "__" and the name |
| MainPipeline.StorageKeys | backend/main.py:45-46 | plots are stored under "graphs/" as pngs, models under "models/" as "<hex>.pkl" (lines 442 and 463), and uploads under "uploads/" with the original name at the end (line 64) |
| MainPipeline.PngNameIsPng | backend/main.py:45 | a plot name always ends in ".png", is kept when it already does, and naming twice changes nothing |
| MainPipeline.UploadCsvChecks | backend/main.py:50-79 | a name not ending in ".csv" in any letter case is a 400 before reading; an unreadable body is a 400 with the reader's text; a success reports one column name and one missing count per column, and the URL where the upload under the generated "uploads/" key landed |
| MainPipeline.UploadAcceptsUpperCase | backend/main.py:52 | "DATA.CSV" is refused only when reading or storing fails |
| MainPipeline.ParseRequestCases | backend/main.py:92-111 | a request passes exactly when target, mode and the resolved URL are non-empty strings; a failure is a 400 |
| MainPipeline.CoerceDictUrl | backend/main.py:97-103 | a dict URL resolves publicURL first, and without usable keys it falls to its own non-empty text |
| MainPipeline.RejectedBeforeFetch | backend/main.py:86-111 | an invalid request is refused whatever the services do; it is a 400 unless the body is JSON but not an object |
| MainPipeline.ProcessDispatches | backend/main.py:113-119 | a failed fetch is a 400 with the error's text; a fetched table goes on to dispatch |
| MainPipeline.TargetAndModeRejected | backend/main.py:121-482 | a missing target column and an unknown mode are 400s with no trace; the trainer always answers; business mode answers unless the categorical side fails |
| MainPipeline.RegressorOutcome | backend/main.py:428-450 | a numeric target trains a regressor, reported with its metrics and URL, or an error step and no model |
| MainPipeline.ClassifierOutcome | backend/main.py:451-470 | any other target trains a classifier, reported the same way |
| MainPipeline.TrainOutcome | backend/main.py:403-478 | a model is reported exactly when the step is not an error; its download URL is where the `.pkl` stored under its "models/" key landed; the step message names the estimator the target's dtype chose |
| MainPipeline.AnalyseCategoricals | backend/main.py:208-247 | the categorical side as run computes `CategoricalSide` |
| MainPipeline.RunBusiness | backend/main.py:177-400 | the business branch as run computes `Business` |
| MainPipeline.DispatchData | backend/main.py:121-497 | the route after the fetch computes `Dispatch` |
| MainPipeline.ProcessData | backend/main.py:82-497 | the route computes `Process` |
| MainPipeline.BusinessTrace | backend/main.py:177-247 | a business response is "success" with no model, and its trace is the opening steps, then the numeric and the categorical step |
| MainPipeline.SuccessTrace | backend/main.py:124-497 | every success says "success" and opens with the three records; business adds two steps, the trainer one step and no bullets |
| MainPipeline.TrainingFailureStillSucceeds | backend/main.py:477-497 | a failed training still answers "success"; one error step is added and `model_info` stays empty |
| MainPipeline.BusinessNarrative | backend/main.py:288-400 | business `ai_insights` always holds one to three bullets; with a model named, each is at most 220 characters; no key gives no model and "GEMINI_API_KEY not set" |
| MainPipeline.NumericTargetScoresItself | backend/main.py:182-190 | a target among the numeric columns has numeric correlations, and is among them exactly when it is not named `_target` |
| MainPipeline.CategoricalTargetScoresItself | backend/main.py:208-225 | when the categorical side answers, a target among the categorical columns is among its correlations exactly when it is not named `_target` |
| MainPipeline.NumericTargetStaysNumeric | backend/main.py:136-165 | imputation keeps a numeric target among the numeric columns |
| MainPipeline.CategoryPlotFailureIs500 | backend/main.py:219-243 | with every upload failing, the categorical side fails exactly when some categorical column other than `_target` is scored, and its failure is an uncaught 500 |
| MainPipeline.OnlySlotIsNotScored | backend/main.py:219-225 | a table whose categorical columns are all named `_target` gets no categorical score, so no plot |
| LegacyPipeline.PathJoinCases | backend/repositories/upload.py:108 | `os.path.join` keeps an absolute second part as it is and puts a relative one under the first with one slash |
| LegacyPipeline.UploadDirShape | backend/repositories/upload.py:107 | the upload directory ends in "../uploads" and not in a slash |
| LegacyPipeline.UploadFileStoresUnderId | backend/repositories/upload.py:28-56 | a non-".csv" name is a 400; an unreadable body is a 400; the stored name is the eight-character id, "__" and the original name |
| LegacyPipeline.GetAttrCases | backend/repositories/upload.py:85-88 | a dict and an object with the same entries read the same, and a missing key reads None |
| LegacyPipeline.CategoryPlotUrls | backend/repositories/upload.py:200-210 | the plot loop answers, in plot order, "/static/graphs/<filename>_cat_<col>.png" for each plotted column (`save_plot`, lines 90-97); it succeeds exactly when every save does, distinct columns get distinct URLs, and a failure carries a failed save's text |
| LegacyPipeline.TrainOutcome | backend/repositories/upload.py:228-296 | a model is reported exactly when its step is not an error, with the estimator the target's dtype chose, downloadable from "/static/models/<hex>_model.pkl" |
| LegacyPipeline.RunBusiness | backend/repositories/upload.py:162-222 | the business branch as run computes `Business` |
| LegacyPipeline.RespondData | backend/repositories/upload.py:227-454 | the trainer branch and the AI block as run compute `Respond` |
| LegacyPipeline.AnalyseData | backend/repositories/upload.py:116-454 | the route after the target check computes `Analyse` |
| LegacyPipeline.ProcessData | backend/repositories/upload.py:66-457 | the route computes `Process` |
| LegacyPipeline.EverythingIs500 | backend/repositories/upload.py:456-457 | every failure is a 500 whose detail is the text of what was raised |
| LegacyPipeline.MissingFieldIs500 | backend/repositories/upload.py:104-105 | a falsy target, mode or filename is a 500 carrying "400: Target, mode, or filename is missing" |
| LegacyPipeline.MissingFileIs500 | backend/repositories/upload.py:109-110 | a file absent from the upload directory is a 500 carrying the 400's text |
| LegacyPipeline.IntFilenameIs500 | backend/repositories/upload.py:108 | a non-zero integer filename fails in `os.path.join`, and the 500 carries that TypeError |
| LegacyPipeline.ListTargetIs500 | backend/repositories/upload.py:113 | a list target is unhashable in the column test, and the 500 carries that TypeError |
| LegacyPipeline.AbsoluteFilenameEscapes | backend/repositories/upload.py:108 | an absolute filename is read as given, outside the upload directory |
| LegacyPipeline.BusinessAddsTwoSteps | backend/repositories/upload.py:162-222 | the business branch adds exactly two steps, and its insights are the unguarded slices |
| LegacyPipeline.RespondTrace | backend/repositories/upload.py:227-454 | the route succeeds with the trace so far; trainer mode adds one step and reports a model exactly when it is not an error, with the estimator matching the target; any other mode adds nothing |
| LegacyPipeline.RespondAnalyses | backend/repositories/upload.py:161 | outside business mode the analyses and insights stay empty |
| LegacyPipeline.NarrateBounds | backend/repositories/upload.py:299-426 | the AI block runs in every mode with one to three bullets, and names a model exactly when the generator was set up |
| LegacyPipeline.AnalyseResponds | backend/repositories/upload.py:161-454 | an unknown mode runs neither branch and still succeeds; business mode succeeds exactly when its branch does |
| LegacyPipeline.AnalyseBusinessResponds | backend/repositories/upload.py:162-454 | a successful business branch is followed by the rest of the route on its steps |

## Left out

- Floating point: correlations, medians, R², RMSE and accuracy are given reals. NaN scores, and how `sort_values` and `abs` treat them, are not modelled.
- `sort_values(key=abs)` is modelled as a stable sort. pandas' default quicksort is not guaranteed to be stable, so ties could come out in another order there.
- `str.lower()` is modelled on ASCII letters only. `str.isspace()` is modelled by a fixed set of whitespace characters.
- `repr` of a JSON value is simplified: single quotes, no escaping, and numbers as integers. A string containing a quote, such as `{"k": "it's"}`, therefore comes out as `{'k': 'it's'}`, where Python writes `{'k': "it's"}`. The simplified text reaches:
  - the text of a dict `file_url` in the current route;
  - the bullets made from non-string items of a generated JSON list, `[str(x) for x in parsed]`, in all three places that parse a reply;
  - the text of a storage reply, `str(res)`, in the public- and signed-URL lookups;
  - the "Target column '...' not found" message of the older route for a target that is not a string.
- Reading a CSV, converting it back with `to_csv`, the preview HTML, the heatmaps and bar charts, and the group-by values behind the plots are left out. These are I/O and rendering. Each figure is represented only by the name it is stored under.
- scikit-learn training, `joblib.dump` and the metrics are a given success or error text. Only the keys of `model_info` and the trace step are modelled.
- `_resp_to_text` and the prompt texts are left out. The generator's answer is a given text, or the error's text. `json.loads` is a given parse function.
- `uuid4()` is a given hex string. `mimetypes.guess_type` is a given function. The storage client's replies are given values.
- Only the exceptions the model names are raised: the `HTTPException`s, the TypeErrors of `os.path.join` and of hashing, and the failures of the given services. Other pandas errors, such as a duplicate column header or a malformed file, are not modelled.
- In the current route the id `_supa_key` draws is given per stored name, so two objects of the same name stored in one request would share an id in the model.
- FastAPI wiring, CORS, the static mount and the stub router are left out. The frontend is not part of this model.
- Module-level import of the Gemini SDK in `backend/utils/gemini.py` is left out. Only `get_gemini_insights` after the import is modelled.
- `print` calls in the older route are left out. They do not change its result.
