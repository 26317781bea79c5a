# pred_aqua submission core, modelled in Dafny

This project models `database.py` of pred_aqua. That file takes a submission of five crop images and runs three
YOLO classifiers (lettuce variety, disease, pest) on each one. It stores one document per submission.

The model covers the part of the file that computes the document:

- `get_top_predictions`: the three most probable classes of a classifier result, as (label, probability) pairs
  in descending order (module `TopPredictions`, using the stable sort of module `StableSort`).
- `predict_with_model`: the list of top predictions for a list of image paths under the image directory,
  skipping files that do not exist (module `Prediction`).
- `process_data` (module `Submission`):
  - the check that exactly five image paths are given;
  - the loop that builds one record per image under the keys `img1`..`img5`;
  - the per-category averages accumulated in `defaultdict(float)` maps and divided by the number of images;
  - the stable descending sort of each average map;
  - the assembly of the document with its id `"{create_by}_{timestamp}"` and its provenance fields.
- A worked scenario for the averages (module `Scenario`).

How the model represents the system:

- Python dicts are ordered association lists with distinct keys (module `Dicts`). `d[k] = v` keeps an existing
  key in place and appends a new one, so insertion order is modelled; the order of ties after the stable sort
  depends on it.
- The exceptions the model keeps apart are the `Err` case of a `Result`: ValueError, IndexError, KeyError,
  NameError, and ImageError for whatever opening, resizing or classifying an existing file raises
  (IsADirectoryError, UnidentifiedImageError, an error of the model), with the exception's name as a string.
- The classifiers and the file system are parameters: a `Classifier` maps a full image path to the model's first
  result (label table and probability list) or to the exception raised on the way to it, and `fileExists` says whether a path exists. `datetime.now()` is the
  `timestamp` parameter.
- The imperative parts are methods proved against the pure definitions:
  - `Prediction.PredictWithModel` for `predict_with_model`;
  - `Submission.ImageRecordFor`, `Submission.CollectRecords`, `Submission.AddShares`,
    `Submission.AccumulateAverages` and `Submission.ProcessData` for the loops of `process_data`.

  The properties are lemmas about those definitions.

Two behaviours of the code to note:

- A missing image file is not skipped in `process_data`. `predict_with_model` returns an empty list for it, and
  `lettuce_predictions[0]` then raises IndexError (database.py:48-55, 80).
- The author is not validated. A missing `create_by` gives the id `"None_<timestamp>"` while the stored
  `create_by` field is `""` (database.py:109, 119).

## Model

| member | source | states |
|---|---|---|
| TopPredictions.TopIndices | database.py:35 | the selection keeps min(3, number of classes) indices |
| TopPredictions.Pairs | database.py:36 | the k-th pair is (names[idx[k]], probs[idx[k]]), one pair per selected index |
| TopPredictions.SortedIndicesInRange | database.py:35 | every index `sorted(range(len(probs)))` yields is a class index |
| TopPredictions.SortedIndicesCover | database.py:35 | every class index occurs in the sorted index list |
| TopPredictions.SortedIndicesDistinct | database.py:35 | the sorted index list has no index twice |
| TopPredictions.TopIndicesSelectMaxima | database.py:35 | the selected indices are min(3, n) distinct class indices in non-increasing probability order, and no index left out is more probable than any selected one |
| TopPredictions.GetTopPredictions | database.py:32-36 | the result is a list exactly when every selected index has a label; otherwise the lookup raises KeyError |
| TopPredictions.GetTopPredictionsSpec | database.py:32-36 | a result holds min(3, n) pairs in non-increasing probability order, each (names[i], probs[i]) for distinct indices i, and every class left out is at most as probable as each class kept |
| TopPredictions.FullLabelTableSucceeds | database.py:33-36 | a label table naming every class index never makes the selection raise |
| StableSort.Insert | database.py:101-103 | inserting into a non-increasing list keeps it non-increasing and adds exactly the new element |
| StableSort.SortDesc | database.py:101-103 | `sorted(..., reverse=True)` yields a non-increasing permutation of its input |
| StableSort.SortDescStable | database.py:101-103 | for every key value, the elements with that key keep their input order |
| StableSort.SortDescDistinctBy | database.py:101-103 | sorting keeps elements that had distinct keys distinct, so the sorted items still form a dict |
| StableSort.TiesConcat | database.py:101-103 | the ties of a concatenation are the ties of each part, in order |
| StableSort.InsertTies | database.py:101-103 | insertion places the new element after every earlier element with the same key |
| Dicts.Keys | database.py:78 | a dict's key list has one key per entry, in entry order |
| Dicts.Get | database.py:78 | a lookup finds a value exactly when the key is present, and the value found is stored under that key |
| Dicts.Put | database.py:78 | `d[k] = v` keeps the key order and appends a new key last; it keeps keys distinct |
| Dicts.GetPut | database.py:78 | after `d[k] = v`, `d[k]` is v and every other lookup is unchanged |
| Dicts.GetReplace | database.py:78 | overwriting an existing key changes only that key's lookup |
| Dicts.GetAt | database.py:78 | in a dict with distinct keys, each entry's key looks up that entry's value |
| Dicts.MemberIffGet | database.py:101 | an item is in a dict's items exactly when looking up its key gives its value |
| Dicts.GetOrGet | database.py:94 | the defaultdict read of a key is its value, or the default when absent |
| Prediction.JoinPath | database.py:45 | `os.path.join(base, path)` ends with `path` |
| Prediction.JoinPathUnderBaseDir | database.py:43-45 | a relative path is appended to the image directory; an absolute one replaces it |
| Prediction.PredictWithModel | database.py:41-57 | the loop returns what the pure definition `Predictions` gives for the model's ranking |
| Prediction.PredictionsFailureSticks | database.py:44-53 | once a prefix of the paths raises, the whole call raises the same error |
| Prediction.PredictionsSucceed | database.py:44-53 | the call raises exactly when opening, classifying or ranking some existing image raises |
| Prediction.PredictionsSkipMissing | database.py:44-57 | a result holds one ranking per existing image, in input order, and none for a missing file |
| Prediction.PredictionsOfOne | database.py:41-57 | for one path: an empty list when the file is missing, otherwise that image's top predictions or their error |
| Submission.DecimalInjective | database.py:78 | distinct image numbers render as distinct decimal strings |
| Submission.ImageKeyInjective | database.py:78 | distinct image numbers give distinct keys `img{i}` |
| Submission.FiveImageKeys | database.py:72-78 | the five keys are "img1" .. "img5" |
| Submission.SubmissionKeys | database.py:72-78 | the keys of a loop over five paths are "img1" .. "img5", in order |
| Submission.ImageKeysAt | database.py:72-78 | the i-th key of the loop is img{i+1} |
| Submission.ImageKeyFresh | database.py:72-78 | each iteration's key is new to the dict |
| Submission.ImageKeysDistinct | database.py:72-78 | the loop's keys are pairwise distinct |
| Submission.PercentDictValues | database.py:80-82 | with distinct labels, each label of a ranking maps to its confidence times 100 |
| Submission.ImageRecordOf | database.py:72-83 | a path whose file is missing makes the loop body raise IndexError |
| Submission.ImageRecordFromPredictions | database.py:73-83 | the record of a path is built from `[0]` of the three `predict_with_model` results, with IndexError when one is empty and their errors otherwise |
| Submission.IndividualData | database.py:70-83 | a successful loop's keys are img1 .. img{n}, in order |
| Submission.IndividualDataSucceeds | database.py:72-83 | the loop succeeds exactly when every path yields a record |
| Submission.IndividualDataRecords | database.py:72-83 | a successful loop has distinct keys and holds the i-th path's record at position i |
| Submission.IndividualDataFirstError | database.py:72-83 | a failing loop raises the error of the first path whose record fails |
| Submission.IndividualDataFailureSticks | database.py:72-83 | once a prefix of the paths raises, the whole loop raises the same |
| Submission.IndividualDataStep | database.py:72-83 | one more path either stores its record under the next key or raises its error |
| Submission.GetAddTo | database.py:86-98 | `acc[k] += x` on a defaultdict(float) adds x to k's value (absent counts as 0) and changes no other key |
| Submission.ShareSumOfTotal | database.py:94-98 | adding `confidence / total_images` per image equals dividing the summed percentages once |
| Submission.AddEntriesKeys | database.py:93-98 | one inner loop keeps keys distinct, keeps every existing name and adds exactly the entries' names |
| Submission.AddEntriesGet | database.py:93-98 | one inner loop adds each entry's share to its name's value |
| Submission.AddEntriesKeepsOrder | database.py:93-98 | names already present keep their positions; new names follow |
| Submission.AccumulatedKeys | database.py:90-98 | the average map's names are the union of that category's names across the images, none twice |
| Submission.AccumulatedGet | database.py:90-98 | each name's value is the sum over the images of its share, 0 where an image lacks it |
| Submission.AccumulatedKeepsOrder | database.py:90-98 | the names present after the first k images lead the final map, in the same order |
| Submission.AddEntriesKeyOrder | database.py:93-98 | one inner loop appends the entries' names the map lacks, each once, in entry order, after the names already there |
| Submission.AccumulatedKeyOrder | database.py:90-98 | the average map's names are the first occurrences of the images' names read image after image, each image's names in their own order |
| Submission.AccumulatedStep | database.py:92-98 | the outer loop's next image applies one inner loop to the map so far |
| Submission.AddShares | database.py:93-98 | the inner loop's result equals the pure definition `AddEntries` |
| Submission.AccumulateAverages | database.py:86-98 | the three nested loops give the pure definition `Accumulated` for each category |
| Submission.SortByValueSpec | database.py:101-103 | the sorted map is a dict with the same items and the same lookups, in non-increasing value order, with ties in their prior order |
| Submission.AveragesSpec | database.py:85-103 | each average map holds exactly the category's names across the images, each mapped to its summed percentage divided by `total_images` (absent adds 0), in non-increasing order, ties in first-insertion order, which is the order of first occurrence image after image |
| Submission.DocumentIdInjective | database.py:109 | for timestamps without '_', equal ids have the same rendered author and the same timestamp |
| Submission.Submit | database.py:65-132 | a request without exactly five paths raises ValueError("Exactly 5 image paths are required.") |
| Submission.ValidationFirst | database.py:67-68 | ValueError is raised exactly when there are not five paths, and then the result does not depend on the models or files |
| Submission.RankerErrors | database.py:49-52 | the top predictions of an existing image raise the exception of opening, resizing or classifying it when that fails, and otherwise at most KeyError |
| Submission.ImageRecordErrors | database.py:72-83 | a failing image raises IndexError (missing file), the exception of opening, resizing or classifying an existing file, or KeyError (unlabelled class); an existing file the lettuce model fails on raises that exception |
| Submission.RecordMakerDicts | database.py:80-82 | every record the loop body builds holds a dict with distinct names per category |
| Submission.ImageRecordShape | database.py:78-83 | a record holds the joined full path and each category's ranking as a percentage dict |
| Submission.SubmitRecords | database.py:72-83 | with five paths, the call succeeds exactly when every image yields a record; `individual_data` then has keys img1..img5 with the records in input order, and otherwise the error of some image is raised |
| Submission.SubmitImagePaths | database.py:72-83 | the record under img{i+1} holds the i-th input path joined onto the image directory, and each model's ranking of that image as percentages |
| Submission.SubmitUnfolds | database.py:90-130 | a stored document holds the loop's records and their averages over 5 |
| Submission.SubmitAverages | database.py:85-103 | each average map of a stored document is sorted, holds the names of the five records, each with its percentage sum / 5, and ties in insertion order, which is the order of first occurrence across img1..img5 |
| Submission.SubmitDocument | database.py:105-130 | metadata.tab is "crop_mangmt_disease"; id is the rendered `create_by`, "_" and the timestamp also stored at top level; absent arguments are stored as "" |
| Submission.SubmitAsWritten | database.py:86 | as written, the call raises the ValueError for a bad request |
| Submission.AsWrittenNeverSucceeds | database.py:86 | as written, the call raises NameError where the intended code returns a document, and otherwise what the intended code raises |
| Submission.ImageRecordFor | database.py:73-83 | the loop body for one path gives the record `ImageRecordOf` defines |
| Submission.CollectRecords | database.py:70-83 | the image loop gives `IndividualData`, or the error of the first failing image |
| Submission.SubmitOfRecords | database.py:90-130 | with five paths and all records, the document is assembled from them and their averages over their count |
| Submission.ProcessData | database.py:65-132 | the method returns exactly what `Submit` defines: the document or the exception |
| Scenario.TwoNames | database.py:101-103 | a sorted dict over exactly two names is fixed by their values |
| Scenario.AverageNames | database.py:90-98 | each name of an average map occurs in some image |
| Scenario.KeysAmongTwo | database.py:90-98 | when every image ranks the same two names, the average map has no other name |
| Scenario.AveragesOfTwoNames | database.py:90-103 | when every image ranks the same two names, the average map is those two with their sums / total, the larger first |
| Scenario.RomaineBeforeIceberg | database.py:90-103 | romaine 90/10 iceberg once and 50/50 four times average to [("romaine", 58), ("iceberg", 42)] |

## Left out

- YOLO model loading and inference, and the PIL open and resize: a classifier is a parameter from a full image
  path to its first result or the exception raised on the way; which exception each input raises is the
  parameter's choice (database.py:23-25, 49-51).
- `os.path.exists` is the `fileExists` parameter; the `print` calls are output only (database.py:46, 48, 55).
- Submission.Percent: `round(confidence * 100, 6)` is modelled as exact multiplication by 100 over reals; float
  rounding and float arithmetic in general are not modelled (confidences and averages are `real`).
- `datetime.now().isoformat()` is the `timestamp` parameter. Submission.DocumentIdInjective assumes the timestamp
  has no underscore, as ISO timestamps do not.
- The request is reduced to its optional `image_paths` list. A value of another type (a string, a dict) and the
  rendering of a non-string `create_by` are not modelled.
- The Couchbase connection, the upsert and query code, and `fetch_documents_as_dataframe` (database.py:14-16,
  144-202) are not part of this model. Neither are the FastAPI and Streamlit front ends (ret.py, fast.py,
  newstream.py) or the training script (yolletdec.py).
- The models are module globals in the source (database.py:23-25) and parameters here.
- TopPredictions.GetTopPredictions reads only `results[0]`, as the source does. The label table is a map from
  class index to label.

## Findings

| source | as written | input that shows it | evidently intended | confidence | as-written member | corrected member |
|---|---|---|---|---|---|---|
| database.py:86 | `defaultdict(float)` is used but `defaultdict` is never imported, so `process_data` raises NameError after the image loop | any request with five paths whose images all exist and are classified | `from collections import defaultdict`, so the averages are computed and the document returned | not executed | Submission.SubmitAsWritten (with Submission.AsWrittenNeverSucceeds) | Submission.Submit |
