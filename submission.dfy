/**
 * `process_data` (database.py:65-132): validate a submission of five image
 * paths, classify every image with the lettuce, disease and pest models,
 * average each model's percentages over the images, sort the averages in
 * descending order and assemble the stored document.
 */
module Submission {
  import opened Results
  import opened Dicts
  import opened StableSort
  import opened TopPredictions
  import opened Prediction

  /** A submission carries exactly this many image paths. */
  const REQUIRED_IMAGES: nat := 5
  const IMAGE_COUNT_MESSAGE: string := "Exactly 5 image paths are required."
  /** The `metadata.tab` of every stored document. */
  const METADATA_TAB: string := "crop_mangmt_disease"

  /** The request body; only its `image_paths` entry is read here. */
  datatype Request = Request(imagePaths: Option<seq<string>>)

  /** The three model categories. */
  datatype Category = Lettuce | Disease | Pest

  /** The three loaded models (model1, model2, model3). */
  datatype Models = Models(lettuce: Classifier, disease: Classifier, pest: Classifier) {
    function Of(cat: Category): Classifier {
      match cat
      case Lettuce => lettuce
      case Disease => disease
      case Pest => pest
    }

    /** Each category's `get_top_predictions(model(img))`. */
    function Rankers(): Category -> Ranker {
      cat => RankWith(Of(cat))
    }
  }

  /** One entry of `individual_data`: name -> percentage per category. */
  datatype ImageRecord = ImageRecord(imagePath: string, lettuce: Dict<real>, disease: Dict<real>, pest: Dict<real>) {
    function Of(cat: Category): Dict<real> {
      match cat
      case Lettuce => lettuce
      case Disease => disease
      case Pest => pest
    }
  }

  /** `avg_all`: name -> average percentage per category. */
  datatype Averages = Averages(lettuce: Dict<real>, disease: Dict<real>, pest: Dict<real>) {
    function Of(cat: Category): Dict<real> {
      match cat
      case Lettuce => lettuce
      case Disease => disease
      case Pest => pest
    }
  }

  datatype Metadata = Metadata(tab: string, id: string)

  /** `combined_data`, the document handed to the store. */
  datatype Document = Document(
    metadata: Metadata,
    createDt: string,
    createBy: string,
    updateDt: string,
    updateBy: string,
    affectedDt: string,
    individualData: Dict<ImageRecord>,
    avgAll: Averages,
    timestamp: string)

  // ---------------------------------------------------------------------
  // Validation (database.py:67-68)

  predicate HasFiveImages(data: Request) {
    data.imagePaths.Some? && |data.imagePaths.value| == REQUIRED_IMAGES
  }

  // ---------------------------------------------------------------------
  // Keys img1, img2, ... (database.py:72, 78)

  function Digit(d: nat): (c: char)
    requires d < 10
  {
    ('0' as int + d) as char
  }

  /** `str(n)` for a natural number. */
  function Decimal(n: nat): (s: string)
    ensures |s| >= 1
    ensures n < 10 <==> |s| == 1
  {
    if n < 10 then [Digit(n)] else Decimal(n / 10) + [Digit(n % 10)]
  }

  lemma {:induction false} DecimalInjective(a: nat, b: nat)
    requires Decimal(a) == Decimal(b)
    ensures a == b
  {
    if a >= 10 && b >= 10 {
      var da, db := Decimal(a), Decimal(b);
      assert da[..|da| - 1] == Decimal(a / 10);
      assert db[..|db| - 1] == Decimal(b / 10);
      DecimalInjective(a / 10, b / 10);
      assert Digit(a % 10) == da[|da| - 1] == db[|db| - 1] == Digit(b % 10);
    } else {
      assert Decimal(a)[0] == Decimal(b)[0];
    }
  }

  /** `f"img{i}"` */
  function ImageKey(i: nat): string {
    "img" + Decimal(i)
  }

  /** Distinct image numbers give distinct keys. */
  lemma ImageKeyInjective(a: nat, b: nat)
    requires ImageKey(a) == ImageKey(b)
    ensures a == b
  {
    assert Decimal(a) == ImageKey(a)[3..];
    assert Decimal(b) == ImageKey(b)[3..];
    DecimalInjective(a, b);
  }

  /** The five keys of a submission are img1 .. img5. */
  lemma FiveImageKeys()
    ensures ImageKey(1) == "img1" && ImageKey(2) == "img2" && ImageKey(3) == "img3"
    ensures ImageKey(4) == "img4" && ImageKey(5) == "img5"
  {
  }

  // ---------------------------------------------------------------------
  // Per-image records (database.py:72-83)

  /** `round(confidence * 100, 6)`, without the rounding. */
  function Percent(confidence: real): real {
    confidence * 100.0
  }

  /** `{class_name: round(confidence * 100, 6) for class_name, confidence in ranking}` */
  function PercentDict(ranking: Ranking): (d: Dict<real>)
    ensures ValidDict(d)
    ensures forall name :: name in Keys(d) <==> name in Keys(ranking)
  {
    if ranking == [] then []
    else
      var init, last := ranking[..|ranking| - 1], ranking[|ranking| - 1];
      var d := PercentDict(init);
      assert Keys(ranking) == Keys(init) + [last.0];
      Put(d, last.0, Percent(last.1))
  }

  /** With distinct labels, every ranked label maps to its confidence as a percentage. */
  lemma {:induction false} PercentDictValues(ranking: Ranking)
    requires ValidDict(ranking)
    ensures forall k :: 0 <= k < |ranking| ==> Get(PercentDict(ranking), ranking[k].0) == Some(Percent(ranking[k].1))
  {
    if ranking != [] {
      var init, last := ranking[..|ranking| - 1], ranking[|ranking| - 1];
      PercentDictValues(init);
      forall k | 0 <= k < |ranking|
        ensures Get(PercentDict(ranking), ranking[k].0) == Some(Percent(ranking[k].1))
      {
        GetPut(PercentDict(init), last.0, Percent(last.1), ranking[k].0);
        if k < |init| {
          assert ranking[k] == init[k];
        }
      }
    }
  }

  /**
   * The record of one image path, or the exception the loop body raises:
   * the exception of opening or classifying the image, KeyError from
   * `get_top_predictions`, or IndexError from
   * `lettuce_predictions[0]` when the file is missing, since
   * `predict_with_model(model, [path])` then returns an empty list
   * (ImageRecordFromPredictions relates the two).
   */
  function ImageRecordOf(rankers: Category -> Ranker, fileExists: string -> bool, path: string): (r: Result<ImageRecord>)
    ensures !fileExists(JoinPath(BASE_DIR, path)) ==> r == Err(IndexError)
  {
    var full := JoinPath(BASE_DIR, path);
    if !fileExists(full) then Err(IndexError)
    else
      var lettuce :- rankers(Lettuce)(full);
      var disease :- rankers(Disease)(full);
      var pest :- rankers(Pest)(full);
      Ok(ImageRecord(full, PercentDict(lettuce), PercentDict(disease), PercentDict(pest)))
  }

  /**
   * The loop body of database.py:72-83 in its own terms: three calls of
   * `predict_with_model` on the one path, then `[0]` of each result.
   */
  lemma ImageRecordFromPredictions(rankers: Category -> Ranker, fileExists: string -> bool, path: string)
    ensures var lettuce, disease, pest :=
        Predictions(rankers(Lettuce), fileExists, [path]),
        Predictions(rankers(Disease), fileExists, [path]),
        Predictions(rankers(Pest), fileExists, [path]);
      ImageRecordOf(rankers, fileExists, path) ==
        if lettuce.Err? then Err(lettuce.error)
        else if disease.Err? then Err(disease.error)
        else if pest.Err? then Err(pest.error)
        else if |lettuce.value| == 0 || |disease.value| == 0 || |pest.value| == 0 then Err(IndexError)
        else Ok(ImageRecord(JoinPath(BASE_DIR, path),
          PercentDict(lettuce.value[0]), PercentDict(disease.value[0]), PercentDict(pest.value[0])))
  {
    PredictionsOfOne(rankers(Lettuce), fileExists, path);
    PredictionsOfOne(rankers(Disease), fileExists, path);
    PredictionsOfOne(rankers(Pest), fileExists, path);
  }

  /** Each image path's record, as the loop body of database.py:73-83 computes it. */
  function RecordMaker(rankers: Category -> Ranker, fileExists: string -> bool): string -> Result<ImageRecord> {
    path => ImageRecordOf(rankers, fileExists, path)
  }

  /**
   * Every record the loop body builds holds a dict per category, since each
   * comes from a dict comprehension; this is what SubmitAverages asks of
   * the records.
   */
  lemma RecordMakerDicts(rankers: Category -> Ranker, fileExists: string -> bool, cat: Category)
    ensures var recordOf := RecordMaker(rankers, fileExists);
      forall path :: recordOf(path).Ok? ==> ValidDict(recordOf(path).value.Of(cat))
  {
    forall path | RecordMaker(rankers, fileExists)(path).Ok?
      ensures ValidDict(RecordMaker(rankers, fileExists)(path).value.Of(cat))
    {
      ImageRecordShape(rankers, fileExists, path);
      match cat
      case Lettuce =>
      case Disease =>
      case Pest =>
    }
  }

  /**
   * `individual_data` after the loop over the image paths, or the exception
   * raised in it, where `recordOf` computes the record of one path.
   */
  function IndividualData(recordOf: string -> Result<ImageRecord>, paths: seq<string>): (r: Result<Dict<ImageRecord>>)
    ensures r.Ok? ==> Keys(r.value) == ImageKeys(|paths|)
  {
    if paths == [] then Ok([])
    else
      var n := |paths|;
      var init :- IndividualData(recordOf, paths[..n - 1]);
      var record :- recordOf(paths[n - 1]);
      ImageKeyFresh(n);
      Ok(Put(init, ImageKey(n), record))
  }

  /** img1, ..., img{n} */
  function ImageKeys(n: nat): (ks: seq<string>)
    ensures |ks| == n
  {
    if n == 0 then [] else ImageKeys(n - 1) + [ImageKey(n)]
  }

  lemma {:induction false} ImageKeysAt(n: nat, i: nat)
    requires i < n
    ensures ImageKeys(n)[i] == ImageKey(i + 1)
  {
    if i < n - 1 {
      ImageKeysAt(n - 1, i);
    }
  }

  /** The key of the n-th image is not among the keys of the images before it. */
  lemma ImageKeyFresh(n: nat)
    requires n > 0
    ensures ImageKey(n) !in ImageKeys(n - 1)
  {
    var before := ImageKeys(n - 1);
    forall i | 0 <= i < |before|
      ensures before[i] != ImageKey(n)
    {
      ImageKeysAt(n - 1, i);
      if before[i] == ImageKey(n) {
        ImageKeyInjective(i + 1, n);
      }
    }
  }

  /** No image key repeats. */
  lemma ImageKeysDistinct(n: nat)
    ensures forall i, j :: 0 <= i < j < n ==> ImageKeys(n)[i] != ImageKeys(n)[j]
  {
    forall i, j | 0 <= i < j < n
      ensures ImageKeys(n)[i] != ImageKeys(n)[j]
    {
      ImageKeysAt(n, i);
      ImageKeysAt(n, j);
      if ImageKeys(n)[i] == ImageKeys(n)[j] {
        ImageKeyInjective(i + 1, j + 1);
      }
    }
  }

  /** The loop succeeds exactly when every path yields a record. */
  lemma {:induction false} IndividualDataSucceeds(recordOf: string -> Result<ImageRecord>, paths: seq<string>)
    ensures IndividualData(recordOf, paths).Ok? <==> forall i :: 0 <= i < |paths| ==> recordOf(paths[i]).Ok?
  {
    if paths != [] {
      var n := |paths|;
      var init := paths[..n - 1];
      IndividualDataSucceeds(recordOf, init);
      var before, last := IndividualData(recordOf, init), recordOf(paths[n - 1]);
      if before.Err? {
        assert IndividualData(recordOf, paths).Err?;
        var i :| 0 <= i < |init| && !recordOf(init[i]).Ok?;
        assert init[i] == paths[i];
      } else if last.Err? {
        assert IndividualData(recordOf, paths).Err?;
      } else {
        assert IndividualData(recordOf, paths).Ok?;
        forall i | 0 <= i < n
          ensures recordOf(paths[i]).Ok?
        {
          if i < n - 1 {
            assert init[i] == paths[i];
          }
        }
      }
    }
  }

  /**
   * A successful loop holds one record per path, in input order, keyed
   * img1, img2, ... with no key twice.
   */
  lemma {:induction false} IndividualDataRecords(recordOf: string -> Result<ImageRecord>, paths: seq<string>)
    requires IndividualData(recordOf, paths).Ok?
    ensures var d := IndividualData(recordOf, paths).value;
      && ValidDict(d)
      && forall i :: 0 <= i < |paths| ==> recordOf(paths[i]) == Ok(d[i].1)
  {
    var d := IndividualData(recordOf, paths).value;
    ImageKeysDistinct(|paths|);
    assert forall i :: 0 <= i < |d| ==> d[i].0 == Keys(d)[i];
    if paths != [] {
      var n := |paths|;
      var init := paths[..n - 1];
      var before := IndividualData(recordOf, init).value;
      IndividualDataRecords(recordOf, init);
      ImageKeyFresh(n);
      assert d == before + [(ImageKey(n), recordOf(paths[n - 1]).value)];
      forall i | 0 <= i < n
        ensures recordOf(paths[i]) == Ok(d[i].1)
      {
        if i < n - 1 {
          assert init[i] == paths[i];
        }
      }
    }
  }

  /** A failing loop raises the exception of the first path whose record fails. */
  lemma {:induction false} IndividualDataFirstError(recordOf: string -> Result<ImageRecord>, paths: seq<string>)
    requires IndividualData(recordOf, paths).Err?
    ensures exists i :: && 0 <= i < |paths|
                        && recordOf(paths[i]) == Err(IndividualData(recordOf, paths).error)
                        && forall j :: 0 <= j < i ==> recordOf(paths[j]).Ok?
  {
    var n := |paths|;
    var init := paths[..n - 1];
    assert forall j :: 0 <= j < n - 1 ==> init[j] == paths[j];
    if IndividualData(recordOf, init).Err? {
      IndividualDataFirstError(recordOf, init);
      var i :| && 0 <= i < |init|
               && recordOf(init[i]) == Err(IndividualData(recordOf, init).error)
               && forall j :: 0 <= j < i ==> recordOf(init[j]).Ok?;
      assert recordOf(paths[i]) == Err(IndividualData(recordOf, paths).error);
    } else {
      IndividualDataSucceeds(recordOf, init);
      assert recordOf(paths[n - 1]) == Err(IndividualData(recordOf, paths).error);
    }
  }

  /** Once the loop has raised on a prefix of the paths, the whole loop raises the same. */
  lemma {:induction false} IndividualDataFailureSticks(recordOf: string -> Result<ImageRecord>, paths: seq<string>, i: nat)
    requires i <= |paths| && IndividualData(recordOf, paths[..i]).Err?
    ensures IndividualData(recordOf, paths) == IndividualData(recordOf, paths[..i])
    decreases |paths| - i
  {
    if i < |paths| {
      var init := paths[..|paths| - 1];
      assert init[..i] == paths[..i];
      IndividualDataFailureSticks(recordOf, init, i);
    } else {
      assert paths[..i] == paths;
    }
  }

  // ---------------------------------------------------------------------
  // Averages (database.py:85-98)

  /** `d[k] += x` on a defaultdict(float): an absent key counts as 0.0. */
  function AddTo(d: Dict<real>, k: string, x: real): Dict<real> {
    Put(d, k, GetOr(d, k, 0.0) + x)
  }

  lemma GetAddTo(d: Dict<real>, k: string, x: real, k': string)
    ensures GetOr(AddTo(d, k, x), k', 0.0) == if k' == k then GetOr(d, k, 0.0) + x else GetOr(d, k', 0.0)
  {
    var v := GetOr(d, k, 0.0) + x;
    GetPut(d, k, v, k');
    GetOrGet(Put(d, k, v), k', 0.0);
    GetOrGet(d, k', 0.0);
  }

  /** `confidence / total_images`: the share of one percentage in an average. */
  function ShareOf(total: nat): real -> real
    requires total > 0
  {
    (p: real) => p / total as real
  }

  /**
   * One inner loop of database.py:93-98 on a defaultdict(float):
   * `acc[class_name] += share(confidence)` for each entry in order.
   */
  function AddEntries(acc: Dict<real>, entries: Dict<real>, share: real -> real): Dict<real> {
    if entries == [] then acc
    else
      var prev := AddEntries(acc, entries[..|entries| - 1], share);
      var last := entries[|entries| - 1];
      AddTo(prev, last.0, share(last.1))
  }

  /** The average map of one category after the outer loop over `images`. */
  function Accumulated(images: seq<ImageRecord>, cat: Category, share: real -> real): Dict<real> {
    if images == [] then []
    else AddEntries(Accumulated(images[..|images| - 1], cat, share), images[|images| - 1].Of(cat), share)
  }

  /** The names each image gives in `cat`, image after image, in each image's own order. */
  function AllNames(images: seq<ImageRecord>, cat: Category): seq<string> {
    if images == [] then []
    else AllNames(images[..|images| - 1], cat) + Keys(images[|images| - 1].Of(cat))
  }

  /** `names` with every repeat dropped: position i is kept when `names[i]` is not in `names[..i]`. */
  function FirstOccurrences(names: seq<string>): seq<string> {
    if names == [] then []
    else
      var init, last := names[..|names| - 1], names[|names| - 1];
      if last in init then FirstOccurrences(init) else FirstOccurrences(init) + [last]
  }

  /** The sum over `images` of the percentage each gives `name` in `cat`, 0 where absent. */
  function NameSum(images: seq<ImageRecord>, cat: Category, name: string): real {
    if images == [] then 0.0
    else NameSum(images[..|images| - 1], cat, name) + GetOr(images[|images| - 1].Of(cat), name, 0.0)
  }

  /** The sum over `images` of the shares of the percentages each gives `name` in `cat`. */
  function ShareSum(images: seq<ImageRecord>, cat: Category, name: string, share: real -> real): real {
    if images == [] then 0.0
    else ShareSum(images[..|images| - 1], cat, name, share) + share(GetOr(images[|images| - 1].Of(cat), name, 0.0))
  }

  /** Adding up the shares of the images is dividing their sum once. */
  lemma {:induction false} ShareSumOfTotal(images: seq<ImageRecord>, cat: Category, name: string, total: nat)
    requires total > 0
    ensures ShareSum(images, cat, name, ShareOf(total)) == NameSum(images, cat, name) / total as real
  {
    if images != [] {
      var init := images[..|images| - 1];
      ShareSumOfTotal(init, cat, name, total);
      DivideSum(NameSum(init, cat, name), GetOr(images[|images| - 1].Of(cat), name, 0.0), total);
    }
  }

  lemma DivideSum(a: real, b: real, total: nat)
    requires total > 0
    ensures a / total as real + b / total as real == (a + b) / total as real
  {
  }

  /** Adding the entries of one dict keeps the names there were and adds its names. */
  lemma {:induction false} AddEntriesKeys(acc: Dict<real>, entries: Dict<real>, share: real -> real, name: string)
    requires ValidDict(acc)
    ensures var r := AddEntries(acc, entries, share);
      && ValidDict(r)
      && (name in Keys(r) <==> name in Keys(acc) || name in Keys(entries))
  {
    if entries != [] {
      var init := entries[..|entries| - 1];
      AddEntriesKeys(acc, init, share, name);
      assert Keys(entries) == Keys(init) + [entries[|entries| - 1].0];
    }
  }

  /** Adding the entries of one dict adds each entry's share to its name. */
  lemma {:induction false} AddEntriesGet(acc: Dict<real>, entries: Dict<real>, share: real -> real, name: string)
    requires share(0.0) == 0.0 && ValidDict(entries)
    ensures GetOr(AddEntries(acc, entries, share), name, 0.0) == GetOr(acc, name, 0.0) + share(GetOr(entries, name, 0.0))
  {
    if entries != [] {
      var init, last := entries[..|entries| - 1], entries[|entries| - 1];
      assert ValidDict(init);
      AddEntriesGet(acc, init, share, name);
      GetAddTo(AddEntries(acc, init, share), last.0, share(last.1), name);
      if last.0 == name {
        assert name !in Keys(init) by {
          forall i | 0 <= i < |init|
            ensures Keys(init)[i] != name
          {
            assert init[i] == entries[i];
          }
        }
        GetOrGet(init, name, 0.0);
      }
    }
  }

  /** Names already in the map keep their positions; new ones follow them. */
  lemma {:induction false} AddEntriesKeepsOrder(acc: Dict<real>, entries: Dict<real>, share: real -> real)
    ensures Keys(acc) <= Keys(AddEntries(acc, entries, share))
  {
    if entries != [] {
      AddEntriesKeepsOrder(acc, entries[..|entries| - 1], share);
    }
  }

  /**
   * The average map of one category after the outer loop holds the names
   * of any image, none twice.
   */
  lemma {:induction false} AccumulatedKeys(images: seq<ImageRecord>, cat: Category, share: real -> real, name: string)
    requires forall i :: 0 <= i < |images| ==> ValidDict(images[i].Of(cat))
    ensures var r := Accumulated(images, cat, share);
      && ValidDict(r)
      && (name in Keys(r) <==> exists i :: 0 <= i < |images| && name in Keys(images[i].Of(cat)))
  {
    if images != [] {
      var init, last := images[..|images| - 1], images[|images| - 1];
      assert forall i :: 0 <= i < |init| ==> init[i] == images[i];
      AccumulatedKeys(init, cat, share, name);
      AddEntriesKeys(Accumulated(init, cat, share), last.Of(cat), share, name);
      InSomeImageStep(images, cat, name);
    }
  }

  lemma InSomeImageStep(images: seq<ImageRecord>, cat: Category, name: string)
    requires images != []
    ensures var init, last := images[..|images| - 1], images[|images| - 1];
      (exists i :: 0 <= i < |images| && name in Keys(images[i].Of(cat))) <==>
      (exists i :: 0 <= i < |init| && name in Keys(init[i].Of(cat))) || name in Keys(last.Of(cat))
  {
    var init := images[..|images| - 1];
    var has := (img: ImageRecord) => name in Keys(img.Of(cat));
    ExistsStep(images, has);
    assert forall i :: 0 <= i < |init| ==> init[i] == images[i];
  }

  lemma ExistsStep<T>(s: seq<T>, p: T -> bool)
    requires s != []
    ensures (exists i :: 0 <= i < |s| && p(s[i])) <==> (exists i :: 0 <= i < |s| - 1 && p(s[i])) || p(s[|s| - 1])
  {
  }

  /**
   * In the average map of one category after the outer loop, each name maps
   * to the sum of its shares over the images (an image without the name
   * adds the share of 0).
   */
  lemma {:induction false} AccumulatedGet(images: seq<ImageRecord>, cat: Category, share: real -> real, name: string)
    requires share(0.0) == 0.0
    requires forall i :: 0 <= i < |images| ==> ValidDict(images[i].Of(cat))
    ensures GetOr(Accumulated(images, cat, share), name, 0.0) == ShareSum(images, cat, name, share)
  {
    if images != [] {
      var init, last := images[..|images| - 1], images[|images| - 1];
      assert forall i :: 0 <= i < |init| ==> init[i] == images[i];
      AccumulatedGet(init, cat, share, name);
      AddEntriesGet(Accumulated(init, cat, share), last.Of(cat), share, name);
    }
  }

  /**
   * Names are kept in the order they were first added: the names present
   * after the first k images lead the final map, in the same order.
   */
  lemma {:induction false} AccumulatedKeepsOrder(images: seq<ImageRecord>, cat: Category, share: real -> real, k: nat)
    requires k <= |images|
    ensures Keys(Accumulated(images[..k], cat, share)) <= Keys(Accumulated(images, cat, share))
    decreases |images| - k
  {
    if k < |images| {
      var init := images[..|images| - 1];
      assert init[..k] == images[..k];
      AccumulatedKeepsOrder(init, cat, share, k);
      AddEntriesKeepsOrder(Accumulated(init, cat, share), images[|images| - 1].Of(cat), share);
    } else {
      assert images[..k] == images;
    }
  }

  /** The first occurrences hold every name once and no other. */
  lemma {:induction false} FirstOccurrencesSpec(names: seq<string>)
    ensures var r := FirstOccurrences(names);
      && (forall x :: x in r <==> x in names)
      && (forall i, j :: 0 <= i < j < |r| ==> r[i] != r[j])
  {
    if names != [] {
      var init := names[..|names| - 1];
      FirstOccurrencesSpec(init);
      assert names == init + [names[|names| - 1]];
    }
  }

  /**
   * One inner loop appends the entries' names the map lacks, in entry
   * order, each once: if the map's names are the first occurrences of
   * `seen`, afterwards they are those of `seen` followed by the entries' names.
   */
  lemma {:induction false} AddEntriesKeyOrder(acc: Dict<real>, entries: Dict<real>, share: real -> real, seen: seq<string>)
    requires Keys(acc) == FirstOccurrences(seen)
    ensures Keys(AddEntries(acc, entries, share)) == FirstOccurrences(seen + Keys(entries))
  {
    if entries == [] {
      assert seen + Keys(entries) == seen;
    } else {
      var init, last := entries[..|entries| - 1], entries[|entries| - 1];
      AddEntriesKeyOrder(acc, init, share, seen);
      var prev, before := AddEntries(acc, init, share), seen + Keys(init);
      assert Keys(entries) == Keys(init) + [last.0];
      assert seen + Keys(entries) == before + [last.0];
      KeysAddTo(prev, last.0, share(last.1));
      FirstOccurrencesAppend(before, last.0);
    }
  }

  lemma KeysAddTo(d: Dict<real>, k: string, x: real)
    ensures Keys(AddTo(d, k, x)) == if k in Keys(d) then Keys(d) else Keys(d) + [k]
  {
  }

  lemma FirstOccurrencesAppend(names: seq<string>, x: string)
    ensures FirstOccurrences(names + [x]) == if x in FirstOccurrences(names) then FirstOccurrences(names) else FirstOccurrences(names) + [x]
  {
    assert (names + [x])[..|names|] == names;
    FirstOccurrencesSpec(names);
  }

  /**
   * The names of an average map are the first occurrences of the images'
   * names taken image after image: a name goes in when it is first seen,
   * and names first seen in one image keep that image's order.
   */
  lemma {:induction false} AccumulatedKeyOrder(images: seq<ImageRecord>, cat: Category, share: real -> real)
    ensures Keys(Accumulated(images, cat, share)) == FirstOccurrences(AllNames(images, cat))
  {
    if images != [] {
      var init := images[..|images| - 1];
      AccumulatedKeyOrder(init, cat, share);
      AddEntriesKeyOrder(Accumulated(init, cat, share), images[|images| - 1].Of(cat), share, AllNames(init, cat));
    }
  }

  /** The outer loop's step: the map after k + 1 images is the map after k with image k's entries added. */
  lemma AccumulatedStep(images: seq<ImageRecord>, cat: Category, share: real -> real, k: nat)
    requires k < |images|
    ensures Accumulated(images[..k + 1], cat, share) == AddEntries(Accumulated(images[..k], cat, share), images[k].Of(cat), share)
  {
    assert images[..k + 1][..k] == images[..k];
  }

  /** One inner loop of database.py:93-98. */
  method AddShares(acc: Dict<real>, entries: Dict<real>, total: nat) returns (r: Dict<real>)
    requires total > 0
    ensures r == AddEntries(acc, entries, ShareOf(total))
  {
    r := acc;
    for j := 0 to |entries|
      invariant r == AddEntries(acc, entries[..j], ShareOf(total))
    {
      assert entries[..j + 1][..j] == entries[..j];
      var className, confidence := entries[j].0, entries[j].1;
      r := AddTo(r, className, confidence / total as real);
    }
    assert entries[..|entries|] == entries;
  }

  /** The nested loops of database.py:92-98 over `individual_data.values()`. */
  method AccumulateAverages(individual: Dict<ImageRecord>, total: nat)
    returns (lettuce: Dict<real>, disease: Dict<real>, pest: Dict<real>)
    requires total > 0
    ensures var images := Values(individual);
      && lettuce == Accumulated(images, Lettuce, ShareOf(total))
      && disease == Accumulated(images, Disease, ShareOf(total))
      && pest == Accumulated(images, Pest, ShareOf(total))
  {
    var images := Values(individual);
    lettuce, disease, pest := [], [], [];
    for k := 0 to |images|
      invariant lettuce == Accumulated(images[..k], Lettuce, ShareOf(total))
      invariant disease == Accumulated(images[..k], Disease, ShareOf(total))
      invariant pest == Accumulated(images[..k], Pest, ShareOf(total))
    {
      AccumulatedStep(images, Lettuce, ShareOf(total), k);
      AccumulatedStep(images, Disease, ShareOf(total), k);
      AccumulatedStep(images, Pest, ShareOf(total), k);
      var imgData := images[k];
      lettuce := AddShares(lettuce, imgData.lettuce, total);
      disease := AddShares(disease, imgData.disease, total);
      pest := AddShares(pest, imgData.pest, total);
    }
    assert images[..|images|] == images;
  }

  // ---------------------------------------------------------------------
  // Sorting by average (database.py:101-103)

  function PairValue(item: (string, real)): real {
    item.1
  }

  function PairKey(item: (string, real)): string {
    item.0
  }

  /**
   * `dict(sorted(d.items(), key=lambda item: item[1], reverse=True))`; the
   * sorted items have distinct keys, so `dict` keeps them in sorted order.
   */
  function SortByValue(d: Dict<real>): Dict<real> {
    SortDesc(d, PairValue)
  }

  /**
   * Sorting an average map keeps it a dict with the same entries and the
   * same lookups, puts it in non-increasing order of value, and keeps the
   * entries of equal value in the order they had.
   */
  lemma SortByValueSpec(d: Dict<real>)
    requires ValidDict(d)
    ensures var r := SortByValue(d);
      && ValidDict(r)
      && SortedDesc(r, PairValue)
      && multiset(r) == multiset(d)
      && (forall name :: Get(r, name) == Get(d, name))
      && (forall v :: Ties(r, PairValue, v) == Ties(d, PairValue, v))
  {
    var r := SortByValue(d);
    assert DistinctBy(d, PairKey) by {
      forall i, j | 0 <= i < j < |d|
        ensures PairKey(d[i]) != PairKey(d[j])
      {
      }
    }
    SortDescDistinctBy(d, PairValue, PairKey);
    assert ValidDict(r) by {
      forall i, j | 0 <= i < j < |r|
        ensures r[i].0 != r[j].0
      {
        assert PairKey(r[i]) != PairKey(r[j]);
      }
    }
    forall name
      ensures Get(r, name) == Get(d, name)
    {
      forall v
        ensures Get(r, name) == Some(v) <==> Get(d, name) == Some(v)
      {
        MemberIffGet(r, name, v);
        MemberIffGet(d, name, v);
        assert (name, v) in r <==> (name, v) in multiset(r);
        assert (name, v) in d <==> (name, v) in multiset(d);
      }
    }
    forall v
      ensures Ties(r, PairValue, v) == Ties(d, PairValue, v)
    {
      SortDescStable(d, PairValue, v);
    }
  }

  /** `avg_all` for the records `images`, divided by `total`. */
  function AveragesOf(images: seq<ImageRecord>, total: nat): Averages
    requires total > 0
  {
    Averages(
      SortByValue(Accumulated(images, Lettuce, ShareOf(total))),
      SortByValue(Accumulated(images, Disease, ShareOf(total))),
      SortByValue(Accumulated(images, Pest, ShareOf(total))))
  }

  /**
   * Each average map is a dict over the names of its category in any image,
   * each name mapped to its summed percentage over `total` (an image without
   * the name adds 0), sorted by non-increasing value, with ties in the order
   * the names were first added, which is the order of their first
   * occurrences image after image.
   */
  lemma AveragesSpec(images: seq<ImageRecord>, total: nat, cat: Category, name: string)
    requires total > 0
    requires forall i :: 0 <= i < |images| ==> ValidDict(images[i].Of(cat))
    ensures var avg, acc := AveragesOf(images, total).Of(cat), Accumulated(images, cat, ShareOf(total));
      && ValidDict(avg)
      && SortedDesc(avg, PairValue)
      && (name in Keys(avg) <==> exists i :: 0 <= i < |images| && name in Keys(images[i].Of(cat)))
      && GetOr(avg, name, 0.0) == NameSum(images, cat, name) / total as real
      && (forall v :: Ties(avg, PairValue, v) == Ties(acc, PairValue, v))
      && Keys(acc) == FirstOccurrences(AllNames(images, cat))
  {
    var acc := Accumulated(images, cat, ShareOf(total));
    AccumulatedKeyOrder(images, cat, ShareOf(total));
    var avg := SortByValue(acc);
    assert AveragesOf(images, total).Of(cat) == avg;
    assert ShareOf(total)(0.0) == 0.0;
    AccumulatedKeys(images, cat, ShareOf(total), name);
    AccumulatedGet(images, cat, ShareOf(total), name);
    ShareSumOfTotal(images, cat, name, total);
    SortByValueSpec(acc);
    GetOrGet(avg, name, 0.0);
    GetOrGet(acc, name, 0.0);
  }

  // ---------------------------------------------------------------------
  // The document (database.py:105-130)

  /** `x or ""` for an optional string argument. */
  function OrEmpty(x: Option<string>): string {
    match x
    case None => ""
    case Some(s) => s
  }

  /** `str(x)` as an f-string renders it: None becomes "None". */
  function PyStr(x: Option<string>): string {
    match x
    case None => "None"
    case Some(s) => s
  }

  /** `f"{create_by}_{timestamp}"` */
  function DocumentId(createBy: Option<string>, timestamp: string): string {
    PyStr(createBy) + "_" + timestamp
  }

  /** If two splits of one string at an underscore differ, the shorter suffix holds the other underscore. */
  lemma SeparatorInSuffix(x1: string, t1: string, x2: string, t2: string)
    requires x1 + "_" + t1 == x2 + "_" + t2 && |x1| > |x2|
    ensures '_' in t2
  {
    var s := x1 + "_" + t1;
    assert s[|x1|] == '_';
    assert t2[|x1| - |x2| - 1] == s[|x1|];
  }

  /**
   * An ISO timestamp has no underscore, so an id tells its author and its
   * timestamp apart: two ids are equal only for the same rendered author
   * and the same timestamp.
   */
  lemma DocumentIdInjective(a1: Option<string>, t1: string, a2: Option<string>, t2: string)
    requires '_' !in t1 && '_' !in t2
    requires DocumentId(a1, t1) == DocumentId(a2, t2)
    ensures PyStr(a1) == PyStr(a2) && t1 == t2
  {
    var s, x1, x2 := DocumentId(a1, t1), PyStr(a1), PyStr(a2);
    if |x1| > |x2| {
      SeparatorInSuffix(x1, t1, x2, t2);
    } else if |x1| < |x2| {
      SeparatorInSuffix(x2, t2, x1, t1);
    } else {
      assert x1 == s[..|x1|] == x2;
      assert t1 == s[|x1| + 1..] == t2;
    }
  }

  /** `combined_data` */
  function Assemble(createDt: Option<string>, createBy: Option<string>, updateDt: Option<string>,
                    updateBy: Option<string>, affectedDt: Option<string>,
                    individual: Dict<ImageRecord>, avgAll: Averages, timestamp: string): Document
  {
    Document(
      Metadata(METADATA_TAB, DocumentId(createBy, timestamp)),
      OrEmpty(createDt), OrEmpty(createBy), OrEmpty(updateDt), OrEmpty(updateBy), OrEmpty(affectedDt),
      individual, avgAll, timestamp)
  }

  // ---------------------------------------------------------------------
  // process_data (database.py:65-132)

  /**
   * What `process_data` returns or raises, with `defaultdict` taken as
   * imported, for the record function `recordOf` (RecordMaker for three
   * models) and the timestamp `datetime.now().isoformat()` returned.
   */
  function Submit(data: Request, recordOf: string -> Result<ImageRecord>, timestamp: string,
                  createDt: Option<string>, createBy: Option<string>, updateDt: Option<string>,
                  updateBy: Option<string>, affectedDt: Option<string>): (r: Result<Document>)
    ensures !HasFiveImages(data) ==> r == Err(ValueError(IMAGE_COUNT_MESSAGE))
  {
    if !HasFiveImages(data) then Err(ValueError(IMAGE_COUNT_MESSAGE))
    else
      var individual :- IndividualData(recordOf, data.imagePaths.value);
      assert |individual| == |Keys(individual)| == REQUIRED_IMAGES;
      var totalImages := |individual|;
      Ok(Assemble(createDt, createBy, updateDt, updateBy, affectedDt,
        individual, AveragesOf(Values(individual), totalImages), timestamp))
  }

  /**
   * A request without exactly five paths is refused with the ValueError,
   * whatever the models would say, so no image is looked at; a request
   * with five paths never raises it.
   */
  lemma ValidationFirst(data: Request, models: Models, fileExists: string -> bool,
                        otherRecordOf: string -> Result<ImageRecord>, timestamp: string,
                        createDt: Option<string>, createBy: Option<string>, updateDt: Option<string>,
                        updateBy: Option<string>, affectedDt: Option<string>)
    ensures var r := Submit(data, RecordMaker(models.Rankers(), fileExists), timestamp, createDt, createBy, updateDt, updateBy, affectedDt);
      && (r == Err(ValueError(IMAGE_COUNT_MESSAGE)) <==> !HasFiveImages(data))
      && (!HasFiveImages(data) ==>
            r == Submit(data, otherRecordOf, timestamp, createDt, createBy, updateDt, updateBy, affectedDt))
  {
    var recordOf := RecordMaker(models.Rankers(), fileExists);
    if HasFiveImages(data) {
      var paths := data.imagePaths.value;
      if IndividualData(recordOf, paths).Err? {
        IndividualDataFirstError(recordOf, paths);
        var i :| 0 <= i < |paths| && recordOf(paths[i]) == Err(IndividualData(recordOf, paths).error);
        ImageRecordErrors(models, fileExists, paths[i]);
      }
    }
  }

  /**
   * The only exceptions an image can raise: IndexError from a missing file,
   * the exception of opening, resizing or classifying an existing one, and
   * KeyError from an unlabelled class. An existing file the lettuce model
   * fails on raises that model's exception.
   */
  lemma ImageRecordErrors(models: Models, fileExists: string -> bool, path: string)
    ensures var r := ImageRecordOf(models.Rankers(), fileExists, path);
      r.Err? ==> r.error == IndexError || r.error == KeyError || r.error.ImageError?
    ensures var full := JoinPath(BASE_DIR, path);
      fileExists(full) && models.lettuce(full).Failed? ==>
        ImageRecordOf(models.Rankers(), fileExists, path) == Err(ImageError(models.lettuce(full).exception))
  {
    var full := JoinPath(BASE_DIR, path);
    RankerErrors(models, Lettuce, full);
    RankerErrors(models, Disease, full);
    RankerErrors(models, Pest, full);
  }

  /**
   * The top predictions of an existing image raise the exception of
   * opening or classifying it, or else at most KeyError.
   */
  lemma RankerErrors(models: Models, cat: Category, full: string)
    ensures var r := models.Rankers()(cat)(full);
      && (models.Of(cat)(full).Failed? ==> r == Err(ImageError(models.Of(cat)(full).exception)))
      && (models.Of(cat)(full).Classified? && r.Err? ==> r.error == KeyError)
  {
    assert models.Rankers()(cat)(full) == RankWith(models.Of(cat))(full);
  }

  /** A record of an image that exists: its full path and three dicts. */
  lemma ImageRecordShape(rankers: Category -> Ranker, fileExists: string -> bool, path: string)
    requires ImageRecordOf(rankers, fileExists, path).Ok?
    ensures var full, record := JoinPath(BASE_DIR, path), ImageRecordOf(rankers, fileExists, path).value;
      && fileExists(full)
      && record.imagePath == full
      && rankers(Lettuce)(full).Ok? && record.lettuce == PercentDict(rankers(Lettuce)(full).value)
      && rankers(Disease)(full).Ok? && record.disease == PercentDict(rankers(Disease)(full).value)
      && rankers(Pest)(full).Ok? && record.pest == PercentDict(rankers(Pest)(full).value)
  {
  }

  /**
   * With five paths, `process_data` succeeds exactly when every image
   * yields a record; the document then holds the records keyed img1 to img5
   * in input order, and otherwise the exception of the first failing image
   * is raised.
   */
  lemma SubmitRecords(data: Request, recordOf: string -> Result<ImageRecord>, timestamp: string,
                      createDt: Option<string>, createBy: Option<string>, updateDt: Option<string>,
                      updateBy: Option<string>, affectedDt: Option<string>)
    requires HasFiveImages(data)
    ensures var r, paths := Submit(data, recordOf, timestamp, createDt, createBy, updateDt, updateBy, affectedDt), data.imagePaths.value;
      && (r.Ok? <==> forall i :: 0 <= i < |paths| ==> recordOf(paths[i]).Ok?)
      && (r.Ok? ==>
            && Keys(r.value.individualData) == ["img1", "img2", "img3", "img4", "img5"]
            && forall i :: 0 <= i < |paths| ==> recordOf(paths[i]) == Ok(r.value.individualData[i].1))
      && (r.Err? ==> exists i :: 0 <= i < |paths| && recordOf(paths[i]) == Err(r.error))
  {
    var paths := data.imagePaths.value;
    var loop := IndividualData(recordOf, paths);
    IndividualDataSucceeds(recordOf, paths);
    if loop.Ok? {
      SubmitOfRecords(data, recordOf, timestamp, createDt, createBy, updateDt, updateBy, affectedDt, loop.value);
      IndividualDataRecords(recordOf, paths);
      SubmissionKeys();
    } else {
      assert Submit(data, recordOf, timestamp, createDt, createBy, updateDt, updateBy, affectedDt) == Err(loop.error);
      IndividualDataFirstError(recordOf, paths);
    }
  }

  /** The keys of a loop over five paths are "img1" .. "img5". */
  lemma SubmissionKeys()
    ensures ImageKeys(REQUIRED_IMAGES) == ["img1", "img2", "img3", "img4", "img5"]
  {
    FiveImageKeys();
    assert ImageKeys(5) == [ImageKey(1), ImageKey(2), ImageKey(3), ImageKey(4), ImageKey(5)];
  }

  /**
   * With the three models, the record stored under img{i+1} holds the
   * i-th input path joined onto the image directory, and the model's
   * rankings of that image as percentage dicts.
   */
  lemma SubmitImagePaths(data: Request, models: Models, fileExists: string -> bool, timestamp: string,
                         createDt: Option<string>, createBy: Option<string>, updateDt: Option<string>,
                         updateBy: Option<string>, affectedDt: Option<string>, i: nat)
    requires Submit(data, RecordMaker(models.Rankers(), fileExists), timestamp, createDt, createBy, updateDt, updateBy, affectedDt).Ok?
    requires i < REQUIRED_IMAGES
    ensures var doc := Submit(data, RecordMaker(models.Rankers(), fileExists), timestamp, createDt, createBy, updateDt, updateBy, affectedDt).value;
      var full := JoinPath(BASE_DIR, data.imagePaths.value[i]);
      && |doc.individualData| == REQUIRED_IMAGES
      && doc.individualData[i].0 == ImageKey(i + 1)
      && doc.individualData[i].1.imagePath == full
      && forall cat :: models.Rankers()(cat)(full).Ok? &&
           doc.individualData[i].1.Of(cat) == PercentDict(models.Rankers()(cat)(full).value)
  {
    var recordOf := RecordMaker(models.Rankers(), fileExists);
    var paths := data.imagePaths.value;
    SubmitUnfolds(data, recordOf, timestamp, createDt, createBy, updateDt, updateBy, affectedDt);
    var individual := IndividualData(recordOf, paths).value;
    IndividualDataRecords(recordOf, paths);
    assert individual[i].0 == Keys(individual)[i] == ImageKeys(REQUIRED_IMAGES)[i];
    ImageKeysAt(REQUIRED_IMAGES, i);
    var record := individual[i].1;
    assert ImageRecordOf(models.Rankers(), fileExists, paths[i]) == Ok(record);
    ImageRecordShape(models.Rankers(), fileExists, paths[i]);
    forall cat
      ensures var full := JoinPath(BASE_DIR, paths[i]);
        models.Rankers()(cat)(full).Ok? && record.Of(cat) == PercentDict(models.Rankers()(cat)(full).value)
    {
      match cat
      case Lettuce =>
      case Disease =>
      case Pest =>
    }
  }

  /**
   * The averages of a stored document: for each category a dict over the
   * names any image reports, each mapped to the sum of its percentages
   * over the five images divided by 5 (absent counts as 0), in
   * non-increasing order, ties in the order the names first occur image
   * after image.
   */
  lemma SubmitAverages(data: Request, recordOf: string -> Result<ImageRecord>, timestamp: string,
                       createDt: Option<string>, createBy: Option<string>, updateDt: Option<string>,
                       updateBy: Option<string>, affectedDt: Option<string>, cat: Category, name: string)
    requires Submit(data, recordOf, timestamp, createDt, createBy, updateDt, updateBy, affectedDt).Ok?
    requires forall path :: recordOf(path).Ok? ==> ValidDict(recordOf(path).value.Of(cat))
    ensures var doc := Submit(data, recordOf, timestamp, createDt, createBy, updateDt, updateBy, affectedDt).value;
      var images, avg := Values(doc.individualData), doc.avgAll.Of(cat);
      && |images| == REQUIRED_IMAGES
      && ValidDict(avg)
      && SortedDesc(avg, PairValue)
      && (name in Keys(avg) <==> exists i :: 0 <= i < |images| && name in Keys(images[i].Of(cat)))
      && GetOr(avg, name, 0.0) == NameSum(images, cat, name) / 5.0
      && (forall v :: Ties(avg, PairValue, v) == Ties(Accumulated(images, cat, ShareOf(5)), PairValue, v))
      && Keys(Accumulated(images, cat, ShareOf(5))) == FirstOccurrences(AllNames(images, cat))
  {
    var paths := data.imagePaths.value;
    var individual := IndividualData(recordOf, paths).value;
    var images := Values(individual);
    SubmitUnfolds(data, recordOf, timestamp, createDt, createBy, updateDt, updateBy, affectedDt);
    IndividualDataRecords(recordOf, paths);
    forall i | 0 <= i < |images|
      ensures ValidDict(images[i].Of(cat))
    {
      assert recordOf(paths[i]) == Ok(images[i]);
    }
    AveragesSpec(images, 5, cat, name);
  }

  /** A successful `process_data` stores the records of the loop and their averages over 5. */
  lemma SubmitUnfolds(data: Request, recordOf: string -> Result<ImageRecord>, timestamp: string,
                      createDt: Option<string>, createBy: Option<string>, updateDt: Option<string>,
                      updateBy: Option<string>, affectedDt: Option<string>)
    requires Submit(data, recordOf, timestamp, createDt, createBy, updateDt, updateBy, affectedDt).Ok?
    ensures HasFiveImages(data) && IndividualData(recordOf, data.imagePaths.value).Ok?
    ensures var individual := IndividualData(recordOf, data.imagePaths.value).value;
      && |individual| == REQUIRED_IMAGES
      && Submit(data, recordOf, timestamp, createDt, createBy, updateDt, updateBy, affectedDt).value ==
           Assemble(createDt, createBy, updateDt, updateBy, affectedDt, individual, AveragesOf(Values(individual), 5), timestamp)
  {
    var individual := IndividualData(recordOf, data.imagePaths.value).value;
    assert |individual| == |Keys(individual)| == 5;
  }

  /**
   * The metadata and provenance fields: the id is the rendered author, an
   * underscore and the timestamp, the same timestamp is stored at top
   * level, and every optional argument that is absent is stored as "".
   */
  lemma SubmitDocument(data: Request, recordOf: string -> Result<ImageRecord>, timestamp: string,
                       createDt: Option<string>, createBy: Option<string>, updateDt: Option<string>,
                       updateBy: Option<string>, affectedDt: Option<string>)
    requires Submit(data, recordOf, timestamp, createDt, createBy, updateDt, updateBy, affectedDt).Ok?
    ensures var doc := Submit(data, recordOf, timestamp, createDt, createBy, updateDt, updateBy, affectedDt).value;
      && doc.metadata.tab == "crop_mangmt_disease"
      && doc.metadata.id == PyStr(createBy) + "_" + doc.timestamp
      && doc.timestamp == timestamp
      && (createBy.Some? ==> doc.metadata.id == doc.createBy + "_" + timestamp)
      && doc.createDt == createDt.GetOr("") && doc.createBy == createBy.GetOr("")
      && doc.updateDt == updateDt.GetOr("") && doc.updateBy == updateBy.GetOr("")
      && doc.affectedDt == affectedDt.GetOr("")
  {
  }

  /**
   * database.py:86 as written: `defaultdict` is not imported, so once the
   * image loop is done the function raises NameError.
   */
  function SubmitAsWritten(data: Request, recordOf: string -> Result<ImageRecord>): (r: Result<Document>)
    ensures !HasFiveImages(data) ==> r == Err(ValueError(IMAGE_COUNT_MESSAGE))
  {
    if !HasFiveImages(data) then Err(ValueError(IMAGE_COUNT_MESSAGE))
    else
      var individual :- IndividualData(recordOf, data.imagePaths.value);
      Err(NameError("defaultdict"))
  }

  /**
   * As written, `process_data` never returns a document: where the intended
   * version succeeds it raises NameError instead, and otherwise it raises
   * what the intended version raises.
   */
  lemma AsWrittenNeverSucceeds(data: Request, recordOf: string -> Result<ImageRecord>, timestamp: string,
                               createDt: Option<string>, createBy: Option<string>, updateDt: Option<string>,
                               updateBy: Option<string>, affectedDt: Option<string>)
    ensures var intended := Submit(data, recordOf, timestamp, createDt, createBy, updateDt, updateBy, affectedDt);
      SubmitAsWritten(data, recordOf) == if intended.Ok? then Err(NameError("defaultdict")) else intended
  {
  }

  /**
   * The body of the loop of database.py:73-83 for one path: three calls of
   * `predict_with_model`, then the record built from the first ranking of each.
   */
  method ImageRecordFor(models: Models, fileExists: string -> bool, imagePath: string)
    returns (record: Result<ImageRecord>)
    ensures record == ImageRecordOf(models.Rankers(), fileExists, imagePath)
  {
    var fullImagePath := JoinPath(BASE_DIR, imagePath);
    var lettucePredictions := PredictWithModel(models.lettuce, fileExists, [imagePath]);
    var diseasePredictions := PredictWithModel(models.disease, fileExists, [imagePath]);
    var pestPredictions := PredictWithModel(models.pest, fileExists, [imagePath]);
    ImageRecordFromPredictions(models.Rankers(), fileExists, imagePath);
    assert models.Rankers()(Lettuce) == RankWith(models.lettuce);
    assert models.Rankers()(Disease) == RankWith(models.disease);
    assert models.Rankers()(Pest) == RankWith(models.pest);
    if lettucePredictions.Err? {
      record := Err(lettucePredictions.error);
    } else if diseasePredictions.Err? {
      record := Err(diseasePredictions.error);
    } else if pestPredictions.Err? {
      record := Err(pestPredictions.error);
    } else if |lettucePredictions.value| == 0 || |diseasePredictions.value| == 0 || |pestPredictions.value| == 0 {
      record := Err(IndexError);
    } else {
      record := Ok(ImageRecord(fullImagePath,
        PercentDict(lettucePredictions.value[0]),
        PercentDict(diseasePredictions.value[0]),
        PercentDict(pestPredictions.value[0])));
    }
  }

  /** One more path: its record joins `individual_data` under the next image key. */
  lemma IndividualDataStep(recordOf: string -> Result<ImageRecord>, paths: seq<string>, i: nat, individual: Dict<ImageRecord>)
    requires i < |paths| && IndividualData(recordOf, paths[..i]) == Ok(individual)
    ensures recordOf(paths[i]).Ok? ==>
      IndividualData(recordOf, paths[..i + 1]) == Ok(Put(individual, ImageKey(i + 1), recordOf(paths[i]).value))
    ensures recordOf(paths[i]).Err? ==>
      IndividualData(recordOf, paths[..i + 1]) == Err(recordOf(paths[i]).error)
  {
    assert paths[..i + 1][..i] == paths[..i];
    assert paths[..i + 1][i] == paths[i];
  }

  /** The loop of database.py:73-83 over the image paths, building `individual_data`. */
  method CollectRecords(models: Models, fileExists: string -> bool, imagePaths: seq<string>)
    returns (r: Result<Dict<ImageRecord>>)
    ensures r == IndividualData(RecordMaker(models.Rankers(), fileExists), imagePaths)
  {
    ghost var recordOf := RecordMaker(models.Rankers(), fileExists);
    var individualData: Dict<ImageRecord> := [];
    for i := 0 to |imagePaths|
      invariant IndividualData(recordOf, imagePaths[..i]) == Ok(individualData)
    {
      var record := ImageRecordFor(models, fileExists, imagePaths[i]);
      IndividualDataStep(recordOf, imagePaths, i, individualData);
      if record.Err? {
        IndividualDataFailureSticks(recordOf, imagePaths, i + 1);
        return Err(record.error);
      }
      individualData := Put(individualData, ImageKey(i + 1), record.value);
    }
    assert imagePaths[..|imagePaths|] == imagePaths;
    r := Ok(individualData);
  }

  /** With five paths and every record computed, `process_data` assembles them with their averages. */
  lemma SubmitOfRecords(data: Request, recordOf: string -> Result<ImageRecord>, timestamp: string,
                        createDt: Option<string>, createBy: Option<string>, updateDt: Option<string>,
                        updateBy: Option<string>, affectedDt: Option<string>, individual: Dict<ImageRecord>)
    requires HasFiveImages(data) && IndividualData(recordOf, data.imagePaths.value) == Ok(individual)
    ensures |individual| == REQUIRED_IMAGES
    ensures Submit(data, recordOf, timestamp, createDt, createBy, updateDt, updateBy, affectedDt) ==
      Ok(Assemble(createDt, createBy, updateDt, updateBy, affectedDt, individual,
        AveragesOf(Values(individual), |individual|), timestamp))
  {
    assert |individual| == |Keys(individual)| == REQUIRED_IMAGES;
  }

  /**
   * `process_data(data, create_dt, create_by, update_dt, update_by,
   * affected_dt)` with the three models, file existence `fileExists` and
   * the `timestamp` of the call.
   */
  method ProcessData(data: Request, models: Models, fileExists: string -> bool, timestamp: string,
                     createDt: Option<string>, createBy: Option<string>, updateDt: Option<string>,
                     updateBy: Option<string>, affectedDt: Option<string>)
    returns (r: Result<Document>)
    ensures r == Submit(data, RecordMaker(models.Rankers(), fileExists), timestamp,
                        createDt, createBy, updateDt, updateBy, affectedDt)
  {
    if !HasFiveImages(data) {
      return Err(ValueError(IMAGE_COUNT_MESSAGE));
    }
    var collected := CollectRecords(models, fileExists, data.imagePaths.value);
    if collected.Err? {
      return Err(collected.error);
    }
    var individualData := collected.value;
    SubmitOfRecords(data, RecordMaker(models.Rankers(), fileExists), timestamp,
      createDt, createBy, updateDt, updateBy, affectedDt, individualData);

    var totalImages := |individualData|;
    var avgPercentageModel1, avgPercentageModel2, avgPercentageModel3 := AccumulateAverages(individualData, totalImages);
    avgPercentageModel1 := SortByValue(avgPercentageModel1);
    avgPercentageModel2 := SortByValue(avgPercentageModel2);
    avgPercentageModel3 := SortByValue(avgPercentageModel3);

    r := Ok(Assemble(createDt, createBy, updateDt, updateBy, affectedDt, individualData,
      Averages(avgPercentageModel1, avgPercentageModel2, avgPercentageModel3), timestamp));
  }
}
