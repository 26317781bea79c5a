/**
 * `predict_with_model` (database.py:41-57): run one classifier over a list
 * of image paths under the image directory, skipping files that do not
 * exist. The classifier and the file system are parameters: `model` maps a
 * full image path to the classifier's first result or the exception raised
 * on the way to it, and `fileExists` says whether a file is present.
 */
module Prediction {
  import opened Results
  import opened TopPredictions

  /** The directory image paths are resolved against. */
  const BASE_DIR: string := "/home/sarthak/Downloads/graph/"

  /**
   * What opening the file at a full path, resizing it and running a model
   * on it gives: the model's first result, or the exception one of those
   * steps raises (IsADirectoryError for a directory, UnidentifiedImageError
   * for a file that is not an image, or whatever the model raises).
   */
  datatype Inference = Classified(scores: Scores) | Failed(exception: string)

  /** A loaded classification model applied to the image stored at a path. */
  type Classifier = string -> Inference

  /** The top predictions of one image. */
  type Ranking = seq<(string, real)>

  /** What `get_top_predictions(model(img))` gives for the image at a full path. */
  type Ranker = string -> Result<Ranking>

  function RankWith(model: Classifier): Ranker {
    full =>
      match model(full)
      case Failed(exception) => Err(ImageError(exception))
      case Classified(scores) => GetTopPredictions(scores)
  }

  /** `os.path.join(base, path)` for POSIX paths. */
  function JoinPath(base: string, path: string): (r: string)
    ensures |path| <= |r| && r[|r| - |path|..] == path
  {
    if |path| > 0 && path[0] == '/' then path
    else if base == [] || base[|base| - 1] == '/' then base + path
    else base + "/" + path
  }

  /** A relative image path lands inside the image directory; an absolute one replaces it. */
  lemma JoinPathUnderBaseDir(path: string)
    ensures |path| > 0 && path[0] == '/' ==> JoinPath(BASE_DIR, path) == path
    ensures !(|path| > 0 && path[0] == '/') ==> JoinPath(BASE_DIR, path) == BASE_DIR + path
  {
  }

  /** The full paths of the images that exist, in input order. */
  function ExistingImages(fileExists: string -> bool, paths: seq<string>): seq<string> {
    if paths == [] then []
    else
      var init := ExistingImages(fileExists, paths[..|paths| - 1]);
      var full := JoinPath(BASE_DIR, paths[|paths| - 1]);
      if fileExists(full) then init + [full] else init
  }

  /**
   * What `predict_with_model(model, paths)` returns or raises, for the
   * ranking `rank` of the model; the statements below hold for every ranking.
   */
  function Predictions(rank: Ranker, fileExists: string -> bool, paths: seq<string>): Result<seq<Ranking>> {
    if paths == [] then Ok([])
    else
      var init :- Predictions(rank, fileExists, paths[..|paths| - 1]);
      var full := JoinPath(BASE_DIR, paths[|paths| - 1]);
      if fileExists(full) then
        var top :- rank(full);
        Ok(init + [top])
      else
        Ok(init)
  }

  method PredictWithModel(model: Classifier, fileExists: string -> bool, imagePaths: seq<string>)
    returns (r: Result<seq<Ranking>>)
    ensures r == Predictions(RankWith(model), fileExists, imagePaths)
  {
    var allPredictions := [];
    for i := 0 to |imagePaths|
      invariant Predictions(RankWith(model), fileExists, imagePaths[..i]) == Ok(allPredictions)
    {
      assert imagePaths[..i + 1][..i] == imagePaths[..i];
      var fullImagePath := JoinPath(BASE_DIR, imagePaths[i]);
      if fileExists(fullImagePath) {
        var inference := model(fullImagePath);
        if inference.Failed? {
          PredictionsFailureSticks(RankWith(model), fileExists, imagePaths, i + 1);
          return Err(ImageError(inference.exception));
        }
        var top := GetTopPredictions(inference.scores);
        if top.Err? {
          PredictionsFailureSticks(RankWith(model), fileExists, imagePaths, i + 1);
          return Err(top.error);
        }
        allPredictions := allPredictions + [top.value];
      }
    }
    assert imagePaths[..|imagePaths|] == imagePaths;
    r := Ok(allPredictions);
  }

  /** Once a prefix of the paths raises, so does the whole list, with the same error. */
  lemma {:induction false} PredictionsFailureSticks(rank: Ranker, fileExists: string -> bool, paths: seq<string>, i: nat)
    requires i <= |paths| && Predictions(rank, fileExists, paths[..i]).Err?
    ensures Predictions(rank, fileExists, paths) == Predictions(rank, fileExists, paths[..i])
    decreases |paths| - i
  {
    if i < |paths| {
      var init := paths[..|paths| - 1];
      assert init[..i] == paths[..i];
      PredictionsFailureSticks(rank, fileExists, init, i);
    } else {
      assert paths[..i] == paths;
    }
  }

  /** `predict_with_model` raises exactly when the top predictions of some existing image do. */
  lemma {:induction false} PredictionsSucceed(rank: Ranker, fileExists: string -> bool, paths: seq<string>)
    ensures var images := ExistingImages(fileExists, paths);
      Predictions(rank, fileExists, paths).Ok? <==> forall k :: 0 <= k < |images| ==> rank(images[k]).Ok?
  {
    if paths != [] {
      var init := paths[..|paths| - 1];
      PredictionsSucceed(rank, fileExists, init);
      var full := JoinPath(BASE_DIR, paths[|paths| - 1]);
      var before, images := Predictions(rank, fileExists, init), ExistingImages(fileExists, init);
      assert Predictions(rank, fileExists, init).Ok? <==>
        forall k :: 0 <= k < |ExistingImages(fileExists, init)| ==> rank(ExistingImages(fileExists, init)[k]).Ok?;
      assert before.Ok? <==> forall k :: 0 <= k < |images| ==> rank(images[k]).Ok?;
      if fileExists(full) {
        assert ExistingImages(fileExists, paths) == images + [full];
        AllRankedAppend(rank, images, full);
        assert Predictions(rank, fileExists, paths).Ok? <==> before.Ok? && rank(full).Ok?;
        var all := ExistingImages(fileExists, paths);
        assert (forall k :: 0 <= k < |all| ==> rank(all[k]).Ok?) <==> before.Ok? && rank(full).Ok?;
      } else {
        assert ExistingImages(fileExists, paths) == images;
        assert Predictions(rank, fileExists, paths) == before;
      }
    }
  }

  /** Every path of `images + [full]` ranks exactly when every path of `images` and `full` do. */
  lemma AllRankedAppend(rank: Ranker, images: seq<string>, full: string)
    ensures var all := images + [full];
      (forall k :: 0 <= k < |all| ==> rank(all[k]).Ok?) <==>
      (forall k :: 0 <= k < |images| ==> rank(images[k]).Ok?) && rank(full).Ok?
  {
    var all := images + [full];
    assert all[|images|] == full;
    assert forall k :: 0 <= k < |images| ==> all[k] == images[k];
  }

  /**
   * A successful `predict_with_model` holds one ranking per existing image,
   * in input order, and nothing for a missing one.
   */
  lemma {:induction false} PredictionsSkipMissing(rank: Ranker, fileExists: string -> bool, paths: seq<string>)
    requires Predictions(rank, fileExists, paths).Ok?
    ensures var r, images := Predictions(rank, fileExists, paths).value, ExistingImages(fileExists, paths);
      && |r| == |images|
      && forall k :: 0 <= k < |images| ==> rank(images[k]) == Ok(r[k])
  {
    if paths != [] {
      var init, last := paths[..|paths| - 1], paths[|paths| - 1];
      PredictionsSkipMissing(rank, fileExists, init);
      var full := JoinPath(BASE_DIR, last);
      var before, images := Predictions(rank, fileExists, init).value, ExistingImages(fileExists, init);
      if fileExists(full) {
        assert ExistingImages(fileExists, paths) == images + [full];
        var top := rank(full).value;
        assert Predictions(rank, fileExists, paths).value == before + [top];
      }
    }
  }

  /** `predict_with_model(model, [path])`, the way process_data calls it. */
  lemma PredictionsOfOne(rank: Ranker, fileExists: string -> bool, path: string)
    ensures var full, r := JoinPath(BASE_DIR, path), Predictions(rank, fileExists, [path]);
      && (!fileExists(full) ==> r == Ok([]))
      && (fileExists(full) ==> r == match rank(full)
                                case Ok(top) => Ok([top])
                                case Err(e) => Err(e))
  {
    assert [path][..0] == [];
    assert Predictions(rank, fileExists, []) == Ok([]);
    var top := rank(JoinPath(BASE_DIR, path));
    if top.Ok? {
      assert [] + [top.value] == [top.value];
    }
  }
}
