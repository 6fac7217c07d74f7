/**
 * The inference server: `predict` shapes YOLO results into the JSON reply
 * and writes the annotated image; `serve_image` hands a stored image back.
 * YOLO and the image decoder are taken as their outcome, `Inference`.
 */
module Server {
  import opened Wrappers
  import opened Protocol
  import opened OutputNames

  /** An annotated image as `results[0].plot()` draws it; its pixels are not modelled. */
  datatype Picture = Picture(pixels: seq<int>)

  /** One detection box: `box.cls[0]`, `box.conf[0]` and `box.xyxy[0].tolist()`. */
  datatype Box = Box(cls: real, conf: real, xyxy: seq<real>)

  /** One YOLO result: its class-name table, its boxes in order, and its plot. */
  datatype YoloResult = YoloResult(names: map<int, string>, boxes: seq<Box>, plot: Picture)

  /** What decoding the upload and running the model gave: an exception's text, or the results. */
  datatype Inference = Raised(message: string) | Results(results: seq<YoloResult>)

  /** A multipart request, by the names of its file parts. */
  datatype Request = Request(files: set<string>)

  /** What `predict` returned, and the file it wrote, if any. */
  datatype Outcome = Outcome(response: Response, written: Option<(string, Picture)>)

  datatype ServeResult = Served(picture: Picture) | ServeFailed(status: int)

  const IMAGE_PART: string := "image"
  const NO_IMAGE: string := "No image file provided"
  /** The text of the `IndexError` that `results[0]` raises on an empty list. */
  const INDEX_ERROR: string := "list index out of range"

  /** Python's `int()` of a float: truncation toward zero. */
  function Trunc(x: real): (r: int)
    ensures 0.0 <= x ==> 0 <= r && r as real <= x < r as real + 1.0
    ensures x < 0.0 ==> r <= 0 && r as real - 1.0 < x <= r as real
  {
    if x >= 0.0 then x.Floor else -((-x).Floor)
  }

  /** `int(box.cls[0])`, the key looked up in `result.names`. */
  function ClassIndex(b: Box): int
  {
    Trunc(b.cls)
  }

  /** The `{'class', 'confidence', 'bbox'}` entry of one box. */
  function BoxPrediction(names: map<int, string>, b: Box): Prediction
    requires ClassIndex(b) in names
  {
    Prediction(names[ClassIndex(b)], b.conf, b.xyxy)
  }

  /** The decimal text of a natural number. */
  function NatText(n: nat): (r: string)
    ensures r != [] && AllDigits(r)
  {
    if n < 10 then [DigitChar(n)] else NatText(n / 10) + [DigitChar(n % 10)]
  }

  /** `str(KeyError(k))` for an integer key: the key's `repr`. */
  function KeyErrorText(k: int): string
  {
    if k < 0 then "-" + NatText(-k) else NatText(k)
  }

  lemma {:induction false} NatTextRoundTrip(n: nat)
    ensures ParseDigits(NatText(n)) == n
  {
    if n >= 10 {
      var s := NatText(n);
      assert s[..|s| - 1] == NatText(n / 10);
      NatTextRoundTrip(n / 10);
    }
  }

  /** The error text of a missing class names the key, sign and digits. */
  lemma KeyErrorTextNamesKey(k: int)
    ensures k >= 0 ==> ParseDigits(KeyErrorText(k)) == k
    ensures k < 0 ==> KeyErrorText(k)[0] == '-' && ParseDigits(KeyErrorText(k)[1..]) == -k
  {
    if k >= 0 {
      NatTextRoundTrip(k);
    } else {
      assert KeyErrorText(k)[1..] == NatText(-k);
      NatTextRoundTrip(-k);
    }
  }

  /** The inner loop over `result.boxes`; a class index missing from `names` raises `KeyError`. */
  function FlattenBoxes(names: map<int, string>, boxes: seq<Box>): Result<seq<Prediction>, int>
  {
    if boxes == [] then Success([])
    else
      match FlattenBoxes(names, boxes[..|boxes| - 1])
      case Failure(k) => Failure(k)
      case Success(ps) =>
        var b := boxes[|boxes| - 1];
        if ClassIndex(b) in names then Success(ps + [BoxPrediction(names, b)]) else Failure(ClassIndex(b))
  }

  /** Both loops: the predictions of every result in turn, or the first `KeyError`. */
  function Flatten(results: seq<YoloResult>): Result<seq<Prediction>, int>
  {
    if results == [] then Success([])
    else
      match Flatten(results[..|results| - 1])
      case Failure(k) => Failure(k)
      case Success(ps) =>
        var r := results[|results| - 1];
        match FlattenBoxes(r.names, r.boxes)
        case Failure(k) => Failure(k)
        case Success(qs) => Success(ps + qs)
  }

  function TotalBoxes(results: seq<YoloResult>): nat
  {
    if results == [] then 0 else TotalBoxes(results[..|results| - 1]) + |results[|results| - 1].boxes|
  }

  predicate Named(r: YoloResult, j: int)
    requires 0 <= j < |r.boxes|
  {
    ClassIndex(r.boxes[j]) in r.names
  }

  /** The boxes of one result flatten without error exactly when every class index is named. */
  lemma {:induction false} FlattenBoxesSucceeds(r: YoloResult, m: nat)
    requires m <= |r.boxes|
    ensures FlattenBoxes(r.names, r.boxes[..m]).Success? <==> forall j :: 0 <= j < m ==> Named(r, j)
  {
    if m > 0 {
      assert r.boxes[..m][..m - 1] == r.boxes[..m - 1];
      FlattenBoxesSucceeds(r, m - 1);
      if FlattenBoxes(r.names, r.boxes[..m - 1]).Failure? {
        var j :| 0 <= j < m - 1 && !Named(r, j);
        assert 0 <= j < m && !Named(r, j);
      } else if !Named(r, m - 1) {
        assert FlattenBoxes(r.names, r.boxes[..m]).Failure?;
      } else {
        assert FlattenBoxes(r.names, r.boxes[..m]).Success?;
      }
    }
  }

  /** The boxes of one result become one prediction each, in order. */
  lemma {:induction false} FlattenBoxesValues(r: YoloResult, m: nat)
    requires m <= |r.boxes| && FlattenBoxes(r.names, r.boxes[..m]).Success?
    ensures |FlattenBoxes(r.names, r.boxes[..m]).value| == m
    ensures forall j :: 0 <= j < m ==>
      Named(r, j) && FlattenBoxes(r.names, r.boxes[..m]).value[j] == BoxPrediction(r.names, r.boxes[j])
  {
    if m > 0 {
      assert r.boxes[..m][..m - 1] == r.boxes[..m - 1];
      FlattenBoxesValues(r, m - 1);
    }
  }

  /** A failed result reports the class index of its first unnamed box. */
  lemma {:induction false} FlattenBoxesFirstError(r: YoloResult, m: nat)
    requires m <= |r.boxes| && FlattenBoxes(r.names, r.boxes[..m]).Failure?
    ensures exists j :: (0 <= j < m && !Named(r, j) && FlattenBoxes(r.names, r.boxes[..m]).error == ClassIndex(r.boxes[j])
                         && forall j' :: 0 <= j' < j ==> Named(r, j'))
  {
    assert r.boxes[..m][..m - 1] == r.boxes[..m - 1];
    if FlattenBoxes(r.names, r.boxes[..m - 1]).Failure? {
      FlattenBoxesFirstError(r, m - 1);
    } else {
      FlattenBoxesSucceeds(r, m - 1);
      assert !Named(r, m - 1);
    }
  }

  /** The results flatten without error exactly when every class index of every result is named. */
  lemma {:induction false} FlattenSucceeds(results: seq<YoloResult>)
    ensures Flatten(results).Success? <==>
      forall i, j :: 0 <= i < |results| && 0 <= j < |results[i].boxes| ==> Named(results[i], j)
    decreases |results|
  {
    if results != [] {
      var n := |results| - 1;
      var front, r := results[..n], results[n];
      FlattenSucceeds(front);
      assert r.boxes[..|r.boxes|] == r.boxes;
      FlattenBoxesSucceeds(r, |r.boxes|);
      if Flatten(front).Failure? {
        var i, j :| 0 <= i < n && 0 <= j < |front[i].boxes| && !Named(front[i], j);
        assert !Named(results[i], j);
      } else if FlattenBoxes(r.names, r.boxes).Failure? {
        var j :| 0 <= j < |r.boxes| && !Named(r, j);
      } else {
        forall i, j | 0 <= i < n && 0 <= j < |results[i].boxes|
          ensures Named(results[i], j)
        {
          assert front[i] == results[i];
        }
      }
    }
  }

  /** Box `j` of result `i` is named, and its prediction sits after the boxes of the results before it. */
  predicate PlacedAt(results: seq<YoloResult>, predictions: seq<Prediction>, i: nat, j: nat)
    requires i < |results| && j < |results[i].boxes|
  {
    && TotalBoxes(results[..i]) + j < |predictions|
    && Named(results[i], j)
    && predictions[TotalBoxes(results[..i]) + j] == BoxPrediction(results[i].names, results[i].boxes[j])
  }

  /** The predictions: one per box, ordered by result then by box. */
  lemma {:induction false} FlattenValues(results: seq<YoloResult>)
    requires Flatten(results).Success?
    ensures |Flatten(results).value| == TotalBoxes(results)
    ensures forall i, j :: 0 <= i < |results| && 0 <= j < |results[i].boxes| ==> PlacedAt(results, Flatten(results).value, i, j)
    decreases |results|
  {
    if results != [] {
      var n := |results| - 1;
      var front, r := results[..n], results[n];
      FlattenValues(front);
      assert r.boxes[..|r.boxes|] == r.boxes;
      FlattenBoxesValues(r, |r.boxes|);
      var ps, qs := Flatten(front).value, FlattenBoxes(r.names, r.boxes).value;
      assert Flatten(results).value == ps + qs;
      forall i, j | 0 <= i < |results| && 0 <= j < |results[i].boxes|
        ensures PlacedAt(results, ps + qs, i, j)
      {
        if i < n {
          assert PlacedAt(front, ps, i, j);
          assert front[i] == results[i] && front[..i] == results[..i];
        } else {
          assert results[..i] == front;
        }
      }
    }
  }

  /** A failed prefix of the boxes fails the whole result with the same key. */
  lemma {:induction false} BoxesFailureExtends(names: map<int, string>, boxes: seq<Box>, m: nat)
    requires m <= |boxes| && FlattenBoxes(names, boxes[..m]).Failure?
    ensures FlattenBoxes(names, boxes) == FlattenBoxes(names, boxes[..m])
    decreases |boxes| - m
  {
    if m < |boxes| {
      var n := |boxes| - 1;
      assert boxes[..n][..m] == boxes[..m];
      BoxesFailureExtends(names, boxes[..n], m);
    } else {
      assert boxes[..m] == boxes;
    }
  }

  /** A failed prefix of the results fails the whole flattening with the same key. */
  lemma {:induction false} FlattenFailureExtends(results: seq<YoloResult>, m: nat)
    requires m <= |results| && Flatten(results[..m]).Failure?
    ensures Flatten(results) == Flatten(results[..m])
    decreases |results| - m
  {
    if m < |results| {
      var n := |results| - 1;
      assert results[..n][..m] == results[..m];
      FlattenFailureExtends(results[..n], m);
    } else {
      assert results[..m] == results;
    }
  }

  /** Lines 47-55: the nested loops that append one prediction per box. */
  method CollectPredictions(results: seq<YoloResult>) returns (r: Result<seq<Prediction>, int>)
    ensures r == Flatten(results)
  {
    var predictions: seq<Prediction> := [];
    var i := 0;
    while i < |results|
      invariant 0 <= i <= |results|
      invariant Flatten(results[..i]) == Success(predictions)
    {
      var result := results[i];
      ghost var before := predictions;
      ghost var added: seq<Prediction> := [];
      var j := 0;
      while j < |result.boxes|
        invariant 0 <= j <= |result.boxes|
        invariant FlattenBoxes(result.names, result.boxes[..j]) == Success(added)
        invariant predictions == before + added
      {
        var box := result.boxes[j];
        assert result.boxes[..j + 1][..j] == result.boxes[..j];
        var k := Trunc(box.cls);
        if k !in result.names {
          BoxesFailureExtends(result.names, result.boxes, j + 1);
          assert results[..i + 1][..i] == results[..i];
          FlattenFailureExtends(results, i + 1);
          return Failure(k);
        }
        predictions := predictions + [Prediction(result.names[k], box.conf, box.xyxy)];
        added := added + [Prediction(result.names[k], box.conf, box.xyxy)];
        j := j + 1;
      }
      assert result.boxes[..j] == result.boxes;
      assert results[..i + 1][..i] == results[..i];
      i := i + 1;
    }
    assert results[..i] == results;
    return Success(predictions);
  }

  /** `predict`: the reply, and the annotated image written on the way. */
  function PredictOutcome(req: Request, inference: Inference, now: Timestamp): Outcome
    requires ValidTimestamp(now)
  {
    if IMAGE_PART !in req.files then Outcome(Response(400, ErrorBody(NO_IMAGE)), None)
    else match inference
      case Raised(message) => Outcome(Response(500, ErrorBody(message)), None)
      case Results(results) =>
        if results == [] then Outcome(Response(500, ErrorBody(INDEX_ERROR)), None)
        else
          var name := Filename(now);
          var written := Some((OutputPath(name), results[0].plot));
          match Flatten(results)
          case Failure(k) => Outcome(Response(500, ErrorBody(KeyErrorText(k))), written)
          case Success(predictions) => Outcome(Response(200, SuccessBody(predictions, ImageUrl(name))), written)
  }

  /**
   * The files after a write. `cv2.imwrite` stores the plot under the name
   * the path resolves to; when the lookup fails on the way (a missing
   * directory), or the name is a directory, it returns `False` and nothing
   * is written.
   */
  function Store(files: map<string, Picture>, dirs: set<string>, written: Option<(string, Picture)>): map<string, Picture>
  {
    match written
    case None => files
    case Some((path, picture)) =>
      match Locate(path, dirs)
      case None => files
      case Some(key) => if key in dirs then files else files[key := picture]
  }

  /**
   * `serve_image`: `send_file` of the name joined onto the output directory.
   * The file system resolves the joined path component by component; a
   * failed lookup, a missing file or a directory raises, and Flask answers 500.
   */
  function Serve(files: map<string, Picture>, dirs: set<string>, filename: string): (r: ServeResult)
    ensures r.Served? <==> && Locate(OutputPath(filename), dirs).Some?
                           && Locate(OutputPath(filename), dirs).value in files
                           && Locate(OutputPath(filename), dirs).value !in dirs
    ensures r.Served? ==> r.picture == files[Locate(OutputPath(filename), dirs).value]
    ensures r.ServeFailed? ==> r.status == 500
  {
    match Locate(OutputPath(filename), dirs)
    case None => ServeFailed(500)
    case Some(key) => if key in files && key !in dirs then Served(files[key]) else ServeFailed(500)
  }

  /** A `./` in front of a plain name serves the same file as the name alone. */
  lemma ServeDotSlash(files: map<string, Picture>, dirs: set<string>, name: string)
    requires PlainName(name)
    ensures Route(URL_PREFIX + "./" + name) == Some("./" + name)
    ensures Serve(files, dirs, "./" + name) == Serve(files, dirs, name)
  {
    assert URL_PREFIX + "./" + name == ImageUrl("./" + name);
    RouteInvertsImageUrl(URL_PREFIX + "./" + name, "./" + name);
    LocateDotSlash(name, dirs);
  }

  /**
   * A name with a `..` after another component is served only when that
   * component is an existing directory inside the output directory; a
   * missing one, or a file such as an earlier image, gives 500.
   */
  lemma ServeThroughComponent(files: map<string, Picture>, dirs: set<string>, c: string, name: string)
    requires PlainName(c) && PlainName(name)
    ensures Route(URL_PREFIX + (c + "/../" + name)) == Some(c + "/../" + name)
    ensures Serve(files, dirs, c + "/../" + name)
         == if OUTPUT_DIR + "/" + c in dirs then Serve(files, dirs, name) else ServeFailed(500)
  {
    assert c[0] in c;
    assert (c + "/../" + name)[0] == c[0];
    RouteInvertsImageUrl(URL_PREFIX + (c + "/../" + name), c + "/../" + name);
    LocateThroughComponent(c, name, dirs);
  }

  /**
   * The route passes `../` through, and `serve_image` then reads the file
   * beside the output directory.
   */
  lemma ServeEscapesOutputDir(files: map<string, Picture>, dirs: set<string>, name: string)
    requires PlainName(name)
    ensures Route(URL_PREFIX + "../" + name) == Some("../" + name)
    ensures Serve(files, dirs, "../" + name)
         == if OUTPUT_DIR in dirs && name in files && name !in dirs then Served(files[name]) else ServeFailed(500)
  {
    assert URL_PREFIX + "../" + name == ImageUrl("../" + name);
    RouteInvertsImageUrl(URL_PREFIX + "../" + name, "../" + name);
    LocateParent(name, dirs);
  }

  /** No image `predict` writes changes what `../<name>` serves. */
  lemma WritesMissParent(files: map<string, Picture>, dirs: set<string>, name: string, now: Timestamp, picture: Picture)
    requires PlainName(name) && ValidTimestamp(now)
    ensures Serve(Store(files, dirs, Some((OutputPath(Filename(now)), picture))), dirs, "../" + name)
         == Serve(files, dirs, "../" + name)
  {
    LocateParent(name, dirs);
    ParentEscapes(name, dirs);
    WrittenPathLocated(now, dirs);
  }

  /**
   * A request without an `image` part gets 400 with the fixed message,
   * whatever the model would have said, and nothing is written.
   */
  lemma MissingImageIsRejected(req: Request, inference: Inference, other: Inference, now: Timestamp)
    requires ValidTimestamp(now) && IMAGE_PART !in req.files
    ensures PredictOutcome(req, inference, now) == Outcome(Response(400, ErrorBody(NO_IMAGE)), None)
    ensures PredictOutcome(req, inference, now) == PredictOutcome(req, other, now)
  {
  }

  /**
   * When decoding the upload or running the model raises, or the model gives
   * no results so that `results[0]` raises `IndexError`, the reply is 500
   * with the exception's text, and nothing was written.
   */
  lemma InferenceFailureIsReported(files: map<string, Picture>, dirs: set<string>, req: Request, inference: Inference, now: Timestamp)
    requires ValidTimestamp(now) && IMAGE_PART in req.files
    requires inference.Raised? || inference.results == []
    ensures PredictOutcome(req, inference, now)
         == Outcome(Response(500, ErrorBody(if inference.Raised? then inference.message else INDEX_ERROR)), None)
    ensures Store(files, dirs, PredictOutcome(req, inference, now).written) == files
  {
  }

  /**
   * Every reply is 200 with a success body, 400 for a missing image, or 500
   * with the exception's text; a success always wrote the image first.
   */
  lemma StatusesAreExhaustive(req: Request, inference: Inference, now: Timestamp)
    requires ValidTimestamp(now)
    ensures var o := PredictOutcome(req, inference, now);
      && (o.response.status == 200 <==> o.response.body.SuccessBody?)
      && (o.response.status == 400 <==> IMAGE_PART !in req.files)
      && (o.response.status == 200 || o.response.status == 400 || o.response.status == 500)
      && (o.response.status == 200 ==> o.written.Some?)
  {
  }

  /**
   * A successful reply carries one prediction per box, by result then by
   * box, and the URL of the image written under this second's file name.
   */
  lemma SuccessReply(req: Request, inference: Inference, now: Timestamp)
    requires ValidTimestamp(now)
    requires PredictOutcome(req, inference, now).response.status == 200
    ensures inference.Results? && inference.results != []
    ensures var o := PredictOutcome(req, inference, now);
      var results := inference.results;
      && o.written == Some((OutputPath(Filename(now)), results[0].plot))
      && o.response.body.imageUrl == ImageUrl(Filename(now))
      && |o.response.body.predictions| == TotalBoxes(results)
      && forall i, j :: 0 <= i < |results| && 0 <= j < |results[i].boxes| ==> PlacedAt(results, o.response.body.predictions, i, j)
  {
    FlattenValues(inference.results);
  }

  /**
   * A class index missing from `names` gives 500 naming the key of the first
   * such box, after the image was already written.
   */
  lemma UnnamedClassWritesThenFails(req: Request, results: seq<YoloResult>, now: Timestamp, i: nat, j: nat)
    requires ValidTimestamp(now) && IMAGE_PART in req.files
    requires i < |results| && j < |results[i].boxes| && !Named(results[i], j)
    ensures var o := PredictOutcome(req, Results(results), now);
      && o.response.status == 500
      && o.written == Some((OutputPath(Filename(now)), results[0].plot))
      && exists i', j' :: FirstUnnamed(results, i', j')
           && o.response.body == ErrorBody(KeyErrorText(ClassIndex(results[i'].boxes[j'])))
  {
    FlattenSucceeds(results);
    FlattenErrorIsFirstUnnamedBox(results);
  }

  /**
   * Box `j` of result `i` is the first box, by result and then by box,
   * whose class index is missing from its result's `names`.
   */
  predicate FirstUnnamed(results: seq<YoloResult>, i: int, j: int)
  {
    && 0 <= i < |results| && 0 <= j < |results[i].boxes| && !Named(results[i], j)
    && (forall i', j' :: 0 <= i' < i && 0 <= j' < |results[i'].boxes| ==> Named(results[i'], j'))
    && (forall j' :: 0 <= j' < j ==> Named(results[i], j'))
  }

  /** A failed flattening reports the class index of the first unnamed box, where the nested loops raise. */
  lemma {:induction false} FlattenErrorIsFirstUnnamedBox(results: seq<YoloResult>)
    requires Flatten(results).Failure?
    ensures exists i, j :: FirstUnnamed(results, i, j) && Flatten(results).error == ClassIndex(results[i].boxes[j])
    decreases |results|
  {
    var n := |results| - 1;
    var front, r := results[..n], results[n];
    if Flatten(front).Failure? {
      FlattenErrorIsFirstUnnamedBox(front);
      var i, j :| FirstUnnamed(front, i, j) && Flatten(front).error == ClassIndex(front[i].boxes[j]);
      assert front[i] == results[i];
      forall i', j' | 0 <= i' < i && 0 <= j' < |results[i'].boxes|
        ensures Named(results[i'], j')
      {
        assert front[i'] == results[i'];
      }
      assert FirstUnnamed(results, i, j);
    } else {
      FlattenSucceeds(front);
      assert r.boxes[..|r.boxes|] == r.boxes;
      FlattenBoxesFirstError(r, |r.boxes|);
      var j :| 0 <= j < |r.boxes| && !Named(r, j) && FlattenBoxes(r.names, r.boxes).error == ClassIndex(r.boxes[j])
        && forall j' :: 0 <= j' < j ==> Named(r, j');
      forall i', j' | 0 <= i' < n && 0 <= j' < |results[i'].boxes|
        ensures Named(results[i'], j')
      {
        assert front[i'] == results[i'];
      }
      assert FirstUnnamed(results, n, j);
    }
  }

  /**
   * The URL in a successful reply routes to a file name that `serve_image`
   * resolves to the image this request wrote, unless a directory already
   * stands under that name: then the write failed and serving gives 500.
   */
  lemma PredictThenServe(files: map<string, Picture>, dirs: set<string>, req: Request, inference: Inference, now: Timestamp)
    requires ValidTimestamp(now) && OUTPUT_DIR in dirs
    requires PredictOutcome(req, inference, now).response.status == 200
    ensures var o := PredictOutcome(req, inference, now);
      && Route(o.response.body.imageUrl) == Some(Filename(now))
      && Serve(Store(files, dirs, o.written), dirs, Filename(now))
         == if OutputPath(Filename(now)) in dirs then ServeFailed(500) else Served(inference.results[0].plot)
  {
    SuccessReply(req, inference, now);
    ImageUrlServesWrittenPath(now, dirs);
  }

  /**
   * Two successful requests in the same second share one file name: the
   * second overwrites the first, whose URL then serves the second image.
   */
  lemma SameSecondOverwrites(files: map<string, Picture>, dirs: set<string>, req: Request, first: Inference, second: Inference, now: Timestamp)
    requires ValidTimestamp(now) && OUTPUT_DIR in dirs
    requires PredictOutcome(req, first, now).response.status == 200
    requires PredictOutcome(req, second, now).response.status == 200
    ensures PredictOutcome(req, first, now).response.body.imageUrl == PredictOutcome(req, second, now).response.body.imageUrl
    ensures Serve(Store(Store(files, dirs, PredictOutcome(req, first, now).written), dirs, PredictOutcome(req, second, now).written), dirs, Filename(now))
         == if OutputPath(Filename(now)) in dirs then ServeFailed(500) else Served(second.results[0].plot)
  {
    SuccessReply(req, first, now);
    SuccessReply(req, second, now);
    WrittenPathLocated(now, dirs);
  }

  /**
   * The files `predict` writes and `serve_image` reads, and the directories
   * they are looked up through.
   */
  class OutputStore {
    var files: map<string, Picture>
    var dirs: set<string>

    /**
     * Start-up: `os.makedirs(OUTPUT_DIR, exist_ok=True)` over the existing
     * files and directories; it raises `FileExistsError` when a file stands
     * under that name, so the server starts only without one.
     */
    constructor(existing: map<string, Picture>, existingDirs: set<string>)
      requires OUTPUT_DIR !in existing
      ensures files == existing
      ensures dirs == existingDirs + {OUTPUT_DIR}
    {
      files := existing;
      dirs := existingDirs + {OUTPUT_DIR};
    }

    /** `predict` (server/server.py:23-67). */
    method Predict(req: Request, inference: Inference, now: Timestamp) returns (response: Response)
      requires ValidTimestamp(now)
      modifies this
      ensures response == PredictOutcome(req, inference, now).response
      ensures files == Store(old(files), dirs, PredictOutcome(req, inference, now).written)
      ensures dirs == old(dirs)
    {
      if IMAGE_PART !in req.files {
        return Response(400, ErrorBody(NO_IMAGE));
      }
      if inference.Raised? {
        return Response(500, ErrorBody(inference.message));
      }
      var results := inference.results;
      if |results| == 0 {
        return Response(500, ErrorBody(INDEX_ERROR));
      }
      var outputFilename := Filename(now);
      var outputPath := OutputPath(outputFilename);
      var target := Locate(outputPath, dirs);
      if target.Some? && target.value !in dirs {
        files := files[target.value := results[0].plot];
      }
      var predictions := CollectPredictions(results);
      if predictions.Failure? {
        return Response(500, ErrorBody(KeyErrorText(predictions.error)));
      }
      var imageUrl := ImageUrl(outputFilename);
      return Response(200, SuccessBody(predictions.value, imageUrl));
    }

    /** `serve_image` (server/server.py:19-21). */
    method ServeImage(filename: string) returns (r: ServeResult)
      ensures r == Serve(files, dirs, filename)
    {
      var target := Locate(OutputPath(filename), dirs);
      if target.Some? && target.value in files && target.value !in dirs {
        return Served(files[target.value]);
      }
      return ServeFailed(500);
    }
  }
}
