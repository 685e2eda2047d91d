/** backend/repositories/upload.py: the older upload handler and
    `process_data`. Files live on local disk here: the upload is written
    under the upload directory, `process_data` reads it back by name, and
    plots and models are saved under `/static`. Disk, rendering, pandas'
    numerics, model fitting and the text generator are inputs (`Env`). */
module LegacyPipeline {
  import opened Py
  import opened Frames
  import opened Imputation
  import opened Trace
  import opened Ranking
  import opened Narrative
  import opened Analyses

  // -------------------------------------------------------------- paths

  /** `os.path.join(a, b)` on POSIX for two parts. */
  function PathJoin(a: string, b: string): string
  {
    if StartsWith(b, "/") then b
    else if a == [] || EndsWith(a, "/") then a + b
    else a + "/" + b
  }

  /** An absolute second part replaces the first; a relative one lands
      under it. */
  lemma PathJoinCases(a: string, b: string)
    ensures StartsWith(b, "/") ==> PathJoin(a, b) == b
    ensures !StartsWith(b, "/") && a != [] && !EndsWith(a, "/") ==>
      PathJoin(a, b) == a + "/" + b && StartsWith(PathJoin(a, b), a + "/")
  {
    if !StartsWith(b, "/") && a != [] && !EndsWith(a, "/") {
      assert (a + "/" + b)[..|a + "/"|] == a + "/";
    }
  }

  /** `os.path.join(os.path.dirname(__file__), "../uploads")`, `here` being
      the module's directory. */
  function UploadDir(here: string): string
  {
    PathJoin(here, "../uploads")
  }

  lemma UploadDirShape(here: string)
    ensures EndsWith(UploadDir(here), "../uploads")
    ensures UploadDir(here) != [] && !EndsWith(UploadDir(here), "/")
  {
    var d := UploadDir(here);
    assert !StartsWith("../uploads", "/") by { assert "../uploads"[0] == '.'; }
    assert d[|d| - 10..] == "../uploads";
    assert d[|d| - 1..] == "s";
  }

  /** `save_plot`: the figure goes under the graph directory and the route
      answers with its `/static/graphs/` path; `save` gives the text of the
      exception rendering or writing raised, if any. */
  function SavePlot(save: string -> Option<string>, name: string): (r: Result<string, string>)
    ensures r.Ok? <==> save(name).None?
    ensures r.Ok? ==> r.value == "/static/graphs/" + name
    ensures r.Err? ==> r.error == save(name).value
  {
    match save(name)
    case None => Ok("/static/graphs/" + name)
    case Some(e) => Err(e)
  }

  // ------------------------------------------------------------- upload

  /** The older `/upload`: the name must end in ".csv" in any letter case,
      the body must read as CSV, and the table is written to the upload
      directory as the first eight characters of `str(uuid4())`, a double
      underscore and the original name; `write` gives the text of the
      exception writing raised, which the handler does not catch. */
  function UploadFile(filename: string, read: Result<Table, string>, uid: string, here: string, write: string -> Option<string>): Result<Summary, HttpError>
  {
    if !EndsWith(Lower(filename), ".csv") then Err(HttpError(400, "Please upload a CSV file"))
    else match read
      case Err(e) => Err(HttpError(400, "Could not read CSV: " + e))
      case Ok(df) =>
        var stored := Take(uid, 8) + "__" + filename;
        match write(PathJoin(UploadDir(here), stored))
        case Some(_) => Err(HttpError(500, "Internal Server Error"))
        case None => Ok(Summarize(stored, df))
  }

  /** The stored name is the eight-character id, "__" and the original
      name; since the id is hex, the file is written inside the upload
      directory, where `process_data` looks for that same name. */
  lemma UploadFileStoresUnderId(filename: string, read: Result<Table, string>, uid: string, here: string, write: string -> Option<string>)
    requires |uid| >= 8 && uid[0] != '/'
    ensures !EndsWith(Lower(filename), ".csv") ==> UploadFile(filename, read, uid, here, write) == Err(HttpError(400, "Please upload a CSV file"))
    ensures EndsWith(Lower(filename), ".csv") && read.Err? ==>
      UploadFile(filename, read, uid, here, write) == Err(HttpError(400, "Could not read CSV: " + read.error))
    ensures UploadFile(filename, read, uid, here, write).Ok? ==>
      var stored := UploadFile(filename, read, uid, here, write).value.location;
      && stored == uid[..8] + "__" + filename
      && PathJoin(UploadDir(here), stored) == UploadDir(here) + "/" + stored
      && write(UploadDir(here) + "/" + stored).None?
  {
    var stored := Take(uid, 8) + "__" + filename;
    TakeFirst(uid, 8);
    UploadDirShape(here);
    assert !StartsWith(stored, "/") by { assert stored[0] == uid[0]; }
    PathJoinCases(UploadDir(here), stored);
  }

  // ------------------------------------------------------------ request

  /** The request: a dict, or an object with attributes. */
  datatype Req = DictReq(fields: seq<(string, Json)>) | ObjReq(attrs: seq<(string, Json)>)

  /** `get_attr(obj, key)`: the dict entry, or the attribute, or None. */
  function GetAttr(req: Req, key: string): Json
  {
    match req
    case DictReq(fields) => Get(fields, key)
    case ObjReq(attrs) => Get(attrs, key)
  }

  /** A dict and an object carrying the same entries read the same, and a
      missing key reads as None. */
  lemma {:induction false} GetAttrCases(entries: seq<(string, Json)>, key: string)
    ensures GetAttr(DictReq(entries), key) == GetAttr(ObjReq(entries), key)
    ensures (forall i :: 0 <= i < |entries| ==> entries[i].0 != key) ==> GetAttr(DictReq(entries), key) == JNull
  {
    if entries != [] && entries[|entries| - 1].0 != key {
      GetAttrCases(entries[..|entries| - 1], key);
    }
  }

  /** `str(e)` of an `HTTPException` raised inside the route. */
  function Http400(detail: string): string
  {
    "400: " + detail
  }

  /** `os.path.join(UPLOAD_DIR, filename)`, which raises for a name that is
      not a string. */
  function CsvPath(filename: Json, here: string): Result<string, string>
  {
    if filename.JStr? then Ok(PathJoin(UploadDir(here), filename.s))
    else Err(JoinTypeError(TypeName(filename)))
  }

  /** The `TypeError` text `os.path.join` raises for an argument of type `t`. */
  function JoinTypeError(t: string): string
  {
    "join() argument must be str, bytes, or os.PathLike object, not '" + t + "'"
  }

  /** The `TypeError` text for hashing a value of type `t`. */
  function Unhashable(t: string): string
  {
    "unhashable type: '" + t + "'"
  }

  /** `target not in df.columns`: a list or dict target is unhashable, and
      any other value that is not one of the (string) column names is not
      found. */
  function CheckTarget(target: Json, frame: Table): Result<string, string>
  {
    if target.JArr? || target.JObj? then Err(Unhashable(TypeName(target)))
    else if target.JStr? && target.s in Names(frame) then Ok(target.s)
    else Err(Http400("Target column '" + Str(target) + "' not found in dataset."))
  }

  // ----------------------------------------------------------- services

  /** Everything the route gets from outside: the module's directory, the
      file at a path (absent, or read, or the reader's error text), the
      median, the correlation of a column with the encoded target, whether
      `LabelEncoder` raises on a column, the outcome of saving a figure
      under a name, the model file's id, the two fits' metrics (or the
      error's text), the text generator and `format(x, ".2f")`. */
  datatype Env = Env(
    here: string,
    files: string -> Option<Result<Table, string>>,
    median: seq<real> -> real,
    numCorr: (string, TargetSeries) -> real,
    catCorr: (string, seq<int>, TargetSeries) -> real,
    encoderFails: string -> bool,
    save: string -> Option<string>,
    modelHex: string,
    trainRegressor: Result<(real, real), string>,
    trainClassifier: Result<real, string>,
    ai: GenAi,
    fmt: real -> string)

  /** The response of the older route: no `ai_error`, and `mode` echoed as
      given. */
  datatype LegacyResponse = LegacyResponse(
    status: string, mode: Json, target: string, steps: seq<Step>,
    numericAnalysis: Analysis, categoricalAnalysis: Analysis, insights: seq<Insight>,
    aiInsights: seq<string>, aiModel: Option<string>, modelInfo: ModelInfo)

  const BusinessMode := JStr("business_insights")
  const TrainerMode := JStr("model_trainer")

  /** The numeric side, inside its `try`: no guard for an empty numeric
      selection; the heatmap is saved as `<filename>_num_corr.png`, and a
      failed save keeps the scores and records an error step. */
  function NumericSide(df: Frame, enc: TargetSeries, filename: string, env: Env): (Analysis, Step)
  {
    var corr := CorrelationScores(NumericCols(df), c => env.numCorr(c, enc));
    match SavePlot(env.save, filename + "_num_corr.png")
    case Ok(url) => (NoAnalysis.(correlations := Some(corr), heatmap := Some(url)), ComputedStep)
    case Err(e) => (NoAnalysis.(correlations := Some(corr)), Step("numeric_analysis_error", e, Error, NoExtra))
  }

  /** `<filename>_cat_<col>.png` for each plotted column. */
  function PlotNames(cols: seq<string>, filename: string): (r: seq<string>)
    ensures |r| == |cols|
  {
    seq(|cols|, k requires 0 <= k < |cols| => filename + "_cat_" + cols[k] + ".png")
  }

  /** `save_plot` as the plot loop calls it. */
  function SaveSink(save: string -> Option<string>): string -> Result<string, string>
  {
    h => SavePlot(save, h)
  }

  /** Two names that differ only in one middle part differ in that part. */
  lemma {:induction false} MiddleInjective(p: string, a: string, b: string, q: string)
    requires p + a + q == p + b + q
    ensures a == b
  {
    assert |a| == |b|;
    assert a == (p + a + q)[|p|..|p| + |a|];
    assert b == (p + b + q)[|p|..|p| + |b|];
  }

  /** The plot loop saves each plotted column's figure as
      `<filename>_cat_<col>.png` and answers, in plot order, with
      "/static/graphs/<filename>_cat_<col>.png"; it succeeds exactly when
      every save does, distinct columns get distinct URLs, and a failure
      carries the text of a failed save. */
  lemma CategoryPlotUrls(cols: seq<string>, filename: string, save: string -> Option<string>)
    ensures var r := EmitAll(PlotNames(cols, filename), SaveSink(save));
      && (r.Ok? <==> forall k :: 0 <= k < |cols| ==> save(filename + "_cat_" + cols[k] + ".png").None?)
      && (r.Ok? ==> |r.value| == |cols|)
      && (r.Ok? ==> forall k :: 0 <= k < |cols| ==> r.value[k] == "/static/graphs/" + filename + "_cat_" + cols[k] + ".png")
      && (r.Ok? ==> forall j, k :: 0 <= j < |cols| && 0 <= k < |cols| && cols[j] != cols[k] ==> r.value[j] != r.value[k])
      && (r.Err? ==> exists k :: 0 <= k < |cols| && save(filename + "_cat_" + cols[k] + ".png") == Some(r.error))
  {
    var names := PlotNames(cols, filename);
    EmitAllCorrect(names, SaveSink(save));
    var r := EmitAll(names, SaveSink(save));
    if r.Ok? {
      forall j, k | 0 <= j < |cols| && 0 <= k < |cols| && cols[j] != cols[k] ensures r.value[j] != r.value[k] {
        if r.value[j] == r.value[k] {
          var p := "/static/graphs/" + filename + "_cat_";
          assert r.value[j] == p + cols[j] + ".png";
          assert r.value[k] == p + cols[k] + ".png";
          MiddleInjective(p, cols[j], cols[k], ".png");
        }
      }
    }
  }

  /** The categorical side, outside any inner `try`: a failed plot save is
      the route's error. */
  function CategoricalSide(df: Frame, enc: TargetSeries, filename: string, env: Env): Result<(Analysis, Step), string>
    requires ColumnsFit(df)
  {
    if CategoricalCols(df) == [] then
      Ok((NoAnalysis.(note := Some("No categorical columns found.")),
          Step("cat_analysis_skipped", "No categorical columns found.", Done, NoExtra)))
    else
      var encoded := EncodeAll(df, env.encoderFails);
      var corr := CatScores(encoded, enc, env.catCorr);
      match EmitAll(PlotNames(PlotColumns(corr), filename), SaveSink(env.save))
      case Err(e) => Err(e)
      case Ok(urls) =>
        Ok((Analysis(Some(corr), None, Some(LabelMap(encoded)), Some(urls), None),
            Step("cat_analysis", "Categorical correlations computed.", Done, NoExtra)))
  }

  /** What the business branch adds: its two steps, both analyses and the
      insights. */
  datatype BusinessPart = BusinessPart(steps: seq<Step>, numeric: Analysis, categorical: Analysis, insights: seq<Insight>)

  const NoBusiness := BusinessPart([], NoAnalysis, NoAnalysis, [])

  function Business(frame: Table, target: string, filename: string, env: Env): Result<BusinessPart, string>
    requires target in Names(frame)
  {
    var df := ImputedTable(frame, env.median);
    var enc := TargetEncoding(TargetColumn(frame, target, env.median));
    var (num, numStep) := NumericSide(df, enc, filename, env);
    match CategoricalSide(df, enc, filename, env)
    case Err(e) => Err(e)
    case Ok((cat, catStep)) =>
      Ok(BusinessPart([numStep, catStep], num, cat, LegacyInsights(CorrelationsOf(num), CorrelationsOf(cat))))
  }

  /** The trainer branch: the model is saved as `<hex>_model.pkl` under
      `/static/models/`; a failure leaves `model_info` empty and records
      an error step. */
  function Train(numericTarget: bool, env: Env): (ModelInfo, Step)
  {
    var url := "/static/models/" + env.modelHex + "_model.pkl";
    if numericTarget then
      match env.trainRegressor
      case Err(e) => (NoModel, TrainingError(e))
      case Ok(metrics) => (Regressor(metrics.0, metrics.1, url), Trained(Regressor(metrics.0, metrics.1, url)))
    else
      match env.trainClassifier
      case Err(e) => (NoModel, TrainingError(e))
      case Ok(acc) => (Classifier(acc, url), Trained(Classifier(acc, url)))
  }

  lemma TrainOutcome(numericTarget: bool, env: Env)
    ensures var (info, step) := Train(numericTarget, env);
      && (info.NoModel? <==> step.status == Error)
      && (info.NoModel? ==> step.step == "model_training_error")
      && (info.Regressor? ==> numericTarget && info.downloadUrl == "/static/models/" + env.modelHex + "_model.pkl")
      && (info.Classifier? ==> !numericTarget && info.downloadUrl == "/static/models/" + env.modelHex + "_model.pkl")
  {
  }

  /** The AI block, run in every mode on whatever correlations the
      branches produced, the target's own entry removed. */
  function Narrate(target: string, num: Analysis, cat: Analysis, env: Env): Narration
  {
    var numericTop := TopK(Remove(CorrelationsOf(num), target), 10);
    var catTop := TopK(Remove(CorrelationsOf(cat), target), 10);
    LegacyNarrative(env.ai, LegacyFallback(target, numericTop, catTop, env.fmt))
  }

  /** The trainer branch's share of the response: `model_info` and its
      step, or nothing outside trainer mode. */
  function TrainPart(mode: Json, numericTarget: bool, env: Env): (ModelInfo, seq<Step>)
  {
    if mode == TrainerMode then
      var t := Train(numericTarget, env);
      (t.0, [t.1])
    else (NoModel, [])
  }

  /** The response once the business branch, if any, is done, given the
      trace so far, whether the target column is numeric and the AI
      block's outcome. */
  function Respond(target: string, mode: Json, trace: seq<Step>, numericTarget: bool, b: BusinessPart, n: Narration, env: Env): LegacyResponse
  {
    var t := TrainPart(mode, numericTarget, env);
    LegacyResponse("success", mode, target, trace + t.1, b.numeric, b.categorical, b.insights, n.insights, n.model, t.0)
  }

  /** Whether the target column is numeric once imputed, which picks the estimator. */
  function NumericTarget(frame: Table, target: string, median: seq<real> -> real): bool
    requires target in Names(frame)
  {
    IsNumericDtype(TargetColumn(frame, target, median).kind)
  }

  /** Everything after the target check. The two mode tests are separate
      `if`s, so an unknown mode runs neither branch and still succeeds. */
  function Analyse(frame: Table, target: string, mode: Json, filename: string, env: Env): Result<LegacyResponse, string>
    requires target in Names(frame)
  {
    var business := if mode == BusinessMode then Business(frame, target, filename, env) else Ok(NoBusiness);
    match business
    case Err(e) => Err(e)
    case Ok(b) =>
      Ok(Respond(target, mode, OpeningSteps(frame, env.median) + b.steps, NumericTarget(frame, target, env.median), b,
                 Narrate(target, b.numeric, b.categorical, env), env))
  }

  /** The body of the route's `try`; an error is the text `str(e)` of
      whatever it raised. */
  function Run(req: Req, env: Env): Result<LegacyResponse, string>
  {
    var target := GetAttr(req, "target");
    var mode := GetAttr(req, "mode");
    var filename := GetAttr(req, "filename");
    if !Truthy(target) || !Truthy(mode) || !Truthy(filename) then Err(Http400("Target, mode, or filename is missing"))
    else match CsvPath(filename, env.here)
      case Err(e) => Err(e)
      case Ok(path) =>
        match env.files(path)
        case None => Err(Http400("Uploaded file not found. Re-upload and try again."))
        case Some(Err(e)) => Err(e)
        case Some(Ok(frame)) =>
          match CheckTarget(target, frame)
          case Err(e) => Err(e)
          case Ok(t) => Analyse(frame, t, mode, Str(filename), env)
  }

  /** `process_data`: every exception, the route's own 400s included, is
      re-raised as a 500 whose detail is its text. */
  function Process(req: Req, env: Env): Result<LegacyResponse, HttpError>
  {
    match Run(req, env)
    case Err(e) => Err(HttpError(500, e))
    case Ok(r) => Ok(r)
  }

  // ------------------------------------------------------ as it runs

  /** The business branch as the route runs it: the encoding loop, then the
      plot loop, which stops at the first failed save. */
  method RunBusiness(frame: Table, target: string, df: Table, filename: string, env: Env)
    returns (r: Result<BusinessPart, string>)
    requires target in Names(frame) && df == ImputedTable(frame, env.median)
    ensures r == Business(frame, target, filename, env)
  {
    var enc := TargetEncoding(TargetColumn(frame, target, env.median));
    var (num, numStep) := NumericSide(df, enc, filename, env);
    var cat: Analysis;
    var catStep: Step;
    if CategoricalCols(df) == [] {
      cat := NoAnalysis.(note := Some("No categorical columns found."));
      catStep := Step("cat_analysis_skipped", "No categorical columns found.", Done, NoExtra);
    } else {
      var encoded := EncodeCategoricals(df, env.encoderFails);
      var corr := CatScores(encoded, enc, env.catCorr);
      var plots := EmitPlots(PlotNames(PlotColumns(corr), filename), SaveSink(env.save));
      if plots.Err? {
        return Err(plots.error);
      }
      cat := Analysis(Some(corr), None, Some(LabelMap(encoded)), Some(plots.value), None);
      catStep := Step("cat_analysis", "Categorical correlations computed.", Done, NoExtra);
    }
    assert CategoricalSide(df, enc, filename, env) == Ok((cat, catStep));
    r := Ok(BusinessPart([numStep, catStep], num, cat, LegacyInsights(CorrelationsOf(num), CorrelationsOf(cat))));
  }

  /** The trainer branch and the AI block, appending to the trace. */
  method RespondData(target: string, mode: Json, steps: seq<Step>, numericTarget: bool, b: BusinessPart, env: Env)
    returns (r: LegacyResponse)
    ensures r == Respond(target, mode, steps, numericTarget, b, Narrate(target, b.numeric, b.categorical, env), env)
  {
    var trace := steps;
    var info := NoModel;
    if mode == TrainerMode {
      var trained := Train(numericTarget, env);
      info := trained.0;
      trace := trace + [trained.1];
    }
    var n := Narrate(target, b.numeric, b.categorical, env);
    r := LegacyResponse("success", mode, target, trace, b.numeric, b.categorical, b.insights, n.insights, n.model, info);
  }

  /** Everything after the target check, step by step: the trace is
      appended to as the route goes and the table is imputed column by
      column. */
  method AnalyseData(frame: Table, target: string, mode: Json, filename: string, env: Env)
    returns (r: Result<LegacyResponse, string>)
    requires target in Names(frame)
    ensures r == Analyse(frame, target, mode, filename, env)
  {
    var df, steps := OpenTrace(frame, env.median);

    var b := NoBusiness;
    if mode == BusinessMode {
      var part := RunBusiness(frame, target, df, filename, env);
      if part.Err? {
        return Err(part.error);
      }
      b := part.value;
    }
    assert (if mode == BusinessMode then Business(frame, target, filename, env) else Ok(NoBusiness)) == Ok(b);
    var resp := RespondData(target, mode, steps + b.steps, NumericTarget(frame, target, env.median), b, env);
    r := Ok(resp);
  }

  /** `process_data`: the request checks, the file lookup, then the rest. */
  method ProcessData(req: Req, env: Env) returns (r: Result<LegacyResponse, HttpError>)
    ensures r == Process(req, env)
  {
    var target := GetAttr(req, "target");
    var mode := GetAttr(req, "mode");
    var filename := GetAttr(req, "filename");
    if !Truthy(target) || !Truthy(mode) || !Truthy(filename) {
      return Err(HttpError(500, Http400("Target, mode, or filename is missing")));
    }
    var path := CsvPath(filename, env.here);
    if path.Err? {
      return Err(HttpError(500, path.error));
    }
    var file := env.files(path.value);
    if file.None? {
      return Err(HttpError(500, Http400("Uploaded file not found. Re-upload and try again.")));
    }
    if file.value.Err? {
      return Err(HttpError(500, file.value.error));
    }
    var frame := file.value.value;
    var checked := CheckTarget(target, frame);
    if checked.Err? {
      return Err(HttpError(500, checked.error));
    }
    var outcome := AnalyseData(frame, checked.value, mode, Str(filename), env);
    if outcome.Err? {
      return Err(HttpError(500, outcome.error));
    }
    r := Ok(outcome.value);
  }

  // --------------------------------------------------------- properties

  /** Every failure of the older route is a 500 carrying the text of what
      was raised, the route's own 400s included. */
  lemma EverythingIs500(req: Req, env: Env)
    ensures Process(req, env).Err? <==> Run(req, env).Err?
    ensures Process(req, env).Err? ==> Process(req, env).error == HttpError(500, Run(req, env).error)
  {
    match Run(req, env)
    case Err(e) =>
    case Ok(_) =>
  }

  /** A falsy target, mode or filename is a 500 whose text is the 400
      the route raised. */
  lemma MissingFieldIs500(req: Req, env: Env)
    requires !Truthy(GetAttr(req, "target")) || !Truthy(GetAttr(req, "mode")) || !Truthy(GetAttr(req, "filename"))
    ensures Process(req, env) == Err(HttpError(500, Http400("Target, mode, or filename is missing")))
  {
  }

  /** A file missing from the upload directory is a 500 carrying the
      route's 400 text. */
  lemma MissingFileIs500(req: Req, env: Env)
    requires Truthy(GetAttr(req, "target")) && Truthy(GetAttr(req, "mode"))
    requires GetAttr(req, "filename").JStr? && GetAttr(req, "filename").s != []
    requires env.files(PathJoin(UploadDir(env.here), GetAttr(req, "filename").s)).None?
    ensures Process(req, env) == Err(HttpError(500, Http400("Uploaded file not found. Re-upload and try again.")))
  {
  }

  /** A (truthy) integer filename fails in `os.path.join`, and the 500
      carries Python's own message. */
  lemma IntFilenameIs500(req: Req, env: Env)
    requires Truthy(GetAttr(req, "target")) && Truthy(GetAttr(req, "mode"))
    requires GetAttr(req, "filename").JInt? && GetAttr(req, "filename").i != 0
    ensures Process(req, env) == Err(HttpError(500, JoinTypeError("int")))
  {
    var filename := GetAttr(req, "filename");
    assert Truthy(filename);
    assert TypeName(filename) == "int";
    assert CsvPath(filename, env.here) == Err(JoinTypeError("int"));
    assert Run(req, env) == Err(JoinTypeError("int"));
  }

  /** A list target fails the column lookup once the file is read, and the
      500 carries Python's own message. */
  lemma ListTargetIs500(req: Req, env: Env)
    requires Truthy(GetAttr(req, "target")) && Truthy(GetAttr(req, "mode"))
    requires GetAttr(req, "target").JArr?
    requires GetAttr(req, "filename").JStr? && GetAttr(req, "filename").s != []
    requires env.files(PathJoin(UploadDir(env.here), GetAttr(req, "filename").s)).Some?
    requires env.files(PathJoin(UploadDir(env.here), GetAttr(req, "filename").s)).value.Ok?
    ensures Process(req, env) == Err(HttpError(500, Unhashable("list")))
  {
    var filename := GetAttr(req, "filename");
    var path := PathJoin(UploadDir(env.here), filename.s);
    var frame := env.files(path).value.value;
    assert Truthy(filename);
    assert CsvPath(filename, env.here) == Ok(path);
    assert env.files(path) == Some(Ok(frame));
    assert TypeName(GetAttr(req, "target")) == "list";
    assert CheckTarget(GetAttr(req, "target"), frame) == Err(Unhashable("list"));
    assert Run(req, env) == Err(Unhashable("list"));
  }

  /** An absolute filename is looked up as given, outside the upload
      directory. */
  lemma AbsoluteFilenameEscapes(filename: string, here: string)
    requires StartsWith(filename, "/")
    ensures CsvPath(JStr(filename), here) == Ok(filename)
  {
    PathJoinCases(UploadDir(here), filename);
  }

  /** The business branch adds exactly its two steps. */
  lemma BusinessAddsTwoSteps(frame: Table, target: string, filename: string, env: Env)
    requires target in Names(frame) && Business(frame, target, filename, env).Ok?
    ensures |Business(frame, target, filename, env).value.steps| == 2
    ensures Business(frame, target, filename, env).value.insights ==
      LegacyInsights(CorrelationsOf(Business(frame, target, filename, env).value.numeric),
                     CorrelationsOf(Business(frame, target, filename, env).value.categorical))
  {
  }

  /** Once the branches are done the route succeeds with the trace so far;
      trainer mode adds one step and reports a model exactly when that step
      is not an error, any other mode adds nothing and reports no model. */
  lemma RespondTrace(target: string, mode: Json, trace: seq<Step>, numericTarget: bool, b: BusinessPart, n: Narration, env: Env)
    ensures var r := Respond(target, mode, trace, numericTarget, b, n, env);
      && r.status == "success"
      && |r.steps| >= |trace| && r.steps[..|trace|] == trace
      && (mode != TrainerMode ==> r.steps == trace && r.modelInfo.NoModel?)
      && (mode == TrainerMode ==> |r.steps| == |trace| + 1 && (r.modelInfo.NoModel? <==> r.steps[|trace|].status == Error))
      && (r.modelInfo.Regressor? ==> numericTarget)
      && (r.modelInfo.Classifier? ==> !numericTarget)
  {
    var r := Respond(target, mode, trace, numericTarget, b, n, env);
    TrainOutcome(numericTarget, env);
    assert r.steps[..|trace|] == trace;
  }

  /** Outside business mode the analyses and insights stay empty. */
  lemma RespondAnalyses(target: string, mode: Json, trace: seq<Step>, numericTarget: bool, n: Narration, env: Env)
    ensures var r := Respond(target, mode, trace, numericTarget, NoBusiness, n, env);
      r.numericAnalysis == NoAnalysis && r.categoricalAnalysis == NoAnalysis && r.insights == []
  {
  }

  /** The AI block runs in every mode and always yields one to three
      bullets, with a model name exactly when the generator was set up. */
  lemma NarrateBounds(target: string, num: Analysis, cat: Analysis, env: Env)
    ensures var n := Narrate(target, num, cat, env);
      && 1 <= |n.insights| <= 3
      && (n.model.Some? <==> HasKey(env.ai) && env.ai.importError.None? && env.ai.configureError.None?)
  {
    var numericTop := TopK(Remove(CorrelationsOf(num), target), 10);
    var catTop := TopK(Remove(CorrelationsOf(cat), target), 10);
    LegacyFallbackShape(target, numericTop, catTop, env.fmt);
    LegacyNarrativeBounds(env.ai, LegacyFallback(target, numericTop, catTop, env.fmt));
  }

  /** After the target check the outcome is `Respond` on the business
      part, which only the business branch can fail. */
  lemma AnalyseResponds(frame: Table, target: string, mode: Json, filename: string, env: Env)
    requires target in Names(frame)
    ensures mode != BusinessMode ==>
      Analyse(frame, target, mode, filename, env)
      == Ok(Respond(target, mode, OpeningSteps(frame, env.median), NumericTarget(frame, target, env.median), NoBusiness,
                    Narrate(target, NoAnalysis, NoAnalysis, env), env))
    ensures mode == BusinessMode ==>
      (Analyse(frame, target, mode, filename, env).Ok? <==> Business(frame, target, filename, env).Ok?)
  {
    if mode != BusinessMode {
      assert OpeningSteps(frame, env.median) + NoBusiness.steps == OpeningSteps(frame, env.median);
    }
  }

  /** A successful business branch is followed by `Respond` on its steps. */
  lemma AnalyseBusinessResponds(frame: Table, target: string, filename: string, env: Env)
    requires target in Names(frame) && Business(frame, target, filename, env).Ok?
    ensures var b := Business(frame, target, filename, env).value;
      Analyse(frame, target, BusinessMode, filename, env)
      == Ok(Respond(target, BusinessMode, OpeningSteps(frame, env.median) + b.steps, NumericTarget(frame, target, env.median), b,
                    Narrate(target, b.numeric, b.categorical, env), env))
  {
  }
}
