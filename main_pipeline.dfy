/** backend/main.py: the `/upload` and `/process` routes of the current
    pipeline. The CSV fetch, the storage uploads, pandas' median and
    correlation, model fitting and the text generator are inputs
    (`Services`); everything the route decides with them is modelled. */
module MainPipeline {
  import opened Py
  import opened Frames
  import opened Imputation
  import opened Trace
  import opened Ranking
  import opened Narrative
  import opened Analyses

  // ------------------------------------------------------ keys and names

  /** `_supa_key(prefix, filename)`, `hex` being the fresh `uuid4().hex`. */
  function SupaKey(prefix: string, hex: string, filename: string): string
  {
    StripRight(prefix, {'/'}) + "/" + Take(hex, 8) + "__" + filename
  }

  /** The key is the prefix without trailing slashes, one slash, the first
      eight characters of the id, a double underscore and the name. */
  lemma SupaKeyShape(prefix: string, hex: string, filename: string)
    requires |hex| == 32
    ensures var k := SupaKey(prefix, hex, filename); var p := StripRight(prefix, {'/'});
      && StartsWith(k, p + "/")
      && k[|p| + 1..|p| + 9] == hex[..8]
      && EndsWith(k, "__" + filename)
      && |k| == |p| + 11 + |filename|
      && (p == [] || p[|p| - 1] != '/')
  {
    var p := StripRight(prefix, {'/'});
    var k := SupaKey(prefix, hex, filename);
    StripRightIsPrefix(prefix, {'/'});
    TakeFirst(hex, 8);
    assert k == (p + "/") + (hex[..8] + "__" + filename);
    assert k == (p + "/" + hex[..8]) + ("__" + filename);
  }

  /** Under a prefix with no trailing slash, the key starts with the prefix
      and a slash and ends with "__" and the name, whatever the id. */
  lemma KeyUnder(prefix: string, hex: string, filename: string)
    requires prefix != [] && prefix[|prefix| - 1] != '/'
    ensures StartsWith(SupaKey(prefix, hex, filename), prefix + "/")
    ensures EndsWith(SupaKey(prefix, hex, filename), "__" + filename)
  {
    assert StripRight(prefix, {'/'}) == prefix;
    var k := SupaKey(prefix, hex, filename);
    assert k == (prefix + "/") + (Take(hex, 8) + "__" + filename);
    assert k == (prefix + "/" + Take(hex, 8)) + ("__" + filename);
  }

  /** The `.png` naming in `_save_plot_to_supabase`. */
  function PngName(hint: string): string
  {
    if EndsWith(hint, ".png") then hint else hint + ".png"
  }

  lemma PngNameIsPng(hint: string)
    ensures EndsWith(PngName(hint), ".png")
    ensures EndsWith(hint, ".png") ==> PngName(hint) == hint
    ensures PngName(PngName(hint)) == PngName(hint)
  {
    var n := hint + ".png";
    assert n[|n| - 4..] == ".png";
  }

  // ------------------------------------------------------------- upload

  /** `/upload`: the name must end in ".csv" in any letter case, the body
      must read as CSV, and the normalised file goes to storage as
      "text/csv" under the `uploads/` key `_supa_key` makes from the fresh
      id `hex`; `store` gives its URL or the upload's exception, which the
      route does not catch. */
  function UploadCsv(filename: string, hex: string, read: Result<Table, string>, store: (string, string) -> Result<string, string>): Result<Summary, HttpError>
  {
    if !EndsWith(Lower(filename), ".csv") then Err(HttpError(400, "Please upload a CSV file"))
    else match read
      case Err(e) => Err(HttpError(400, "Could not read CSV: " + e))
      case Ok(df) =>
        match store(SupaKey("uploads", hex, filename), "text/csv")
        case Err(_) => Err(HttpError(500, "Internal Server Error"))
        case Ok(url) => Ok(Summarize(url, df))
  }

  /** The extension check ignores letter case and comes before reading; a
      success reports where the upload under the generated key landed. */
  lemma UploadCsvChecks(filename: string, hex: string, read: Result<Table, string>, store: (string, string) -> Result<string, string>)
    ensures !EndsWith(Lower(filename), ".csv") ==> UploadCsv(filename, hex, read, store) == Err(HttpError(400, "Please upload a CSV file"))
    ensures EndsWith(Lower(filename), ".csv") && read.Err? ==> UploadCsv(filename, hex, read, store) == Err(HttpError(400, "Could not read CSV: " + read.error))
    ensures UploadCsv(filename, hex, read, store).Ok? ==>
      var s := UploadCsv(filename, hex, read, store).value;
      && s.cols == |s.columns| && |s.missingCounts| == s.cols
      && s.location == store(SupaKey("uploads", hex, filename), "text/csv").value
  {
  }

  /** An upper-case ".CSV" name is accepted. */
  lemma UploadAcceptsUpperCase(hex: string, read: Result<Table, string>, store: (string, string) -> Result<string, string>)
    ensures UploadCsv("DATA.CSV", hex, read, store).Err? ==> read.Err? || store(SupaKey("uploads", hex, "DATA.CSV"), "text/csv").Err?
  {
    var l := Lower("DATA.CSV");
    assert l == "data.csv";
    assert l[|l| - 4..] == ".csv";
    assert EndsWith(l, ".csv");
  }

  // ------------------------------------------------------------ request

  datatype Request = Request(target: string, mode: string, fileUrl: string)

  /** `file_url` coerced when a dict slipped through: `publicURL`, then
      `publicUrl`, then `url`, then its text. */
  function CoerceUrl(v: Json): Json
  {
    if v.JObj? then Or(Get(v.fields, "publicURL"), Or(Get(v.fields, "publicUrl"), Or(Get(v.fields, "url"), JStr(Str(v)))))
    else v
  }

  predicate NonEmptyString(v: Json)
  {
    v.JStr? && v.s != []
  }

  /** The body as `await request.json()` gives it (or the parse error's
      text), validated field by field. A body that is JSON but not an
      object fails on `.get` with an uncaught error. */
  function ParseRequest(body: Result<Json, string>): Result<Request, HttpError>
  {
    match body
    case Err(e) => Err(HttpError(400, "Invalid JSON body: " + e))
    case Ok(payload) =>
      if !payload.JObj? then Err(HttpError(500, "Internal Server Error"))
      else
        var target := Get(payload.fields, "target");
        var mode := Get(payload.fields, "mode");
        var url := CoerceUrl(Or(Get(payload.fields, "file_url"), Get(payload.fields, "filename")));
        if !NonEmptyString(target) then Err(HttpError(400, "Missing or invalid 'target'"))
        else if !NonEmptyString(mode) then Err(HttpError(400, "Missing or invalid 'mode'"))
        else if !NonEmptyString(url) then Err(HttpError(400, "Missing or invalid 'file_url'"))
        else Ok(Request(target.s, mode.s, url.s))
  }

  /** A request passes validation exactly when target, mode and the resolved
      URL are non-empty strings; a dict URL with a truthy `publicURL` never
      falls through to its text; a dict URL with no usable key resolves to
      its own text, which is never empty. */
  lemma ParseRequestCases(fields: seq<(string, Json)>)
    ensures var url := CoerceUrl(Or(Get(fields, "file_url"), Get(fields, "filename")));
      var r := ParseRequest(Ok(JObj(fields)));
      && (r.Ok? <==> NonEmptyString(Get(fields, "target")) && NonEmptyString(Get(fields, "mode")) && NonEmptyString(url))
      && (r.Ok? ==> r.value == Request(Get(fields, "target").s, Get(fields, "mode").s, url.s))
      && (r.Err? ==> r.error.status == 400)
      && (!NonEmptyString(Get(fields, "target")) ==> r == Err(HttpError(400, "Missing or invalid 'target'")))
  {
  }

  lemma CoerceDictUrl(d: seq<(string, Json)>)
    ensures Truthy(Get(d, "publicURL")) ==> CoerceUrl(JObj(d)) == Get(d, "publicURL")
    ensures !Truthy(Get(d, "publicURL")) && !Truthy(Get(d, "publicUrl")) && !Truthy(Get(d, "url")) ==>
      CoerceUrl(JObj(d)) == JStr(Str(JObj(d))) && NonEmptyString(CoerceUrl(JObj(d)))
  {
    DictTextIsBraced(d);
  }

  // ----------------------------------------------------------- services

  /** Everything the route gets from outside: the CSV at a URL (or the
      error's text), the median, the correlation of a column with the
      encoded target, whether `LabelEncoder` raises on a column, a storage
      upload under a key with a content type (its URL or the error's text),
      the `uuid4().hex` that `_supa_key` draws when storing a named file,
      the model file's own id, the two fits' metrics (or the error's text),
      and the text generator. */
  datatype Services = Services(
    fetch: string -> Result<Table, string>,
    median: seq<real> -> real,
    numCorr: (string, TargetSeries) -> real,
    catCorr: (string, seq<int>, TargetSeries) -> real,
    encoderFails: string -> bool,
    upload: (string, string) -> Result<string, string>,
    keyHex: string -> string,
    modelHex: string,
    trainRegressor: Result<(real, real), string>,
    trainClassifier: Result<real, string>,
    ai: GenAi)

  /** The `/process` response. */
  datatype Response = Response(
    status: string, mode: string, target: string, steps: seq<Step>,
    numericAnalysis: Analysis, categoricalAnalysis: Analysis, insights: seq<Insight>,
    aiInsights: seq<string>, aiModel: Option<string>, aiError: Option<string>, modelInfo: ModelInfo)

  /** Where `_save_plot_to_supabase` stores a plot: under `graphs/`. */
  function GraphKey(svc: Services, hint: string): string
  {
    SupaKey("graphs", svc.keyHex(PngName(hint)), PngName(hint))
  }

  /** Where a trained model is stored: `<hex>.pkl` under `models/`. */
  function ModelKey(svc: Services): string
  {
    SupaKey("models", svc.keyHex(svc.modelHex + ".pkl"), svc.modelHex + ".pkl")
  }

  /** Every stored object lands in its own folder: plots under "graphs/"
      as pngs, models under "models/" as "<hex>.pkl", uploads under
      "uploads/", each key ending in "__" and the stored name. */
  lemma StorageKeys(svc: Services, hint: string, hex: string, filename: string)
    ensures StartsWith(GraphKey(svc, hint), "graphs/") && EndsWith(GraphKey(svc, hint), ".png")
    ensures StartsWith(ModelKey(svc), "models/") && EndsWith(ModelKey(svc), "__" + svc.modelHex + ".pkl")
    ensures StartsWith(SupaKey("uploads", hex, filename), "uploads/") && EndsWith(SupaKey("uploads", hex, filename), "__" + filename)
  {
    var png := PngName(hint);
    KeyUnder("graphs", svc.keyHex(png), png);
    KeyUnder("models", svc.keyHex(svc.modelHex + ".pkl"), svc.modelHex + ".pkl");
    KeyUnder("uploads", hex, filename);
    PngNameIsPng(hint);
    var g := GraphKey(svc, hint);
    assert g[|g| - 4..] == ("__" + png)[|png| + 2 - 4..] == png[|png| - 4..];
  }

  /** The numeric side of business insights, inside its `try`: scores for
      the numeric columns (the target among them when it is numeric), then
      the heatmap upload; a failed upload keeps the scores and records an
      error step. */
  function NumericSide(df: Frame, enc: TargetSeries, svc: Services): (Analysis, Step)
  {
    var cols := NumericCols(df);
    if cols == [] then (NoAnalysis.(note := Some("No numeric columns found.")), ComputedStep)
    else
      var corr := CorrelationScores(cols, c => svc.numCorr(c, enc));
      match svc.upload(GraphKey(svc, "num_corr_heatmap"), "image/png")
      case Ok(url) => (NoAnalysis.(correlations := Some(corr), heatmap := Some(url)), ComputedStep)
      case Err(e) => (NoAnalysis.(correlations := Some(corr)), Step("numeric_analysis_error", e, Error, NoExtra))
  }

  function PlotHints(cols: seq<string>, target: string): (r: seq<string>)
    ensures |r| == |cols|
  {
    seq(|cols|, k requires 0 <= k < |cols| => "cat_" + cols[k] + "_vs_" + target)
  }

  /** `_save_plot_to_supabase` for one plot hint: the figure goes up as a png. */
  function PlotSink(svc: Services): string -> Result<string, string>
  {
    h => svc.upload(GraphKey(svc, h), "image/png")
  }

  /** The categorical side, outside any `try`: encoding, scores, up to three
      plot uploads; a failed upload is an uncaught error. */
  function CategoricalSide(df: Frame, target: string, enc: TargetSeries, svc: Services): Result<(Analysis, Step), HttpError>
    requires ColumnsFit(df)
  {
    if CategoricalCols(df) == [] then
      Ok((NoAnalysis.(note := Some("No categorical columns found.")),
          Step("cat_analysis_skipped", "No categorical columns found.", Done, NoExtra)))
    else
      var encoded := EncodeAll(df, svc.encoderFails);
      var corr := CatScores(encoded, enc, svc.catCorr);
      match EmitAll(PlotHints(PlotColumns(corr), target), PlotSink(svc))
      case Err(_) => Err(HttpError(500, "Internal Server Error"))
      case Ok(urls) =>
        Ok((Analysis(Some(corr), None, Some(LabelMap(encoded)), Some(urls), None),
            Step("cat_analysis", "Categorical correlations computed.", Done, NoExtra)))
  }

  /** The trainer branch: a regressor for a numeric target, a classifier
      otherwise; a failure anywhere leaves `model_info` empty and records
      an error step. */
  function Train(numericTarget: bool, svc: Services): (ModelInfo, Step)
  {
    var name := ModelKey(svc);
    if numericTarget then
      match svc.trainRegressor
      case Err(e) => (NoModel, TrainingError(e))
      case Ok(metrics) =>
        match svc.upload(name, "application/octet-stream")
        case Err(e) => (NoModel, TrainingError(e))
        case Ok(url) => (Regressor(metrics.0, metrics.1, url), Trained(Regressor(metrics.0, metrics.1, url)))
    else
      match svc.trainClassifier
      case Err(e) => (NoModel, TrainingError(e))
      case Ok(acc) =>
        match svc.upload(name, "application/octet-stream")
        case Err(e) => (NoModel, TrainingError(e))
        case Ok(url) => (Classifier(acc, url), Trained(Classifier(acc, url)))
  }

  /** A model is reported exactly when its step is not an error; its
      download URL is where the stored `<hex>.pkl` landed; the step names
      the estimator the target's dtype chose. */
  lemma TrainOutcome(numericTarget: bool, svc: Services)
    ensures var (info, step) := Train(numericTarget, svc);
      && (info.NoModel? <==> step.status == Error)
      && (info.NoModel? ==> step.step == "model_training_error")
      && (!info.NoModel? ==> info.downloadUrl == svc.upload(ModelKey(svc), "application/octet-stream").value)
      && (info.Regressor? ==> numericTarget && ModelType(info) == "RandomForestRegressor")
      && (!info.NoModel? ==> step.message == "Model trained successfully: " + ModelType(info))
      && (info.Classifier? ==> !numericTarget && ModelType(info) == "RandomForestClassifier")
  {
    if numericTarget {
      RegressorOutcome(svc);
    } else {
      ClassifierOutcome(svc);
    }
  }

  lemma RegressorOutcome(svc: Services)
    ensures var (info, step) := Train(true, svc);
      && !info.Classifier?
      && (info.NoModel? ==> step.status == Error && step.step == "model_training_error")
      && (info.Regressor? ==> step.status == Done && ModelType(info) == "RandomForestRegressor")
      && (info.Regressor? ==> step.message == "Model trained successfully: " + ModelType(info))
      && (info.Regressor? ==> info.downloadUrl == svc.upload(ModelKey(svc), "application/octet-stream").value)
  {
    var stored := svc.upload(ModelKey(svc), "application/octet-stream");
    if svc.trainRegressor.Ok? && stored.Ok? {
      var m := Regressor(svc.trainRegressor.value.0, svc.trainRegressor.value.1, stored.value);
      assert Train(true, svc) == (m, Trained(m));
    } else {
      assert Train(true, svc).0 == NoModel;
    }
  }

  lemma ClassifierOutcome(svc: Services)
    ensures var (info, step) := Train(false, svc);
      && !info.Regressor?
      && (info.NoModel? ==> step.status == Error && step.step == "model_training_error")
      && (info.Classifier? ==> step.status == Done && ModelType(info) == "RandomForestClassifier")
      && (info.Classifier? ==> step.message == "Model trained successfully: " + ModelType(info))
      && (info.Classifier? ==> info.downloadUrl == svc.upload(ModelKey(svc), "application/octet-stream").value)
  {
    var stored := svc.upload(ModelKey(svc), "application/octet-stream");
    if svc.trainClassifier.Ok? && stored.Ok? {
      var m := Classifier(svc.trainClassifier.value, stored.value);
      assert Train(false, svc) == (m, Trained(m));
    } else {
      assert Train(false, svc).0 == NoModel;
    }
  }

  const BusinessMode := "business_insights"
  const TrainerMode := "model_trainer"

  /** Insights and narrative of a business response, once both analyses
      are done. */
  function BusinessResponse(req: Request, steps: seq<Step>, num: Analysis, cat: Analysis, ai: GenAi): Response
  {
    var numericTop := TopK(Remove(CorrelationsOf(num), req.target), 10);
    var catTop := TopK(Remove(CorrelationsOf(cat), req.target), 10);
    var n := MainNarrative(ai, MainFallback(req.target, numericTop, catTop));
    Response("success", req.mode, req.target, steps, num, cat,
             Insights(CorrelationsOf(num), CorrelationsOf(cat)), n.insights, n.model, n.error, NoModel)
  }

  /** The business-insights branch. */
  function Business(req: Request, frame: Table, svc: Services): Result<Response, HttpError>
    requires req.target in Names(frame)
  {
    var df := ImputedTable(frame, svc.median);
    var enc := TargetEncoding(TargetColumn(frame, req.target, svc.median));
    var (num, numStep) := NumericSide(df, enc, svc);
    match CategoricalSide(df, req.target, enc, svc)
    case Err(e) => Err(e)
    case Ok((cat, catStep)) =>
      Ok(BusinessResponse(req, OpeningSteps(frame, svc.median) + [numStep, catStep], num, cat, svc.ai))
  }

  /** The model-trainer branch: no analyses and no narrative. */
  function Trainer(req: Request, frame: Table, svc: Services): Response
    requires req.target in Names(frame)
  {
    var (info, step) := Train(IsNumericDtype(TargetColumn(frame, req.target, svc.median).kind), svc);
    Response("success", req.mode, req.target, OpeningSteps(frame, svc.median) + [step], NoAnalysis, NoAnalysis, [], [], None, None, info)
  }

  /** What happens once the table is fetched. */
  function Dispatch(req: Request, frame: Table, svc: Services): Result<Response, HttpError>
  {
    if req.target !in Names(frame) then Err(HttpError(400, "Target column '" + req.target + "' not found in dataset."))
    else if req.mode == BusinessMode then Business(req, frame, svc)
    else if req.mode == TrainerMode then Ok(Trainer(req, frame, svc))
    else Err(HttpError(400, "mode must be 'business_insights' or 'model_trainer'"))
  }

  /** The route, start to finish. */
  function Process(body: Result<Json, string>, svc: Services): Result<Response, HttpError>
  {
    match ParseRequest(body)
    case Err(e) => Err(e)
    case Ok(req) =>
      match svc.fetch(req.fileUrl)
      case Err(e) => Err(HttpError(400, "Could not fetch/read CSV from URL: " + e))
      case Ok(frame) => Dispatch(req, frame, svc)
  }

  /** The categorical side as the route runs it: the encoding loop, then
      the plot loop, which stops at the first failed upload. */
  method AnalyseCategoricals(df: Table, target: string, enc: TargetSeries, svc: Services)
    returns (r: Result<(Analysis, Step), HttpError>)
    ensures r == CategoricalSide(df, target, enc, svc)
  {
    if CategoricalCols(df) == [] {
      return Ok((NoAnalysis.(note := Some("No categorical columns found.")),
                 Step("cat_analysis_skipped", "No categorical columns found.", Done, NoExtra)));
    }
    var encoded := EncodeCategoricals(df, svc.encoderFails);
    var corr := CatScores(encoded, enc, svc.catCorr);
    var plots := EmitPlots(PlotHints(PlotColumns(corr), target), PlotSink(svc));
    if plots.Err? {
      return Err(HttpError(500, "Internal Server Error"));
    }
    r := Ok((Analysis(Some(corr), None, Some(LabelMap(encoded)), Some(plots.value), None),
             Step("cat_analysis", "Categorical correlations computed.", Done, NoExtra)));
  }

  /** The business branch as the route runs it, after the opening steps. */
  method RunBusiness(req: Request, frame: Table, df: Table, steps: seq<Step>, svc: Services)
    returns (r: Result<Response, HttpError>)
    requires req.target in Names(frame)
    requires df == ImputedTable(frame, svc.median) && steps == OpeningSteps(frame, svc.median)
    ensures r == Business(req, frame, svc)
  {
    var enc := TargetEncoding(TargetColumn(frame, req.target, svc.median));
    var (num, numStep) := NumericSide(df, enc, svc);
    var trace := steps + [numStep];
    var cat := AnalyseCategoricals(df, req.target, enc, svc);
    if cat.Err? {
      return Err(cat.error);
    }
    trace := trace + [cat.value.1];
    assert trace == OpeningSteps(frame, svc.median) + [numStep, cat.value.1];
    r := Ok(BusinessResponse(req, trace, num, cat.value.0, svc.ai));
  }

  /** `process_data` once the table is fetched, step by step: the trace is
      appended to as the route goes, the table is imputed column by
      column, and the categorical side runs its loops. */
  method DispatchData(req: Request, frame: Table, svc: Services) returns (r: Result<Response, HttpError>)
    ensures r == Dispatch(req, frame, svc)
  {
    if req.target !in Names(frame) {
      return Err(HttpError(400, "Target column '" + req.target + "' not found in dataset."));
    }
    var df, steps := OpenTrace(frame, svc.median);

    if req.mode == BusinessMode {
      r := RunBusiness(req, frame, df, steps, svc);
    } else if req.mode == TrainerMode {
      var (info, step) := Train(IsNumericDtype(TargetColumn(frame, req.target, svc.median).kind), svc);
      steps := steps + [step];
      r := Ok(Response("success", req.mode, req.target, steps, NoAnalysis, NoAnalysis, [], [], None, None, info));
      assert r == Ok(Trainer(req, frame, svc));
    } else {
      r := Err(HttpError(400, "mode must be 'business_insights' or 'model_trainer'"));
    }
  }

  /** `process_data`: validation, the fetch, then the rest. */
  method ProcessData(body: Result<Json, string>, svc: Services) returns (r: Result<Response, HttpError>)
    ensures r == Process(body, svc)
  {
    var parsed := ParseRequest(body);
    if parsed.Err? {
      return Err(parsed.error);
    }
    var req := parsed.value;
    var fetched := svc.fetch(req.fileUrl);
    if fetched.Err? {
      return Err(HttpError(400, "Could not fetch/read CSV from URL: " + fetched.error));
    }
    r := DispatchData(req, fetched.value, svc);
  }

  // --------------------------------------------------------- properties

  /** A request that fails validation is refused before anything is
      fetched: the outcome does not depend on the services at all. */
  lemma RejectedBeforeFetch(body: Result<Json, string>, svc1: Services, svc2: Services)
    requires ParseRequest(body).Err?
    ensures Process(body, svc1) == Process(body, svc2) == Err(ParseRequest(body).error)
    ensures Process(body, svc1).error.status == 400 <==> body.Err? || body.value.JObj?
  {
  }

  /** A valid request whose table is fetched is decided by `Dispatch`; a
      failed fetch is a 400 carrying the error's text. */
  lemma ProcessDispatches(body: Result<Json, string>, svc: Services)
    requires ParseRequest(body).Ok?
    ensures var req := ParseRequest(body).value;
      && (svc.fetch(req.fileUrl).Ok? ==> Process(body, svc) == Dispatch(req, svc.fetch(req.fileUrl).value, svc))
      && (svc.fetch(req.fileUrl).Err? ==>
            Process(body, svc) == Err(HttpError(400, "Could not fetch/read CSV from URL: " + svc.fetch(req.fileUrl).error)))
  {
  }

  /** A missing target column and an unknown mode are 400s, so no trace is
      returned; the trainer always answers, business mode unless the
      categorical side fails. */
  lemma TargetAndModeRejected(req: Request, frame: Table, svc: Services)
    ensures req.target !in Names(frame) ==>
      Dispatch(req, frame, svc) == Err(HttpError(400, "Target column '" + req.target + "' not found in dataset."))
    ensures req.target in Names(frame) && req.mode != BusinessMode && req.mode != TrainerMode ==>
      Dispatch(req, frame, svc) == Err(HttpError(400, "mode must be 'business_insights' or 'model_trainer'"))
    ensures req.target in Names(frame) && req.mode == TrainerMode ==> Dispatch(req, frame, svc).Ok?
    ensures req.target in Names(frame) && req.mode == BusinessMode ==>
      (Dispatch(req, frame, svc).Ok? <==>
         CategoricalSide(ImputedTable(frame, svc.median), req.target,
                         TargetEncoding(TargetColumn(frame, req.target, svc.median)), svc).Ok?)
  {
  }

  /** A business response carries the opening steps, then the numeric and
      the categorical step. */
  lemma BusinessTrace(req: Request, frame: Table, svc: Services)
    requires req.target in Names(frame) && Business(req, frame, svc).Ok?
    ensures var resp := Business(req, frame, svc).value;
      var df := ImputedTable(frame, svc.median);
      var enc := TargetEncoding(TargetColumn(frame, req.target, svc.median));
      && resp.status == "success" && resp.modelInfo.NoModel?
      && resp.steps == OpeningSteps(frame, svc.median) + [NumericSide(df, enc, svc).1, CategoricalSide(df, req.target, enc, svc).value.1]
  {
  }

  /** Every successful response says "success" and its trace opens with
      `missing_detected`, `missing_handled`, `separate_types`, followed by
      the two analysis steps or the one training step. */
  lemma SuccessTrace(req: Request, frame: Table, svc: Services)
    requires Dispatch(req, frame, svc).Ok?
    ensures var resp := Dispatch(req, frame, svc).value;
      && resp.status == "success"
      && resp.steps[..3] == OpeningSteps(frame, svc.median)
      && (req.mode == BusinessMode ==> |resp.steps| == 5 && resp.modelInfo.NoModel?)
      && (req.mode == TrainerMode ==> |resp.steps| == 4 && resp.aiInsights == [] && resp.insights == [])
  {
    var resp := Dispatch(req, frame, svc).value;
    var opening := OpeningSteps(frame, svc.median);
    if req.mode == BusinessMode {
      BusinessTrace(req, frame, svc);
      assert resp == Business(req, frame, svc).value;
    } else {
      assert resp == Trainer(req, frame, svc);
    }
    assert resp.steps[..3] == opening;
  }

  /** A failed training still answers "success": one error step is added
      and `model_info` stays empty. */
  lemma TrainingFailureStillSucceeds(req: Request, frame: Table, svc: Services)
    requires req.target in Names(frame)
    ensures var resp := Trainer(req, frame, svc);
      && resp.status == "success"
      && |resp.steps| == 4
      && (resp.modelInfo.NoModel? <==> resp.steps[3].status == Error)
      && (resp.modelInfo.NoModel? ==> resp.steps[3].step == "model_training_error")
  {
    TrainOutcome(IsNumericDtype(TargetColumn(frame, req.target, svc.median).kind), svc);
  }

  /** In business mode `ai_insights` always holds one to three bullets; a
      named model means a generated reply, whose bullets are at most 220
      characters; no key means the fallback and its error text. */
  lemma BusinessNarrative(req: Request, steps: seq<Step>, num: Analysis, cat: Analysis, ai: GenAi)
    ensures var resp := BusinessResponse(req, steps, num, cat, ai);
      && 1 <= |resp.aiInsights| <= 3
      && (resp.aiModel.Some? ==> forall k :: 0 <= k < |resp.aiInsights| ==> |resp.aiInsights[k]| <= MaxBulletLength)
      && (!HasKey(ai) ==> resp.aiModel == None && resp.aiError == Some("GEMINI_API_KEY not set"))
  {
    var numericTop := TopK(Remove(CorrelationsOf(num), req.target), 10);
    var catTop := TopK(Remove(CorrelationsOf(cat), req.target), 10);
    MainFallbackShape(req.target, numericTop, catTop);
    MainNarrativeBounds(ai, MainFallback(req.target, numericTop, catTop));
  }

  /** A numeric target is scored against itself, so its own entry is among
      the numeric scores that feed the insights, whether or not the heatmap
      upload succeeds, unless it is named `_target`: then `.assign` puts
      the target in its own place and `.drop` removes it. */
  lemma NumericTargetScoresItself(df: Frame, target: string, enc: TargetSeries, svc: Services)
    requires target in NumericCols(df)
    ensures NumericSide(df, enc, svc).0.correlations.Some?
    ensures target in Keys(CorrelationsOf(NumericSide(df, enc, svc).0)) <==> target != TargetSlot
  {
    var cols := NumericCols(df);
    var score := c => svc.numCorr(c, enc);
    CorrelationScoresCorrect(cols, score);
    var k :| 0 <= k < |cols| && cols[k] == target;
    var corr := CorrelationScores(cols, score);
    assert NumericSide(df, enc, svc).0.correlations == Some(corr);
    if target != TargetSlot {
      assert (cols[k], score(cols[k])) in corr;
      var j :| 0 <= j < |corr| && corr[j] == (cols[k], score(cols[k]));
      assert Keys(corr)[j] == target;
    }
  }

  /** A text (or bool) target is a categorical column, so when the
      categorical side answers its entry is among the categorical scores:
      its label codes scored against its factorized codes. A target named
      `_target` is dropped here too. */
  lemma CategoricalTargetScoresItself(df: Table, target: string, enc: TargetSeries, svc: Services)
    requires target in CategoricalCols(df)
    requires CategoricalSide(df, target, enc, svc).Ok?
    ensures CategoricalSide(df, target, enc, svc).value.0.correlations.Some?
    ensures target in Keys(CorrelationsOf(CategoricalSide(df, target, enc, svc).value.0)) <==> target != TargetSlot
  {
    var encoded := EncodeAll(df, svc.encoderFails);
    EncodeAllNames(df, svc.encoderFails);
    var corr := CatScores(encoded, enc, svc.catCorr);
    CatScoresCorrect(encoded, enc, svc.catCorr);
    assert CategoricalSide(df, target, enc, svc).value.0.correlations == Some(corr);
    if target != TargetSlot {
      var k :| 0 <= k < |CategoricalCols(df)| && CategoricalCols(df)[k] == target;
      var e := (encoded[k].name, svc.catCorr(encoded[k].name, encoded[k].codes, enc));
      assert e in corr;
      var j :| 0 <= j < |corr| && corr[j] == e;
      assert Keys(corr)[j] == target;
    }
  }

  /** Imputation never changes a column's dtype, so a numeric target is
      still among the numeric columns of the imputed table. */
  lemma NumericTargetStaysNumeric(frame: Table, target: string, median: seq<real> -> real)
    requires target in Names(frame) && Find(frame, target).value.kind == Numeric
    ensures target in NumericCols(ImputedTable(frame, median))
  {
    var df := ImputedTable(frame, median);
    var i :| 0 <= i < |frame| && frame[i] == Find(frame, target).value;
    assert df[i] == ImputeColumn(frame[i], median);
    assert df[i].name == target && df[i].kind == Numeric;
  }

  /** A failed category-plot upload is not caught: when every upload
      fails, the whole request becomes a 500 exactly when some categorical
      column other than `_target` is scored, since only those are plotted. */
  lemma CategoryPlotFailureIs500(df: Table, target: string, enc: TargetSeries, svc: Services)
    requires forall n, ct :: svc.upload(n, ct).Err?
    ensures CategoricalSide(df, target, enc, svc).Err? <==> exists c :: c in CategoricalCols(df) && c != TargetSlot
    ensures CategoricalSide(df, target, enc, svc).Err? ==> CategoricalSide(df, target, enc, svc) == Err(HttpError(500, "Internal Server Error"))
  {
    var encoded := EncodeAll(df, svc.encoderFails);
    var corr := CatScores(encoded, enc, svc.catCorr);
    var hints := PlotHints(PlotColumns(corr), target);
    if exists c :: c in CategoricalCols(df) && c != TargetSlot {
      CategoryHintsExist(df, enc, svc, target);
      PlotSinkFails(svc, hints[0]);
      FirstFailureFails(hints, PlotSink(svc));
      CategoricalSideFails(df, target, enc, svc);
    } else if CategoricalCols(df) != [] {
      OnlySlotIsNotScored(df, enc, svc);
      PlotColumnsCount(corr);
    }
  }

  /** With `_target` as the only categorical name, nothing is scored. */
  lemma OnlySlotIsNotScored(df: Table, enc: TargetSeries, svc: Services)
    requires forall c :: c in CategoricalCols(df) ==> c == TargetSlot
    ensures CatScores(EncodeAll(df, svc.encoderFails), enc, svc.catCorr) == []
  {
    var encoded := EncodeAll(df, svc.encoderFails);
    EncodeAllNames(df, svc.encoderFails);
    forall k | 0 <= k < |encoded| ensures encoded[k].name == TargetSlot {
      assert CategoricalCols(df)[k] in CategoricalCols(df);
    }
    SlotOnlyScoresNothing(encoded, enc, svc.catCorr);
  }

  lemma PlotSinkFails(svc: Services, h: string)
    requires forall n, ct :: svc.upload(n, ct).Err?
    ensures PlotSink(svc)(h).Err?
  {
    assert svc.upload(GraphKey(svc, h), "image/png").Err?;
  }

  lemma CategoricalSideFails(df: Table, target: string, enc: TargetSeries, svc: Services)
    requires CategoricalCols(df) != []
    requires EmitAll(PlotHints(PlotColumns(CatScores(EncodeAll(df, svc.encoderFails), enc, svc.catCorr)), target), PlotSink(svc)).Err?
    ensures CategoricalSide(df, target, enc, svc) == Err(HttpError(500, "Internal Server Error"))
  {
  }

  lemma CategoryHintsExist(df: Table, enc: TargetSeries, svc: Services, target: string)
    requires exists c :: c in CategoricalCols(df) && c != TargetSlot
    ensures PlotHints(PlotColumns(CatScores(EncodeAll(df, svc.encoderFails), enc, svc.catCorr)), target) != []
  {
    var encoded := EncodeAll(df, svc.encoderFails);
    EncodeAllNames(df, svc.encoderFails);
    var corr := CatScores(encoded, enc, svc.catCorr);
    CatScoresCorrect(encoded, enc, svc.catCorr);
    var c :| c in CategoricalCols(df) && c != TargetSlot;
    var k :| 0 <= k < |CategoricalCols(df)| && CategoricalCols(df)[k] == c;
    assert (encoded[k].name, svc.catCorr(encoded[k].name, encoded[k].codes, enc)) in corr;
    PlotColumnsCount(corr);
  }
}
