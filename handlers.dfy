/**
 * The three POST endpoints of main.py (classify, snake, emotion), stripped of the
 * web framework. They differ only in the module name, the predictor they call and
 * the snake-only `danger` field, so they are one handler dispatched over Module.
 *
 * Each request: reject an empty batch with 400 "No files uploaded"; predict from the
 * first file's name; build `meta` from the first file and the batch length; build
 * the payload; then, inside a try block that swallows every `Exception`, read
 * each file's size, build the audit-log record and write it to the store; finally
 * return the payload, which was complete before the try block began.
 */
module Handlers {
  import opened Text
  import opened Predictors

  datatype Option<T> = None | Some(value: T)

  /** The prediction modules, one per endpoint. */
  datatype Module = Classifier | Snake | Emotion {
    /**
     * The `module` string of the payload and of the audit record; the three
     * endpoints use three different names, so a record identifies its endpoint.
     */
    function Name(): (r: string)
      ensures this == Classifier <==> r == "classifier"
      ensures this == Snake <==> r == "snake"
      ensures this == Emotion <==> r == "emotion"
    {
      match this
      case Classifier => "classifier"
      case Snake => "snake"
      case Emotion => "emotion"
    }
  }

  /** The predictor each endpoint calls on the first file's name. */
  function Predict(m: Module, filename: string): (r: seq<Prediction>)
    ensures Ranked(r)
  {
    match m
    case Classifier => ClassifierLabels(filename)
    case Snake => SnakeAssessment(filename)
    case Emotion => EmotionLabels(filename)
  }

  /**
   * One uploaded file. `size` is the byte length that `len(await f.read())` yields
   * when the audit record is built.
   */
  datatype UploadedFile = UploadedFile(filename: string, contentType: string, size: nat)

  /** The `meta` dictionary; `danger` is present for the snake module only. */
  datatype Meta = Meta(filename: string, contentType: string, danger: Option<string>, filesCount: nat)

  /** The JSON body `{module, predictions, meta}` of a successful request. */
  datatype Payload = Payload(moduleName: string, predictions: seq<Prediction>, meta: Meta)

  /** What the caller receives: the payload, or the HTTP error raised before any work. */
  datatype Response = Ok(payload: Payload) | HttpError(status: nat, detail: string)

  /** The `AnalysisLog` record: the module, per-file columns aligned by index, and the payload. */
  datatype AuditLogEntry = AuditLogEntry(
    moduleName: string,
    filenames: seq<string>,
    contentTypes: seq<string>,
    sizes: seq<nat>,
    result: Payload)

  /**
   * How the try block around the audit write ends: the record is stored, or some
   * step inside it (reading a file, building the record, the store write) raises an
   * `Exception`, which `except Exception` swallows.
   */
  datatype WriteOutcome = Stored | Raised

  const BAD_REQUEST: nat := 400
  const NO_FILES_DETAIL: string := "No files uploaded"
  const VENOMOUS_LABEL: string := "Venomous Snake"
  const DANGEROUS: string := "Dangerous"
  const GENERALLY_SAFE: string := "Generally Safe"

  /** The module-specific derived meta field: only snake classifies its top label. */
  function DangerOf(m: Module, predictions: seq<Prediction>): (r: Option<string>)
    requires predictions != []
    ensures r.Some? <==> m == Snake
    ensures r.Some? ==> (r.value == DANGEROUS <==> predictions[0].category == VENOMOUS_LABEL)
    ensures r.Some? ==> (r.value == GENERALLY_SAFE <==> predictions[0].category != VENOMOUS_LABEL)
  {
    if m == Snake then
      Some(if predictions[0].category == VENOMOUS_LABEL then DANGEROUS else GENERALLY_SAFE)
    else
      None
  }

  /** The payload of a non-empty batch: everything is taken from the first file and the batch length. */
  function Compose(m: Module, files: seq<UploadedFile>): (p: Payload)
    requires files != []
    ensures p.moduleName == m.Name()
    ensures p.predictions == Predict(m, files[0].filename) && Ranked(p.predictions)
    ensures p.meta.filename == files[0].filename
    ensures p.meta.contentType == files[0].contentType
    ensures p.meta.filesCount == |files|
    ensures p.meta.danger == DangerOf(m, p.predictions)
  {
    var first := files[0];
    var predictions := Predict(m, first.filename);
    var meta := Meta(first.filename, first.contentType, DangerOf(m, predictions), |files|);
    Payload(m.Name(), predictions, meta)
  }

  /**
   * What a handler returns for a batch, whatever happens to the audit write: the 400
   * error exactly when the batch is empty, the composed payload otherwise.
   */
  function Respond(m: Module, files: seq<UploadedFile>): (r: Response)
    ensures r.HttpError? <==> files == []
    ensures r.HttpError? ==> r.status == 400 && r.detail == "No files uploaded"
    ensures r.Ok? ==> r.payload.meta.filesCount == |files| && r.payload.moduleName == m.Name()
  {
    if files == [] then HttpError(BAD_REQUEST, NO_FILES_DETAIL) else Ok(Compose(m, files))
  }

  /** A list comprehension `[f.<field> for f in files]`: one value per file, in batch order. */
  function Column<T>(files: seq<UploadedFile>, field: UploadedFile -> T): (r: seq<T>)
    ensures |r| == |files|
    ensures forall i :: 0 <= i < |files| ==> r[i] == field(files[i])
  {
    if files == [] then [] else [field(files[0])] + Column(files[1..], field)
  }

  /** The `AnalysisLog` built inside the try block. */
  function LogEntry(m: Module, files: seq<UploadedFile>, payload: Payload): (e: AuditLogEntry)
    ensures e.moduleName == m.Name() && e.result == payload
    ensures |e.filenames| == |e.contentTypes| == |e.sizes| == |files|
    ensures forall i :: 0 <= i < |files| ==>
      && e.filenames[i] == files[i].filename
      && e.contentTypes[i] == files[i].contentType
      && e.sizes[i] == files[i].size
  {
    AuditLogEntry(
      m.Name(),
      Column(files, (f: UploadedFile) => f.filename),
      Column(files, (f: UploadedFile) => f.contentType),
      Column(files, (f: UploadedFile) => f.size),
      payload)
  }

  /** The backing store's "analysislog" collection, which the handlers only ever append to. */
  class AuditStore {
    var documents: seq<AuditLogEntry>

    constructor ()
      ensures documents == []
    {
      documents := [];
    }

    /** `create_document("analysislog", log)`: appends the record, or raises and stores nothing. */
    method CreateDocument(entry: AuditLogEntry, outcome: WriteOutcome)
      modifies this
      ensures documents == if outcome == Stored then old(documents) + [entry] else old(documents)
    {
      if outcome == Stored {
        documents := documents + [entry];
      }
    }
  }

  /**
   * One endpoint call. The response is `Respond(m, files)`, which does not mention
   * the write outcome: a failed audit write never changes what the caller gets. The
   * store gains exactly the request's record when the batch is non-empty and the
   * write succeeds, and is untouched otherwise.
   */
  method Handle(m: Module, files: seq<UploadedFile>, store: AuditStore, outcome: WriteOutcome)
    returns (r: Response)
    modifies store
    ensures r == Respond(m, files)
    ensures store.documents ==
      if files != [] && outcome == Stored then old(store.documents) + [LogEntry(m, files, r.payload)]
      else old(store.documents)
  {
    if files == [] {
      r := HttpError(BAD_REQUEST, NO_FILES_DETAIL);
      return;
    }
    var payload := Compose(m, files);
    // Best-effort logging: whatever `outcome` is, nothing here reaches `r`.
    var entry := LogEntry(m, files, payload);
    store.CreateDocument(entry, outcome);
    r := Ok(payload);
  }

  /**
   * The same request handled once against a store whose write succeeds and once
   * against one whose write raises gives the same response.
   */
  method ResponseIgnoresStore(m: Module, files: seq<UploadedFile>)
    returns (whenStored: Response, whenRaised: Response)
    ensures whenStored == whenRaised
    ensures whenStored.HttpError? <==> files == []
  {
    var healthy := new AuditStore();
    whenStored := Handle(m, files, healthy, Stored);
    var failing := new AuditStore();
    whenRaised := Handle(m, files, failing, Raised);
  }

  /** Every module rejects an empty batch with 400 "No files uploaded" and no payload. */
  lemma EmptyBatchRejected(m: Module)
    ensures Respond(m, []) == HttpError(400, "No files uploaded")
  {
  }

  /** Every successful response carries three ranked predictions with confidences in [0, 1]. */
  lemma SuccessfulResponseRanked(m: Module, files: seq<UploadedFile>)
    requires files != []
    ensures Respond(m, files).Ok?
    ensures var p := Respond(m, files).payload.predictions;
      |p| == 3 && forall i :: 0 <= i < |p| ==> p[i].confidence <= 100
  {
  }

  /**
   * The snake `danger` field, traced back to the file name: Dangerous exactly when the
   * lowered name of the first file mentions cobra, viper or krait.
   */
  lemma SnakeDangerFromName(files: seq<UploadedFile>)
    requires files != []
    ensures var danger := Respond(Snake, files).payload.meta.danger;
      && danger.Some?
      && (danger.value == "Dangerous" <==> MentionsAny(Lower(files[0].filename), VENOM_KEYS))
      && (danger.value == "Generally Safe" <==> !MentionsAny(Lower(files[0].filename), VENOM_KEYS))
  {
    SnakeVenomRule(files[0].filename);
  }

  /** A cobra picture, in whatever case, is Venomous Snake and Dangerous. */
  lemma CobraIsDangerous(files: seq<UploadedFile>)
    requires files != [] && Occurs("cobra", Lower(files[0].filename))
    ensures var p := Respond(Snake, files).payload;
      p.predictions[0].category == "Venomous Snake" && p.meta.danger == Some("Dangerous")
  {
    SnakeDangerFromName(files);
  }

  /** "rat.png" mentions no venom keyword, so it is Non-venomous Snake and Generally Safe. */
  lemma RatIsGenerallySafe(contentType: string, size: nat)
    ensures var p := Respond(Snake, [UploadedFile("rat.png", contentType, size)]).payload;
      && p.predictions[0] == Prediction("Non-venomous Snake", 82)
      && p.meta.danger == Some("Generally Safe")
  {
    var name := "rat.png";
    LowerKeepsLower(name);
    MissingCharExcludes("cobra", name, 'c');
    MissingCharExcludes("viper", name, 'v');
    MissingCharExcludes("krait", name, 'k');
    assert !MentionsAny(name, VENOM_KEYS);
    SnakeDangerFromName([UploadedFile(name, contentType, size)]);
  }
}
