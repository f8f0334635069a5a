# Pashu Mitra inference gateway: request pipeline model

This project models the request pipeline of the Pashu Mitra AI backend (`main.py`)
without its web framework. The gateway accepts a batch of uploaded files and routes it to
one of three prediction modules: the animal classifier, the snake assessment or the
emotion reader. It returns a ranked list of three (label, confidence) predictions with
metadata about the batch. It also tries to write an audit record of the request to a
backing store, and a failed write never changes the response.

Files:

- `text.dfy` (module `Text`): the string primitives the predictors use. `Lower` is
  `str.lower()` on ASCII. `Contains` is the substring test `k in s`, proved equal to a
  reference definition `Occurs` ("some index where `k` starts in `s`"). `AnyKeyword` is
  `any(k in s for k in keys)`, proved equal to `MentionsAny`.
- `predictors.dfy` (module `Predictors`): the three mock predictors
  `_mock_classifier_labels`, `_mock_snake_assessment` and `_mock_emotion`. Lemmas cover
  keyword precedence, case-insensitivity, ranking and confidence totals. Confidences are
  natural numbers in hundredths (0.92 is 92). The source only returns these literals and
  never does arithmetic on them. The `label` key of a prediction is the field `category`,
  because `label` is a Dafny keyword.
- `handlers.dfy` (module `Handlers`): the `classify`, `snake` and `emotion` endpoints,
  written as one handler that dispatches over `Module = Classifier | Snake | Emotion`.
  `Respond` is the response as a function of the module and the batch. `Handle` is the
  sequential procedure. It rejects an empty batch, composes the payload, builds the
  `AnalysisLog` record and makes one best-effort store write, then returns the payload.
  The store is an `AuditStore` object whose `documents` field is the "analysislog"
  collection. The write's outcome (`Stored | Raised`) is a parameter. The handler's
  `ensures` gives a response that does not mention that parameter.

Facts about main.py that shape the model:

- Each endpoint calls one fixed predictor (main.py:150, 181, 213), so no module lookup
  can fail and the model has no error for an unknown module.
- The `AnalysisLog` call passes exactly `module`, `filenames`, `content_types`, `sizes`
  and `result` (main.py:161-167), and `AuditLogEntry` has exactly those fields.
- Only the snake endpoint adds a derived `danger` field to `meta` (main.py:186).

## Model

| member | source | states |
|---|---|---|
| Text.LowerChar | main.py:80 | ASCII lowercasing of one character: the result is never an upper-case letter; A-Z map to a-z at the same alphabet position; every other character is kept |
| Text.Lower | main.py:80 | `filename.lower()`: same length, each character lowered independently, result has no upper-case ASCII letter |
| Text.LowerIdempotent | main.py:80 | lowering an already lowered name changes nothing, the basis of case-insensitive matching |
| Text.Contains | main.py:81 | the substring test `k in name` holds exactly when `k` occurs at some index of `name` (reference definition `Occurs`) |
| Text.AnyKeyword | main.py:81 | `any(k in name for k in keys)` holds exactly when some keyword of the list occurs in `name` |
| Predictors.ClassifierLabels | main.py:79-103 | the classifier always returns exactly three predictions, confidences in [0, 1], strictly descending |
| Predictors.ClassifierPrecedence | main.py:81-103 | top label is Cow iff a cow keyword occurs; Dog iff no cow keyword but a dog keyword; Cat iff neither but a cat keyword; Unknown Animal iff none |
| Predictors.CowNameIsCow | main.py:81-86 | a name containing "cow" in any case has top prediction ("Cow", 0.92) |
| Predictors.DogBeatsCat | main.py:87-98 | a name containing both "dog" and "cat", and no cow keyword, has top prediction ("Dog", 0.90) |
| Predictors.CattleIsCow | main.py:81-98 | "cattle" contains "cat" yet is classified ("Cow", 0.92), because cow keywords are tested first |
| Predictors.NoKeywordIsUnknownAnimal | main.py:99-103 | a name with no classifier keyword gets the default list, topped by ("Unknown Animal", 0.60) |
| Predictors.SnakeAssessment | main.py:106-119 | the snake assessment always returns exactly three predictions, confidences in [0, 1], strictly descending |
| Predictors.SnakeVenomRule | main.py:108-117 | top is ("Venomous Snake", 0.88) iff the lowered name mentions cobra, viper or krait, else ("Non-venomous Snake", 0.82); entries 2 and 3 are always ("Rat Snake", 0.08) and ("Other", 0.04) |
| Predictors.EmotionLabels | main.py:122-140 | the emotion reader always returns exactly three predictions, confidences in [0, 1], strictly descending |
| Predictors.EmotionPrecedence | main.py:124-140 | top is Happy iff a happy/smile keyword occurs; Agitated iff none of those but angry/growl/hiss; ("Neutral", 0.70) iff neither |
| Predictors.NoKeywordIsNeutral | main.py:136-140 | a name with no emotion keyword gets the default list |
| Predictors.RandomIsNeutral | main.py:136-140 | "random.jpg" has top emotion prediction ("Neutral", 0.70) |
| Predictors.CaseInsensitive | main.py:79-140 | every predictor gives the same result for a name and for its lowered form |
| Predictors.ConfidenceTotals | main.py:82-140 | confidences total exactly 1.00, except the non-venomous snake list, which totals 0.94 |
| Handlers.Module.Name | main.py:157-224 | the classify, snake and emotion endpoints name their module "classifier", "snake" and "emotion" in the payload and the audit record, one distinct name per module |
| Handlers.Predict | main.py:150 | each module's predictor output is ranked: three predictions, confidences in [0, 1], strictly descending |
| Handlers.DangerOf | main.py:182-186 | only snake has a `danger` field; it is "Dangerous" iff the top label is "Venomous Snake", else "Generally Safe" |
| Handlers.Compose | main.py:149-157 | payload of a non-empty batch: module name, predictions of the first file's name, `meta.filename`/`meta.content_type` of the first file, `files_count` = batch length, module's derived danger |
| Handlers.Respond | main.py:145-157 | the response is the 400 "No files uploaded" error exactly when the batch is empty, otherwise a payload for the module with `files_count` = batch length |
| Handlers.Column | main.py:163-165 | a list comprehension over the batch: one entry per file, aligned by index |
| Handlers.LogEntry | main.py:161-167 | the audit record names the module, has `filenames`, `content_types`, `sizes` each of the batch length and aligned by index with the files, and holds the returned payload as its result |
| Handlers.AuditStore.CreateDocument | main.py:168 | a successful write appends exactly the record to the collection; a raising write leaves it unchanged |
| Handlers.Handle | main.py:144-172 | the response equals `Respond(m, files)`, whatever the write outcome; the store gains exactly the request's record iff the batch is non-empty and the write succeeds |
| Handlers.ResponseIgnoresStore | main.py:159-172 | the same request gives the same response whether the audit write succeeds or raises |
| Handlers.EmptyBatchRejected | main.py:146-147 | every module answers an empty batch with 400 "No files uploaded" and no payload |
| Handlers.SuccessfulResponseRanked | main.py:149-157 | every non-empty batch succeeds with three predictions whose confidences lie in [0, 1] |
| Handlers.SnakeDangerFromName | main.py:180-190 | snake `meta.danger` is "Dangerous" iff the first file's lowered name mentions cobra, viper or krait, else "Generally Safe" |
| Handlers.CobraIsDangerous | main.py:180-190 | a first file whose name contains "cobra" in any case gives top label "Venomous Snake" and danger "Dangerous" |
| Handlers.RatIsGenerallySafe | main.py:180-190 | "rat.png" gives top ("Non-venomous Snake", 0.82) and danger "Generally Safe" |

## Left out

- The health endpoint `test_database` (main.py:33-75) is not modelled. It imports a `database` module at run time, calls the store driver and reads environment variables. All of that is I/O and introspection.
- The FastAPI application, the route decorators, CORS, the `PredictionResponse` response model, the two greeting endpoints and the `uvicorn` startup are framework wiring. They are not modelled.
- `create_document` and `AnalysisLog` live in `database.py` and `schemas.py`. Neither file is part of this model. The write is an opaque step that either stores the record or raises. A raising write is assumed to store nothing.
- Reading the file streams (`await f.read()`) is not modelled. Each file's byte size is a given field of `UploadedFile`. A read that raises an `Exception` is one of the ways the try block can fail, so it is covered by `Raised`.
- `Raised` stands only for `Exception` subclasses, the ones `except Exception` catches (main.py:169, 201, 231). A `BaseException` that is not an `Exception` leaves the try block uncaught, and the handler then returns no payload. Examples are `asyncio.CancelledError` at `await f.read()` when the request is cancelled, `KeyboardInterrupt` and `SystemExit`. The model does not capture these exits.
- `result=payload` (main.py:166, 198, 228) hands the same dict object to `AnalysisLog`, and the handler then returns that object. `Payload` is a value, so the model assumes that neither `AnalysisLog` nor `create_document` changes the dict. Aliasing between the logged record and the returned payload is not modelled.
- The handlers are `async`. Concurrency between requests is not modelled.
- Text.Lower: does not model Unicode case mapping. Python's `str.lower()` also lowers non-ASCII letters and can change a string's length. The model lowers only A-Z.
- Confidences are integer hundredths, not floats. The source only returns literal values and never does arithmetic on them.
- `filename` and `content_type` are modelled as strings. The framework allows them to be missing (`None`), and that case is not modelled.
- The key order of the `meta` dictionary is not modelled. It only affects JSON serialisation.
