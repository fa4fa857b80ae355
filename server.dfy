/** The request handlers of main.py as decisions on their inputs. The module's
    `model` is assigned once at import and never changes, so it is a parameter
    (None when loading failed). Image decoding, base64 decoding and
    preprocessing are library calls, passed in as Libraries. */
module Server {
  import opened Wrappers
  import opened Ranking
  import opened Wire
  import opened EmotionModel
  import Text

  datatype Body = JsonBody(value: Json) | PlainText(text: string)

  datatype Response = Response(status: nat, body: Body)

  /** `raise HTTPException(status_code, detail)`: FastAPI answers with
      `{"detail": detail}`. */
  function Raised(status: nat, detail: string): Response {
    Response(status, JsonBody(JObj(map["detail" := JStr(detail)])))
  }

  /** Any other exception escaping a handler: the framework's plain-text 500. */
  const InternalError := Response(500, PlainText("Internal Server Error"))

  /** A decoded RGB picture; only passed along. */
  datatype RgbImage = RgbImage(width: nat, height: nat, pixels: seq<bv8>)

  /** The library calls the handlers make; None stands for the call raising. */
  datatype Libraries = Libraries(
    openRgb: seq<bv8> -> Option<RgbImage>,
    b64decode: string -> Option<seq<bv8>>,
    preprocess: (RgbImage, seq<Dim>) -> Option<NdArray>,
    ops: FloatOps)

  /** The multipart file of `/detect-emotion`: its declared content type (the
      part may carry none) and its bytes. */
  datatype UploadedFile = UploadedFile(contentType: Option<string>, content: seq<bv8>)

  /** Python's `shape[-2:]`: the last two entries, or all of a shorter list. */
  function InputSize(shape: seq<Dim>): (size: seq<Dim>)
    ensures |size| == if |shape| >= 2 then 2 else |shape|
    ensures shape == shape[..|shape| - |size|] + size
  {
    if |shape| >= 2 then shape[|shape| - 2..] else shape
  }

  /** Decode, preprocess to the model's input size, predict: None when any
      step raises (including `None[-2:]` for a missing input shape). */
  function Prediction(m: OnnxModel, bytes: seq<bv8>, lib: Libraries): Option<seq<Emotion>> {
    match lib.openRgb(bytes)
    case None => None
    case Some(image) =>
      if m.inputShape.None? then None
      else
        match lib.preprocess(image, InputSize(m.inputShape.value))
        case None => None
        case Some(input) =>
          match Predicted(m, input, lib.ops)
          case Failure(_) => None
          case Success(results) => Some(results)
  }

  /** `{"success": True, "results": results}`. */
  function Detected(results: seq<Emotion>): Response {
    Response(200, JsonBody(JObj(map["success" := JBool(true), "results" := EmotionsJson(results)])))
  }

  function Answer(prediction: Option<seq<Emotion>>): Response {
    if prediction.Some? then Detected(prediction.value) else InternalError
  }

  /** POST /detect-emotion */
  function DetectEmotion(model: Option<OnnxModel>, file: UploadedFile, lib: Libraries): Response {
    if model.None? then Raised(500, "Model not loaded")
    else if file.contentType.None? then InternalError
    else if !Text.StartsWith(file.contentType.value, "image/") then Raised(400, "File must be an image")
    else Answer(Prediction(model.value, file.content, lib))
  }

  /** POST /detect-emotion-base64 */
  function DetectEmotionBase64(model: Option<OnnxModel>, data: map<string, Json>, lib: Libraries): Response {
    if model.None? then Raised(500, "Model not loaded")
    else if "image" !in data then Raised(400, "No image provided")
    else if !data["image"].JStr? then InternalError
    else
      match Text.SecondField(data["image"].s, ',')
      case None => InternalError
      case Some(payload) =>
        match lib.b64decode(payload)
        case None => InternalError
        case Some(bytes) => Answer(Prediction(model.value, bytes, lib))
  }

  /** GET /health */
  function HealthCheck(model: Option<OnnxModel>): (r: Response)
    ensures r.status == 200 && r.body.JsonBody? && r.body.value.JObj?
    ensures r.body.value.fields.Keys == {"status", "model_loaded"}
    ensures r.body.value.fields["status"] == JStr("healthy")
    ensures r.body.value.fields["model_loaded"] == JBool(model.Some?)
  {
    Response(200, JsonBody(JObj(map["status" := JStr("healthy"), "model_loaded" := JBool(model.Some?)])))
  }

  /** GET /model-info */
  function ModelInfo(model: Option<OnnxModel>): (r: Response)
    ensures r.status == 200 && r.body.JsonBody? && r.body.value.JObj?
    ensures model.None? ==> r.body.value.fields == map["model_loaded" := JBool(false)]
    ensures model.Some? ==>
      r.body.value.fields.Keys == {"model_loaded", "input_shape", "labels"} && r.body.value.fields["model_loaded"] == JBool(true)
  {
    if model.None? then Response(200, JsonBody(JObj(map["model_loaded" := JBool(false)])))
    else
      var info := GetModelInfo(model.value);
      Response(200, JsonBody(JObj(map["model_loaded" := JBool(true),
                                      "input_shape" := info.fields["input_shape"],
                                      "labels" := info.fields["labels"]])))
  }

  /** The results list a client reads from a response body, if any. */
  function ResultsOf(r: Response): Option<seq<Emotion>> {
    if r.body.JsonBody? && r.body.value.JObj? && "results" in r.body.value.fields
    then ReadEmotions(r.body.value.fields["results"])
    else None
  }

  lemma AnswerCarriesPrediction(prediction: Option<seq<Emotion>>)
    ensures Answer(prediction).status == 200 <==> prediction.Some?
    ensures Answer(prediction).status != 200 ==> Answer(prediction) == InternalError
    ensures prediction.Some? ==> ResultsOf(Answer(prediction)) == prediction
  {
    if prediction.Some? {
      EmotionsRoundTrip(prediction.value);
    }
  }

  /** The decision table of /detect-emotion: the model check comes before the
      content type is examined; a declared type outside "image/" is a 400; a
      success carries the prediction unchanged. */
  lemma DetectEmotionOutcomes(model: Option<OnnxModel>, file: UploadedFile, lib: Libraries)
    ensures var r := DetectEmotion(model, file, lib);
      && (r == Raised(500, "Model not loaded") <==> model.None?)
      && (r == Raised(400, "File must be an image") <==>
            model.Some? && file.contentType.Some? && !Text.StartsWith(file.contentType.value, "image/"))
      && (r.status == 400 <==>
            model.Some? && file.contentType.Some? && !Text.StartsWith(file.contentType.value, "image/"))
      && (model.Some? && r.status == 500 ==> r == InternalError)
      && (r.status == 200 <==>
            model.Some? && file.contentType.Some? && Text.StartsWith(file.contentType.value, "image/")
            && Prediction(model.value, file.content, lib).Some?)
      && (r.status == 200 ==> r == Detected(Prediction(model.value, file.content, lib).value))
      && (r.status == 200 ==> ResultsOf(r) == Prediction(model.value, file.content, lib))
      && (r.status in {200, 400, 500})
  {
    if model.Some? && file.contentType.Some? && Text.StartsWith(file.contentType.value, "image/") {
      AnswerCarriesPrediction(Prediction(model.value, file.content, lib));
    }
  }

  /** The decision table of /detect-emotion-base64: the model check first, then
      the "image" key; a string with no comma, a bad payload or a failing
      prediction is a 500; a success carries the prediction unchanged. */
  lemma DetectEmotionBase64Outcomes(model: Option<OnnxModel>, data: map<string, Json>, lib: Libraries)
    ensures var r := DetectEmotionBase64(model, data, lib);
      && (r == Raised(500, "Model not loaded") <==> model.None?)
      && (r == Raised(400, "No image provided") <==> model.Some? && "image" !in data)
      && (r.status == 400 <==> model.Some? && "image" !in data)
      && (model.Some? && r.status == 500 ==> r == InternalError)
      && (model.Some? && "image" in data && data["image"].JStr? && ',' !in data["image"].s ==> r == InternalError)
      && (r.status == 200 <==>
            && model.Some? && "image" in data && data["image"].JStr?
            && Text.SecondField(data["image"].s, ',').Some?
            && lib.b64decode(Text.SecondField(data["image"].s, ',').value).Some?
            && Prediction(model.value, lib.b64decode(Text.SecondField(data["image"].s, ',').value).value, lib).Some?)
      && (r.status == 200 ==>
            r == Detected(Prediction(model.value, lib.b64decode(Text.SecondField(data["image"].s, ',').value).value, lib).value))
      && (r.status == 200 ==>
            ResultsOf(r) == Prediction(model.value, lib.b64decode(Text.SecondField(data["image"].s, ',').value).value, lib))
      && (r.status in {200, 400, 500})
  {
    if model.Some? && "image" in data && data["image"].JStr? {
      var field := Text.SecondField(data["image"].s, ',');
      if field.Some? && lib.b64decode(field.value).Some? {
        AnswerCarriesPrediction(Prediction(model.value, lib.b64decode(field.value).value, lib));
      }
    }
  }

  /** For the data URL the browser sends ("data:image/jpeg;base64," followed by
      base64 text, which has no comma), the bytes decoded are those of the text
      after the comma. */
  lemma DataUrlPayloadDecoded(m: OnnxModel, header: string, payload: string, lib: Libraries)
    requires ',' !in header && ',' !in payload
    ensures DetectEmotionBase64(Some(m), map["image" := JStr(header + "," + payload)], lib) ==
      if lib.b64decode(payload).None? then InternalError
      else Answer(Prediction(m, lib.b64decode(payload).value, lib))
  {
    Text.SecondFieldAfterHeader(header, payload, ',');
  }

  /** /model-info reports the stored input shape and labels unchanged, and
      agrees with /health on whether the model is loaded. */
  lemma ModelInfoReportsModel(model: Option<OnnxModel>)
    ensures model.Some? ==>
      && ReadShape(ModelInfo(model).body.value.fields["input_shape"]) == Some(model.value.inputShape)
      && ReadLabels(ModelInfo(model).body.value.fields["labels"]) == Some(model.value.labels)
    ensures ModelInfo(model).body.value.fields["model_loaded"] == HealthCheck(model).body.value.fields["model_loaded"]
  {
    if model.Some? {
      ModelInfoRoundTrip(model.value);
    }
  }
}
