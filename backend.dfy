/** The backend's `POST /classify` handler: a two-stage classification whose
    second stage (breed) runs only when the first stage (cow / buffalo /
    none) found cattle. The two ONNX predictors are parameters: functions of
    the file they are handed. */
module Backend {
  import opened Wrappers

  newtype byte = x: int | 0 <= x < 256

  /** The multipart upload as the handler receives it. */
  datatype Upload = Upload(filename: string, contentType: string, bytes: seq<byte>)

  /** The in-memory file handed to a predictor: the upload's filename over a
      fresh buffer of the bytes read once from the upload. */
  datatype StageFile = StageFile(filename: string, bytes: seq<byte>)

  datatype TypePrediction = TypePrediction(cls: string, confidence: real)
  datatype BreedPrediction = BreedPrediction(breed: string, confidence: real)

  /** The JSON body returned: `breed`, `breed_confidence` and `message` are
      keys that may be missing. */
  datatype Response = Response(
    cattleType: string,
    typeConfidence: real,
    breed: Option<string>,
    breedConfidence: Option<real>,
    message: Option<string>)

  /** A call made to one of the predictors, with the file it was given. */
  datatype StageCall = TypeStage(input: StageFile) | BreedStage(input: StageFile)

  /** The response together with the predictor calls, in the order made. */
  datatype Classification = Classification(response: Response, calls: seq<StageCall>)

  const NoneClass: string := "none"
  const NotCattleMessage: string := "The uploaded image is not of cattle."

  function StageInput(file: Upload): (f: StageFile)
  {
    StageFile(file.filename, file.bytes)
  }

  function Classify(file: Upload, typeStage: StageFile -> TypePrediction,
                    breedStage: StageFile -> BreedPrediction): (c: Classification)
    // the type stage always runs first, on the upload's filename and bytes
    ensures |c.calls| >= 1 && c.calls[0] == TypeStage(StageFile(file.filename, file.bytes))
    // the breed stage runs, once and after the type stage, exactly when the class is not "none"
    ensures |c.calls| == 2 <==> typeStage(StageFile(file.filename, file.bytes)).cls != "none"
    ensures |c.calls| <= 2 && (|c.calls| == 2 ==> c.calls[1].BreedStage?)
    // both stages are handed the same filename and bytes
    ensures forall k :: 0 <= k < |c.calls| ==> c.calls[k].input == StageFile(file.filename, file.bytes)
    ensures c.response.cattleType == typeStage(StageFile(file.filename, file.bytes)).cls
    ensures c.response.typeConfidence == typeStage(StageFile(file.filename, file.bytes)).confidence
    ensures c.response.breed.Some? <==> c.response.cattleType != "none"
    ensures c.response.breedConfidence.Some? <==> c.response.breed.Some?
    ensures c.response.breed.Some? ==>
      c.response.breed.value == breedStage(StageFile(file.filename, file.bytes)).breed &&
      c.response.breedConfidence.value == breedStage(StageFile(file.filename, file.bytes)).confidence
    ensures c.response.message.Some? <==> c.response.cattleType == "none"
    ensures c.response.message.Some? ==> c.response.message.value == "The uploaded image is not of cattle."
  {
    var stage1 := typeStage(StageInput(file));
    if stage1.cls == NoneClass then
      Classification(Response(NoneClass, stage1.confidence, None, None, Some(NotCattleMessage)),
                     [TypeStage(StageInput(file))])
    else
      var breed := breedStage(StageInput(file));
      Classification(Response(stage1.cls, stage1.confidence, Some(breed.breed), Some(breed.confidence), None),
                     [TypeStage(StageInput(file)), BreedStage(StageInput(file))])
  }

  /** The breed predictor's output never influences a "none" response. */
  lemma NoneResponseIgnoresBreedStage(file: Upload, typeStage: StageFile -> TypePrediction,
                                      b1: StageFile -> BreedPrediction, b2: StageFile -> BreedPrediction)
    requires typeStage(StageInput(file)).cls == NoneClass
    ensures Classify(file, typeStage, b1) == Classify(file, typeStage, b2)
  {
  }

  /** The response depends only on the filename and bytes, not on the
      declared content type, which the rewrapped files do not carry. */
  lemma ContentTypeIgnored(file: Upload, contentType: string, typeStage: StageFile -> TypePrediction,
                           breedStage: StageFile -> BreedPrediction)
    ensures Classify(file.(contentType := contentType), typeStage, breedStage)
         == Classify(file, typeStage, breedStage)
  {
  }
}
