/** What the browser makes of a backend response: the JSON body parsed and
    cast to the page's `ApiResult` (the `message` key is not part of that
    type and is never read), then shown. */
module Pipeline {
  import opened Wrappers
  import opened ApiTypes
  import Backend
  import BreedLookup
  import ResultDisplay

  function ToApiResult(resp: Backend.Response): (r: ApiResult)
  {
    ApiResult(resp.cattleType, resp.typeConfidence, resp.breed, resp.breedConfidence)
  }

  /** Every backend response has the shape the frontend assumes: breed and
      breed confidence both present or both absent, absent exactly when the
      type is "none". */
  lemma ResponsesAreWellFormed(file: Backend.Upload, typeStage: Backend.StageFile -> Backend.TypePrediction,
                               breedStage: Backend.StageFile -> Backend.BreedPrediction)
    ensures WellFormed(ToApiResult(Backend.Classify(file, typeStage, breedStage).response))
  {
  }

  /** The panels shown for a backend response, in terms of the predictors'
      outputs: the "not cattle" warning exactly when stage 1 says "none"; the
      breed block exactly when it does not and the breed label is non-empty;
      the low-confidence warning exactly when, in addition, the breed
      confidence is below 0.6. */
  lemma PanelsForBackendResponse(file: Backend.Upload, typeStage: Backend.StageFile -> Backend.TypePrediction,
                                 breedStage: Backend.StageFile -> Backend.BreedPrediction)
    ensures
      var s1 := typeStage(Backend.StageInput(file));
      var s2 := breedStage(Backend.StageInput(file));
      var shown := ResultDisplay.PanelsShown(Some(ToApiResult(Backend.Classify(file, typeStage, breedStage).response)));
      && ResultDisplay.Waiting !in shown
      && ResultDisplay.TypeBlock in shown
      && (ResultDisplay.NotCattle in shown <==> s1.cls == "none")
      && (ResultDisplay.BreedBlock in shown <==> s1.cls != "none" && s2.breed != "")
      && (ResultDisplay.LowConfidence in shown <==> s1.cls != "none" && s2.breed != "" && s2.confidence < 0.6)
  {
  }

  /** For a backend response the page's breed-information panel follows the
      type-aware rule: nothing for "none", otherwise the dictionary entry of the
      predicted breed if there is one. */
  lemma BreedInfoForBackendResponse(file: Backend.Upload, typeStage: Backend.StageFile -> Backend.TypePrediction,
                                    breedStage: Backend.StageFile -> Backend.BreedPrediction,
                                    breeds: map<string, BreedInfo>)
    ensures
      var s1 := typeStage(Backend.StageInput(file));
      var s2 := breedStage(Backend.StageInput(file));
      BreedLookup.BreedInfoFor(Some(ToApiResult(Backend.Classify(file, typeStage, breedStage).response)), breeds)
      == if s1.cls != "none" && s2.breed != "" && s2.breed in breeds then Some(breeds[s2.breed]) else None
  {
    ResponsesAreWellFormed(file, typeStage, breedStage);
    BreedLookup.BreedInfoAgreesOnWellFormed(Some(ToApiResult(Backend.Classify(file, typeStage, breedStage).response)), breeds);
  }
}
