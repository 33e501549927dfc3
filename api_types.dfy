/** The classification record the browser receives from `/classify`, the
    breed reference record, and the outcome of one request. */
module ApiTypes {
  import opened Wrappers

  /** The `ApiResult` shape declared in the page. The page casts the parsed
      JSON to it without checking anything, so `cattleType` is any string
      and the two breed fields are independent of it. */
  datatype ApiResult = ApiResult(
    cattleType: string,
    typeConfidence: real,
    breed: Option<string>,
    breedConfidence: Option<real>)

  /** One entry of the static breed dictionary. */
  datatype BreedInfo = BreedInfo(
    name: string,
    milkProduction: string,
    origin: string,
    hornType: string,
    bodyFeatures: string,
    bestFood: string)

  /** How one classification request ends: a 2xx response whose body was
      parsed (and cast), or anything else (non-OK status, network error,
      unparseable body), which the handlers treat alike. */
  datatype Outcome = Success(data: ApiResult) | Failure

  /** The class label the backend uses for "not cattle". */
  const NoneType: string := "none"

  /** Breed confidences strictly below this are flagged as low. */
  const LowConfidenceThreshold: real := 0.6

  /** JavaScript truthiness of `result.breed`: present and not the empty string. */
  predicate HasBreed(r: ApiResult)
  {
    r.breed.Some? && r.breed.value != ""
  }

  /** `result.breed_confidence! < 0.6`: an absent confidence is `undefined`,
      and `undefined < 0.6` is false. */
  predicate LowBreedConfidence(r: ApiResult)
  {
    r.breedConfidence.Some? && r.breedConfidence.value < LowConfidenceThreshold
  }

  /** The shape the classification service promises: breed and its
      confidence come together, and only when the type is not "none". */
  predicate WellFormed(r: ApiResult)
  {
    && (r.breed.Some? <==> r.breedConfidence.Some?)
    && (r.breed.None? <==> r.cattleType == NoneType)
  }
}
