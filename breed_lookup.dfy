/** The page's `breedInfo` derivation: the returned breed label looked up in
    the static breed dictionary. */
module BreedLookup {
  import opened Wrappers
  import opened ApiTypes

  /** `result?.breed && breedInfoData[result.breed] ? breedInfoData[result.breed] : null`.
      The dictionary is a read-only map from breed name to record. The
      derivation looks at the breed label only, never at the type. */
  function BreedInfoFor(result: Option<ApiResult>, breeds: map<string, BreedInfo>): (info: Option<BreedInfo>)
    ensures info.None? <==>
      result.None? || result.value.breed.None? || result.value.breed.value == ""
      || result.value.breed.value !in breeds
    ensures info.Some? ==> result.Some? && result.value.breed.Some?
                           && info.value == breeds[result.value.breed.value]
  {
    if result.Some? && HasBreed(result.value) && result.value.breed.value in breeds
    then Some(breeds[result.value.breed.value])
    else None
  }

  /** The type-aware reading of the derivation: absent when there is no
      result, when the type is "none", when there is no breed, or when the
      breed is not in the dictionary; the dictionary entry otherwise. */
  function DeriveBreedInfo(result: Option<ApiResult>, breeds: map<string, BreedInfo>): (info: Option<BreedInfo>)
  {
    match result
    case None => None
    case Some(r) =>
      if r.cattleType == NoneType then None
      else match r.breed
        case None => None
        case Some(b) => if b != "" && b in breeds then Some(breeds[b]) else None
  }

  /** On a result of the shape the service promises, the page's derivation,
      which ignores the type, agrees with the rule that also requires
      type != "none". */
  lemma BreedInfoAgreesOnWellFormed(result: Option<ApiResult>, breeds: map<string, BreedInfo>)
    requires result.Some? ==> WellFormed(result.value)
    ensures BreedInfoFor(result, breeds) == DeriveBreedInfo(result, breeds)
  {
  }

  /** Because the response is cast and not checked, a "none" result that
      nevertheless carries a known breed still shows that breed's record;
      here the two derivations part. */
  lemma BreedInfoIgnoresType(c: real, b: string, breeds: map<string, BreedInfo>)
    requires b != "" && b in breeds
    ensures BreedInfoFor(Some(ApiResult(NoneType, c, Some(b), None)), breeds) == Some(breeds[b])
    ensures DeriveBreedInfo(Some(ApiResult(NoneType, c, Some(b), None)), breeds) == None
  {
  }
}
