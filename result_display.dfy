/** Which panels of the result card are on screen for a given result. The
    page inlines the same conditions in its own result card. */
module ResultDisplay {
  import opened Wrappers
  import opened ApiTypes

  /** The panels of the result card: the waiting/empty state, the type block
      (type name and confidence bar), the "not cattle" warning, the breed
      block (breed name and confidence bar), and the low-confidence warning
      nested inside the breed block. */
  datatype Panel = Waiting | TypeBlock | NotCattle | BreedBlock | LowConfidence

  function PanelsShown(result: Option<ApiResult>): (shown: set<Panel>)
    ensures Waiting in shown <==> result.None?
    ensures TypeBlock in shown <==> result.Some?
    ensures NotCattle in shown <==> result.Some? && result.value.cattleType == "none"
    ensures BreedBlock in shown <==>
      result.Some? && result.value.cattleType != "none"
      && result.value.breed.Some? && |result.value.breed.value| > 0
    ensures LowConfidence in shown <==>
      BreedBlock in shown && result.value.breedConfidence.Some?
      && result.value.breedConfidence.value < 0.6
  {
    match result
    case None => {Waiting}
    case Some(r) =>
      {TypeBlock}
      + (if r.cattleType == NoneType then {NotCattle} else {})
      + (if r.cattleType != NoneType && HasBreed(r)
         then {BreedBlock} + (if LowBreedConfidence(r) then {LowConfidence} else {})
         else {})
  }

  /** The empty state and the result panels never share the screen. */
  lemma WaitingExcludesResultPanels(result: Option<ApiResult>)
    ensures Waiting in PanelsShown(result) ==> PanelsShown(result) == {Waiting}
    ensures Waiting !in PanelsShown(result) ==> TypeBlock in PanelsShown(result)
  {
  }

  /** The "not cattle" warning and the breed block are never shown together,
      whatever the (unvalidated) result holds. */
  lemma NotCattleExcludesBreed(result: Option<ApiResult>)
    ensures !(NotCattle in PanelsShown(result) && BreedBlock in PanelsShown(result))
  {
  }

  /** The threshold is strict: 0.6 is not low, anything below it is. */
  lemma LowConfidenceBoundary(t: string, b: string)
    requires t != NoneType && b != ""
    ensures LowConfidence !in PanelsShown(Some(ApiResult(t, 0.92, Some(b), Some(0.6))))
    ensures LowConfidence in PanelsShown(Some(ApiResult(t, 0.92, Some(b), Some(0.59))))
  {
  }

  /** No threshold applies to the type confidence: the type block is shown
      for every confidence value. */
  lemma TypeConfidenceUnfiltered(r: ApiResult, c: real)
    ensures PanelsShown(Some(r.(typeConfidence := c))) == PanelsShown(Some(r))
  {
  }
}
