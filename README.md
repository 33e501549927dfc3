# NandiVision intake-and-classify core, modelled in Dafny

NandiVision is a web app that classifies a photograph of cattle. The browser
page lets the user pick an image, previews it through an object URL, sends it
to the backend's `POST /classify`, and shows the returned type (cow, buffalo
or none), the breed with its confidence, a low-confidence warning, and a
record from a static breed dictionary. The backend runs a type classifier
and, only when it finds cattle, a breed classifier.

This project models:

- `intake.dfy` (module `Intake`): the file checks shared by both intake
  components: a case-sensitive `"image/"` prefix test, then a size bound of
  1024 * 1024 bytes (inclusive).
- `object_urls.dfy` (module `ObjectUrls`): the browser's object-URL registry,
  with a ghost log of every revocation so that double revocation is visible.
- `home_page.dfy` (module `HomePage`): the page's controller as a class with
  the React state `image`, `preview`, `result` and `loading`. `handleCheck`
  is split at its `await` into `BeginCheck` and `CompleteCheck(outcome)`,
  where the outcome is a success carrying the parsed body or a failure.
  The preview effect's cleanup runs on the re-render after a handler, so it
  is modelled at the end of each handler that changes `preview`. Three
  client methods (`SelectThenReset`, `LateResponseIsApplied`,
  `FailureKeepsResult`) show what callers can prove from the contracts.
- `upload_card.dfy` (module `UploadCard`): the stand-alone upload card. It
  reports to its parent through `onResult`, whose calls are logged in a
  ghost sequence. `UploadTwice` is a client method.
- `breed_lookup.dfy` (module `BreedLookup`): the page's `breedInfo`
  derivation as a map lookup, with a second, type-aware rule (`breedInfo`
  absent also when the type is "none") to compare it with.
- `result_display.dfy` (module `ResultDisplay`): which result panels are
  shown for a result. `ResultCard.tsx` and the page's inline result card
  use the same conditions.
- `backend.dfy` (module `Backend`): the `/classify` handler. The two
  predictors are function parameters, and the handler returns the list of
  predictor calls it made.
- `pipeline.dfy` (module `Pipeline`): lemmas that carry backend responses
  through the frontend's cast, display and breed lookup.

The model follows the code, including where its behaviour may surprise a
reader:

- There is no failed state. A failed request leaves the previous result on
  screen (`frontend/app/page.tsx:97-99`).
- There is no stale-response guard. A response is applied even after the
  user has reset or picked another image; `LateResponseIsApplied` shows
  this.
- `handleCheck` does not look at `loading`. Only the button is disabled, so
  `BeginCheck` has no such guard.
- The page's `breedInfo` ignores the type. It looks up any non-empty breed
  label. On every response the backend can produce this agrees with the
  rule that also requires type ≠ "none", because `breed` is then
  missing (`BreedInfoAgreesOnWellFormed`, `BreedInfoForBackendResponse`).
  On an arbitrary cast body it does not (`BreedInfoIgnoresType`).
- A superseded preview URL is revoked twice on the page, not once: once by
  the handler and once by the effect cleanup. The same holds for the upload
  card's reset. The upload card's upload revokes the old preview only once,
  through the cleanup. The invariants state "revoked at least once", and
  the methods state the exact revocation log.

## Model

| member | source | states |
|---|---|---|
| `Intake.StartsWith` | frontend/app/page.tsx:58 | the character-by-character prefix test holds exactly when the prefix fits in the string and the string's leading slice equals it |
| `Intake.Validate` | frontend/app/page.tsx:55-66 | no file gives NoFile; a media type not beginning with "image/" gives NotAnImage before size is considered; otherwise a size above 1,048,576 gives TooLarge; only an image type of at most 1,048,576 bytes is accepted, and the accepted file is the candidate (UploadCard.tsx:30-41 applies the same checks) |
| `Intake.SizeBoundIsInclusive` | frontend/app/page.tsx:63-66 | an image of exactly 1,048,576 bytes is accepted and one of 1,048,577 bytes is rejected as too large |
| `Intake.MediaTypeExamples` | frontend/app/page.tsx:58-61 | "image/jpeg" and "image/" pass; "application/pdf", upper-case "IMAGE/PNG" and "image" without the slash are rejected |
| `Intake.MediaTypeCheckedFirst` | frontend/components/UploadCard.tsx:33-41 | a non-image file is reported as such whatever its size |
| `BreedLookup.BreedInfoFor` | frontend/app/page.tsx:115-118 | absent exactly when there is no result, no breed, an empty breed, or a breed missing from the dictionary; otherwise the dictionary entry for that breed |
| `BreedLookup.BreedInfoAgreesOnWellFormed` | frontend/app/page.tsx:115-118 | on results where breed is present exactly when type is not "none", the page's derivation equals the rule that also requires type ≠ "none" |
| `BreedLookup.BreedInfoIgnoresType` | frontend/app/page.tsx:115-118 | a cast "none" result that carries a known breed still yields that breed's record, where the rule that also requires type ≠ "none" yields none |
| `ResultDisplay.PanelsShown` | frontend/components/ResultCard.tsx:18-96 | waiting state iff no result; type block iff a result; not-cattle warning iff type is "none"; breed block iff type is not "none" and breed is non-empty; low-confidence warning iff the breed block is shown and a breed confidence below 0.6 is present |
| `ResultDisplay.WaitingExcludesResultPanels` | frontend/components/ResultCard.tsx:18-29 | the waiting state is shown alone, and whenever it is not shown the type block is |
| `ResultDisplay.NotCattleExcludesBreed` | frontend/components/ResultCard.tsx:53-63 | the not-cattle warning and the breed block are never shown together, for any result |
| `ResultDisplay.LowConfidenceBoundary` | frontend/components/ResultCard.tsx:85 | a breed confidence of exactly 0.6 shows no warning and 0.59 shows one |
| `ResultDisplay.TypeConfidenceUnfiltered` | frontend/components/ResultCard.tsx:32-50 | the panels shown do not depend on the type confidence |
| `Backend.Classify` | backend/api/main.py:31-56 | stage 1 runs first; stage 2 runs once, after it, iff stage 1's class is not "none"; both get the upload's filename and bytes; type and type confidence come from stage 1; breed and breed confidence are both present iff type is not "none" and then come from stage 2; the message is present iff type is "none" |
| `Backend.NoneResponseIgnoresBreedStage` | backend/api/main.py:40-45 | when stage 1 says "none" the result is the same whatever the breed predictor would return |
| `Backend.ContentTypeIgnored` | backend/api/main.py:33-37 | the response depends on the upload's filename and bytes only, not on its declared content type |
| `Pipeline.ResponsesAreWellFormed` | backend/api/main.py:40-56 | every backend response, cast to the page's result type, has breed and breed confidence together and absent exactly when type is "none" |
| `Pipeline.PanelsForBackendResponse` | frontend/app/page.tsx:230-298 | for a backend response the not-cattle warning shows iff stage 1 said "none"; the breed block iff not and the predicted breed is non-empty; the low-confidence warning iff additionally the breed confidence is below 0.6 |
| `Pipeline.BreedInfoForBackendResponse` | frontend/app/page.tsx:115-118 | for a backend response the breed panel shows the dictionary entry of the predicted breed iff stage 1 did not say "none" and the breed is non-empty and known |
| `HomePage.HomePage.constructor` | frontend/app/page.tsx:35-38 | a new page has no image, preview or result and is not loading |
| `HomePage.HomePage.SelectImage` | frontend/app/page.tsx:54-76 | the verdict is `Validate`'s; a rejection changes no state and touches no URL; an acceptance revokes the old preview twice (handler and effect cleanup), creates a never-before-issued URL for the file, sets image to the file and clears the result; the invariant keeps every superseded preview revoked |
| `HomePage.HomePage.BeginCheck` | frontend/app/page.tsx:79-90 | with no image nothing changes and nothing is sent; otherwise the current image is sent and loading becomes true |
| `HomePage.HomePage.CompleteCheck` | frontend/app/page.tsx:92-102 | on success the result becomes exactly the returned record; on failure it keeps its previous value; loading is false after both |
| `HomePage.HomePage.Reset` | frontend/app/page.tsx:106-113 | image, preview and result become absent; a live preview is revoked (twice), and an empty page revokes nothing |
| `HomePage.HomePage.Unmount` | frontend/app/page.tsx:47-51 | the last cleanup revokes the live preview, after which every preview the page created has been revoked |
| `HomePage.HomePage.ResetEnabled` | frontend/app/page.tsx:196 | Reset is enabled iff an image is present, which is exactly when a live preview exists |
| `HomePage.HomePage.CheckEnabled` | frontend/app/page.tsx:209 | Check is enabled iff an image is present and nothing is loading; then the previewed file is the one that would be sent |
| `HomePage.HomePage.ShownBreedInfo` | frontend/app/page.tsx:115-118 | the page's breed record is present iff the current result has a non-empty breed label known to the dictionary, and is then that label's entry; so a failed request keeps it and a new selection hides it |
| `UploadCard.UploadCard.constructor` | frontend/components/UploadCard.tsx:19-21 | a new card has no image or preview, is not loading and has made no callback |
| `UploadCard.UploadCard.Upload` | frontend/components/UploadCard.tsx:29-47 | a rejection changes nothing and makes no callback; an acceptance sets image, creates a fresh preview, calls `onResult(null)` once, and leaves revoking the old preview to the effect cleanup (once) |
| `UploadCard.UploadCard.BeginCheck` | frontend/components/UploadCard.tsx:49-60 | with no image nothing happens; otherwise the image is sent and loading becomes true |
| `UploadCard.UploadCard.CompleteCheck` | frontend/components/UploadCard.tsx:62-73 | success calls `onResult(data)` exactly once; failure makes no callback; loading is false after both |
| `UploadCard.UploadCard.Reset` | frontend/components/UploadCard.tsx:75-82 | revokes a live preview (twice), clears image and preview, and calls `onResult(null)` even on an empty card |
| `UploadCard.UploadCard.Unmount` | frontend/components/UploadCard.tsx:23-27 | the last cleanup revokes the live preview, after which every preview the card created has been revoked |
| `UploadCard.UploadCard.ResetEnabled` | frontend/components/UploadCard.tsx:148 | Reset is enabled iff an image is present, which is exactly when a live preview exists |
| `UploadCard.UploadCard.CheckEnabled` | frontend/components/UploadCard.tsx:157 | Check is enabled iff an image is present and nothing is loading; then the previewed file is the one that would be sent |

## Left out

- The two ONNX predictors (`backend/api/stage1_predict_onnx.py`; the stage-2 predictor is not part of this model). They are a runtime session, checkpoint loading, file checks at import time and a floating-point softmax and argmax. They appear only as function parameters of `Backend.Classify`.
- The backend's `GET /` endpoint and the CORS middleware: they do not affect classification.
- `frontend/lib/api.ts`: a fetch wrapper that neither component uses.
- `layout.tsx`, `Header.tsx` and `BreedInfoCard.tsx`: static markup. BreedInfoCard's only decision is to render nothing when there is no record, and that is `BreedLookup.BreedInfoFor` returning `None`.
- Network transport and `await` scheduling. A request is a begin step and a complete step with a given outcome. The outcome is a success with the cast body or a failure: a non-OK status, a network error and an unparseable body all take the same `catch` path.
- Validation of the response body. The code casts it without checking. The model assumes the body is a JSON object whose `type` is a string and whose fields are present or missing, never `null`. Within that, `ApiResult` admits any type string and any combination of breed fields. Every body the backend sends is of this kind (`Pipeline.ResponsesAreWellFormed`).
- HomePage.HomePage.CompleteCheck: does not model a `null` body, which the page would store as "no result" (page.tsx:95). It also does not model a non-string `type`, which makes the page's `toUpperCase` throw while rendering. Both are excluded by the assumption above.
- UploadCard.UploadCard.CompleteCheck: does not model a `null` body, which the card would pass on as `onResult(null)`. The assumption above excludes it.
- ApiTypes.LowBreedConfidence: does not model `"breed_confidence": null` next to a non-empty breed. JavaScript evaluates `null < 0.6` as true, so the page would show the warning. The model reads only present-or-missing fields, and an absent (`undefined`) confidence shows no warning.
- Backend.Classify: the predictors are total functions in the model. In the code a predictor can raise: on bytes that cannot be decoded as an image (the browser checks only the declared media type), or when a prediction lacks its "class"/"confidence" keys. `classify` has no `try`, so such an exception becomes an HTTP 500 response. The frontend receives that as a non-OK status and takes its `catch` path, which the components' `CompleteCheck(Failure)` models.
- Toasts and `console.error`. They have no effect on state. The rejection kinds are kept in `Intake.Verdict`.
- The page-load animation timer and the percentage and progress-bar rendering (`toFixed` and the bar widths): these turn floats into strings.
- The upper-casing of the type label for display (`toUpperCase`, page.tsx:246 and ResultCard.tsx:37). It changes only the text shown, not which panels appear.
- The bytes of the selected file in the browser. A `File` is its media type and its size.
- Dictionary lookups on JavaScript object keys such as `"constructor"`, which would reach the object prototype. The dictionary is modelled as a plain map.
- React's update batching, beyond its effect: each handler works on the state of the last render and its updates land together before the re-render. A handler in the model reads and writes the fields directly. The order of its updates does not matter because nothing reads them before it returns.
- HomePage.HomePage.Unmount and UploadCard.UploadCard.Unmount: state only the revocations, because an unmounted component's state is never read again.
