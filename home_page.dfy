/** The home page's intake-and-classify controller: its four pieces of React
    state and the handlers that update them. A handler runs against the
    state of the last render and its updates are applied together; React
    then re-renders, and because `preview` is a dependency of the preview
    effect, the cleanup captured at the previous render revokes the previous
    preview URL. That cleanup is modelled at the end of each handler that
    changes `preview`. */
module HomePage {
  import opened Wrappers
  import opened ApiTypes
  import opened Intake
  import opened ObjectUrls
  import BreedLookup

  class HomePage {
    const urls: ObjectUrlStore
    /** The static breed dictionary, loaded once with the page. */
    const breeds: map<string, BreedInfo>

    var image: Option<File>
    var preview: Option<Handle>
    var result: Option<ApiResult>
    var loading: bool

    /** Every preview URL this page has created. */
    ghost var handles: set<Handle>
    /** Classification requests issued and not yet settled. */
    ghost var pending: nat

    ghost predicate Valid()
      reads this, urls
    {
      && urls.Valid()
      && (image.Some? <==> preview.Some?)
      && (preview.Some? ==>
            preview.value in handles && urls.Live(preview.value)
            && urls.target[preview.value] == image.value)
      && (forall h :: h in handles ==> h in urls.target)
      // no leak: every preview that has been superseded was revoked at least once
      && (forall h :: h in handles && Some(h) != preview ==> h in urls.revocations)
      && (pending == 0 ==> !loading)
    }

    constructor (urls: ObjectUrlStore, breeds: map<string, BreedInfo>)
      requires urls.Valid()
      ensures Valid()
      ensures this.urls == urls && this.breeds == breeds
      ensures image == None && preview == None && result == None && !loading
      ensures handles == {} && pending == 0
    {
      this.urls := urls;
      this.breeds := breeds;
      image, preview, result, loading := None, None, None, false;
      handles, pending := {}, 0;
    }

    /** `handleImageSelect`. A rejected candidate changes nothing. An accepted
        one revokes the previous preview (once explicitly, once more in the
        effect cleanup), creates a fresh preview for the file, stores the file
        and clears the result. */
    method SelectImage(candidate: Option<File>) returns (verdict: Verdict)
      requires Valid()
      modifies this, urls
      ensures Valid()
      ensures verdict == Validate(candidate)
      ensures loading == old(loading) && pending == old(pending)
      ensures !verdict.Accepted? ==>
        && image == old(image) && preview == old(preview) && result == old(result)
        && handles == old(handles)
        && urls.target == old(urls.target) && urls.revocations == old(urls.revocations)
      ensures verdict.Accepted? ==>
        && image == Some(verdict.file)
        && preview.Some? && preview.value !in old(urls.target)
        && urls.target == old(urls.target)[preview.value := verdict.file]
        && handles == old(handles) + {preview.value}
        && result == None
        && urls.revocations == old(urls.revocations)
             + (if old(preview).Some? then [old(preview).value, old(preview).value] else [])
    {
      verdict := Validate(candidate);
      if !verdict.Accepted? {
        return;
      }
      var previous := preview;
      if previous.Some? {
        urls.Revoke(previous.value);
      }
      var h := urls.Create(verdict.file);
      image := Some(verdict.file);
      preview := Some(h);
      handles := handles + {h};
      result := None;
      // re-render: the effect cleanup captured with the previous preview
      if previous.Some? {
        urls.Revoke(previous.value);
      }
    }

    /** The first half of `handleCheck`, up to the `await`: with no image it
        returns at once; otherwise it sets `loading` and sends the image as
        the form's `file` field. It does not look at `loading`: only the
        button is disabled while a request is pending. */
    method BeginCheck() returns (request: Option<File>)
      requires Valid()
      modifies this
      ensures Valid()
      ensures request == old(image)
      ensures old(image).None? ==> loading == old(loading) && pending == old(pending)
      ensures old(image).Some? ==> loading && pending == old(pending) + 1
      ensures image == old(image) && preview == old(preview) && result == old(result)
      ensures handles == old(handles)
    {
      request := image;
      if image.None? {
        return;
      }
      loading := true;
      pending := pending + 1;
    }

    /** The second half of `handleCheck`, when the request settles. A success
        replaces the result with the returned record, whatever has been
        selected or reset meanwhile; a failure keeps the previous result.
        Either way `loading` is cleared in the `finally` block. */
    method CompleteCheck(outcome: Outcome)
      requires Valid() && pending > 0
      modifies this
      ensures Valid()
      ensures result == (if outcome.Success? then Some(outcome.data) else old(result))
      ensures !loading && pending == old(pending) - 1
      ensures image == old(image) && preview == old(preview) && handles == old(handles)
    {
      if outcome.Success? {
        result := Some(outcome.data);
      }
      loading := false;
      pending := pending - 1;
    }

    /** `handleReset`: revokes the live preview (once explicitly, once more in
        the effect cleanup) and clears image, preview and result. On an empty
        page it revokes nothing. */
    method Reset()
      requires Valid()
      modifies this, urls
      ensures Valid()
      ensures image == None && preview == None && result == None
      ensures loading == old(loading) && pending == old(pending) && handles == old(handles)
      ensures urls.target == old(urls.target)
      ensures urls.revocations == old(urls.revocations)
        + (if old(preview).Some? then [old(preview).value, old(preview).value] else [])
    {
      var previous := preview;
      if previous.Some? {
        urls.Revoke(previous.value);
      }
      image, preview, result := None, None, None;
      // re-render: the effect cleanup captured with the previous preview
      if previous.Some? {
        urls.Revoke(previous.value);
      }
    }

    /** Unmounting runs the last installed effect cleanup, which revokes the
        live preview; afterwards no preview this page created is left live. */
    method Unmount()
      requires Valid()
      modifies urls
      ensures urls.target == old(urls.target)
      ensures urls.revocations == old(urls.revocations) + (if preview.Some? then [preview.value] else [])
      ensures forall h :: h in handles ==> h in urls.revocations
    {
      if preview.Some? {
        urls.Revoke(preview.value);
      }
    }

    /** `disabled={!image}` on the Reset button: enabled exactly when there
        is a live preview for Reset to revoke. */
    function ResetEnabled(): (enabled: bool)
      requires Valid()
      reads this, urls
      ensures enabled <==> image.Some?
      ensures enabled <==> preview.Some? && urls.Live(preview.value)
    {
      image.Some?
    }

    /** `disabled={!image || loading}` on the Check button: when enabled,
        the image that would be sent is the one whose preview is on screen. */
    function CheckEnabled(): (enabled: bool)
      requires Valid()
      reads this, urls
      ensures enabled <==> image.Some? && !loading
      ensures enabled ==> preview.Some? && urls.Live(preview.value)
                          && urls.target[preview.value] == image.value
    {
      image.Some? && !loading
    }

    /** The breed record shown under the results (`breedInfo`): present only
        while a result with a non-empty breed label known to the dictionary
        is on screen, and then that label's entry. */
    function ShownBreedInfo(): (info: Option<BreedInfo>)
      reads this
      ensures info.Some? <==>
        result.Some? && result.value.breed.Some? && result.value.breed.value != ""
        && result.value.breed.value in breeds
      ensures info.Some? ==> info.value == breeds[result.value.breed.value]
    {
      BreedLookup.BreedInfoFor(result, breeds)
    }
  }

  /** Select a valid image, then reset: the page is empty again and the
      image's preview has been revoked. */
  method SelectThenReset(urls: ObjectUrlStore, f: File)
    requires urls.Valid() && Validate(Some(f)).Accepted?
    modifies urls
  {
    var page := new HomePage(urls, map[]);
    var v := page.SelectImage(Some(f));
    var h := page.preview.value;
    page.Reset();
    assert page.image.None? && page.preview.None? && page.result.None?;
    assert h in urls.revocations && !urls.Live(h);
    assert !page.ResetEnabled() && !page.CheckEnabled();
  }

  /** Without a stale-response guard, a response for image A that arrives
      after the user has reset the page is still shown, with no image
      selected; selecting image B while it is pending does not stop it
      either. */
  method LateResponseIsApplied(urls: ObjectUrlStore, a: File, b: File, r: ApiResult, s: ApiResult)
    requires urls.Valid() && Validate(Some(a)).Accepted? && Validate(Some(b)).Accepted?
    modifies urls
  {
    var page := new HomePage(urls, map[]);
    var v := page.SelectImage(Some(a));
    var sent := page.BeginCheck();
    assert sent == Some(a) && page.loading && !page.CheckEnabled();
    page.Reset();
    page.CompleteCheck(Success(r));
    assert page.image.None? && page.result == Some(r) && !page.loading;

    v := page.SelectImage(Some(b));
    assert page.result.None?;
    sent := page.BeginCheck();
    assert sent == Some(b);
    v := page.SelectImage(Some(a));
    page.CompleteCheck(Success(s));
    assert page.image == Some(a) && page.result == Some(s);
  }

  /** A failed request leaves the previous result, and with it the breed
      panel, on screen and re-enables Check, so the user can retry without a
      reset. A new selection clears the result and so hides the breed panel. */
  method FailureKeepsResult(urls: ObjectUrlStore, breeds: map<string, BreedInfo>, f: File, r: ApiResult)
    requires urls.Valid() && Validate(Some(f)).Accepted?
    modifies urls
  {
    var page := new HomePage(urls, breeds);
    var v := page.SelectImage(Some(f));
    var sent := page.BeginCheck();
    page.CompleteCheck(Success(r));
    sent := page.BeginCheck();
    page.CompleteCheck(Failure);
    assert page.result == Some(r) && page.CheckEnabled();
    assert page.ShownBreedInfo() == BreedLookup.BreedInfoFor(Some(r), breeds);
    v := page.SelectImage(Some(f));
    assert page.ShownBreedInfo().None?;
  }
}
