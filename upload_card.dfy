/** The stand-alone upload card: the same intake checks as the page, but it
    keeps no result of its own and reports through the parent's `onResult`
    callback instead. As on the page, React re-renders after each handler
    and the effect keyed on `preview` then revokes the previous preview. */
module UploadCard {
  import opened Wrappers
  import opened ApiTypes
  import opened Intake
  import opened ObjectUrls

  class UploadCard {
    const urls: ObjectUrlStore

    var image: Option<File>
    var preview: Option<Handle>
    var loading: bool

    /** The arguments of every `onResult` call so far, in order (`None` is `null`). */
    ghost var notified: seq<Option<ApiResult>>
    /** Every preview URL this card has created. */
    ghost var handles: set<Handle>
    /** Classification requests issued and not yet settled. */
    ghost var pending: nat

    ghost predicate Valid()
      reads this, urls
    {
      && urls.Valid()
      && (image.Some? <==> preview.Some?)
      && (preview.Some? ==>
            preview.value in handles && urls.Live(preview.value)
            && urls.target[preview.value] == image.value)
      && (forall h :: h in handles ==> h in urls.target)
      // no leak: every preview that has been superseded was revoked at least once
      && (forall h :: h in handles && Some(h) != preview ==> h in urls.revocations)
      && (pending == 0 ==> !loading)
    }

    constructor (urls: ObjectUrlStore)
      requires urls.Valid()
      ensures Valid()
      ensures this.urls == urls
      ensures image == None && preview == None && !loading
      ensures notified == [] && handles == {} && pending == 0
    {
      this.urls := urls;
      image, preview, loading := None, None, false;
      notified, handles, pending := [], {}, 0;
    }

    /** `handleUpload`. A rejected candidate changes nothing and calls no
        callback. An accepted one stores the file, creates a fresh preview and
        calls `onResult(null)` once. The handler itself does not revoke the
        previous preview; the effect cleanup does, once. */
    method Upload(candidate: Option<File>) returns (verdict: Verdict)
      requires Valid()
      modifies this, urls
      ensures Valid()
      ensures verdict == Validate(candidate)
      ensures loading == old(loading) && pending == old(pending)
      ensures !verdict.Accepted? ==>
        && image == old(image) && preview == old(preview) && notified == old(notified)
        && handles == old(handles)
        && urls.target == old(urls.target) && urls.revocations == old(urls.revocations)
      ensures verdict.Accepted? ==>
        && image == Some(verdict.file)
        && preview.Some? && preview.value !in old(urls.target)
        && urls.target == old(urls.target)[preview.value := verdict.file]
        && handles == old(handles) + {preview.value}
        && notified == old(notified) + [None]
        && urls.revocations == old(urls.revocations)
             + (if old(preview).Some? then [old(preview).value] else [])
    {
      verdict := Validate(candidate);
      if !verdict.Accepted? {
        return;
      }
      var previous := preview;
      image := Some(verdict.file);
      var h := urls.Create(verdict.file);
      preview := Some(h);
      handles := handles + {h};
      notified := notified + [None];
      // re-render: the effect cleanup captured with the previous preview
      if previous.Some? {
        urls.Revoke(previous.value);
      }
    }

    /** The first half of `handleCheck`, up to the `await`: with no image it
        returns at once; otherwise it sets `loading` and sends the image. */
    method BeginCheck() returns (request: Option<File>)
      requires Valid()
      modifies this
      ensures Valid()
      ensures request == old(image)
      ensures old(image).None? ==> loading == old(loading) && pending == old(pending)
      ensures old(image).Some? ==> loading && pending == old(pending) + 1
      ensures image == old(image) && preview == old(preview)
      ensures notified == old(notified) && handles == old(handles)
    {
      request := image;
      if image.None? {
        return;
      }
      loading := true;
      pending := pending + 1;
    }

    /** The second half of `handleCheck`: a success calls `onResult(data)`
        exactly once; a failure calls nothing. `loading` is cleared either way. */
    method CompleteCheck(outcome: Outcome)
      requires Valid() && pending > 0
      modifies this
      ensures Valid()
      ensures notified == old(notified) + (if outcome.Success? then [Some(outcome.data)] else [])
      ensures !loading && pending == old(pending) - 1
      ensures image == old(image) && preview == old(preview) && handles == old(handles)
    {
      if outcome.Success? {
        notified := notified + [Some(outcome.data)];
      }
      loading := false;
      pending := pending - 1;
    }

    /** `handleReset`: revokes the live preview (once explicitly, once more in
        the effect cleanup), clears image and preview, and calls
        `onResult(null)`, even when nothing was selected. */
    method Reset()
      requires Valid()
      modifies this, urls
      ensures Valid()
      ensures image == None && preview == None
      ensures notified == old(notified) + [None]
      ensures loading == old(loading) && pending == old(pending) && handles == old(handles)
      ensures urls.target == old(urls.target)
      ensures urls.revocations == old(urls.revocations)
        + (if old(preview).Some? then [old(preview).value, old(preview).value] else [])
    {
      var previous := preview;
      if previous.Some? {
        urls.Revoke(previous.value);
      }
      image, preview := None, None;
      notified := notified + [None];
      // re-render: the effect cleanup captured with the previous preview
      if previous.Some? {
        urls.Revoke(previous.value);
      }
    }

    /** Unmounting runs the last installed effect cleanup, which revokes the
        live preview; afterwards no preview this card created is left live. */
    method Unmount()
      requires Valid()
      modifies urls
      ensures urls.target == old(urls.target)
      ensures urls.revocations == old(urls.revocations) + (if preview.Some? then [preview.value] else [])
      ensures forall h :: h in handles ==> h in urls.revocations
    {
      if preview.Some? {
        urls.Revoke(preview.value);
      }
    }

    /** `disabled={!image}` on the Reset button: enabled exactly when there
        is a live preview for Reset to revoke. */
    function ResetEnabled(): (enabled: bool)
      requires Valid()
      reads this, urls
      ensures enabled <==> image.Some?
      ensures enabled <==> preview.Some? && urls.Live(preview.value)
    {
      image.Some?
    }

    /** `disabled={!image || loading}` on the Check button: when enabled,
        the image that would be sent is the one whose preview is on screen. */
    function CheckEnabled(): (enabled: bool)
      requires Valid()
      reads this, urls
      ensures enabled <==> image.Some? && !loading
      ensures enabled ==> preview.Some? && urls.Live(preview.value)
                          && urls.target[preview.value] == image.value
    {
      image.Some? && !loading
    }
  }

  /** Two accepted uploads in a row: the first preview is revoked exactly
      once, by the effect cleanup, and the parent is told `null` twice. */
  method UploadTwice(urls: ObjectUrlStore, a: File, b: File)
    requires urls.Valid() && Validate(Some(a)).Accepted? && Validate(Some(b)).Accepted?
    modifies urls
  {
    var card := new UploadCard(urls);
    var revokedBefore := urls.revocations;
    var v := card.Upload(Some(a));
    var first := card.preview.value;
    v := card.Upload(Some(b));
    assert urls.revocations == revokedBefore + [first];
    assert card.notified == [None, None];
    assert card.image == Some(b) && urls.Live(card.preview.value);
  }
}
