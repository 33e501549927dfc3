/** Validation of a file chosen in the browser's file picker, shared by the
    page (frontend/app/page.tsx) and the upload card
    (frontend/components/UploadCard.tsx), which apply the same checks in the
    same order. */
module Intake {
  import opened Wrappers

  /** A browser `File`, reduced to what the checks look at. */
  datatype File = File(mediaType: string, size: nat)

  /** Media types of images start with this. */
  const ImagePrefix: string := "image/"

  /** The size bound, 1024 * 1024 bytes; larger files are refused. */
  const MaxImageBytes: nat := 1024 * 1024

  /** Reference reading of the media-type rule: the type begins with "image/". */
  ghost predicate IsImageType(mediaType: string)
  {
    |ImagePrefix| <= |mediaType| && mediaType[..|ImagePrefix|] == ImagePrefix
  }

  /** The outcome of a selection: the file is taken, or the handler returns
      early. `NoFile` returns silently; the other two raise an error toast
      ("Please upload a valid image", "Image must be under 1MB"). */
  datatype Verdict = Accepted(file: File) | NoFile | NotAnImage | TooLarge

  /** `String.prototype.startsWith`, compared character by character. */
  function StartsWith(s: string, prefix: string): (r: bool)
    ensures r <==> |prefix| <= |s| && s[..|prefix|] == prefix
  {
    if prefix == [] then true
    else if s == [] then false
    else
      var rest := StartsWith(s[1..], prefix[1..]);
      assert |prefix| <= |s| ==> s[..|prefix|] == [s[0]] + s[1..][..|prefix| - 1];
      s[0] == prefix[0] && rest
  }

  /** The early returns of the selection handlers, in their order: no file,
      then the media type, then the size. */
  function Validate(candidate: Option<File>): (v: Verdict)
    ensures v.NoFile? <==> candidate.None?
    ensures v.NotAnImage? <==> candidate.Some? && !IsImageType(candidate.value.mediaType)
    ensures v.TooLarge? <==>
      candidate.Some? && !v.NotAnImage? && candidate.value.size > MaxImageBytes
    ensures v.Accepted? <==>
      candidate.Some? && IsImageType(candidate.value.mediaType) && candidate.value.size <= 1_048_576
    ensures v.Accepted? ==> v.file == candidate.value
  {
    match candidate
    case None => NoFile
    case Some(f) =>
      if !StartsWith(f.mediaType, ImagePrefix) then NotAnImage
      else if f.size > MaxImageBytes then TooLarge
      else Accepted(f)
  }

  /** A file of exactly one mebibyte passes the size check; one byte more does not. */
  lemma SizeBoundIsInclusive(mediaType: string)
    requires StartsWith(mediaType, ImagePrefix)
    ensures Validate(Some(File(mediaType, 1_048_576))) == Accepted(File(mediaType, 1_048_576))
    ensures Validate(Some(File(mediaType, 1_048_577))) == TooLarge
  {
  }

  /** The media-type check is a case-sensitive prefix test on "image/". */
  lemma MediaTypeExamples()
    ensures Validate(Some(File("image/jpeg", 500 * 1024))).Accepted?
    ensures Validate(Some(File("application/pdf", 10))) == NotAnImage
    ensures Validate(Some(File("IMAGE/PNG", 10))) == NotAnImage
    ensures Validate(Some(File("image", 10))) == NotAnImage
    ensures Validate(Some(File("image/", 0))).Accepted?
  {
    assert "image/jpeg"[..6] == "image/";
    assert "application/pdf"[..6] != "image/" by { assert "application/pdf"[0] == 'a'; }
    assert "IMAGE/PNG"[..6] != "image/" by { assert "IMAGE/PNG"[0] == 'I'; }
  }

  /** A media-type rejection is reported before the size is looked at. */
  lemma MediaTypeCheckedFirst(f: File)
    requires !StartsWith(f.mediaType, ImagePrefix)
    ensures Validate(Some(f)) == NotAnImage
  {
  }
}
