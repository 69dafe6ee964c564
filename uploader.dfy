/**
 * The drag-and-drop uploader: it checks a picked or dropped file against the
 * allowed MIME types and the size limit, shows a preview of an accepted file,
 * and hands the accepted file to its owner (the `onUpload` callback).
 */
module Uploader {
  import opened StoryModel

  /** A browser file handle, as far as validation looks at it. */
  datatype File = File(mime: string, size: nat)

  datatype Verdict = Accepted | Rejected(message: string)

  /** The three drag events routed to the drag handler. */
  datatype DragEvent = DragEnter | DragOver | DragLeave

  /** Default size limit, in megabytes. */
  const DefaultMaxSize: nat := 10

  const DefaultAllowedTypes: seq<string> := ["image/jpeg", "image/png", "image/gif", "video/mp4"]

  const TypeMessage: string := "Invalid file type. Please upload an image or video."

  /** The character of the decimal digit `d`. */
  function Digit(d: nat): (c: char)
    requires d < 10
    ensures '0' <= c <= '9' && c as int - '0' as int == d
  {
    ('0' as int + d) as char
  }

  /** The number a string of decimal digits stands for, most significant digit first. */
  function DigitsValue(s: string): (v: nat)
    requires forall i :: 0 <= i < |s| ==> '0' <= s[i] <= '9'
    decreases |s|
  {
    if s == [] then 0
    else DigitsValue(s[..|s| - 1]) * 10 + (s[|s| - 1] as int - '0' as int)
  }

  /** Decimal digits of `n`, as a template literal prints a whole number: the digits
   * read back as `n`, and there is no leading zero. */
  function NatToString(n: nat): (r: string)
    ensures |r| > 0
    ensures forall i :: 0 <= i < |r| ==> '0' <= r[i] <= '9'
    ensures DigitsValue(r) == n
    ensures r[0] == '0' ==> n == 0 && |r| == 1
    ensures n < 10 <==> |r| == 1
  {
    if n < 10 then [Digit(n)]
    else
      var r := NatToString(n / 10) + [Digit(n % 10)];
      assert r[..|r| - 1] == NatToString(n / 10);
      r
  }

  /** The message for a file over the limit; it names the limit in megabytes. */
  function SizeMessage(maxSize: nat): (m: string)
    ensures |m| >= 31 && m[..28] == "File size must be less than " && m[|m| - 2..] == "MB"
    ensures m[28..|m| - 2] == NatToString(maxSize) && DigitsValue(m[28..|m| - 2]) == maxSize
  {
    var prefix := "File size must be less than ";
    var m := prefix + NatToString(maxSize) + "MB";
    assert |prefix| == 28;
    assert m[..28] == prefix && m[|m| - 2..] == "MB";
    assert m[28..|m| - 2] == NatToString(maxSize);
    m
  }

  /** `validateFile`: the type is checked first, then the size; a file exactly at
   * the limit is accepted. */
  function Validate(f: File, maxSize: nat, allowedTypes: seq<string>): (v: Verdict)
    ensures v == Accepted <==> f.mime in allowedTypes && f.size <= maxSize * 1024 * 1024
    ensures f.mime !in allowedTypes ==> v == Rejected(TypeMessage)
    ensures f.mime in allowedTypes && f.size > maxSize * 1024 * 1024 ==>
      v == Rejected(SizeMessage(maxSize))
  {
    if f.mime !in allowedTypes then Rejected(TypeMessage)
    else if f.size > maxSize * 1024 * 1024 then Rejected(SizeMessage(maxSize))
    else Accepted
  }

  /** The error shown after a validation: none on acceptance. */
  function ErrorAfter(v: Verdict): (e: Option<string>)
    ensures e == None <==> v == Accepted
    ensures v.Rejected? ==> e == Some(v.message)
  {
    if v.Rejected? then Some(v.message) else None
  }

  /** The data URL a `FileReader` produces for a file of type `mime` whose contents
   * encode to `payload` (the `data:` scheme of RFC 2397, base64 form). */
  function DataUrl(mime: string, payload: string): (u: string)
    ensures |u| == 13 + |mime| + |payload|
    ensures StartsWith(u, "data:") && u[5..5 + |mime|] == mime
    ensures u[5 + |mime|..] == ";base64," + payload
  {
    "data:" + mime + ";base64," + payload
  }

  /** The preview is drawn as an image, not a video. */
  predicate IsImagePreview(preview: string)
    ensures IsImagePreview(preview) ==>
      |preview| >= 10 && StartsWith(preview, "data:") && preview[5..10] == "image"
  {
    StartsWith(preview, "data:image")
  }

  // ---------------------------------------------------------------------------
  // Properties of validation and preview

  /** A file that is both of a wrong type and too large gets the type error. */
  lemma TypeCheckComesFirst(f: File, maxSize: nat, allowedTypes: seq<string>)
    requires f.mime !in allowedTypes && f.size > maxSize * 1024 * 1024
    ensures Validate(f, maxSize, allowedTypes) == Rejected(TypeMessage)
  {
  }

  /** The limit itself is allowed; one byte more is not. */
  lemma LimitIsInclusive(mime: string, maxSize: nat, allowedTypes: seq<string>)
    requires mime in allowedTypes
    ensures Validate(File(mime, maxSize * 1024 * 1024), maxSize, allowedTypes) == Accepted
    ensures Validate(File(mime, maxSize * 1024 * 1024 + 1), maxSize, allowedTypes)
            == Rejected(SizeMessage(maxSize))
  {
  }

  /** With the defaults, a 15 MB MP4 video is refused for its size. */
  lemma FifteenMegabyteVideoRejected()
    ensures Validate(File("video/mp4", 15 * 1024 * 1024), DefaultMaxSize, DefaultAllowedTypes)
            == Rejected("File size must be less than 10MB")
  {
    assert "video/mp4" == DefaultAllowedTypes[3];
    assert NatToString(10) == NatToString(1) + "0";
  }

  /** Only the literal MIME string is compared: a variant spelling is refused. */
  lemma TypeMatchIsExact(size: nat)
    ensures Validate(File("image/jpg", size), DefaultMaxSize, DefaultAllowedTypes)
            == Rejected(TypeMessage)
  {
    assert "image/jpg" != "image/jpeg";
  }

  /** A data-URL preview is drawn as an image exactly when the file's type begins
   * with "image". */
  lemma {:induction false} PreviewKindFollowsMime(mime: string, payload: string)
    ensures IsImagePreview(DataUrl(mime, payload)) <==> StartsWith(mime, "image")
  {
    var rest := mime + (";base64," + payload);
    assert DataUrl(mime, payload) == "data:" + rest;
    StartsWithConcat("data:", rest, "data:image");
    assert "data:image"[5..] == "image";
    StartsWithConcat(mime, ";base64," + payload, "image");
    if |mime| < 5 {
      // the ';' after a short type cannot match a letter of "image"
      assert rest[|mime|] == ';' && "image"[|mime|] != ';';
      assert !StartsWith(rest, "image");
    }
  }

  // ---------------------------------------------------------------------------
  // The component

  class StoryUploader {
    const maxSize: nat
    const allowedTypes: seq<string>
    var isDragging: bool
    var preview: Option<string>
    var error: Option<string>
    /** The files handed to `onUpload`, in order. */
    var uploaded: seq<File>

    constructor (maxSize: nat, allowedTypes: seq<string>)
      ensures this.maxSize == maxSize && this.allowedTypes == allowedTypes
      ensures !isDragging && preview == None && error == None && uploaded == []
    {
      this.maxSize := maxSize;
      this.allowedTypes := allowedTypes;
      isDragging := false;
      preview := None;
      error := None;
      uploaded := [];
    }

    /** `handleDrag`: entering or hovering raises the flag, leaving lowers it. */
    method HandleDrag(e: DragEvent)
      modifies this`isDragging
      ensures isDragging <==> e != DragLeave
    {
      if e == DragEnter || e == DragOver {
        isDragging := true;
      } else if e == DragLeave {
        isDragging := false;
      }
    }

    /** `validateFile`: clears the error, then records the reason for a refusal. */
    method ValidateFile(f: File) returns (ok: bool)
      modifies this`error
      ensures ok <==> Validate(f, maxSize, allowedTypes) == Accepted
      ensures error == ErrorAfter(Validate(f, maxSize, allowedTypes))
    {
      error := None;
      if f.mime !in allowedTypes {
        error := Some(TypeMessage);
        return false;
      }
      if f.size > maxSize * 1024 * 1024 {
        error := Some(SizeMessage(maxSize));
        return false;
      }
      return true;
    }

    /** `handleFile`: an accepted file gets a preview and is handed to `onUpload`
     * once; a refused one changes nothing but the error. `payload` stands for the
     * file contents the reader encodes. */
    method HandleFile(f: File, payload: string) returns (accepted: bool)
      modifies this`error, this`preview, this`uploaded
      ensures accepted <==> Validate(f, maxSize, allowedTypes) == Accepted
      ensures error == ErrorAfter(Validate(f, maxSize, allowedTypes))
      ensures accepted ==> preview == Some(DataUrl(f.mime, payload))
                           && uploaded == old(uploaded) + [f]
      ensures !accepted ==> preview == old(preview) && uploaded == old(uploaded)
    {
      accepted := ValidateFile(f);
      if !accepted {
        return;
      }
      preview := Some(DataUrl(f.mime, payload));
      uploaded := uploaded + [f];
    }

    /** `handleDrop`: the flag is lowered, then the first dropped file is handled. */
    method HandleDrop(files: seq<File>, payload: string) returns (accepted: bool)
      requires |files| > 0
      modifies this`isDragging, this`error, this`preview, this`uploaded
      ensures !isDragging
      ensures accepted <==> Validate(files[0], maxSize, allowedTypes) == Accepted
      ensures error == ErrorAfter(Validate(files[0], maxSize, allowedTypes))
      ensures accepted ==> preview == Some(DataUrl(files[0].mime, payload))
                           && uploaded == old(uploaded) + [files[0]]
      ensures !accepted ==> preview == old(preview) && uploaded == old(uploaded)
    {
      isDragging := false;
      accepted := HandleFile(files[0], payload);
    }

    /** `handleFileInput`: the first chosen file, if there is one, is handled. */
    method HandleFileInput(files: seq<File>, payload: string) returns (accepted: bool)
      modifies this`error, this`preview, this`uploaded
      ensures |files| == 0 ==> !accepted && unchanged(this)
      ensures |files| > 0 ==>
        (accepted <==> Validate(files[0], maxSize, allowedTypes) == Accepted)
        && error == ErrorAfter(Validate(files[0], maxSize, allowedTypes))
      ensures accepted ==> preview == Some(DataUrl(files[0].mime, payload))
                           && uploaded == old(uploaded) + [files[0]]
      ensures !accepted ==> preview == old(preview) && uploaded == old(uploaded)
    {
      accepted := false;
      if |files| > 0 {
        accepted := HandleFile(files[0], payload);
      }
    }

    /** The remove button on the preview. */
    method RemovePreview()
      modifies this`preview
      ensures preview == None
    {
      preview := None;
    }
  }
}
