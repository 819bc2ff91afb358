/** The profile-picture upload middleware of `POST /api/users`: a single optional file,
    checked first by the MIME-type filter and then against the size limit. */
module Upload {
  import opened Wrappers

  newtype byte = x: int | 0 <= x < 256

  /** An uploaded file: its MIME type as the multipart parser reports it (type and
      subtype of the part's declared type, in lower case, without parameters) and the
      file's bytes. */
  datatype File = File(mimetype: string, buffer: seq<byte>)

  /** The declared limit on a file's size, 5 MiB. */
  const MaxFileSize: nat := 5 * 1024 * 1024

  /** The error the filter rejects a file with. */
  const NotAnImage := "Only image files are allowed!"

  /** The error the upload library reports for a file over the size limit. */
  const FileTooLarge := "File too large"

  /** The alternatives of the filter's regular expression `/jpeg|jpg|png|gif/`. */
  const ImagePatterns: seq<string> := ["jpeg", "jpg", "png", "gif"]

  /** `p` occurs in `s` starting at position `i`. */
  ghost predicate OccursAt(s: string, p: string, i: int) {
    0 <= i && i + |p| <= |s| && s[i..i + |p|] == p
  }

  /** Whether `p` occurs anywhere in `s`: what an unanchored regular expression made of
      the literal `p` finds. */
  function Contains(s: string, p: string): (b: bool)
    ensures b <==> exists i :: OccursAt(s, p, i)
  {
    if |s| < |p| then
      false
    else if s[..|p|] == p then
      assert OccursAt(s, p, 0);
      true
    else
      assert !OccursAt(s, p, 0) by {
        assert s[0..|p|] == s[..|p|];
      }
      var b := Contains(s[1..], p);
      assert forall i :: OccursAt(s, p, i) ==> i == 0 || OccursAt(s[1..], p, i - 1) by {
        forall i | OccursAt(s, p, i) && i != 0 ensures OccursAt(s[1..], p, i - 1) {
          assert s[1..][i - 1..i - 1 + |p|] == s[i..i + |p|];
        }
      }
      assert forall i :: OccursAt(s[1..], p, i) ==> OccursAt(s, p, i + 1) by {
        forall i | OccursAt(s[1..], p, i) ensures OccursAt(s, p, i + 1) {
          assert s[1..][i..i + |p|] == s[i + 1..i + 1 + |p|];
        }
      }
      b
  }

  /** The filter's test `/jpeg|jpg|png|gif/.test(mimetype)`: true exactly when one of the
      alternatives occurs somewhere in the MIME type, case-sensitively. */
  function IsImageType(mimetype: string): (b: bool)
    ensures b <==> exists k, i :: 0 <= k < |ImagePatterns| && OccursAt(mimetype, ImagePatterns[k], i)
  {
    var b := Contains(mimetype, "jpeg") || Contains(mimetype, "jpg")
      || Contains(mimetype, "png") || Contains(mimetype, "gif");
    assert b ==> exists k, i :: 0 <= k < |ImagePatterns| && OccursAt(mimetype, ImagePatterns[k], i) by {
      if Contains(mimetype, "jpeg") {
        var i :| OccursAt(mimetype, "jpeg", i);
        assert OccursAt(mimetype, ImagePatterns[0], i);
      } else if Contains(mimetype, "jpg") {
        var i :| OccursAt(mimetype, "jpg", i);
        assert OccursAt(mimetype, ImagePatterns[1], i);
      } else if Contains(mimetype, "png") {
        var i :| OccursAt(mimetype, "png", i);
        assert OccursAt(mimetype, ImagePatterns[2], i);
      } else if Contains(mimetype, "gif") {
        var i :| OccursAt(mimetype, "gif", i);
        assert OccursAt(mimetype, ImagePatterns[3], i);
      }
    }
    b
  }

  /** What the upload middleware does with the request's file, if any: no file passes;
      the filter rejects a non-image MIME type before the size is looked at; a file over
      the limit is rejected after it. */
  function CheckUpload(file: Option<File>): (r: Outcome)
    ensures r == Pass <==> file.None? || (IsImageType(file.value.mimetype) && |file.value.buffer| <= MaxFileSize)
    ensures r.Fail? ==> r.error == (if IsImageType(file.value.mimetype) then FileTooLarge else NotAnImage)
  {
    match file
    case None => Pass
    case Some(f) =>
      if !IsImageType(f.mimetype) then Fail(NotAnImage)
      else if |f.buffer| > MaxFileSize then Fail(FileTooLarge)
      else Pass
  }

  /** A pattern whose first character is missing from `s` does not occur in it. */
  lemma FirstCharMissing(s: string, p: string)
    requires |p| > 0 && p[0] !in s
    ensures !Contains(s, p)
  {
  }

  /** A MIME type without the letters `j`, `p` and `g` fails the filter: every
      alternative starts with one of them. */
  lemma NoInitialNoImage(mimetype: string)
    requires 'j' !in mimetype && 'p' !in mimetype && 'g' !in mimetype
    ensures !IsImageType(mimetype)
  {
    FirstCharMissing(mimetype, "jpeg");
    FirstCharMissing(mimetype, "jpg");
    FirstCharMissing(mimetype, "png");
    FirstCharMissing(mimetype, "gif");
  }

  /** The usual image MIME types pass the filter. */
  lemma ImageTypesPass()
    ensures IsImageType("image/png") && IsImageType("image/jpeg") && IsImageType("image/gif")
  {
    assert "image/png"[6..9] == "png";
    assert OccursAt("image/png", ImagePatterns[2], 6);
    assert "image/jpeg"[6..10] == "jpeg";
    assert OccursAt("image/jpeg", ImagePatterns[0], 6);
    assert "image/gif"[6..9] == "gif";
    assert OccursAt("image/gif", ImagePatterns[3], 6);
  }

  /** The filter looks for a substring, not for a whole MIME type: a type that merely
      mentions an image format passes. */
  lemma FilterIsUnanchored()
    ensures IsImageType("text/png-notes")
  {
    assert "text/png-notes"[5..8] == "png";
    assert OccursAt("text/png-notes", ImagePatterns[2], 5);
  }

  /** The filter rejects the audio type the chat client records voice messages in. */
  lemma FilterRejectsAudio()
    ensures !IsImageType("audio/webm")
  {
    NoInitialNoImage("audio/webm");
  }

  /** The size limit is inclusive: a file of exactly 5 MiB passes, one byte more does not. */
  lemma SizeLimitIsInclusive(mimetype: string, buffer: seq<byte>)
    requires IsImageType(mimetype)
    ensures CheckUpload(Some(File(mimetype, buffer))) == Pass <==> |buffer| <= 5242880
  {
  }
}
