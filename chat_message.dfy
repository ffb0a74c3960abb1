/** One chat bubble's attachments (client/src/components/chat-page/ChatMessage.tsx):
    which attached files are shown as images. */
module ChatMessage {
  import opened Js

  const ImageExtensions: seq<string> := ["jpg", "jpeg", "png", "gif", "bmp", "webp", "svg"]

  /** `s.split(c)` for a one-character separator, built from the right. */
  function SplitOn(s: string, c: char): (parts: seq<string>)
    ensures |parts| >= 1
  {
    if |s| == 0 then [""]
    else
      var rest := SplitOn(s[..|s| - 1], c);
      if s[|s| - 1] == c then rest + [""]
      else rest[..|rest| - 1] + [rest[|rest| - 1] + [s[|s| - 1]]]
  }

  function Last(parts: seq<string>): string
    requires |parts| >= 1
  {
    parts[|parts| - 1]
  }

  /** `toLowerCase` on the letters A-Z. No other character lowercases to one
      of the letters of an image extension, so this is all the test needs. */
  function LowerChar(ch: char): char {
    if 'A' <= ch <= 'Z' then (ch as int - 'A' as int + 'a' as int) as char else ch
  }

  function Lower(s: string): (r: string)
    ensures |r| == |s|
    ensures forall i :: 0 <= i < |s| ==> r[i] == LowerChar(s[i])
  {
    if |s| == 0 then [] else Lower(s[..|s| - 1]) + [LowerChar(s[|s| - 1])]
  }

  /** `fileName.split(".").pop()?.toLowerCase()`. */
  function Extension(fileName: string): string {
    Lower(Last(SplitOn(fileName, '.')))
  }

  /** `isImageFile(fileName)`: an empty extension is not an image. */
  predicate IsImageFile(fileName: string) {
    Extension(fileName) != "" && Extension(fileName) in ImageExtensions
  }

  /** One step of the split: the last character either ends the last piece
      (a separator) or is appended to it. */
  lemma LastSplitStep(s: string, c: char)
    requires |s| > 0
    ensures Last(SplitOn(s, c)) ==
      if s[|s| - 1] == c then "" else Last(SplitOn(s[..|s| - 1], c)) + [s[|s| - 1]]
  {
  }

  /** `e` is the longest suffix of `s` without a dot: the text after the
      last ".", or all of `s` when it has none. */
  predicate IsAfterLastDot(s: string, e: string) {
    |e| <= |s| && s[|s| - |e|..] == e
    && (forall i :: 0 <= i < |e| ==> e[i] != '.')
    && (|e| == |s| || s[|s| - |e| - 1] == '.')
  }

  /** Appending one character: a dot starts a new, empty, suffix; anything
      else extends the suffix. */
  lemma AfterLastDotStep(s: string, e0: string, e: string)
    requires |s| > 0 && IsAfterLastDot(s[..|s| - 1], e0)
    requires e == if s[|s| - 1] == '.' then "" else e0 + [s[|s| - 1]]
    ensures IsAfterLastDot(s, e)
  {
    var init, c := s[..|s| - 1], s[|s| - 1];
    assert s == init + [c];
    if c != '.' {
      var k := |init| - |e0|;
      assert s[k..] == init[k..] + [c];
      assert forall i :: 0 <= i < |e| ==> e[i] == if i < |e0| then e0[i] else c;
      if k > 0 {
        assert s[k - 1] == init[k - 1];
      }
    }
  }

  /** The last piece of the split is the longest suffix without a dot. */
  lemma {:induction false} LastPieceIsAfterLastDot(s: string)
    ensures IsAfterLastDot(s, Last(SplitOn(s, '.')))
  {
    if |s| > 0 {
      LastPieceIsAfterLastDot(s[..|s| - 1]);
      LastSplitStep(s, '.');
      AfterLastDotStep(s, Last(SplitOn(s[..|s| - 1], '.')), Last(SplitOn(s, '.')));
    }
  }

  lemma {:induction false} SplitOnLower(s: string)
    ensures Last(SplitOn(Lower(s), '.')) == Lower(Last(SplitOn(s, '.')))
  {
    if |s| > 0 {
      SplitOnLower(s[..|s| - 1]);
      var l := Lower(s);
      assert l[..|l| - 1] == Lower(s[..|s| - 1]);
      assert (l[|l| - 1] == '.') == (s[|s| - 1] == '.');
      if s[|s| - 1] != '.' {
        var e0 := Last(SplitOn(s[..|s| - 1], '.'));
        assert Lower(e0 + [s[|s| - 1]]) == Lower(e0) + [LowerChar(s[|s| - 1])];
      }
    }
  }

  /** The test ignores case: two names equal up to case are both images or
      both not. */
  lemma IsImageFileIgnoresCase(a: string, b: string)
    requires Lower(a) == Lower(b)
    ensures IsImageFile(a) == IsImageFile(b)
  {
    SplitOnLower(a);
    SplitOnLower(b);
    LowerIdempotent(Last(SplitOn(a, '.')));
    LowerIdempotent(Last(SplitOn(b, '.')));
  }

  lemma LowerIdempotent(s: string)
    ensures Lower(Lower(s)) == Lower(s)
  {
    assert forall i :: 0 <= i < |s| ==> LowerChar(LowerChar(s[i])) == LowerChar(s[i]);
  }

  /** A name ending in "." has an empty extension and is never an image. */
  lemma TrailingDotIsNotImage(name: string)
    requires |name| > 0 && name[|name| - 1] == '.'
    ensures !IsImageFile(name)
  {
  }

  lemma {:induction false} LastPieceAfterDot(stem: string, ext: string)
    requires forall i :: 0 <= i < |ext| ==> ext[i] != '.'
    ensures Last(SplitOn(stem + "." + ext, '.')) == ext
  {
    var name := stem + "." + ext;
    if |ext| == 0 {
      assert name[..|name| - 1] == stem && name[|name| - 1] == '.';
    } else {
      var init := ext[..|ext| - 1];
      LastPieceAfterDot(stem, init);
      assert name[..|name| - 1] == stem + "." + init;
      assert name[|name| - 1] == ext[|ext| - 1];
      assert init + [ext[|ext| - 1]] == ext;
    }
  }

  /** A name with a listed extension after its last dot is an image,
      whatever the case of that extension. */
  lemma ListedExtensionIsImage(stem: string, ext: string)
    requires Lower(ext) in ImageExtensions
    requires forall i :: 0 <= i < |ext| ==> ext[i] != '.'
    ensures IsImageFile(stem + "." + ext)
  {
    LastPieceAfterDot(stem, ext);
    ListedIsNonEmpty(Lower(ext));
  }

  lemma ListedIsNonEmpty(e: string)
    requires e in ImageExtensions
    ensures e != ""
  {
  }

  /** What the bubble renders below the text: for each url, the image
      source when the file name at the same index is an image, or nothing.
      None is the TypeError of calling `split` on a missing name when there
      are fewer names than urls. */
  function Attachments(fileUrls: Option<seq<string>>, fileNames: Option<seq<string>>): (r: Option<seq<Option<string>>>)
    ensures r.None? <==> fileUrls.Some? && fileNames.Some? && 0 < |fileNames.value| < |fileUrls.value|
  {
    if fileUrls.Some? && fileNames.Some? && |fileUrls.value| > 0 && |fileNames.value| > 0 then
      var urls := fileUrls.value;
      var names := fileNames.value;
      if |names| < |urls| then None
      else Some(seq(|urls|, i requires 0 <= i < |urls| => if IsImageFile(names[i]) then Some(urls[i]) else None))
    else Some([])
  }

  /** Attachments appear only when both lists are present and non-empty;
      then there is one slot per url, showing that url exactly when the
      name at its index is an image. */
  lemma AttachmentsShown(fileUrls: Option<seq<string>>, fileNames: Option<seq<string>>)
    requires Attachments(fileUrls, fileNames).Some?
    ensures var shown := Attachments(fileUrls, fileNames).value;
      (shown != [] ==> fileUrls.Some? && fileNames.Some? && |fileNames.value| > 0
                       && |shown| == |fileUrls.value|)
      && (forall i :: 0 <= i < |shown| ==>
            (shown[i].Some? <==> IsImageFile(fileNames.value[i])) && (shown[i].Some? ==> shown[i].value == fileUrls.value[i]))
  {
  }
}
