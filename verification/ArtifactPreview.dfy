/**
 Paged text preview of an evidence file: fixed-size pages whose ends move over
 continuation bytes, so that every character is shown on exactly one page.
 */
module ArtifactPreview {
  import opened Basics
  import opened Utf8

  const ARTIFACT_TEXT_PAGE_BYTES: nat := 32 * 1024
  const MAX_INVESTIGATION_MANIFEST_ARTIFACT_BYTES: nat := 64 * 1024 * 1024

  datatype PageError = UnsupportedSize | InvalidPage | NotText

  datatype TextPage = TextPage(text: seq<Scalar>, pages: nat, page: nat, startByte: nat, endByte: nat,
                               escapedControls: bool)

  predicate Supported(file: seq<Byte>) { 1 <= |file| <= MAX_INVESTIGATION_MANIFEST_ARTIFACT_BYTES }

  function PageCount(size: nat): nat { (size + ARTIFACT_TEXT_PAGE_BYTES - 1) / ARTIFACT_TEXT_PAGE_BYTES }

  /** The first place at or after `i` where no continuation byte stands, looking at most `limit` bytes ahead. */
  function Skip(file: seq<Byte>, i: nat, limit: nat): (j: nat)
    requires i <= |file|
    ensures i <= j <= i + limit && j <= |file|
    ensures forall k :: i <= k < j ==> Continuation(file[k])
    ensures j == i + limit || Boundary(file, j)
    decreases limit
  {
    if limit == 0 || i == |file| || !Continuation(file[i]) then i else Skip(file, i + 1, limit - 1)
  }

  function NominalEnd(size: nat, p: nat): nat
  {
    if size < (p + 1) * ARTIFACT_TEXT_PAGE_BYTES then size else (p + 1) * ARTIFACT_TEXT_PAGE_BYTES
  }

  function PageStart(file: seq<Byte>, p: nat): (start: nat)
    requires p < PageCount(|file|)
    ensures start <= |file|
  {
    if p == 0 then 0 else Skip(file, p * ARTIFACT_TEXT_PAGE_BYTES, 3)
  }

  function PageEnd(file: seq<Byte>, p: nat): (end: nat)
    requires p < PageCount(|file|)
    ensures end <= |file|
  {
    Skip(file, NominalEnd(|file|, p), 3)
  }

  /** The bytes one page decodes. */
  function PageBytes(file: seq<Byte>, p: nat): seq<Byte>
    requires p < PageCount(|file|)
  {
    PageIsOrdered(file, p);
    file[PageStart(file, p)..PageEnd(file, p)]
  }

  lemma PageIsOrdered(file: seq<Byte>, p: nat)
    requires p < PageCount(|file|)
    ensures PageStart(file, p) <= PageEnd(file, p)
  {
  }

  /** Characters shown as an escape: controls, bidirectional formatting and the byte order mark. */
  predicate EscapedCharacter(s: Scalar)
  {
    s <= 0x08 || s == 0x0B || s == 0x0C || 0x0E <= s <= 0x1F || 0x7F <= s <= 0x9F || s == 0x061C || s == 0x200E
        || s == 0x200F
    || 0x202A <= s <= 0x202E || 0x2066 <= s <= 0x2069 || s == 0xFEFF
  }

  function HexDigit(d: int): Scalar
    requires 0 <= d < 16
  {
    if d < 10 then 0x30 + d else 0x61 + d - 10
  }

  function Shown(s: Scalar): (text: seq<Scalar>)
    ensures forall i :: 0 <= i < |text| ==> !EscapedCharacter(text[i])
  {
    if EscapedCharacter(s)
    then [0x5C, 0x75, HexDigit(s / 0x1000), HexDigit(s / 0x100 % 16), HexDigit(s / 16 % 16), HexDigit(s % 16)]
    else [s]
  }

  function ShownText(text: seq<Scalar>): seq<Scalar>
  {
    if text == [] then [] else ShownText(text[..|text| - 1]) + Shown(text[|text| - 1])
  }

  method Escape(decoded: seq<Scalar>) returns (text: seq<Scalar>, escapedControls: bool)
    ensures text == ShownText(decoded)
    ensures escapedControls <==> exists i :: 0 <= i < |decoded| && EscapedCharacter(decoded[i])
  {
    text, escapedControls := [], false;
    for i := 0 to |decoded|
      invariant text == ShownText(decoded[..i])
      invariant escapedControls <==> exists j :: 0 <= j < i && EscapedCharacter(decoded[j])
    {
      assert decoded[..i + 1][..i] == decoded[..i];
      if EscapedCharacter(decoded[i]) {
        escapedControls := true;
      }
      text := text + Shown(decoded[i]);
    }
    assert decoded[..|decoded|] == decoded;
  }

  lemma {:induction false} SkipIs(file: seq<Byte>, i: nat, limit: nat, j: nat)
    requires i <= j <= i + limit && j <= |file|
    requires forall k :: i <= k < j ==> Continuation(file[k])
    requires j == i + limit || Boundary(file, j)
    ensures Skip(file, i, limit) == j
    decreases limit
  {
  }

  lemma NominalBounds(file: seq<Byte>, p: nat)
    requires p < PageCount(|file|)
    ensures p * ARTIFACT_TEXT_PAGE_BYTES < NominalEnd(|file|, p) <= |file|
    ensures NominalEnd(|file|, p) < |file| ==> NominalEnd(|file|, p) == (p + 1) * ARTIFACT_TEXT_PAGE_BYTES
    ensures PageStart(file, p) == if p == 0 then 0 else Skip(file, p * ARTIFACT_TEXT_PAGE_BYTES, 3)
    ensures PageEnd(file, p) == Skip(file, NominalEnd(|file|, p), 3)
  {
  }

  /** Where one page starts and ends, found from the bytes fetched for it: its own and at most three more. */
  method PageBounds(file: seq<Byte>, page: nat) returns (startByte: nat, endByte: nat)
    requires page < PageCount(|file|)
    ensures startByte == PageStart(file, page) && endByte == PageEnd(file, page)
  {
    hide Skip, PageStart, PageEnd, PageCount, NominalEnd;
    NominalBounds(file, page);
    var offset := page * ARTIFACT_TEXT_PAGE_BYTES;
    var nominalEnd := NominalEnd(|file|, page);
    var fetchedEnd := if |file| < nominalEnd + 3 then |file| else nominalEnd + 3;
    var bytes := file[offset..fetchedEnd];
    var start, end := 0, nominalEnd - offset;
    if page > 0 {
      while start < 3 && start < |bytes| && Continuation(bytes[start])
        invariant start <= 3 && start <= |bytes|
        invariant forall k :: offset <= k < offset + start ==> Continuation(file[k])
      {
        start := start + 1;
      }
      SkipIs(file, offset, 3, offset + start);
    }
    while end < |bytes| && Continuation(bytes[end])
      invariant nominalEnd - offset <= end <= |bytes|
      invariant forall k :: nominalEnd <= k < offset + end ==> Continuation(file[k])
    {
      end := end + 1;
    }
    SkipIs(file, nominalEnd, 3, offset + end);
    return offset + start, offset + end;
  }

  method ReadArtifactTextPage(file: seq<Byte>, page: int) returns (r: Result<TextPage, PageError>)
    ensures r == Err(UnsupportedSize) <==> !Supported(file)
    ensures r == Err(InvalidPage) <==> Supported(file) && !(0 <= page < PageCount(|file|))
    ensures Supported(file) && 0 <= page < PageCount(|file|) ==>
      (var bytes := PageBytes(file, page);
       if WellFormed(bytes)
       then r.Ok? && r.value.startByte == PageStart(file, page) && r.value.endByte == PageEnd(file, page)
            && r.value.pages == PageCount(|file|) && r.value.page == page
            && r.value.text == ShownText(Decode(bytes).value)
            && (!r.value.escapedControls ==> r.value.text == Decode(bytes).value)
       else r == Err(NotText))
  {
    hide PageStart, PageEnd, ShownText, Decode;
    if |file| < 1 || |file| > MAX_INVESTIGATION_MANIFEST_ARTIFACT_BYTES {
      return Err(UnsupportedSize);
    }
    if page < 0 || page >= PageCount(|file|) {
      return Err(InvalidPage);
    }
    var startByte, endByte := PageBounds(file, page);
    PageIsOrdered(file, page);
    var decoded := Decode(file[startByte..endByte]);
    if decoded.None? {
      return Err(NotText);
    }
    var text, escapedControls := Escape(decoded.value);
    if !escapedControls {
      NothingEscaped(decoded.value);
    }
    return Ok(TextPage(text, PageCount(|file|), page, startByte, endByte, escapedControls));
  }

  lemma {:induction false} NothingEscaped(text: seq<Scalar>)
    requires forall i :: 0 <= i < |text| ==> !EscapedCharacter(text[i])
    ensures ShownText(text) == text
  {
    if text != [] {
      NothingEscaped(text[..|text| - 1]);
    }
  }

  lemma {:induction false} ShownTextOfConcat(a: seq<Scalar>, b: seq<Scalar>)
    ensures ShownText(a + b) == ShownText(a) + ShownText(b)
  {
    if b == [] {
      assert a + b == a;
    } else {
      assert (a + b)[..|a + b| - 1] == a + b[..|b| - 1];
      ShownTextOfConcat(a, b[..|b| - 1]);
    }
  }

  /** Whatever the bytes, no control or formatting character reaches the screen. */
  lemma {:induction false} NoControlIsShown(text: seq<Scalar>, i: nat)
    requires i < |ShownText(text)|
    ensures !EscapedCharacter(ShownText(text)[i])
  {
    var n := |text| - 1;
    if i < |ShownText(text[..n])| {
      NoControlIsShown(text[..n], i);
    }
  }

  // ---------- Pages cover the file ----------

  /** Pages of any file, text or not, follow one another from the first byte to the last without gap or overlap. */
  lemma PagesPartitionTheFile(file: seq<Byte>, p: nat)
    requires Supported(file) && p < PageCount(|file|)
    ensures PageStart(file, 0) == 0
    ensures PageStart(file, p) <= PageEnd(file, p)
    ensures p + 1 < PageCount(|file|) ==> PageEnd(file, p) == PageStart(file, p + 1)
    ensures p + 1 == PageCount(|file|) ==> PageEnd(file, p) == |file|
  {
  }

  /** In a text, page boundaries fall between characters. */
  lemma PagesStartAtCharacters(file: seq<Byte>, p: nat)
    requires Supported(file) && WellFormed(file) && p < PageCount(|file|)
    ensures Boundary(file, PageStart(file, p)) && Boundary(file, PageEnd(file, p))
  {
    SkipFindsStart(file, NominalEnd(|file|, p));
    if p > 0 {
      SkipFindsStart(file, p * ARTIFACT_TEXT_PAGE_BYTES);
    } else {
      SplitsNowhere(file);
    }
  }

  lemma SplitsNowhere(file: seq<Byte>)
    requires WellFormed(file)
    ensures Boundary(file, 0)
  {
  }

  lemma {:induction false} SkipStops(file: seq<Byte>, i: nat, limit: nat, j: nat)
    requires i <= j <= i + limit && j <= |file| && Boundary(file, j)
    ensures Boundary(file, Skip(file, i, limit))
    decreases limit
  {
  }

  lemma SkipFindsStart(file: seq<Byte>, i: nat)
    requires WellFormed(file) && i <= |file|
    ensures Boundary(file, Skip(file, i, 3))
  {
    StartWithinThree(file, i);
    var j :| i <= j <= i + 3 && j <= |file| && Boundary(file, j);
    SkipStops(file, i, 3, j);
  }

  ghost predicate AllPagesAreText(file: seq<Byte>)
    requires Supported(file)
  {
    forall p :: 0 <= p < PageCount(|file|) ==> WellFormed(PageBytes(file, p))
  }

  /** The texts of the first `n` pages, one after another. */
  ghost function Pages(file: seq<Byte>, n: nat): seq<Scalar>
    requires Supported(file) && AllPagesAreText(file) && n <= PageCount(|file|)
  {
    if n == 0 then [] else Pages(file, n - 1) + Decode(PageBytes(file, n - 1)).value
  }

  /** What a reader sees who turns every page. */
  ghost function ShownPages(file: seq<Byte>, n: nat): seq<Scalar>
    requires Supported(file) && AllPagesAreText(file) && n <= PageCount(|file|)
  {
    if n == 0 then [] else ShownPages(file, n - 1) + ShownText(Decode(PageBytes(file, n - 1)).value)
  }

  lemma {:induction false} PagesJoin(file: seq<Byte>, n: nat)
    requires Supported(file) && AllPagesAreText(file) && n <= PageCount(|file|)
    ensures n > 0 ==> Decode(file[..PageEnd(file, n - 1)]) == Some(Pages(file, n))
    ensures ShownPages(file, n) == ShownText(Pages(file, n))
  {
    hide PageStart, PageEnd, ShownText, Decode, PageCount, PageBytes;
    if n == 0 {
      NothingEscaped([]);
    } else {
      PagesJoin(file, n - 1);
      NextPageJoins(file, n - 1);
      var page := Decode(PageBytes(file, n - 1)).value;
      ShownTextOfConcat(Pages(file, n - 1), page);
    }
  }

  lemma NextPageJoins(file: seq<Byte>, p: nat)
    requires Supported(file) && AllPagesAreText(file) && p < PageCount(|file|)
    requires p > 0 ==> Decode(file[..PageEnd(file, p - 1)]) == Some(Pages(file, p))
    ensures Decode(file[..PageEnd(file, p)]) == Some(Pages(file, p) + Decode(PageBytes(file, p)).value)
  {
    hide PageStart, PageEnd, Decode, PageCount;
    PagesPartitionTheFile(file, p);
    if p == 0 {
      assert file[..PageEnd(file, 0)] == PageBytes(file, 0);
      assert Pages(file, 0) + Decode(PageBytes(file, 0)).value == Decode(PageBytes(file, 0)).value;
    } else {
      PagesPartitionTheFile(file, p - 1);
      var before := file[..PageEnd(file, p - 1)];
      DecodeConcat(before, PageBytes(file, p));
      assert before + PageBytes(file, p) == file[..PageEnd(file, p)];
    }
  }

  /** Every page of a text is a text. */
  lemma TextHasTextPages(file: seq<Byte>, p: nat)
    requires Supported(file) && WellFormed(file) && p < PageCount(|file|)
    ensures WellFormed(PageBytes(file, p))
  {
    PageIsOrdered(file, p);
    PagesStartAtCharacters(file, p);
    var start, end := PageStart(file, p), PageEnd(file, p);
    SplitsAtBoundary(file, end);
    assert Boundary(file[..end], start);
    SplitsAtBoundary(file[..end], start);
    assert file[..end][start..] == PageBytes(file, p);
  }

  /**
   No text is omitted, added or split: all pages decode exactly when the whole
   file is UTF-8, and then they are the file's text, page after page, both as
   decoded and as shown.
   */
  lemma PagesAreTheText(file: seq<Byte>)
    requires Supported(file)
    ensures AllPagesAreText(file) <==> WellFormed(file)
    ensures AllPagesAreText(file) ==>
      && Pages(file, PageCount(|file|)) == Decode(file).value
      && ShownPages(file, PageCount(|file|)) == ShownText(Decode(file).value)
  {
    hide PageStart, PageEnd, ShownText, Decode, Pages, ShownPages, PageBytes;
    if WellFormed(file) {
      forall p | 0 <= p < PageCount(|file|)
        ensures WellFormed(PageBytes(file, p))
      {
        TextHasTextPages(file, p);
      }
    }
    if AllPagesAreText(file) {
      var n := PageCount(|file|);
      PagesPartitionTheFile(file, n - 1);
      PagesJoin(file, n);
      assert file[..|file|] == file;
    }
  }
}
