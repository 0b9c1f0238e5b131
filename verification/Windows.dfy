/** Byte windows over text. UTF-8 is that of RFC 3629: section 3 gives the octet
    counts, section 4 the exact sequences. */
module Windows {
  import opened Outcomes

  newtype byte = x: int | 0 <= x < 256

  // ----------------------------------------------------------------- UTF-8

  predicate IsTail(b: byte) {
    0x80 <= b <= 0xBF
  }

  /** How many octets a character starting with this one has; none start with 0. */
  function Width(b: byte): nat {
    if b <= 0x7F then 1
    else if 0xC2 <= b <= 0xDF then 2
    else if 0xE0 <= b <= 0xEF then 3
    else if 0xF0 <= b <= 0xF4 then 4
    else 0
  }

  /** Shortest forms only, no surrogates, nothing above U+10FFFF. */
  predicate Follows(lead: byte, b: byte) {
    if lead == 0xE0 then 0xA0 <= b <= 0xBF
    else if lead == 0xED then 0x80 <= b <= 0x9F
    else if lead == 0xF0 then 0x90 <= b <= 0xBF
    else if lead == 0xF4 then 0x80 <= b <= 0x8F
    else IsTail(b)
  }

  /** The octets after the first, as far as they go, are those of a character. */
  predicate Continues(c: seq<byte>) {
    && c != []
    && (|c| > 1 ==> Follows(c[0], c[1]))
    && forall k :: 2 <= k < |c| ==> IsTail(c[k])
  }

  predicate IsChar(c: seq<byte>) {
    Continues(c) && |c| == Width(c[0])
  }

  /** A character cut short by the end of input. */
  predicate IsPartial(c: seq<byte>) {
    Continues(c) && |c| < Width(c[0])
  }

  predicate StartsChar(s: seq<byte>) {
    s != [] && 0 < Width(s[0]) <= |s| && IsChar(s[..Width(s[0])])
  }

  predicate IsText(s: seq<byte>) {
    s == [] || (StartsChar(s) && IsText(s[Width(s[0])..]))
  }

  /** Rust's `is_char_boundary`. */
  predicate Boundary(s: seq<byte>, i: nat) {
    i == 0 || i == |s| || (i < |s| && !IsTail(s[i]))
  }

  lemma {:induction false} InsideIsTail(s: seq<byte>, i: nat)
    requires StartsChar(s) && 0 < i < Width(s[0])
    ensures IsTail(s[i]) && i < |s|
  {
    assert s[..Width(s[0])][i] == s[i];
  }

  /** A boundary splits text into text, and only a boundary does. */
  lemma {:induction false} TextSplits(s: seq<byte>, i: nat)
    requires IsText(s) && i <= |s|
    ensures Boundary(s, i) ==> IsText(s[..i]) && IsText(s[i..])
    ensures IsText(s[i..]) ==> Boundary(s, i)
    decreases |s|
  {
    if i == 0 {
      assert s[0..] == s;
    } else if i == |s| {
      assert s[..i] == s;
    } else {
      var n := Width(s[0]);
      if i < n {
        InsideIsTail(s, i);
        assert s[i..][0] == s[i];
      } else {
        TextSplits(s[n..], i - n);
        SplitShifts(s, n, i);
      }
    }
  }

  /** What splitting the rest says about splitting the whole. */
  lemma SplitShifts(s: seq<byte>, n: nat, i: nat)
    requires IsText(s) && s != [] && n == Width(s[0]) && n <= i < |s|
    ensures s[n..][i - n..] == s[i..]
    ensures Boundary(s[n..], i - n) <==> Boundary(s, i)
    ensures IsText(s[n..][..i - n]) ==> IsText(s[..i])
  {
    DropDrop(s, n, i - n);
    assert s[..i][..n] == s[..n] && s[..i][n..] == s[n..][..i - n];
    assert s[n..][i - n] == s[i];
    if i == n { LeadIsNoTail(s[n..]); }
  }

  lemma LeadIsNoTail(s: seq<byte>)
    requires StartsChar(s)
    ensures !IsTail(s[0])
  {
  }

  lemma {:induction false} TextJoins(a: seq<byte>, b: seq<byte>)
    requires IsText(a) && IsText(b)
    ensures IsText(a + b)
    decreases |a|
  {
    if a == [] {
      assert a + b == b;
    } else {
      var n := Width(a[0]);
      TextJoins(a[n..], b);
      assert (a + b)[..n] == a[..n] && (a + b)[n..] == a[n..] + b;
    }
  }

  lemma AfterChar(s: seq<byte>, i: nat)
    requires i < |s| && IsText(s[i..])
    ensures StartsChar(s[i..]) && 0 < Width(s[i]) <= 4 && i + Width(s[i]) <= |s|
    ensures IsText(s[i + Width(s[i])..])
  {
    assert s[i..][0] == s[i];
    DropDrop(s, i, Width(s[i]));
  }

  lemma NoneInside(s: seq<byte>, i: nat, k: nat)
    requires i < k < |s| && StartsChar(s[i..]) && k < i + Width(s[i])
    ensures !Boundary(s, k)
  {
    assert s[i..][0] == s[i] && s[i..][k - i] == s[k];
    InsideIsTail(s[i..], k - i);
  }

  /** After a boundary comes a whole character, and then a boundary again. */
  lemma NextChar(s: seq<byte>, i: nat)
    requires IsText(s) && i < |s| && Boundary(s, i)
    ensures 0 < Width(s[i]) <= 4 && i + Width(s[i]) <= |s| && Boundary(s, i + Width(s[i]))
    ensures forall k :: i < k < i + Width(s[i]) ==> !Boundary(s, k)
  {
    assert IsText(s[i..]) by { TextSplits(s, i); }
    AfterChar(s, i);
    assert Boundary(s, i + Width(s[i])) by { TextSplits(s, i + Width(s[i])); }
    forall k | i < k < i + Width(s[i]) ensures !Boundary(s, k) { NoneInside(s, i, k); }
  }

  lemma DropDrop(s: seq<byte>, i: nat, n: nat)
    requires i + n <= |s|
    ensures s[i..][n..] == s[i + n..]
  {
  }

  /** A part of a part is a part. */
  lemma PartOfPart(s: seq<byte>, a: nat, b: nat, i: nat, j: nat)
    requires a <= b <= |s| && i <= j <= b - a
    ensures s[a..b][i..j] == s[a + i..a + j]
  {
    var inner, outer := s[a..b][i..j], s[a + i..a + j];
    assert |inner| == |outer|;
    forall k | 0 <= k < |inner| ensures inner[k] == outer[k] {
      assert inner[k] == s[a..b][i + k] == s[a + i + k];
    }
  }

  lemma TakeOfDrop(s: seq<byte>, a: nat, b: nat)
    requires a <= b <= |s|
    ensures s[a..][..b - a] == s[a..b]
  {
    var inner, outer := s[a..][..b - a], s[a..b];
    forall k | 0 <= k < |inner| ensures inner[k] == outer[k] {
      assert inner[k] == s[a..][k] == s[a + k];
    }
  }

  // ---------------------------------------------------------------- window

  /** The longest whole-character window of at most `length` bytes at an offset. */
  ghost predicate IsWindow(s: seq<byte>, offset: nat, length: nat, w: seq<byte>) {
    && offset + |w| <= |s| && |w| <= length
    && w == s[offset..offset + |w|] && Boundary(s, offset + |w|)
    && forall k: nat :: offset + |w| < k <= Min(offset + length, |s|) ==> !Boundary(s, k)
  }

  /** `utf8_window`: reject an offset inside a character, then move the end down
      to a boundary, and reject a window that cannot hold the next character. */
  method Utf8Window(s: seq<byte>, offset: nat, length: nat) returns (r: Result<seq<byte>>)
    requires IsText(s)
    ensures r.Ok? <==> offset <= |s| && Boundary(s, offset) && (offset == |s| || Width(s[offset]) <= length)
    ensures r.Ok? ==> IsWindow(s, offset, length, r.value) && IsText(r.value)
    ensures r.Ok? && offset < |s| ==> r.value != []
    ensures r.Err? ==> r == Err(Invalid)
  {
    if offset > |s| || !Boundary(s, offset) { return Err(Invalid); }
    var end := Min(offset + length, |s|);
    if offset < |s| { NextChar(s, offset); }
    while !Boundary(s, end)
      invariant offset <= end <= Min(offset + length, |s|)
      invariant forall k: nat :: end < k <= Min(offset + length, |s|) ==> !Boundary(s, k)
      decreases end
    {
      end := end - 1;
    }
    if end == offset && offset < |s| { return Err(Invalid); }
    WindowIsText(s, offset, end);
    return Ok(s[offset..end]);
  }

  lemma WindowIsText(s: seq<byte>, offset: nat, end: nat)
    requires IsText(s) && offset <= end <= |s| && Boundary(s, offset) && Boundary(s, end)
    ensures IsText(s[offset..end])
  {
    var rest := s[offset..];
    TextSplits(s, offset);
    TakeOfDrop(s, offset, end);
    assert end < |s| ==> rest[end - offset] == s[end];
    assert Boundary(rest, end - offset);
    TextSplits(rest, end - offset);
  }

  function Joined(windows: seq<seq<byte>>): seq<byte> {
    if windows == [] then [] else Joined(windows[..|windows| - 1]) + windows[|windows| - 1]
  }

  /** Windows read one after another at the returned offsets, each with a length of
      at least four bytes. */
  ghost predicate Reading(s: seq<byte>, windows: seq<seq<byte>>) {
    windows == []
    || (Reading(s, windows[..|windows| - 1]) && ReadAt(s, |Joined(windows[..|windows| - 1])|, windows[|windows| - 1]))
  }

  ghost predicate ReadAt(s: seq<byte>, offset: nat, w: seq<byte>) {
    exists length: nat :: IsWindow(s, offset, length, w) && length >= 4
  }

  /** Following the returned offsets reproduces the text so far, always at a
      boundary, and every window before the end moves forward. */
  lemma {:induction false} WindowsReassemble(s: seq<byte>, windows: seq<seq<byte>>)
    requires IsText(s) && Reading(s, windows)
    ensures |Joined(windows)| <= |s| && Joined(windows) == s[..|Joined(windows)|] && Boundary(s, |Joined(windows)|)
    ensures |windows| <= |Joined(windows)| || Joined(windows) == s
    decreases |windows|
  {
    if windows != [] {
      var early, last := windows[..|windows| - 1], windows[|windows| - 1];
      WindowsReassemble(s, early);
      var offset := |Joined(early)|;
      var length: nat :| IsWindow(s, offset, length, last) && length >= 4;
      WindowAdvances(s, offset, length, last);
      WindowAppends(s, offset, offset + |last|);
      assert Joined(windows) == Joined(early) + last;
    }
  }

  lemma WindowAppends(s: seq<byte>, offset: nat, end: nat)
    requires offset <= end <= |s|
    ensures s[..offset] + s[offset..end] == s[..end]
  {
  }

  lemma WindowAdvances(s: seq<byte>, offset: nat, length: nat, w: seq<byte>)
    requires IsText(s) && offset <= |s| && Boundary(s, offset) && length >= 4 && IsWindow(s, offset, length, w)
    ensures offset < |s| ==> w != []
    ensures offset == |s| ==> w == []
  {
    if offset < |s| { NextChar(s, offset); }
  }

  /** Window `k` is what a read of `lengths[k]` bytes returns where the ones before it end. */
  ghost predicate ReadWith(s: seq<byte>, windows: seq<seq<byte>>, lengths: seq<nat>, k: nat) {
    k < |windows| && k < |lengths| && IsWindow(s, |Joined(windows[..k])|, lengths[k], windows[k])
  }

  lemma ReadMore(s: seq<byte>, windows: seq<seq<byte>>, lengths: seq<nat>, w: seq<byte>, k: nat)
    requires k < |windows| ==> ReadWith(s, windows, lengths, k)
    requires k == |windows| ==> k < |lengths| && IsWindow(s, |Joined(windows)|, lengths[k], w)
    requires k <= |windows|
    ensures ReadWith(s, windows + [w], lengths, k)
  {
    if k < |windows| { assert (windows + [w])[..k] == windows[..k]; } else { assert (windows + [w])[..k] == windows; }
  }

  /** Reading on from any boundary with at least four bytes succeeds and advances,
      so as many reads as there are bytes return the whole text. */
  method ReadAll(s: seq<byte>, lengths: seq<nat>) returns (windows: seq<seq<byte>>)
    requires IsText(s) && |lengths| >= |s| && forall k :: 0 <= k < |lengths| ==> lengths[k] >= 4
    ensures |windows| == |lengths| && forall k: nat :: k < |windows| ==> ReadWith(s, windows, lengths, k)
    ensures Joined(windows) == s
  {
    windows := [];
    for k := 0 to |lengths|
      invariant |windows| == k && Reading(s, windows)
      invariant forall j: nat :: j < k ==> ReadWith(s, windows, lengths, j)
    {
      WindowsReassemble(s, windows);
      var offset := |Joined(windows)|;
      if offset < |s| { NextChar(s, offset); }
      var w := Utf8Window(s, offset, lengths[k]);
      var more := windows + [w.value];
      assert more[..|more| - 1] == windows && ReadAt(s, offset, w.value);
      forall j: nat | j < |more| ensures ReadWith(s, more, lengths, j) { ReadMore(s, windows, lengths, w.value, j); }
      windows := more;
    }
    WindowsReassemble(s, windows);
  }

  // ------------------------------------------------------------- host reads

  datatype Chunk = Chunk(content: seq<byte>, offset: nat, eof: bool)

  /** The chunk is the artifact's bytes at its offset, and says truly whether it
      reaches their end. */
  ghost predicate SliceOf(data: seq<byte>, c: Chunk) {
    && c.offset + |c.content| <= |data|
    && c.content == data[c.offset..c.offset + |c.content|]
    && IsText(c.content)
    && (c.eof <==> c.offset + |c.content| == |data|)
  }

  /** How decoding a byte string ends. */
  datatype Scan = Whole | Cut(good: nat) | Broken

  /** The specification of the decoder: the leading characters, and what follows. */
  ghost predicate Decodes(s: seq<byte>, r: Scan) {
    match r
    case Whole => IsText(s)
    case Cut(n) => n < |s| && IsText(s[..n]) && IsPartial(s[n..])
    case Broken => exists n: nat :: n < |s| && IsText(s[..n]) && !StartsChar(s[n..]) && !IsPartial(s[n..])
  }

  /** `from_utf8`, with the two kinds of error it tells apart. */
  method Decode(s: seq<byte>) returns (r: Scan)
    ensures Decodes(s, r)
  {
    var i := 0;
    while i < |s|
      invariant 0 <= i <= |s| && IsText(s[..i])
    {
      var rest := s[i..];
      if !StartsChar(rest) {
        return if IsPartial(rest) then Cut(i) else Broken;
      }
      var n := Width(rest[0]);
      assert rest[..n] == s[i..i + n];
      assert rest[..n][n..] == [];
      assert rest[..n][..n] == rest[..n];
      TextJoins(s[..i], rest[..n]);
      assert s[..i] + rest[..n] == s[..i + n];
      i := i + n;
    }
    assert s[..i] == s;
    return Whole;
  }

  lemma {:induction false} RestIsText(s: seq<byte>, n: nat)
    requires IsText(s) && n <= |s| && IsText(s[..n])
    ensures IsText(s[n..])
    decreases n
  {
    if n == 0 {
      assert s[0..] == s;
    } else {
      var w := Width(s[0]);
      assert s[..n][0] == s[0];
      assert s[..n][w..] == s[w..][..n - w];
      RestIsText(s[w..], n - w);
      assert s[w..][n - w..] == s[n..];
    }
  }

  /** A character's own octets, cut anywhere, are the character or a part of it. */
  lemma CutStarts(s: seq<byte>, m: nat)
    requires StartsChar(s) && 0 < m <= |s|
    ensures StartsChar(s[..m]) || IsPartial(s[..m])
    ensures m >= Width(s[0]) ==> StartsChar(s[..m])
  {
    var w := Width(s[0]);
    assert s[..m][0] == s[0];
    if m >= w {
      assert s[..m][..w] == s[..w];
    } else {
      assert forall k :: 0 <= k < m ==> s[..m][k] == s[..w][k];
    }
  }

  function Front(s: seq<byte>, length: nat): seq<byte> {
    s[..Min(length, |s|)]
  }

  /** The bytes a read asks for, as far as there are any. */
  function Taken(data: seq<byte>, offset: nat, length: nat): seq<byte> {
    Front(data[Min(offset, |data|)..], length)
  }

  /** A host read's answer: a true slice, cut where the bytes taken stop being whole
      characters, and empty only at the end. */
  ghost predicate Reads(data: seq<byte>, offset: nat, length: nat, c: Chunk) {
    && SliceOf(data, c) && c.offset == Min(offset, |data|)
    && Keeps(Taken(data, offset, length), |c.content|)
    && (offset < |data| ==> c.content != [])
  }

  /** `n` bytes of a slice are kept: whole characters, followed by nothing or by a
      character cut short. */
  ghost predicate Keeps(slice: seq<byte>, n: nat) {
    n <= |slice| && IsText(slice[..n]) && (n == |slice| || IsPartial(slice[n..]))
  }

  lemma TextThenChar(s: seq<byte>, n: nat, m: nat)
    requires n < m <= |s| && IsText(s[..n]) && IsText(s[..m])
    ensures StartsChar(s[n..])
  {
    var p := s[..m];
    assert p[..n] == s[..n];
    RestIsText(p, n);
    var w := Width(p[n..][0]);
    assert p[n..][0] == s[n..][0];
    assert p[n..][..w] == s[n..][..w];
  }

  /** The decoder's answer settles how much of a slice can be kept. */
  lemma DecodesKeeps(s: seq<byte>, r: Scan, n: nat)
    requires Decodes(s, r)
    ensures Keeps(s, n) <==> match r case Whole => n == |s| case Cut(good) => n == good case Broken => false
  {
    assert s[..|s|] == s;
    match r
    case Whole => if n < |s| && Keeps(s, n) { TextThenChar(s, n, |s|); }
    case Cut(good) =>
      if Keeps(s, n) && n < good { TextThenChar(s, n, good); }
      if Keeps(s, n) && good < n { TextThenChar(s, good, n); }
    case Broken =>
      var bad: nat :| bad < |s| && IsText(s[..bad]) && !StartsChar(s[bad..]) && !IsPartial(s[bad..]);
      if Keeps(s, n) && n < bad { TextThenChar(s, n, bad); }
      if Keeps(s, n) && bad < n { TextThenChar(s, bad, n); }
  }

  lemma ScanKeeps(s: seq<byte>, r: Scan)
    requires Decodes(s, r)
    ensures (exists n: nat :: n > 0 && Keeps(s, n)) <==>
            match r case Whole => s != [] case Cut(good) => good > 0 case Broken => false
    ensures r.Whole? ==> Keeps(s, |s|)
    ensures r.Cut? ==> Keeps(s, r.good) && r.good < |s|
  {
    forall n: nat
      ensures Keeps(s, n) <==> match r case Whole => n == |s| case Cut(good) => n == good case Broken => false
    {
      DecodesKeeps(s, r, n);
    }
    if r.Whole? { assert Keeps(s, |s|); }
    if r.Cut? { assert Keeps(s, r.good); }
  }

  /** What is kept of the front of a text ends at its last boundary there. */
  lemma KeptEnds(rest: seq<byte>, m: nat, n: nat)
    requires IsText(rest) && m <= |rest| && Keeps(rest[..m], n)
    ensures Boundary(rest, n) && forall k: nat :: n < k <= m ==> !Boundary(rest, k)
  {
    assert rest[..m][..n] == rest[..n];
    RestIsText(rest, n);
    TextSplits(rest, n);
    if n < m {
      NextChar(rest, n);
      assert rest[..m][n..][0] == rest[n];
    }
  }

  lemma BoundaryShifts(data: seq<byte>, start: nat, k: nat)
    requires Boundary(data, start) && start + k <= |data|
    ensures Boundary(data[start..], k) <==> Boundary(data, start + k)
  {
    assert start + k < |data| ==> data[start..][k] == data[start + k];
  }

  lemma KeptInPlace(data: seq<byte>, start: nat, m: nat, n: nat)
    requires IsText(data) && start + m <= |data| && Boundary(data, start) && Keeps(data[start..][..m], n)
    ensures Boundary(data, start + n) && forall k: nat :: start + n < k <= start + m ==> !Boundary(data, k)
  {
    assert IsText(data[start..]) by { TextSplits(data, start); }
    assert Boundary(data[start..], n) && forall k: nat :: n < k <= m ==> !Boundary(data[start..], k) by {
      KeptEnds(data[start..], m, n);
    }
    BoundaryShifts(data, start, n);
    forall k: nat | start + n < k <= start + m ensures !Boundary(data, k) { BoundaryShifts(data, start, k - start); }
  }

  lemma TakenIs(data: seq<byte>, offset: nat, length: nat)
    requires offset <= |data|
    ensures Taken(data, offset, length) == data[offset..][..Min(length, |data| - offset)]
    ensures offset < |data| ==> data[offset..] != [] && data[offset..][0] == data[offset]
    ensures |data[offset..]| == |data| - offset
  {
  }

  lemma EndsWindow(data: seq<byte>, offset: nat, length: nat, n: nat)
    requires offset + n <= |data| && n <= length && Boundary(data, offset + n)
    requires forall k: nat :: offset + n < k <= offset + Min(length, |data| - offset) ==> !Boundary(data, k)
    ensures IsWindow(data, offset, length, data[offset..offset + n])
  {
  }

  /** What a read at a boundary of a text keeps is the longest window there. */
  lemma KeptIsWindow(data: seq<byte>, offset: nat, length: nat, c: Chunk)
    requires IsText(data) && offset <= |data| && Boundary(data, offset) && Reads(data, offset, length, c)
    ensures IsWindow(data, offset, length, c.content)
  {
    var n := |c.content|;
    assert Keeps(data[offset..][..Min(length, |data| - offset)], n) by { TakenIs(data, offset, length); }
    assert Boundary(data, offset + n)
           && forall k: nat :: offset + n < k <= offset + Min(length, |data| - offset) ==> !Boundary(data, k) by {
      KeptInPlace(data, offset, Min(length, |data| - offset), n);
    }
    EndsWindow(data, offset, length, n);
  }

  /** Decode a slice and drop a character cut short. */
  method Trim(slice: seq<byte>) returns (r: Option<nat>)
    ensures r.Some? ==> Keeps(slice, r.value)
    ensures forall n: nat :: Keeps(slice, n) ==> r == Some(n)
  {
    var scan := Decode(slice);
    forall n: nat | Keeps(slice, n)
      ensures match scan case Whole => n == |slice| case Cut(good) => n == good case Broken => false
    {
      DecodesKeeps(slice, scan, n);
    }
    ScanKeeps(slice, scan);
    match scan {
      case Whole => return Some(|slice|);
      case Cut(n) => return Some(n);
      case Broken => return None;
    }
  }

  /** `LocalHost::read`: take the bytes asked for and trim a character cut short. */
  method HostRead(data: seq<byte>, offset: nat, length: nat) returns (r: Result<Chunk>)
    ensures r.Ok? ==> Reads(data, offset, length, r.value)
    ensures r.Ok? <==> Readable(data, offset, length)
    ensures r.Err? ==> r == Err(Invalid)
  {
    var start := Min(offset, |data|);
    var slice := Taken(data, offset, length);
    var kept := Trim(slice);
    if slice == [] { assert Keeps(slice, 0); }
    if kept.None? || (kept.value == 0 && start < |data|) { return Err(Invalid); }
    TakenPart(data, offset, length, kept.value);
    return Ok(Chunk(slice[..kept.value], start, start + kept.value == |data|));
  }

  /** A read is answered past the end, and wherever some character can be kept. */
  ghost predicate Readable(data: seq<byte>, offset: nat, length: nat) {
    offset >= |data| || exists n: nat :: n > 0 && Keeps(Taken(data, offset, length), n)
  }

  lemma TakeTwice(s: seq<byte>, m: nat, n: nat)
    requires n <= m <= |s|
    ensures s[..m][..n] == s[..n]
  {
  }

  lemma TakenPart(data: seq<byte>, offset: nat, length: nat, n: nat)
    requires n <= |Taken(data, offset, length)|
    ensures var start := Min(offset, |data|);
            start + n <= |data| && Taken(data, offset, length)[..n] == data[start..start + n]
  {
    var start := Min(offset, |data|);
    TakeOfDrop(data, start, start + n);
    TakeTwice(data[start..], Min(length, |data| - start), n);
  }

  /** The characters that fit in the front of a text are kept; the first is among
      them exactly when it fits. */
  lemma {:induction false} SomeKept(rest: seq<byte>, m: nat) returns (n: nat)
    requires IsText(rest) && m <= |rest|
    ensures Keeps(rest[..m], n)
    ensures rest != [] && Width(rest[0]) <= m ==> n > 0
    decreases m
  {
    n := 0;
    if m > 0 {
      var w := Width(rest[0]);
      CutStarts(rest, m);
      if w <= m {
        var more := SomeKept(rest[w..], m - w);
        n := w + more;
        KeptAfter(rest, m, more);
      } else {
        assert rest[..m][0..] == rest[..m] && rest[..m][0] == rest[0];
      }
    }
  }

  lemma KeptAfter(rest: seq<byte>, m: nat, n: nat)
    requires StartsChar(rest) && Width(rest[0]) <= m <= |rest| && Keeps(rest[Width(rest[0])..][..m - Width(rest[0])], n)
    ensures Keeps(rest[..m], Width(rest[0]) + n)
  {
    var w, s := Width(rest[0]), rest[..m];
    assert rest[w..][..m - w] == s[w..];
    CutStarts(rest, m);
    assert s[..w + n][..w] == s[..w] && s[..w + n][w..] == s[w..][..n];
    assert s[w..][n..] == s[w + n..];
    assert StartsChar(s[..w + n]);
  }

  lemma FirstKept(rest: seq<byte>, m: nat)
    requires IsText(rest) && rest != [] && m <= |rest|
    ensures (exists n: nat :: n > 0 && Keeps(rest[..m], n)) <==> Width(rest[0]) <= m
  {
    var n := SomeKept(rest, m);
    NextChar(rest, 0);
    forall k: nat | k > 0 && Keeps(rest[..m], k) ensures Width(rest[0]) <= m { KeptEnds(rest, m, k); }
  }

  lemma TailKeepsNothing(rest: seq<byte>, m: nat, n: nat)
    requires rest != [] && IsTail(rest[0]) && m <= |rest| && n > 0
    ensures !Keeps(rest[..m], n)
  {
    if n <= m { assert rest[..m][..n][0] == rest[0]; }
  }

  lemma BoundaryReadable(data: seq<byte>, offset: nat, length: nat)
    requires IsText(data) && offset < |data| && Boundary(data, offset)
    ensures Readable(data, offset, length) <==> Width(data[offset]) <= length
  {
    TakenIs(data, offset, length);
    NextChar(data, offset);
    assert IsText(data[offset..]) by { TextSplits(data, offset); }
    FirstKept(data[offset..], Min(length, |data| - offset));
  }

  lemma InsideUnreadable(data: seq<byte>, offset: nat, length: nat)
    requires offset < |data| && IsTail(data[offset])
    ensures !Readable(data, offset, length)
  {
    TakenIs(data, offset, length);
    forall n: nat | n > 0 ensures !Keeps(Taken(data, offset, length), n) {
      TailKeepsNothing(data[offset..], Min(length, |data| - offset), n);
    }
  }

  /** Inside a text a read is answered at the boundaries where the next character
      fits, and nowhere else. */
  lemma TextReadable(data: seq<byte>, offset: nat, length: nat)
    requires IsText(data) && offset < |data|
    ensures Readable(data, offset, length) <==> Boundary(data, offset) && Width(data[offset]) <= length
  {
    if Boundary(data, offset) { BoundaryReadable(data, offset, length); } else {
      InsideUnreadable(data, offset, length);
    }
  }

  // --------------------------------------------------------- snapshot reads

  predicate CanReread(c: Chunk, offset: nat, length: nat) {
    && c.offset <= offset <= c.offset + |c.content| && Boundary(c.content, offset - c.offset)
    && if offset == c.offset + |c.content| then c.eof else Width(c.content[offset - c.offset]) <= length
  }

  /** A read answered from a retained chunk: the longest window inside it. */
  ghost predicate Rereads(c: Chunk, offset: nat, length: nat, d: Chunk) {
    && d.offset == offset >= c.offset
    && IsWindow(c.content, offset - c.offset, length, d.content) && IsText(d.content)
    && (d.eof <==> c.eof && offset + |d.content| == c.offset + |c.content|)
  }

  /** Reading again from a retained chunk instead of the artifact. */
  method Reread(c: Chunk, offset: nat, length: nat) returns (r: Result<Chunk>)
    requires IsText(c.content)
    ensures r.Ok? ==> Rereads(c, offset, length, r.value)
    ensures r.Ok? <==> CanReread(c, offset, length)
    ensures r.Err? ==> r == Err(Invalid)
  {
    if offset < c.offset { return Err(Invalid); }
    var start := offset - c.offset;
    if start > |c.content| || (start == |c.content| && !c.eof) { return Err(Invalid); }
    var text := Utf8Window(c.content, start, length);
    if text.Err? { return Err(Invalid); }
    return Ok(Chunk(text.value, offset, c.eof && start + |text.value| == |c.content|));
  }

  /** A read of a slice is a slice of the same artifact, with a true end mark. */
  lemma RereadSlices(data: seq<byte>, c: Chunk, offset: nat, length: nat, d: Chunk)
    requires SliceOf(data, c) && Rereads(c, offset, length, d)
    ensures SliceOf(data, d)
  {
    PartAt(data, c.content, c.offset, d.content, d.offset);
  }

  lemma PartAt(data: seq<byte>, c: seq<byte>, from: nat, d: seq<byte>, start: nat)
    requires from + |c| <= |data| && c == data[from..from + |c|]
    requires from <= start && start - from + |d| <= |c| && d == c[start - from..start - from + |d|]
    ensures start + |d| <= |data| && d == data[start..start + |d|]
  {
    PartOfPart(data, from, from + |c|, start - from, start - from + |d|);
  }

  datatype Ask = Ask(offset: nat, length: nat)

  /** The first chunk answers a read of the artifact, each later one a read of the
      chunk before it. */
  ghost predicate Chain(data: seq<byte>, asks: seq<Ask>, chunks: seq<Chunk>) {
    && |chunks| == |asks|
    && (asks != [] ==> Reads(data, asks[0].offset, asks[0].length, chunks[0]))
    && forall k {:trigger chunks[k]} :: 0 < k < |chunks| ==>
       Rereads(chunks[k - 1], asks[k].offset, asks[k].length, chunks[k])
  }

  /** Every chunk of any chain is a slice of the original at its stated offset, and
      claims the end exactly when it reaches the original's end. */
  lemma {:induction false} ChainSlices(data: seq<byte>, asks: seq<Ask>, chunks: seq<Chunk>, k: nat)
    requires Chain(data, asks, chunks) && k < |chunks|
    ensures SliceOf(data, chunks[k])
  {
    if k > 0 {
      ChainSlices(data, asks, chunks, k - 1);
      RereadSlices(data, chunks[k - 1], asks[k].offset, asks[k].length, chunks[k]);
    }
  }

  /** Whether the next read of a chain is answered. */
  ghost predicate Answered(data: seq<byte>, chunks: seq<Chunk>, a: Ask) {
    if chunks == [] then Readable(data, a.offset, a.length)
    else CanReread(chunks[|chunks| - 1], a.offset, a.length)
  }

  lemma ChainMore(data: seq<byte>, asks: seq<Ask>, chunks: seq<Chunk>, a: Ask, d: Chunk)
    requires Chain(data, asks, chunks)
    requires if chunks == [] then Reads(data, a.offset, a.length, d)
             else Rereads(chunks[|chunks| - 1], a.offset, a.length, d)
    ensures Chain(data, asks + [a], chunks + [d])
  {
  }

  method ReadNext(data: seq<byte>, ghost asks: seq<Ask>, chunks: seq<Chunk>, a: Ask) returns (r: Result<Chunk>)
    requires Chain(data, asks, chunks)
    ensures r.Ok? <==> Answered(data, chunks, a)
    ensures r.Ok? ==> Chain(data, asks + [a], chunks + [r.value])
  {
    if chunks == [] {
      r := HostRead(data, a.offset, a.length);
    } else {
      ChainSlices(data, asks, chunks, |chunks| - 1);
      r := Reread(chunks[|chunks| - 1], a.offset, a.length);
    }
    if r.Ok? { ChainMore(data, asks, chunks, a, r.value); }
  }

  /** A read of the artifact followed by reads of what it returned, up to the first
      that is refused. */
  method ReadChain(data: seq<byte>, asks: seq<Ask>) returns (chunks: seq<Chunk>)
    ensures |chunks| <= |asks| && Chain(data, asks[..|chunks|], chunks)
    ensures |chunks| < |asks| ==> !Answered(data, chunks, asks[|chunks|])
  {
    chunks := [];
    for k := 0 to |asks|
      invariant |chunks| == k && Chain(data, asks[..k], chunks)
    {
      var next := ReadNext(data, asks[..k], chunks, asks[k]);
      if next.Err? { return; }
      assert asks[..k + 1] == asks[..k] + [asks[k]];
      chunks := chunks + [next.value];
    }
  }
}
