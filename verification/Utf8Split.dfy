/** UTF-8 text and the byte-bounded split used for assistant deltas and host posts. */
module Utf8Split {

  type Byte = b: int | 0 <= b < 256 witness 0
  type Bytes = seq<Byte>

  const MAX_DELTA_TEXT_BYTES: nat := 10000

  /** Not a continuation byte: the two high bits are not 10. */
  predicate RuneStart(b: Byte) {
    !(0x80 <= b < 0xC0)
  }

  predicate Tail(b: Byte) {
    0x80 <= b < 0xC0
  }

  /** Length of the well-formed character that s starts with (RFC 3629, sections 3 and 4); 0 when there is none. */
  function RuneLen(s: Bytes): (n: nat)
    ensures n <= 4 && n <= |s|
    ensures n > 0 ==> RuneStart(s[0]) && forall i :: 1 <= i < n ==> !RuneStart(s[i])
  {
    if |s| >= 1 && s[0] <= 0x7F then 1
    else if |s| >= 2 && 0xC2 <= s[0] <= 0xDF && Tail(s[1]) then 2
    else if |s| >= 3 && ThreeByteHead(s[0], s[1]) && Tail(s[2]) then 3
    else if |s| >= 4 && FourByteHead(s[0], s[1]) && Tail(s[2]) && Tail(s[3]) then 4
    else 0
  }

  /** Excludes overlong forms and the surrogate range. */
  predicate ThreeByteHead(a: Byte, b: Byte) {
    || (a == 0xE0 && 0xA0 <= b <= 0xBF)
    || (0xE1 <= a <= 0xEC && Tail(b))
    || (a == 0xED && 0x80 <= b <= 0x9F)
    || (0xEE <= a <= 0xEF && Tail(b))
  }

  /** Excludes overlong forms and code points above U+10FFFF. */
  predicate FourByteHead(a: Byte, b: Byte) {
    || (a == 0xF0 && 0x90 <= b <= 0xBF)
    || (0xF1 <= a <= 0xF3 && Tail(b))
    || (a == 0xF4 && 0x80 <= b <= 0x8F)
  }

  predicate ValidUtf8(s: Bytes) {
    s == [] || (RuneLen(s) > 0 && ValidUtf8(s[RuneLen(s)..]))
  }

  /** Cutting valid text at a rune start leaves valid text on both sides. */
  lemma {:induction false} CutAtRuneStart(s: Bytes, i: nat)
    requires ValidUtf8(s) && i < |s| && RuneStart(s[i])
    ensures ValidUtf8(s[..i]) && ValidUtf8(s[i..])
  {
    if i == 0 {
      assert s[0..] == s;
    } else {
      var n := RuneLen(s);
      assert n <= i;
      CutAtRuneStart'(s, i, n);
    }
  }

  lemma {:induction false} CutAtRuneStart'(s: Bytes, i: nat, n: nat)
    requires ValidUtf8(s) && 0 < n <= i < |s| && n == RuneLen(s) && RuneStart(s[i])
    ensures ValidUtf8(s[..i]) && ValidUtf8(s[i..])
    decreases |s|
  {
    var rest := s[n..];
    if i == n {
      assert s[..i][RuneLen(s[..i])..] == [];
    } else {
      var m := RuneLen(rest);
      assert rest[i - n] == s[i];
      assert m <= i - n;
      CutAtRuneStart'(rest, i - n, m);
      assert s[..i][n..] == rest[..i - n];
      assert s[i..] == rest[i - n..];
      assert RuneLen(s[..i]) == n;
    }
  }

  lemma RuneLenPrefix(a: Bytes, b: Bytes)
    requires RuneLen(a) > 0
    ensures RuneLen(a + b) == RuneLen(a)
  {
  }

  lemma ConcatRest(a: Bytes, b: Bytes, n: nat)
    requires n <= |a|
    ensures (a + b)[n..] == a[n..] + b
  {
  }

  lemma ValidStep(s: Bytes, n: nat, rest: Bytes)
    requires 0 < n == RuneLen(s) && rest == s[n..] && ValidUtf8(rest)
    ensures ValidUtf8(s)
  {
  }

  lemma {:induction false} ConcatValid(a: Bytes, b: Bytes)
    requires ValidUtf8(a) && ValidUtf8(b)
    ensures ValidUtf8(a + b)
    decreases |a|
  {
    if a == [] {
      assert a + b == b;
    } else {
      var n, rest := RuneLen(a), a[RuneLen(a)..];
      ConcatValid(rest, b);
      RuneLenPrefix(a, b);
      ConcatRest(a, b, n);
      ValidStep(a + b, n, rest + b);
    }
  }

  /** Backs up from position e to the nearest rune start, or to 0. */
  function BackUp(s: Bytes, e: nat): (cut: nat)
    requires e < |s|
    ensures cut <= e
    ensures cut > 0 ==> RuneStart(s[cut])
    ensures forall i :: cut < i <= e ==> !RuneStart(s[i])
  {
    if e > 0 && !RuneStart(s[e]) then BackUp(s, e - 1) else e
  }

  /** The length of the first chunk of an over-long text; the unadjusted stride when backing up finds no rune start. */
  function FirstCut(s: Bytes, max: nat): (cut: nat)
    requires 0 < max < |s|
    ensures 0 < cut <= max
  {
    var e := BackUp(s, max);
    if e == 0 then max else e
  }

  function Split(s: Bytes, max: nat): (out: seq<Bytes>)
    requires max > 0
    decreases |s|
  {
    if s == [] then []
    else if |s| <= max then [s]
    else [s[..FirstCut(s, max)]] + Split(s[FirstCut(s, max)..], max)
  }

  function Join(parts: seq<Bytes>): Bytes {
    if parts == [] then [] else parts[0] + Join(parts[1..])
  }

  lemma {:induction false} JoinAppend(parts: seq<Bytes>, last: Bytes)
    ensures Join(parts + [last]) == Join(parts) + last
  {
    if parts == [] {
      assert [last][1..] == [];
    } else {
      JoinAppend(parts[1..], last);
      assert (parts + [last])[1..] == parts[1..] + [last];
      assert parts[0] + (Join(parts[1..]) + last) == parts[0] + Join(parts[1..]) + last;
    }
  }

  /** For every text, valid or not: the chunks are non-empty, bounded and rebuild it byte for byte. */
  lemma {:induction false} SplitRebuilds(s: Bytes, max: nat)
    requires max > 0
    ensures Join(Split(s, max)) == s
    ensures forall i :: 0 <= i < |Split(s, max)| ==> 0 < |Split(s, max)[i]| <= max
    decreases |s|
  {
    if |s| > max {
      var c := FirstCut(s, max);
      SplitRebuilds(s[c..], max);
      assert s == s[..c] + s[c..];
      assert Split(s, max)[1..] == Split(s[c..], max);
    } else if s != [] {
      assert [s][1..] == [];
    }
  }

  /** Valid text is cut only between characters, and every chunk but the last comes within three bytes of the bound. */
  lemma {:induction false} SplitKeepsRunes(s: Bytes, max: nat)
    requires max >= 4 && ValidUtf8(s)
    ensures forall i :: 0 <= i < |Split(s, max)| ==> ValidUtf8(Split(s, max)[i])
    ensures forall i :: 0 <= i < |Split(s, max)| - 1 ==> |Split(s, max)[i]| >= max - 3
    decreases |s|
  {
    if |s| > max {
      var e := BackUp(s, max);
      NearbyRuneStart(s, max);
      assert e > 0;
      var c := FirstCut(s, max);
      assert c == e && RuneStart(s[c]);
      CutAtRuneStart(s, c);
      SplitKeepsRunes(s[c..], max);
    }
  }

  /** In valid text a rune start lies at most three bytes behind any position. */
  lemma {:induction false} NearbyRuneStart(s: Bytes, e: nat)
    requires ValidUtf8(s) && e < |s|
    ensures e - 3 <= BackUp(s, e) <= e && RuneStart(s[BackUp(s, e)])
    decreases |s|
  {
    var n := RuneLen(s);
    if e >= n {
      NearbyRuneStart(s[n..], e - n);
      var b := BackUp(s[n..], e - n);
      assert s[n..][b] == s[n + b];
      assert BackUp(s, e) >= n + b;
      assert RuneStart(s[BackUp(s, e)]);
    }
  }

  lemma SplitFrom(out: seq<Bytes>, s: Bytes, start: nat, cut: nat, max: nat)
    requires max > 0 && start + max < |s|
    requires cut == FirstCut(s[start..], max)
    ensures start + cut <= |s|
    ensures out + Split(s[start..], max) == out + [s[start..start + cut]] + Split(s[start + cut..], max)
  {
    var rest := s[start..];
    assert rest[..cut] == s[start..start + cut];
    assert rest[cut..] == s[start + cut..];
    assert Split(rest, max) == [rest[..cut]] + Split(rest[cut..], max);
  }

  /** The inner loop: back up from the stride, keeping the stride itself when no rune start is found. */
  method NextCut(s: Bytes, start: nat, max: nat) returns (end: nat)
    requires max > 0 && start + max < |s|
    ensures end == start + FirstCut(s[start..], max)
  {
    ghost var rest := s[start..];
    end := start + max;
    while end > start && !RuneStart(s[end])
      invariant start <= end <= start + max
      invariant BackUp(rest, end - start) == BackUp(rest, max)
    {
      assert rest[end - start] == s[end];
      end := end - 1;
    }
    assert rest[end - start] == s[end];
    if end == start {
      end := start + max;
    }
  }

  /** What is left within the bound is the last chunk. */
  lemma SplitLast(out: seq<Bytes>, s: Bytes, start: nat, max: nat)
    requires max > 0 && start <= |s| <= start + max
    ensures out + Split(s[start..], max) == if start < |s| then out + [s[start..]] else out
  {
    if start == |s| {
      assert s[start..] == [] && out + [] == out;
    }
  }

  /** splitDeltaText: the loop builds exactly Split, for every input. */
  method SplitLoop(s: Bytes, max: nat) returns (out: seq<Bytes>)
    requires max > 0
    ensures out == Split(s, max)
  {
    out := [];
    var start := 0;
    assert s[0..] == s;
    while start + max < |s|
      invariant 0 <= start <= |s|
      invariant out + Split(s[start..], max) == Split(s, max)
    {
      var end := NextCut(s, start, max);
      SplitFrom(out, s, start, end - start, max);
      out := out + [s[start..end]];
      start := end;
    }
    SplitLast(out, s, start, max);
    if start < |s| {
      out := out + [s[start..]];
    }
  }

  /** The chunks rebuild the text, are non-empty and bounded, and cut valid text only between characters. */
  method SplitDeltaText(s: Bytes, max: nat) returns (out: seq<Bytes>)
    requires max > 0
    ensures out == Split(s, max)
    ensures Join(out) == s
    ensures forall i :: 0 <= i < |out| ==> 0 < |out[i]| <= max
    ensures ValidUtf8(s) && max >= 4 ==> forall i :: 0 <= i < |out| ==> ValidUtf8(out[i])
  {
    out := SplitLoop(s, max);
    SplitRebuilds(s, max);
    if ValidUtf8(s) && max >= 4 {
      SplitKeepsRunes(s, max);
    }
  }
}
