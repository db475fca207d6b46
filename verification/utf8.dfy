/** UTF-8 as section 3 of RFC 3629 defines it, and the byte arithmetic done on it. */
module Utf8 {

  type Byte = b: int | 0 <= b < 0x100

  type Rune = c: int | (0 <= c < 0xD800) || (0xE000 <= c < 0x110000)

  function Encode(c: Rune): (bytes: seq<Byte>)
    ensures 1 <= |bytes| <= 4
  {
    if c < 0x80 then [c]
    else if c < 0x800 then [0xC0 + c / 0x40, 0x80 + c % 0x40]
    else if c < 0x10000 then [0xE0 + c / 0x1000, 0x80 + c / 0x40 % 0x40, 0x80 + c % 0x40]
    else [0xF0 + c / 0x40000, 0x80 + c / 0x1000 % 0x40, 0x80 + c / 0x40 % 0x40, 0x80 + c % 0x40]
  }

  function Text(runes: seq<Rune>): seq<Byte> {
    if runes == [] then [] else Encode(runes[0]) + Text(runes[1..])
  }

  predicate Continuation(b: Byte) {
    0x80 <= b < 0xC0
  }

  // ---------------------------------------------------------------- decoding any bytes

  predicate Between(b: Byte, low: int, high: int) {
    low <= b <= high
  }

  /** How many bytes the first rune of the bytes takes; a byte that starts no valid sequence counts as
      one replacement rune. */
  function Width(s: seq<Byte>): (n: nat)
    requires s != []
    ensures 1 <= n <= |s|
  {
    var a := s[0];
    if a < 0x80 then 1
    else if |s| >= 2 && Between(a, 0xC2, 0xDF) && Continuation(s[1]) then 2
    else if
      && |s| >= 3 && Between(a, 0xE0, 0xEF) && Continuation(s[2])
      && Between(s[1], if a == 0xE0 then 0xA0 else 0x80, if a == 0xED then 0x9F else 0xBF) then 3
    else if
      && |s| >= 4 && Between(a, 0xF0, 0xF4) && Continuation(s[2]) && Continuation(s[3])
      && Between(s[1], if a == 0xF0 then 0x90 else 0x80, if a == 0xF4 then 0x8F else 0xBF) then 4
    else 1
  }

  /** The length of the bytes as runes. */
  function RuneCount(s: seq<Byte>): nat {
    if s == [] then 0 else 1 + RuneCount(s[Width(s)..])
  }

  lemma EncodedWidth(c: Rune, rest: seq<Byte>)
    ensures Width(Encode(c) + rest) == |Encode(c)|
    ensures !Continuation(Encode(c)[0])
    ensures forall k :: 0 < k < |Encode(c)| ==> Continuation(Encode(c)[k])
  {
  }

  lemma {:induction false} CountOfText(runes: seq<Rune>)
    ensures RuneCount(Text(runes)) == |runes|
  {
    if runes != [] {
      CountOfText(runes[1..]);
      EncodedWidth(runes[0], Text(runes[1..]));
      assert Text(runes)[|Encode(runes[0])|..] == Text(runes[1..]);
    }
  }

  /** The rune whose encoding the first bytes are, when they are more than one. */
  function Decoded(s: seq<Byte>): int
    requires s != []
  {
    var n, a: int := Width(s), s[0];
    var b: int, c: int, d: int := if n > 1 then s[1] else 0, if n > 2 then s[2] else 0, if n > 3 then s[3] else 0;
    if n == 2 then (a - 0xC0) * 0x40 + (b - 0x80)
    else if n == 3 then ((a - 0xE0) * 0x40 + (b - 0x80)) * 0x40 + (c - 0x80)
    else if n == 4 then (((a - 0xF0) * 0x40 + (b - 0x80)) * 0x40 + (c - 0x80)) * 0x40 + (d - 0x80)
    else a
  }

  /** Whatever bytes there are: a sequence counts as one rune of several bytes exactly if they encode one. */
  lemma WidthExactly(s: seq<Byte>)
    requires s != []
    ensures var c, n := Decoded(s), Width(s);
            n > 1 ==> ((0x80 <= c < 0xD800) || (0xE000 <= c < 0x110000)) && s[..n] == Encode(c)
    ensures forall c: Rune :: c >= 0x80 && Encode(c) <= s ==> Width(s) == |Encode(c)|
  {
    if Width(s) == 2 {
      TwoBack(s[0] - 0xC0, s[1] - 0x80);
    } else if Width(s) == 3 {
      ThreeBack(s[0] - 0xE0, s[1] - 0x80, s[2] - 0x80);
    } else if Width(s) == 4 {
      FourBack(s[0] - 0xF0, s[1] - 0x80, s[2] - 0x80, s[3] - 0x80);
    }
    forall c: Rune | c >= 0x80 && Encode(c) <= s ensures Width(s) == |Encode(c)| {
      EncodedWidth(c, s[|Encode(c)|..]);
      assert s == Encode(c) + s[|Encode(c)|..];
    }
  }

  lemma TwoBack(a: int, b: int)
    requires 0 <= b < 0x40
    ensures (a * 0x40 + b) / 0x40 == a && (a * 0x40 + b) % 0x40 == b
  {
  }

  lemma ThreeBack(a: int, b: int, c: int)
    requires 0 <= a && 0 <= b < 0x40 && 0 <= c < 0x40
    ensures var n := (a * 0x40 + b) * 0x40 + c; n / 0x1000 == a && n / 0x40 % 0x40 == b && n % 0x40 == c
  {
    TwoBack(a * 0x40 + b, c);
    TwoBack(a, b);
  }

  lemma FourBack(a: int, b: int, c: int, d: int)
    requires 0 <= a && 0 <= b < 0x40 && 0 <= c < 0x40 && 0 <= d < 0x40
    ensures var n := ((a * 0x40 + b) * 0x40 + c) * 0x40 + d;
            n / 0x40000 == a && n / 0x1000 % 0x40 == b && n / 0x40 % 0x40 == c && n % 0x40 == d
  {
    TwoBack((a * 0x40 + b) * 0x40 + c, d);
    ThreeBack(a, b, c);
  }

  // ---------------------------------------------------------------- boundaries

  /** Where the r-th rune starts. */
  function Start(runes: seq<Rune>, r: nat): nat
    requires r <= |runes|
  {
    |Text(runes[..r])|
  }

  lemma {:induction false} TextSplits(first: seq<Rune>, second: seq<Rune>)
    ensures Text(first + second) == Text(first) + Text(second)
  {
    if first == [] {
      assert first + second == second;
    } else {
      assert (first + second)[1..] == first[1..] + second;
      TextSplits(first[1..], second);
    }
  }

  lemma PrefixOfText(runes: seq<Rune>, r: nat)
    requires r <= |runes|
    ensures Start(runes, r) <= |Text(runes)| && Text(runes)[..Start(runes, r)] == Text(runes[..r])
    ensures Text(runes)[Start(runes, r)..] == Text(runes[r..])
  {
    TextSplits(runes[..r], runes[r..]);
    assert runes == runes[..r] + runes[r..];
  }

  /** Later runes start later, so a boundary names one rune. */
  lemma StartsIncrease(runes: seq<Rune>, q: nat, r: nat)
    requires q < r <= |runes|
    ensures Start(runes, q) < Start(runes, r)
  {
    assert runes[..r] == runes[..q] + runes[q..r];
    TextSplits(runes[..q], runes[q..r]);
  }

  predicate Boundary(runes: seq<Rune>, offset: int) {
    exists r :: 0 <= r <= |runes| && Start(runes, r) == offset
  }

  /** Every byte that does not continue a rune starts one. */
  lemma {:induction false} StartByte(runes: seq<Rune>, offset: nat) returns (r: nat)
    requires offset < |Text(runes)| && !Continuation(Text(runes)[offset])
    ensures r < |runes| && Start(runes, r) == offset
  {
    hide Encode;
    var head, rest := Encode(runes[0]), Text(runes[1..]);
    EncodedWidth(runes[0], rest);
    if offset < |head| {
      assert Text(runes)[offset] == head[offset];
      r := 0;
    } else {
      assert Text(runes)[offset] == rest[offset - |head|];
      var q := StartByte(runes[1..], offset - |head|);
      r := q + 1;
      assert runes[..r][0] == runes[0] && runes[..r][1..] == runes[1..][..q];
    }
  }

  /** And every rune starts with such a byte. */
  lemma BoundaryByte(runes: seq<Rune>, r: nat)
    requires r < |runes|
    ensures Start(runes, r) < |Text(runes)| && !Continuation(Text(runes)[Start(runes, r)])
  {
    PrefixOfText(runes, r);
    assert Text(runes[r..]) == Encode(runes[r]) + Text(runes[r..][1..]);
    EncodedWidth(runes[r], Text(runes[r..][1..]));
    assert Text(runes)[Start(runes, r)] == Text(runes)[Start(runes, r)..][0];
  }

  // ---------------------------------------------------------------- rune indexes for byte offsets

  datatype Index = Found(index: nat) | OutOfRange | Splits

  function RuneIndex(text: seq<Byte>, offset: int): Index {
    if offset < 0 || offset > |text| then OutOfRange
    else if offset != |text| && offset > 0 && Continuation(text[offset]) then Splits
    else Found(RuneCount(text[..offset]))
  }

  /** On valid UTF-8 exactly the code-point boundaries are accepted, and the answer is the one rune that
      starts there. */
  lemma RuneIndexIsBoundary(runes: seq<Rune>, offset: int)
    ensures RuneIndex(Text(runes), offset).Found? <==> Boundary(runes, offset)
    ensures RuneIndex(Text(runes), offset).Found? ==>
              var r := RuneIndex(Text(runes), offset).index;
              && r <= |runes| && Start(runes, r) == offset
              && forall q :: 0 <= q <= |runes| && Start(runes, q) == offset ==> q == r
  {
    hide RuneCount, Text;
    if RuneIndex(Text(runes), offset).Found? {
      var r := BoundaryAt(runes, offset);
      PrefixOfText(runes, r);
      CountOfText(runes[..r]);
      forall q | 0 <= q <= |runes| && Start(runes, q) == offset ensures q == r {
        if q < r {
          StartsIncrease(runes, q, r);
        } else if r < q {
          StartsIncrease(runes, r, q);
        }
      }
    }
    if Boundary(runes, offset) {
      var r :| 0 <= r <= |runes| && Start(runes, r) == offset;
      BoundaryFound(runes, r);
    }
  }

  lemma BoundaryFound(runes: seq<Rune>, r: nat)
    requires r <= |runes|
    ensures RuneIndex(Text(runes), Start(runes, r)).Found?
  {
    PrefixOfText(runes, r);
    if r < |runes| {
      BoundaryByte(runes, r);
    } else {
      assert runes[..r] == runes;
    }
  }

  lemma BoundaryAt(runes: seq<Rune>, offset: nat) returns (r: nat)
    requires offset <= |Text(runes)|
    requires offset == |Text(runes)| || offset == 0 || !Continuation(Text(runes)[offset])
    ensures r <= |runes| && Start(runes, r) == offset
  {
    if offset == |Text(runes)| {
      r := |runes|;
      assert runes[..r] == runes;
    } else if offset == 0 {
      r := 0;
    } else {
      r := StartByte(runes, offset);
    }
  }

  /** Offsets in order give indexes in order, strictly so, and never beyond the text. */
  lemma RuneIndexMonotone(runes: seq<Rune>, start: int, end: int)
    requires RuneIndex(Text(runes), start).Found? && RuneIndex(Text(runes), end).Found?
    ensures var s, e := RuneIndex(Text(runes), start).index, RuneIndex(Text(runes), end).index;
            (s <= e <==> start <= end) && (s == e <==> start == end) && e <= RuneCount(Text(runes))
  {
    hide RuneIndex, Text;
    RuneIndexIsBoundary(runes, start);
    RuneIndexIsBoundary(runes, end);
    CountOfText(runes);
    var s, e := RuneIndex(Text(runes), start).index, RuneIndex(Text(runes), end).index;
    if s < e {
      StartsIncrease(runes, s, e);
    } else if e < s {
      StartsIncrease(runes, e, s);
    }
  }

  // ---------------------------------------------------------------- error messages cut to size

  const MAX_MESSAGE: nat := 4096

  /** U+2026, the ellipsis. */
  const ELLIPSIS: Rune := 0x2026

  function TrimLeft(space: Rune -> bool, runes: seq<Rune>): seq<Rune> {
    if runes != [] && space(runes[0]) then TrimLeft(space, runes[1..]) else runes
  }

  function TrimRight(space: Rune -> bool, runes: seq<Rune>): seq<Rune> {
    if runes != [] && space(runes[|runes| - 1]) then TrimRight(space, runes[..|runes| - 1]) else runes
  }

  function Trim(space: Rune -> bool, runes: seq<Rune>): seq<Rune> {
    TrimRight(space, TrimLeft(space, runes))
  }

  lemma {:induction false} TrimmedShorter(space: Rune -> bool, runes: seq<Rune>)
    ensures |Text(Trim(space, runes))| <= |Text(runes)|
  {
    var left := TrimLeftSuffix(space, runes);
    var t := TrimLeft(space, runes);
    var right := TrimRightPrefix(space, t);
    TextSplits(left, t);
    TextSplits(TrimRight(space, t), right);
  }

  lemma {:induction false} TrimLeftSuffix(space: Rune -> bool, runes: seq<Rune>) returns (gone: seq<Rune>)
    ensures runes == gone + TrimLeft(space, runes)
  {
    if runes != [] && space(runes[0]) {
      gone := TrimLeftSuffix(space, runes[1..]);
      gone := [runes[0]] + gone;
    } else {
      gone := [];
    }
  }

  lemma {:induction false} TrimRightPrefix(space: Rune -> bool, runes: seq<Rune>) returns (gone: seq<Rune>)
    ensures runes == TrimRight(space, runes) + gone
  {
    if runes != [] && space(runes[|runes| - 1]) {
      var init := runes[..|runes| - 1];
      gone := TrimRightPrefix(space, init);
      gone := gone + [runes[|runes| - 1]];
    } else {
      gone := [];
    }
  }

  /** The backward search for the start of a rune. */
  method Cut(text: seq<Byte>, limit: nat) returns (cut: nat)
    requires limit < |text|
    ensures cut <= limit && (cut > 0 ==> !Continuation(text[cut]))
    ensures forall k :: cut < k <= limit ==> Continuation(text[k])
  {
    cut := limit;
    while cut > 0 && Continuation(text[cut])
      invariant cut <= limit
      invariant forall k :: cut < k <= limit ==> Continuation(text[k])
    {
      cut := cut - 1;
    }
  }

  /** A cut found so lies between two runes, takes all runes that fit, and wastes at most three bytes. */
  lemma CutBetweenRunes(runes: seq<Rune>, limit: nat, cut: nat)
    requires cut <= limit < |Text(runes)| && (cut > 0 ==> !Continuation(Text(runes)[cut]))
    requires forall k :: cut < k <= limit ==> Continuation(Text(runes)[k])
    ensures var r := RuneCount(Text(runes)[..cut]);
            && r < |runes| && Start(runes, r) == cut && limit - cut <= 3
            && forall q :: 0 <= q <= |runes| && Start(runes, q) <= limit ==> q <= r
  {
    hide Text;
    var r := BoundaryAt(runes, cut);
    assert runes[..|runes|] == runes;
    PrefixOfText(runes, r);
    CountOfText(runes[..r]);
    NextStart(runes, r);
    if r + 1 < |runes| {
      BoundaryByte(runes, r + 1);
    } else {
      assert runes[..r + 1] == runes;
    }
    forall q | r < q <= |runes| ensures Start(runes, q) > limit {
      if q > r + 1 {
        StartsIncrease(runes, r + 1, q);
      }
    }
  }

  lemma NextStart(runes: seq<Rune>, r: nat)
    requires r < |runes|
    ensures Start(runes, r) < Start(runes, r + 1) <= Start(runes, r) + 4
  {
    assert runes[..r + 1] == runes[..r] + [runes[r]];
    TextSplits(runes[..r], [runes[r]]);
    assert Text([runes[r]]) == Encode(runes[r]) + Text([]);
  }

  /** `r` runes are as many as fit into the limit. */
  ghost predicate Fills(runes: seq<Rune>, r: nat, limit: nat) {
    && r <= |runes| && Start(runes, r) <= limit <= Start(runes, r) + 3
    && forall q :: 0 <= q <= |runes| && Start(runes, q) <= limit ==> q <= r
  }

  /** Messages are shown trimmed, and cut when too long: never inside a rune, as late as the limit allows,
      and marked with an ellipsis. The result is valid UTF-8 again and keeps the bound. */
  method PublicErrorMessage(space: Rune -> bool, message: seq<Rune>) returns (shown: seq<Rune>, kept: nat)
    ensures var t := Trim(space, message);
            && (|Text(t)| <= 4096 ==> shown == t)
            && (|Text(t)| > 4096 ==>
                  Fills(t, kept, 4096) && shown == Trim(space, t[..kept]) + [ELLIPSIS])
    ensures |Text(shown)| <= 4099
  {
    hide Encode, TrimLeft, TrimRight, RuneCount;
    var t := Trim(space, message);
    var text := Text(t);
    if |text| <= MAX_MESSAGE { return t, |t|; }
    var cut := Cut(text, MAX_MESSAGE);
    CutBetweenRunes(t, MAX_MESSAGE, cut);
    kept := RuneCount(text[..cut]);
    PrefixOfText(t, kept);
    shown := Trim(space, t[..kept]) + [ELLIPSIS];
    TrimmedShorter(space, t[..kept]);
    TextSplits(Trim(space, t[..kept]), [ELLIPSIS]);
    EllipsisLength();
  }

  lemma EllipsisLength()
    ensures |Text([ELLIPSIS])| == 3
  {}
}
