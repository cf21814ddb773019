/** Untrusted display names made safe for one line of the prompt window, as byte strings. */
module Neutralizer {
  import opened Wrappers

  const SPACE: Byte := 0x20
  const NEWLINE: Byte := 0x0A
  /** `kMaxBytes` */
  const MAX_BYTES: nat := 128
  /** U+2026 HORIZONTAL ELLIPSIS */
  const ELLIPSIS: seq<Byte> := [0xE2, 0x80, 0xA6]
  /** Two spaces, U+2022 BULLET, a space. */
  const BULLET: seq<Byte> := [0x20, 0x20, 0xE2, 0x80, 0xA2, 0x20]

  /** The line separators and the bidirectional controls, in the order they are
      collapsed. */
  const SEPARATORS: seq<seq<Byte>> := [
    [0xE2, 0x80, 0xA8], [0xE2, 0x80, 0xA9], [0xC2, 0x85],
    [0xE2, 0x80, 0x8E], [0xE2, 0x80, 0x8F],
    [0xE2, 0x80, 0xAA], [0xE2, 0x80, 0xAB], [0xE2, 0x80, 0xAC], [0xE2, 0x80, 0xAD], [0xE2, 0x80, 0xAE],
    [0xE2, 0x81, 0xA6], [0xE2, 0x81, 0xA7], [0xE2, 0x81, 0xA8], [0xE2, 0x81, 0xA9]]

  // ---- bytes and words ----------------------------------------------------

  predicate IsControl(b: Byte) { b < 0x20 || b == 0x7F }

  /** `(b & 0xC0) == 0x80` */
  predicate IsContinuation(b: Byte) { 0x80 <= b < 0xC0 }

  predicate At(s: seq<Byte>, i: int, w: seq<Byte>) {
    0 <= i && i + |w| <= |s| && s[i..i + |w|] == w
  }

  predicate Contains(s: seq<Byte>, w: seq<Byte>) {
    exists i | 0 <= i <= |s| :: At(s, i, w)
  }

  // ---- what the three passes compute -------------------------------------

  function Blank(s: seq<Byte>): (r: seq<Byte>)
    ensures |r| == |s|
    ensures forall i | 0 <= i < |s| :: r[i] == if IsControl(s[i]) then SPACE else s[i]
  {
    seq(|s|, i requires 0 <= i < |s| => if IsControl(s[i]) then SPACE else s[i])
  }

  /** Every occurrence of `w`, found from the left, becomes one space. */
  function Collapse(s: seq<Byte>, w: seq<Byte>): seq<Byte>
    requires w != []
    decreases |s|
  {
    if s == [] then []
    else if At(s, 0, w) then [SPACE] + Collapse(s[|w|..], w)
    else [s[0]] + Collapse(s[1..], w)
  }

  function CollapseAll(s: seq<Byte>, ws: seq<seq<Byte>>): seq<Byte>
    requires forall i | 0 <= i < |ws| :: ws[i] != []
    decreases |ws|, |s|
  {
    if ws == [] then s else CollapseAll(Collapse(s, ws[0]), ws[1..])
  }

  /** The last position at or before `cut` that does not start inside a code
      point. */
  function Boundary(s: seq<Byte>, cut: nat): (k: nat)
    requires cut < |s|
    ensures k <= cut
    ensures k == 0 || !IsContinuation(s[k])
    ensures forall i | k < i <= cut :: IsContinuation(s[i])
    decreases |s|, cut
  {
    if cut > 0 && IsContinuation(s[cut]) then Boundary(s, cut - 1) else cut
  }

  function Elide(s: seq<Byte>): seq<Byte> {
    if |s| > MAX_BYTES then s[..Boundary(s, MAX_BYTES)] + ELLIPSIS else s
  }

  function Clean(s: seq<Byte>): seq<Byte> {
    CollapseAll(Blank(s), SEPARATORS)
  }

  function Neutralized(s: seq<Byte>): seq<Byte> {
    Elide(Clean(s))
  }

  // ---- the code ----------------------------------------------------------

  /** `std::string::find` */
  method Find(s: seq<Byte>, w: seq<Byte>, from: nat) returns (found: bool, pos: nat)
    requires w != [] && from <= |s|
    ensures found ==> from <= pos && At(s, pos, w) && forall i | from <= i < pos :: !At(s, i, w)
    ensures !found ==> forall i | from <= i :: !At(s, i, w)
  {
    pos := from;
    while pos + |w| <= |s|
      invariant from <= pos
      invariant forall i | from <= i < pos :: !At(s, i, w)
      decreases |s| - pos
    {
      if s[pos..pos + |w|] == w {
        return true, pos;
      }
      pos := pos + 1;
    }
    found := false;
  }

  method CollapseInPlace(s: seq<Byte>, w: seq<Byte>) returns (name: seq<Byte>)
    requires w != []
    ensures name == Collapse(s, w)
  {
    name := s;
    var pos := 0;
    assert s[0..] == s && name[..0] == [];
    while true
      invariant pos <= |name|
      invariant name[..pos] + Collapse(name[pos..], w) == Collapse(s, w)
      decreases |name| - pos
    {
      var found, at := Find(name, w, pos);
      if !found {
        CollapseTail(name, w, pos);
        return;
      }
      CollapseOnce(name, w, pos, at);
      name := name[..at] + [SPACE] + name[at + |w|..];
      pos := at + 1;
    }
  }

  method BlankInPlace(s: seq<Byte>) returns (name: seq<Byte>)
    ensures name == Blank(s)
  {
    name := s;
    for i := 0 to |s|
      invariant |name| == |s|
      invariant forall j | 0 <= j < i :: name[j] == if IsControl(s[j]) then SPACE else s[j]
      invariant forall j | i <= j < |s| :: name[j] == s[j]
    {
      if IsControl(name[i]) {
        name := name[i := SPACE];
      }
    }
  }

  method CollapseEach(s: seq<Byte>, ws: seq<seq<Byte>>) returns (name: seq<Byte>)
    requires forall i | 0 <= i < |ws| :: ws[i] != []
    ensures name == CollapseAll(s, ws)
  {
    name := s;
    for k := 0 to |ws|
      invariant CollapseAll(name, ws[k..]) == CollapseAll(s, ws)
    {
      assert ws[k..][1..] == ws[k + 1..];
      name := CollapseInPlace(name, ws[k]);
    }
  }

  method ElideInPlace(s: seq<Byte>) returns (name: seq<Byte>)
    ensures name == Elide(s)
  {
    name := s;
    if |name| > MAX_BYTES {
      var cut := MAX_BYTES;
      while cut > 0 && IsContinuation(name[cut])
        invariant 0 <= cut <= MAX_BYTES < |name|
        invariant Boundary(name, cut) == Boundary(name, MAX_BYTES)
      {
        cut := cut - 1;
      }
      name := name[..cut] + ELLIPSIS;
    }
  }

  method Neutralize(s: seq<Byte>) returns (name: seq<Byte>)
    ensures name == Neutralized(s)
  {
    name := BlankInPlace(s);
    name := CollapseEach(name, SEPARATORS);
    name := ElideInPlace(name);
  }

  // ---- Collapse ----------------------------------------------------------

  lemma AtShift(s: seq<Byte>, k: nat, i: int, w: seq<Byte>)
    requires k <= |s| && 0 <= i
    ensures At(s[k..], i, w) <==> At(s, k + i, w)
  {
  }

  /** Bytes before the first occurrence pass through. */
  lemma {:induction false} CollapseSkip(s: seq<Byte>, w: seq<Byte>, k: nat)
    requires w != [] && k <= |s|
    requires forall i | 0 <= i < k :: !At(s, i, w)
    ensures Collapse(s, w) == s[..k] + Collapse(s[k..], w)
    decreases k
  {
    if k > 0 {
      forall i | 0 <= i < k - 1 ensures !At(s[1..], i, w) {
        AtShift(s, 1, i, w);
      }
      CollapseSkip(s[1..], w, k - 1);
      assert s[1..][k - 1..] == s[k..];
      assert [s[0]] + s[1..][..k - 1] == s[..k];
    } else {
      assert s[0..] == s;
    }
  }

  lemma CollapseAbsent(s: seq<Byte>, w: seq<Byte>)
    requires w != [] && !Contains(s, w)
    ensures Collapse(s, w) == s
  {
    CollapseSkip(s, w, |s|);
    assert s[|s|..] == [];
  }

  lemma CollapseTail(s: seq<Byte>, w: seq<Byte>, pos: nat)
    requires w != [] && pos <= |s|
    requires forall i | pos <= i :: !At(s, i, w)
    ensures s[..pos] + Collapse(s[pos..], w) == s
  {
    forall i | 0 <= i <= |s[pos..]| ensures !At(s[pos..], i, w) {
      AtShift(s, pos, i, w);
    }
    CollapseAbsent(s[pos..], w);
  }

  lemma {:induction false} CollapseFrom(s: seq<Byte>, w: seq<Byte>, pos: nat, at: nat)
    requires w != [] && pos <= at <= |s|
    requires forall i | pos <= i < at :: !At(s, i, w)
    ensures Collapse(s[pos..], w) == s[pos..at] + Collapse(s[at..], w)
  {
    forall i | 0 <= i < at - pos ensures !At(s[pos..], i, w) {
      AtShift(s, pos, i, w);
    }
    CollapseSkip(s[pos..], w, at - pos);
    assert s[pos..][at - pos..] == s[at..] && s[pos..][..at - pos] == s[pos..at];
  }

  lemma {:induction false} CollapseOnce(s: seq<Byte>, w: seq<Byte>, pos: nat, at: nat)
    requires w != [] && pos <= at && At(s, at, w)
    requires forall i | pos <= i < at :: !At(s, i, w)
    ensures var t := s[..at] + [SPACE] + s[at + |w|..];
      t[..at + 1] + Collapse(t[at + 1..], w) == s[..pos] + Collapse(s[pos..], w)
  {
    CollapseFrom(s, w, pos, at);
  }
}
