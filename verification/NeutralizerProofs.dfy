/**
 What the neutraliser promises, for every byte string: nothing that breaks or
 reorders a line survives, the length is bounded, valid UTF-8 stays valid and
 reads as the same code points, and a second application changes nothing.
 */
module NeutralizerProofs {
  import opened Wrappers
  import opened Utf8
  import opened Neutralizer

  // ---- what must not reach the window, by code point -----------------------

  /** LINE SEPARATOR, PARAGRAPH SEPARATOR, NEXT LINE. */
  predicate BreaksLine(c: int) {
    c == 0x2028 || c == 0x2029 || c == 0x85
  }

  /** The bidirectional marks, embeddings and overrides, and isolates. */
  predicate Reorders(c: int) {
    0x200E <= c <= 0x200F || 0x202A <= c <= 0x202E || 0x2066 <= c <= 0x2069
  }

  predicate Steers(c: int) {
    BreaksLine(c) || Reorders(c)
  }

  /** The code points that steer a line, in the order the passes take them. */
  const STEERING: seq<int> := [
    0x2028, 0x2029, 0x85, 0x200E, 0x200F, 0x202A, 0x202B, 0x202C, 0x202D, 0x202E, 0x2066, 0x2067, 0x2068, 0x2069]

  lemma AllSteeringListed(c: int)
    requires Steers(c)
    ensures c in STEERING
  {
    var k := if BreaksLine(c) then (if c == 0x85 then 2 else c - 0x2028) else
             if c < 0x202A then c - 0x200B else if c < 0x2066 then c - 0x2025 else c - 0x205C;
    assert STEERING[k] == c;
  }

  lemma PageEncoding(c: int)
    requires 0x2000 <= c < 0x2080
    ensures Encoding(c) == [0xE2, if c < 0x2040 then 0x80 else 0x81, (0x80 + c % 64) as Byte]
  {
  }

  /** The passes look for the encodings of exactly these. */
  lemma SeparatorsEncode(k: nat)
    requires k < 14
    ensures |SEPARATORS| == |STEERING| == 14 && Steers(STEERING[k]) && SEPARATORS[k] == Encoding(STEERING[k])
  {
    if k != 2 {
      PageEncoding(STEERING[k]);
    }
  }

  lemma SeparatorOf(c: int)
    requires Steers(c)
    ensures Encoding(c) in SEPARATORS && SeparatorShape(Encoding(c))
  {
    AllSteeringListed(c);
    AllSeparatorsShaped();
    var k: nat :| k < |STEERING| && STEERING[k] == c;
    SeparatorsEncode(k);
  }

  lemma PointOf(w: seq<Byte>) returns (c: int)
    requires w in SEPARATORS
    ensures Steers(c) && Encoding(c) == w
  {
    var k: nat :| k < |SEPARATORS| && SEPARATORS[k] == w;
    SeparatorsEncode(k);
    c := STEERING[k];
  }

  /** Nothing in the string breaks a line or reorders it. */
  ghost predicate Unsteered(s: seq<Byte>) {
    forall c | Steers(c) :: !Contains(s, Encoding(c))
  }

  /** `Unsteered`, as the passes look for it. */
  lemma UnsteeredIs(s: seq<Byte>)
    ensures Unsteered(s) <==> forall k | 0 <= k < |SEPARATORS| :: !Contains(s, SEPARATORS[k])
  {
    forall k | 0 <= k < |SEPARATORS| && Unsteered(s)
      ensures !Contains(s, SEPARATORS[k])
    {
      var c := PointOf(SEPARATORS[k]);
    }
    if forall k | 0 <= k < |SEPARATORS| :: !Contains(s, SEPARATORS[k]) {
      forall c | Steers(c)
        ensures !Contains(s, Encoding(c))
      {
        SeparatorOf(c);
      }
    }
  }

  // ---- the words ----------------------------------------------------------

  predicate Printable(s: seq<Byte>) {
    forall i | 0 <= i < |s| :: 0x20 <= s[i] && s[i] != 0x7F
  }

  /** A lead byte that announces the length, then continuation bytes. */
  predicate SeparatorShape(w: seq<Byte>) {
    || (|w| == 3 && w[0] == 0xE2 && IsContinuation(w[1]) && IsContinuation(w[2]) && w != ELLIPSIS
        && w != [0xE2, 0x80, 0xA2])
    || (|w| == 2 && w[0] == 0xC2 && IsContinuation(w[1]))
  }

  predicate Shaped(ws: seq<seq<Byte>>) {
    forall k | 0 <= k < |ws| :: SeparatorShape(ws[k])
  }

  lemma AllSeparatorsShaped()
    ensures Shaped(SEPARATORS)
  {
  }

  // ---- one pass -----------------------------------------------------------

  lemma {:induction false} CollapsePrintable(s: seq<Byte>, w: seq<Byte>)
    requires w != [] && Printable(s)
    ensures Printable(Collapse(s, w))
    decreases |s|
  {
    if s != [] {
      CollapsePrintable(if At(s, 0, w) then s[|w|..] else s[1..], w);
    }
  }

  /** Up to its first space the result is the input. */
  lemma {:induction false} CollapsePrefix(s: seq<Byte>, w: seq<Byte>, m: nat)
    requires w != [] && m <= |Collapse(s, w)| && SPACE !in Collapse(s, w)[..m]
    ensures m <= |s| && Collapse(s, w)[..m] == s[..m]
    decreases |s|
  {
    if m > 0 {
      var r := Collapse(s, w);
      assert r[..m][0] == r[0] && r[0] != SPACE;
      assert r == [s[0]] + Collapse(s[1..], w);
      assert r[..m] == [s[0]] + Collapse(s[1..], w)[..m - 1];
      CollapsePrefix(s[1..], w, m - 1);
      assert s[..m] == [s[0]] + s[1..][..m - 1];
    }
  }

  lemma AtHead(s: seq<Byte>, v: seq<Byte>)
    requires |v| <= |s| && s[..|v|] == v
    ensures At(s, 0, v)
  {
  }

  /** Collapsing never brings a word without spaces into being. */
  lemma {:induction false} CollapseCreatesNothing(s: seq<Byte>, w: seq<Byte>, v: seq<Byte>, i: nat)
    requires w != [] && v != [] && SPACE !in v && At(Collapse(s, w), i, v)
    ensures Contains(s, v)
    decreases |s|
  {
    var r := Collapse(s, w);
    if i == 0 {
      assert r[..|v|] == v by { assert r[0..0 + |v|] == r[..|v|]; }
      CollapsePrefix(s, w, |v|);
      AtHead(s, v);
    } else {
      var k := if At(s, 0, w) then |w| else 1;
      assert r[1..] == Collapse(s[k..], w);
      AtShift(r, 1, i - 1, v);
      CollapseCreatesNothing(s[k..], w, v, i - 1);
      var j :| 0 <= j <= |s[k..]| && At(s[k..], j, v);
      AtShift(s, k, j, v);
    }
  }

  lemma {:induction false} CollapseRemoves(s: seq<Byte>, w: seq<Byte>, i: nat)
    requires w != [] && SPACE !in w
    ensures !At(Collapse(s, w), i, w)
    decreases |s|
  {
    var r := Collapse(s, w);
    if At(r, i, w) {
      if i == 0 {
        assert r[..|w|] == w by { assert r[0..0 + |w|] == r[..|w|]; }
        assert r[0] == r[..|w|][0] == w[0];
        CollapsePrefix(s, w, |w|);
        AtHead(s, w);
      } else {
        var k := if At(s, 0, w) then |w| else 1;
        assert r[1..] == Collapse(s[k..], w);
        AtShift(r, 1, i - 1, w);
        CollapseRemoves(s[k..], w, i - 1);
      }
    }
  }

  lemma CollapseKeepsAbsent(s: seq<Byte>, w: seq<Byte>, v: seq<Byte>)
    requires SeparatorShape(w) && SeparatorShape(v) && (v == w || !Contains(s, v))
    ensures !Contains(Collapse(s, w), v)
  {
    var r := Collapse(s, w);
    forall i | 0 <= i <= |r| ensures !At(r, i, v) {
      if v == w {
        CollapseRemoves(s, w, i);
      } else if At(r, i, v) {
        CollapseCreatesNothing(s, w, v, i);
      }
    }
  }

  // ---- all passes ---------------------------------------------------------

  lemma {:induction false} CollapseAllPrintable(s: seq<Byte>, ws: seq<seq<Byte>>)
    requires Shaped(ws) && Printable(s)
    ensures Printable(CollapseAll(s, ws))
    decreases |ws|
  {
    if ws != [] {
      CollapsePrintable(s, ws[0]);
      CollapseAllPrintable(Collapse(s, ws[0]), ws[1..]);
    }
  }

  /** A later pass undoes nothing an earlier one did. */
  lemma {:induction false} CollapseAllRemoves(s: seq<Byte>, ws: seq<seq<Byte>>, v: seq<Byte>)
    requires Shaped(ws) && SeparatorShape(v) && (v in ws || !Contains(s, v))
    ensures !Contains(CollapseAll(s, ws), v)
    decreases |ws|
  {
    if ws != [] {
      if v == ws[0] || !Contains(s, v) {
        CollapseKeepsAbsent(s, ws[0], v);
      }
      CollapseAllRemoves(Collapse(s, ws[0]), ws[1..], v);
    }
  }

  lemma {:induction false} CollapseAllAbsent(s: seq<Byte>, ws: seq<seq<Byte>>)
    requires Shaped(ws) && forall k | 0 <= k < |ws| :: !Contains(s, ws[k])
    ensures CollapseAll(s, ws) == s
    decreases |ws|
  {
    if ws != [] {
      CollapseAbsent(s, ws[0]);
      CollapseAllAbsent(s, ws[1..]);
    }
  }

  ghost predicate Inert(s: seq<Byte>) {
    Printable(s) && Unsteered(s)
  }

  lemma CleanIsInert(s: seq<Byte>)
    ensures Inert(Clean(s))
  {
    AllSeparatorsShaped();
    CollapseAllPrintable(Blank(s), SEPARATORS);
    forall c | Steers(c) ensures !Contains(Clean(s), Encoding(c)) {
      SeparatorOf(c);
      CollapseAllRemoves(Blank(s), SEPARATORS, Encoding(c));
    }
  }

  lemma InertIsClean(s: seq<Byte>)
    requires Inert(s)
    ensures Clean(s) == s
  {
    AllSeparatorsShaped();
    UnsteeredIs(s);
    assert Blank(s) == s;
    CollapseAllAbsent(s, SEPARATORS);
  }

  // ---- fourteen passes are one scan -----------------------------------------

  ghost predicate SteersAt(s: seq<Byte>) {
    exists c | Steers(c) :: Encoding(c) <= s
  }

  /** What the name is shown as: read from the left, each encoding of a steering code
      point is a space, and so is each control byte. */
  ghost function Displayed(s: seq<Byte>): seq<Byte>
    decreases |s|
  {
    if s == [] then []
    else if SteersAt(s) then var c :| Steers(c) && Encoding(c) <= s; [0x20] + Displayed(s[|Encoding(c)|..])
    else [if s[0] < 0x20 || s[0] == 0x7F then 0x20 else s[0]] + Displayed(s[1..])
  }

  /** The two or three bytes at the head, whichever a separator would have there. */
  function Word(s: seq<Byte>): seq<Byte> {
    if s == [] then [] else if |s| < Announced(s[0]) then s else s[..Announced(s[0])]
  }

  lemma WordIs(s: seq<Byte>, w: seq<Byte>)
    requires SeparatorShape(w)
    ensures At(s, 0, w) <==> Word(s) == w
    ensures w <= s <==> Word(s) == w
  {
    if At(s, 0, w) {
      assert s[..|w|][0] == s[0];
    }
  }

  /** One scan for all the words `ws`. */
  function Scan(s: seq<Byte>, ws: seq<seq<Byte>>): seq<Byte>
    decreases |s|
  {
    if s == [] then []
    else if Word(s) in ws then [SPACE] + Scan(s[|Word(s)|..], ws)
    else [s[0]] + Scan(s[1..], ws)
  }

  lemma {:induction false} ScanHead(b: Byte, rest: seq<Byte>, ws: seq<seq<Byte>>)
    requires Word([b] + rest) !in ws
    ensures Scan([b] + rest, ws) == [b] + Scan(rest, ws)
  {
    assert ([b] + rest)[1..] == rest;
  }

  lemma {:induction false} ScanHit(v: seq<Byte>, rest: seq<Byte>, ws: seq<seq<Byte>>)
    requires SeparatorShape(v) && v in ws
    ensures Scan(v + rest, ws) == [SPACE] + Scan(rest, ws)
  {
    WordIs(v + rest, v);
    assert (v + rest)[|v|..] == rest;
  }

  lemma CollapseHit(rest: seq<Byte>, w: seq<Byte>)
    requires w != []
    ensures Collapse(w + rest, w) == [SPACE] + Collapse(rest, w)
  {
    assert At(w + rest, 0, w) && (w + rest)[|w|..] == rest;
  }

  /** Another separator passes whole: none starts inside it. */
  lemma {:induction false} CollapseKeeps(v: seq<Byte>, rest: seq<Byte>, w: seq<Byte>)
    requires SeparatorShape(v) && SeparatorShape(w) && v != w
    ensures Collapse(v + rest, w) == v + Collapse(rest, w)
  {
    var s := v + rest;
    WordIs(s, w);
    WordIs(s, v);
    CollapseSkip(s, w, |v|);
    assert s[|v|..] == rest && s[..|v|] == v;
  }

  /** A pass ahead of the scan is one more word for it. */
  lemma {:induction false} ScanFirst(s: seq<Byte>, w: seq<Byte>, ws: seq<seq<Byte>>)
    requires SeparatorShape(w) && Shaped(ws)
    ensures Scan(Collapse(s, w), ws) == Scan(s, [w] + ws)
    decreases |s|
  {
    var v := Word(s);
    if s == [] {
    } else if v == w {
      ScanFirstHit(s, w, ws);
      ScanFirst(s[|w|..], w, ws);
    } else if v in ws {
      ScanFirstOther(s, v, w, ws);
      ScanFirst(s[|v|..], w, ws);
    } else {
      ScanFirstMiss(s, w, ws);
      ScanFirst(s[1..], w, ws);
    }
  }

  lemma {:induction false} ScanFirstHit(s: seq<Byte>, w: seq<Byte>, ws: seq<seq<Byte>>)
    requires SeparatorShape(w) && Shaped(ws) && Word(s) == w
    ensures Scan(Collapse(s, w), ws) == [SPACE] + Scan(Collapse(s[|w|..], w), ws)
    ensures Scan(s, [w] + ws) == [SPACE] + Scan(s[|w|..], [w] + ws)
  {
    WordIs(s, w);
    var rest := s[|w|..];
    assert s == w + rest;
    CollapseHit(rest, w);
    ScanHit(w, rest, [w] + ws);
    ScanHead(SPACE, Collapse(rest, w), ws);
  }

  lemma {:induction false} ScanFirstOther(s: seq<Byte>, v: seq<Byte>, w: seq<Byte>, ws: seq<seq<Byte>>)
    requires SeparatorShape(w) && Shaped(ws) && Word(s) == v && v in ws && v != w
    ensures Scan(Collapse(s, w), ws) == [SPACE] + Scan(Collapse(s[|v|..], w), ws)
    ensures Scan(s, [w] + ws) == [SPACE] + Scan(s[|v|..], [w] + ws)
  {
    WordIs(s, v);
    var rest := s[|v|..];
    assert s == v + rest;
    CollapseKeeps(v, rest, w);
    ScanHit(v, Collapse(rest, w), ws);
    ScanHit(v, rest, [w] + ws);
  }

  lemma {:induction false} ScanFirstMiss(s: seq<Byte>, w: seq<Byte>, ws: seq<seq<Byte>>)
    requires SeparatorShape(w) && Shaped(ws) && s != [] && Word(s) != w && Word(s) !in ws
    ensures Scan(Collapse(s, w), ws) == [s[0]] + Scan(Collapse(s[1..], w), ws)
    ensures Scan(s, [w] + ws) == [s[0]] + Scan(s[1..], [w] + ws)
  {
    WordIs(s, w);
    var rest := Collapse(s[1..], w);
    assert Collapse(s, w) == [s[0]] + rest;
    if Word([s[0]] + rest) in ws {
      CollapsedWord(s, w, Word([s[0]] + rest));
    }
    ScanHead(s[0], rest, ws);
    assert s == [s[0]] + s[1..];
    ScanHead(s[0], s[1..], [w] + ws);
  }

  lemma {:induction false} CollapsedWord(s: seq<Byte>, w: seq<Byte>, v: seq<Byte>)
    requires w != [] && SeparatorShape(v) && Word(Collapse(s, w)) == v
    ensures Word(s) == v
  {
    var r := Collapse(s, w);
    WordIs(r, v);
    assert r[..|v|] == v;
    CollapsePrefix(s, w, |v|);
    WordIs(s, v);
  }

  lemma {:induction false} PassesAreScan(s: seq<Byte>, ws: seq<seq<Byte>>)
    requires Shaped(ws)
    ensures CollapseAll(s, ws) == Scan(s, ws)
    decreases |ws|
  {
    if ws == [] {
      ScanNothing(s);
    } else {
      PassesAreScan(Collapse(s, ws[0]), ws[1..]);
      ScanFirst(s, ws[0], ws[1..]);
      assert [ws[0]] + ws[1..] == ws;
    }
  }

  lemma {:induction false} ScanNothing(s: seq<Byte>)
    ensures Scan(s, []) == s
    decreases |s|
  {
    if s != [] {
      ScanNothing(s[1..]);
    }
  }

  /** No separator has a control byte or a space. */
  lemma {:induction false} BlankKeepsWord(s: seq<Byte>, w: seq<Byte>)
    requires SeparatorShape(w)
    ensures w <= s <==> w <= Blank(s)
  {
    if w <= Blank(s) {
      forall i | 0 <= i < |w| ensures s[i] == w[i] {
        assert Blank(s)[i] == w[i];
      }
    }
  }

  lemma {:induction false} DisplayedHit(s: seq<Byte>) returns (d: int)
    requires s != [] && SteersAt(s)
    ensures Steers(d) && Encoding(d) <= s && Displayed(s) == [0x20] + Displayed(s[|Encoding(d)|..])
  {
    d :| Steers(d) && Encoding(d) <= s && Displayed(s) == [0x20] + Displayed(s[|Encoding(d)|..]);
  }

  lemma {:induction false} BlankSplit(s: seq<Byte>, w: seq<Byte>)
    requires SeparatorShape(w) && w <= s
    ensures Blank(s) == w + Blank(s[|w|..])
  {
  }

  lemma {:induction false} ScanBlankHit(s: seq<Byte>, w: seq<Byte>, ws: seq<seq<Byte>>)
    requires SeparatorShape(w) && w <= s && w in ws
    ensures Scan(Blank(s), ws) == [0x20] + Scan(Blank(s[|w|..]), ws)
  {
    BlankSplit(s, w);
    ScanHit(w, Blank(s[|w|..]), ws);
  }

  lemma {:induction false} ScanStepHit(s: seq<Byte>) returns (rest: seq<Byte>)
    requires s != [] && SteersAt(s)
    ensures |rest| < |s| && Displayed(s) == [0x20] + Displayed(rest)
    ensures Scan(Blank(s), SEPARATORS) == [0x20] + Scan(Blank(rest), SEPARATORS)
  {
    var c := DisplayedHit(s);
    SeparatorOf(c);
    ScanBlankHit(s, Encoding(c), SEPARATORS);
    rest := s[|Encoding(c)|..];
  }

  lemma {:induction false} BlankMisses(s: seq<Byte>)
    requires !SteersAt(s)
    ensures Word(Blank(s)) !in SEPARATORS
  {
    AllSeparatorsShaped();
    var w := Word(Blank(s));
    if w in SEPARATORS {
      var c := PointOf(w);
      WordIs(Blank(s), w);
      BlankKeepsWord(s, w);
    }
  }

  lemma {:induction false} ScanStepMiss(s: seq<Byte>)
    requires s != [] && !SteersAt(s)
    ensures Displayed(s) == [Blank(s)[0]] + Displayed(s[1..])
    ensures Scan(Blank(s), SEPARATORS) == [Blank(s)[0]] + Scan(Blank(s[1..]), SEPARATORS)
  {
    BlankMisses(s);
    assert Blank(s) == [Blank(s)[0]] + Blank(s[1..]);
    ScanHead(Blank(s)[0], Blank(s[1..]), SEPARATORS);
  }

  lemma {:induction false} ScanIsDisplayed(s: seq<Byte>)
    ensures Scan(Blank(s), SEPARATORS) == Displayed(s)
    decreases |s|
  {
    if s == [] {
    } else if SteersAt(s) {
      var rest := ScanStepHit(s);
      ScanIsDisplayed(rest);
    } else {
      ScanStepMiss(s);
      ScanIsDisplayed(s[1..]);
    }
  }

  /** The passes one after the other show what one scan for all of them shows. */
  lemma {:induction false} CleanIsDisplayed(s: seq<Byte>)
    ensures Clean(s) == Displayed(s)
  {
    AllSeparatorsShaped();
    PassesAreScan(Blank(s), SEPARATORS);
    ScanIsDisplayed(s);
  }

  // ---- elision ------------------------------------------------------------

  lemma {:induction false} SameSlice(s: seq<Byte>, cut: nat, tail: seq<Byte>, i: nat, n: nat)
    requires i + n <= cut <= |s|
    ensures (s[..cut] + tail)[i..i + n] == s[i..i + n]
  {
    var a, b := (s[..cut] + tail)[i..i + n], s[i..i + n];
    assert |a| == |b| && forall k | 0 <= k < n :: a[k] == b[k];
  }

  /** No separator straddles the cut: none has a lead byte past its first. */
  lemma EllipsisAddsNothing(s: seq<Byte>, cut: nat, w: seq<Byte>)
    requires SeparatorShape(w) && cut <= |s| && !Contains(s, w)
    ensures !Contains(s[..cut] + ELLIPSIS, w)
  {
    var r := s[..cut] + ELLIPSIS;
    forall i | 0 <= i <= |r| ensures !At(r, i, w) {
      if i + |w| <= cut {
        SameSlice(s, cut, ELLIPSIS, i, |w|);
        assert !At(s, i, w);
      } else if i + |w| <= |r| {
        var word := r[i..i + |w|];
        if i < cut {
          assert word[cut - i] == r[cut] == 0xE2;
        } else {
          assert word[0] == ELLIPSIS[i - cut];
          assert i == cut && |w| == 3 ==> word == ELLIPSIS;
        }
      }
    }
  }

  lemma ElideIsInert(s: seq<Byte>)
    requires Inert(s)
    ensures Inert(Elide(s)) && |Elide(s)| <= 131
  {
    if |s| > MAX_BYTES {
      forall c | Steers(c) ensures !Contains(Elide(s), Encoding(c)) {
        SeparatorOf(c);
        EllipsisAddsNothing(s, Boundary(s, MAX_BYTES), Encoding(c));
      }
    }
  }

  lemma ElideTwice(s: seq<Byte>)
    ensures Elide(Elide(s)) == Elide(s)
  {
  }

  // ---- for every byte string ----------------------------------------------

  /** No byte below a space and no DEL; no line break and no bidirectional control of
      more bytes, by code point; at most 131 bytes. */
  lemma NeutralizedIsInert(s: seq<Byte>)
    ensures forall i | 0 <= i < |Neutralized(s)| :: 0x20 <= Neutralized(s)[i] && Neutralized(s)[i] != 0x7F
    ensures forall c | Steers(c) :: !Contains(Neutralized(s), Encoding(c))
    ensures |Neutralized(s)| <= 131
  {
    CleanIsInert(s);
    ElideIsInert(Clean(s));
  }

  /** The last place up to byte 128 where a code point can start. */
  predicate LastStart(s: seq<Byte>, k: int) {
    && 0 <= k <= 128 < |s| && (k == 0 || !Continues(s[k]))
    && forall i | k < i <= 128 :: Continues(s[i])
  }

  /** What is shown is the scan, whole if it has at most 128 bytes, and otherwise cut at
      the last code point's start up to there and marked with U+2026. */
  lemma NeutralizedIs(s: seq<Byte>)
    ensures |Displayed(s)| <= 128 ==> Neutralized(s) == Displayed(s)
    ensures |Displayed(s)| > 128 ==>
              exists k | LastStart(Displayed(s), k) :: Neutralized(s) == Displayed(s)[..k] + [0xE2, 0x80, 0xA6]
  {
    CleanIsDisplayed(s);
    var d := Displayed(s);
    if |d| > 128 {
      assert LastStart(d, Boundary(d, 128));
    }
  }

  /** A name of at most 128 bytes is left alone exactly when nothing in it had to go. */
  lemma HarmlessIsKept(s: seq<Byte>)
    requires |s| <= 128
    ensures Neutralized(s) == s <==> Printable(s) && Unsteered(s)
  {
    NeutralizedIsInert(s);
    if Inert(s) {
      InertIsClean(s);
    }
  }

  lemma NeutralizedTwice(s: seq<Byte>)
    ensures Neutralized(Neutralized(s)) == Neutralized(s)
  {
    NeutralizedIsInert(s);
    InertIsClean(Neutralized(s));
    ElideTwice(Clean(s));
  }
}
