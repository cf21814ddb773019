/**
 The neutraliser read as text: on valid UTF-8 the byte passes replace whole code
 points, and the cut falls between two of them.
 */
module NeutralizerText {
  import opened Wrappers
  import opened Utf8
  import opened Neutralizer
  import opened NeutralizerProofs

  /** What one code point is shown as. */
  function Shown(c: int): int {
    if c < 0x20 || c == 0x7F || Steers(c) then 0x20 else c
  }

  function ShownText(cs: seq<int>): (ds: seq<int>)
    requires Scalars(cs)
    ensures Scalars(ds) && |ds| == |cs|
    ensures forall k | 0 <= k < |cs| :: ds[k] == Shown(cs[k])
  {
    seq(|cs|, k requires 0 <= k < |cs| => Shown(cs[k]))
  }

  // ---- the scan on code points ---------------------------------------------

  lemma {:induction false} NothingStartsInside(s: seq<Byte>)
    requires s != [] && Continues(s[0])
    ensures !SteersAt(s)
  {
    forall c | Steers(c) ensures !(Encoding(c) <= s) {
      EncodingShape(c);
    }
  }

  lemma {:induction false} DisplayedPasses(b: Byte, rest: seq<Byte>)
    requires Continues(b)
    ensures Displayed([b] + rest) == [b] + Displayed(rest)
  {
    NothingStartsInside([b] + rest);
    assert ([b] + rest)[1..] == rest;
  }

  /** Continuation bytes pass through. */
  lemma {:induction false} DisplayedOver(t: seq<Byte>, rest: seq<Byte>)
    requires forall i | 0 <= i < |t| :: Continues(t[i])
    ensures Displayed(t + rest) == t + Displayed(rest)
  {
    if t == [] {
      assert t + rest == rest;
    } else {
      var next := t[1..] + rest;
      assert t + rest == [t[0]] + next;
      DisplayedPasses(t[0], next);
      DisplayedOver(t[1..], rest);
    }
  }

  function BlankByte(b: Byte): Byte {
    if b < 0x20 || b == 0x7F then 0x20 else b
  }

  lemma {:induction false} DisplayedUnit(u: seq<Byte>, rest: seq<Byte>)
    requires u != [] && !SteersAt(u + rest) && forall i | 1 <= i < |u| :: Continues(u[i])
    ensures Displayed(u + rest) == [BlankByte(u[0])] + u[1..] + Displayed(rest)
  {
    var s := u + rest;
    assert s[0] == u[0] && s[1..] == u[1..] + rest;
    DisplayedOver(u[1..], rest);
  }

  lemma {:induction false} NothingElseStarts(c: int, rest: seq<Byte>)
    requires Scalar(c) && !Steers(c)
    ensures !SteersAt(Encoding(c) + rest)
  {
    forall d | Steers(d) ensures !(Encoding(d) <= Encoding(c) + rest) {
      if Encoding(d) <= Encoding(c) + rest {
        PrefixFree(d, c, rest);
      }
    }
  }

  lemma {:induction false} DisplayedPlain(c: int, rest: seq<Byte>)
    requires Scalar(c) && !Steers(c)
    ensures Displayed(Encoding(c) + rest) == Encoding(Shown(c)) + Displayed(rest)
  {
    NothingElseStarts(c, rest);
    EncodingShape(c);
    DisplayedUnit(Encoding(c), rest);
    FirstByte(c);
  }

  lemma FirstByte(c: int)
    requires Scalar(c) && !Steers(c)
    ensures Encoding(Shown(c)) == [BlankByte(Encoding(c)[0])] + Encoding(c)[1..]
  {
  }

  lemma {:induction false} DisplayedSteering(c: int, rest: seq<Byte>)
    requires Steers(c)
    ensures Displayed(Encoding(c) + rest) == [0x20] + Displayed(rest)
  {
    var s := Encoding(c) + rest;
    assert Encoding(c) <= s;
    var d := DisplayedHit(s);
    PrefixFree(d, c, rest);
    assert s[|Encoding(c)|..] == rest;
  }

  lemma {:induction false} DisplayedText(cs: seq<int>)
    requires Scalars(cs)
    ensures Displayed(Encode(cs)) == Encode(ShownText(cs))
  {
    if cs != [] {
      DisplayedText(cs[1..]);
      assert ShownText(cs)[1..] == ShownText(cs[1..]);
      if Steers(cs[0]) {
        DisplayedSteering(cs[0], Encode(cs[1..]));
      } else {
        DisplayedPlain(cs[0], Encode(cs[1..]));
      }
    }
  }

  // ---- the cut -------------------------------------------------------------

  /** How many whole code points fit in the first `cut` bytes. */
  function Fitting(cs: seq<int>, cut: nat): (k: nat)
    requires Scalars(cs)
    ensures k <= |cs|
  {
    if cs == [] || |Encoding(cs[0])| > cut then 0 else 1 + Fitting(cs[1..], cut - |Encoding(cs[0])|)
  }

  lemma {:induction false} FittingIsMaximal(cs: seq<int>, cut: nat)
    requires Scalars(cs)
    ensures |Encode(cs[..Fitting(cs, cut)])| <= cut
    ensures Fitting(cs, cut) < |cs| ==> cut < |Encode(cs[..Fitting(cs, cut) + 1])|
  {
    if cs == [] {
    } else if |Encoding(cs[0])| > cut {
      assert cs[..1][1..] == [];
    } else {
      var k := Fitting(cs[1..], cut - |Encoding(cs[0])|);
      FittingIsMaximal(cs[1..], cut - |Encoding(cs[0])|);
      assert cs[..k + 1][1..] == cs[1..][..k];
      if k + 1 < |cs| {
        assert cs[..k + 2][1..] == cs[1..][..k + 1];
      }
    }
  }

  /** A byte that continues nothing is where a code point starts. */
  lemma {:induction false} CutBetweenCodePoints(cs: seq<int>, cut: nat)
    requires Scalars(cs) && cut < |Encode(cs)| && !Continues(Encode(cs)[cut])
    ensures Encode(cs[..Fitting(cs, cut)]) == Encode(cs)[..cut]
  {
    var u, rest := Encoding(cs[0]), Encode(cs[1..]);
    assert Encode(cs) == u + rest;
    EncodingShape(cs[0]);
    if cut < |u| {
      assert cut == 0;
    } else {
      assert Encode(cs)[cut] == rest[cut - |u|];
      CutBetweenCodePoints(cs[1..], cut - |u|);
      EncodeFirst(cs, Fitting(cs[1..], cut - |u|));
    }
  }

  lemma {:induction false} EncodeFirst(cs: seq<int>, k: nat)
    requires Scalars(cs) && k < |cs|
    ensures Encode(cs[..k + 1]) == Encoding(cs[0]) + Encode(cs[1..][..k])
  {
    assert cs[..k + 1][1..] == cs[1..][..k];
  }

  lemma {:induction false} BoundaryFits(cs: seq<int>, cut: nat)
    requires Scalars(cs) && cut < |Encode(cs)|
    ensures var b := Boundary(Encode(cs), cut);
      Fitting(cs, b) == Fitting(cs, cut) && Encode(cs)[..b] == Encode(cs[..Fitting(cs, cut)])
    decreases cut
  {
    var s := Encode(cs);
    if cut > 0 && Continues(s[cut]) {
      BoundaryFits(cs, cut - 1);
      NoStartNoFit(cs, cut);
    } else {
      if cut == 0 {
        EncodingShape(cs[0]);
      }
      CutBetweenCodePoints(cs, cut);
    }
  }

  lemma {:induction false} NoStartNoFit(cs: seq<int>, cut: nat)
    requires Scalars(cs) && 0 < cut < |Encode(cs)| && Continues(Encode(cs)[cut])
    ensures Fitting(cs, cut - 1) == Fitting(cs, cut)
  {
    var u, rest := Encoding(cs[0]), Encode(cs[1..]);
    assert Encode(cs) == u + rest;
    if cut >= |u| {
      assert Encode(cs)[cut] == rest[cut - |u|];
      if cut == |u| {
        EncodingShape(cs[1]);
      } else {
        NoStartNoFit(cs[1..], cut - |u|);
      }
    }
  }

  // ---- valid text -----------------------------------------------------------

  /** On valid text the result is the shown code points, cut after the last one
      that fits in 128 bytes and then marked with the ellipsis. */
  lemma {:induction false} NeutralizedText(cs: seq<int>)
    requires Scalars(cs)
    ensures var shown := ShownText(cs); var k := Fitting(shown, 128);
            if |Encode(shown)| <= 128 then Neutralized(Encode(cs)) == Encode(shown)
            else && Neutralized(Encode(cs)) == Encode(shown[..k] + [0x2026])
                 && |Encode(shown[..k])| <= 128 && (k < |cs| ==> 128 < |Encode(shown[..k + 1])|)
  {
    CleanIsDisplayed(Encode(cs));
    DisplayedText(cs);
    var shown := ShownText(cs);
    if |Encode(shown)| > MAX_BYTES {
      var k := Fitting(shown, 128);
      BoundaryFits(shown, MAX_BYTES);
      FittingIsMaximal(shown, 128);
      EncodeAppend(shown[..k], [0x2026]);
      EllipsisIs();
    }
  }

  lemma EllipsisIs()
    ensures Encode([0x2026]) == ELLIPSIS
  {
    assert [0x2026][1..] == [];
  }

  lemma {:induction false} NeutralizedTextIsUtf8(cs: seq<int>)
    requires Scalars(cs)
    ensures Utf8.Valid(Neutralized(Encode(cs)))
  {
    NeutralizedText(cs);
    var shown := ShownText(cs);
    if |Encode(shown)| <= 128 {
      EncodeIsValid(shown);
    } else {
      EncodeIsValid(shown[..Fitting(shown, 128)] + [0x2026]);
    }
  }

  /** Valid UTF-8 in, valid UTF-8 out. */
  lemma {:induction false} NeutralizedKeepsUtf8(s: seq<Byte>)
    requires Utf8.Valid(s)
    ensures Utf8.Valid(Neutralized(s))
  {
    var cs: seq<int> :| Scalars(cs) && Encode(cs) == s;
    NeutralizedTextIsUtf8(cs);
  }
}
