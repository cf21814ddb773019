/** The batch-sign consent list: one line per listed name, the rest counted. */
module ArtifactList {
  import opened Wrappers
  import opened Utf8
  import opened Neutralizer
  import opened NeutralizerProofs

  /** The lines a text window shows for a block of text. */
  function Lines(s: seq<Byte>): (ls: seq<seq<Byte>>)
    ensures |ls| > 0
  {
    if s == [] then [[]]
    else if s[0] == 0x0A then [[]] + Lines(s[1..])
    else var rest := Lines(s[1..]); [[s[0]] + rest[0]] + rest[1..]
  }

  lemma {:induction false} OneLine(l: seq<Byte>)
    requires NEWLINE !in l
    ensures Lines(l) == [l]
  {
    if l != [] {
      OneLine(l[1..]);
      assert [l[0]] + l[1..] == l;
    }
  }

  lemma {:induction false} LinesAppend(s: seq<Byte>, l: seq<Byte>)
    requires NEWLINE !in l
    ensures Lines(s + [NEWLINE] + l) == Lines(s) + [l]
  {
    var t := s + [NEWLINE] + l;
    if s == [] {
      assert t == [NEWLINE] + l && t[1..] == l;
      OneLine(l);
    } else {
      assert t[1..] == s[1..] + [NEWLINE] + l;
      LinesAppend(s[1..], l);
    }
  }

  /** Two spaces, U+2022 BULLET, a space, and the name. */
  function Line(name: seq<Byte>): seq<Byte> {
    [0x20, 0x20, 0xE2, 0x80, 0xA2, 0x20] + Neutralized(name)
  }

  /** The lines are the first names, in order, each neutralised. */
  predicate Lists(lines: seq<seq<Byte>>, names: seq<seq<Byte>>) {
    |lines| <= |names| && forall i | 0 <= i < |lines| :: lines[i] == Line(names[i])
  }

  // ---- no separator anywhere in the block ----------------------------------

  /** A byte no separator has keeps its two sides apart. */
  lemma SplitWord(a: seq<Byte>, b: Byte, c: seq<Byte>, w: seq<Byte>)
    requires SeparatorShape(w) && !Contains(a, w) && !Contains(c, w) && b < 0x80
    ensures !Contains(a + [b] + c, w)
  {
    var s := a + [b] + c;
    forall i | 0 <= i <= |s| ensures !At(s, i, w) {
      if i + |w| <= |a| {
        assert s[i..i + |w|] == a[i..i + |w|];
        assert !At(a, i, w);
      } else if i <= |a| {
        if i + |w| <= |s| {
          assert s[|a|] == b;
          assert s[i..i + |w|][|a| - i] == s[|a|];
        }
      } else {
        assert s[|a| + 1..] == c;
        AtShift(s, |a| + 1, i - |a| - 1, w);
        if i - |a| - 1 <= |c| {
          assert !At(c, i - |a| - 1, w);
        }
      }
    }
  }

  lemma SplitAtBreak(a: seq<Byte>, b: Byte, c: seq<Byte>)
    requires Unsteered(a) && Unsteered(c) && b < 0x80
    ensures Unsteered(a + [b] + c)
  {
    forall p | Steers(p) ensures !Contains(a + [b] + c, Encoding(p)) {
      SeparatorOf(p);
      SplitWord(a, b, c, Encoding(p));
    }
  }

  lemma AtBytes(s: seq<Byte>, i: nat, w: seq<Byte>)
    requires |w| >= 2
    ensures At(s, i, w) ==> s[i] == w[0] && s[i + 1] == w[1] && (|w| == 3 ==> s[i + 2] == w[2])
  {
    if At(s, i, w) {
      assert s[i..i + |w|][1] == w[1] && (|w| == 3 ==> s[i..i + |w|][2] == w[2]);
    }
  }

  lemma {:induction false} BulletHasNot(w: seq<Byte>, i: nat)
    requires SeparatorShape(w)
    ensures !At(BULLET[..5], i, w)
  {
    var s := BULLET[..5];
    AtBytes(s, i, w);
    assert s == [0x20, 0x20, 0xE2, 0x80, 0xA2];
    assert |w| == 3 ==> w == [w[0], w[1], w[2]];
  }

  lemma {:induction false} BulletIsUnsteered()
    ensures Unsteered(BULLET[..5])
  {
    forall p | Steers(p) ensures !Contains(BULLET[..5], Encoding(p)) {
      SeparatorOf(p);
      forall i: nat ensures !At(BULLET[..5], i, Encoding(p)) {
        BulletHasNot(Encoding(p), i);
      }
    }
  }

  lemma {:induction false} BulletAddsNothing(n: seq<Byte>)
    requires Unsteered(n)
    ensures Unsteered(BULLET + n)
  {
    BulletIsUnsteered();
    SplitAtBreak(BULLET[..5], SPACE, n);
    assert BULLET == BULLET[..5] + [SPACE];
  }

  lemma {:induction false} LineIsOneLine(name: seq<Byte>)
    ensures NEWLINE !in Line(name) && Unsteered(Line(name))
  {
    NeutralizedIsInert(name);
    BulletAddsNothing(Neutralized(name));
    assert Line(name) == BULLET + Neutralized(name);
  }

  // ---- the code -------------------------------------------------------------

  method FormatLine(name: seq<Byte>) returns (line: seq<Byte>)
    ensures line == Line(name) && line != [] && NEWLINE !in line
  {
    var n := Neutralize(name);
    LineIsOneLine(name);
    line := BULLET + n;
  }

  /** Read as lines the block is exactly one bulleted neutralised name per listed
      name, in order; listed plus omitted is every name. */
  method FormatUntrustedArtifactList(names: seq<seq<Byte>>, maxItems: nat) returns (block: seq<Byte>, omitted: nat)
    ensures names == [] ==> block == [] && omitted == 0
    ensures omitted <= |names| && (maxItems == 0 ==> omitted == 0)
    ensures maxItems > 0 ==> |names| - omitted <= maxItems && (omitted > 0 ==> |names| - omitted == maxItems)
    ensures names != [] ==> |Lines(block)| == |names| - omitted && Lists(Lines(block), names)
  {
    block := [];
    if names == [] {
      return [], 0;
    }
    var shown := if maxItems == 0 || |names| < maxItems then |names| else maxItems;
    ghost var lines := [];
    for i := 0 to shown
      invariant i == 0 <==> block == []
      invariant |lines| == i && Lists(lines, names) && (i > 0 ==> Lines(block) == lines)
    {
      var line := FormatLine(names[i]);
      if block != [] {
        LinesAppend(block, line);
        block := block + [NEWLINE];
      } else {
        OneLine(line);
        assert block + line == line;
      }
      block := block + line;
      lines := lines + [line];
    }
    omitted := |names| - shown;
  }

  // ---- nothing between the lines either --------------------------------------

  lemma {:induction false} LinesSplit(s: seq<Byte>) returns (rest: seq<Byte>)
    ensures |Lines(s)| == 1 ==> Lines(s) == [s]
    ensures |Lines(s)| > 1 ==>
      |rest| < |s| && s == Lines(s)[0] + [NEWLINE] + rest && Lines(rest) == Lines(s)[1..]
  {
    rest := [];
    if s != [] {
      if s[0] == NEWLINE {
        rest := s[1..];
        assert s == [] + [NEWLINE] + rest;
      } else {
        rest := LinesSplit(s[1..]);
        var ls := Lines(s[1..]);
        assert Lines(s) == [[s[0]] + ls[0]] + ls[1..];
        assert s == [s[0]] + s[1..];
        assert Lines(s)[1..] == ls[1..];
      }
    }
  }

  /** The names' own line breaks and bidirectional controls are gone from the block: none is
      in a line or across a line break. */
  lemma {:induction false} BlockHasNoSeparator(block: seq<Byte>, names: seq<seq<Byte>>)
    requires Lists(Lines(block), names)
    ensures forall c | Steers(c) :: !Contains(block, Encoding(c))
    decreases |block|
  {
    var rest := LinesSplit(block);
    var first := Lines(block)[0];
    LineIsOneLine(names[0]);
    if |Lines(block)| > 1 {
      assert Lists(Lines(rest), names[1..]);
      BlockHasNoSeparator(rest, names[1..]);
      SplitAtBreak(first, NEWLINE, rest);
    }
  }
}
