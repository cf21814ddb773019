/** UTF-8 as section 3 of RFC 3629 defines it: what each code point is encoded as. */
module Utf8 {
  import opened Wrappers

  /** A Unicode scalar value. */
  predicate Scalar(c: int) {
    0 <= c < 0xD800 || 0xE000 <= c < 0x110000
  }

  /** A continuation byte: the low six bits of `c`. */
  function Tail(c: int): (b: Byte)
    requires 0 <= c
    ensures Continues(b) && Bits(b) == c % 64
  {
    (0x80 + c % 64) as Byte
  }

  function Encoding(c: int): (u: seq<Byte>)
    requires Scalar(c)
    ensures 1 <= |u| <= 4
  {
    if c < 0x80 then [c as Byte]
    else if c < 0x800 then [(0xC0 + c / 64) as Byte, Tail(c)]
    else if c < 0x10000 then [(0xE0 + c / 64 / 64) as Byte, Tail(c / 64), Tail(c)]
    else [(0xF0 + c / 64 / 64 / 64) as Byte, Tail(c / 64 / 64), Tail(c / 64), Tail(c)]
  }

  predicate Continues(b: Byte) {
    0x80 <= b < 0xC0
  }

  /** How many bytes a code point has that starts with byte `b`. */
  function Announced(b: Byte): (n: nat)
    ensures 1 <= n <= 4
  {
    if b < 0xC0 then 1 else if b < 0xE0 then 2 else if b < 0xF0 then 3 else 4
  }

  /** The first byte, and no other, says where a code point starts and how long it is. */
  lemma EncodingShape(c: int)
    requires Scalar(c)
    ensures !Continues(Encoding(c)[0]) && |Encoding(c)| == Announced(Encoding(c)[0])
    ensures forall i | 1 <= i < |Encoding(c)| :: Continues(Encoding(c)[i])
    ensures c < 0x80 <==> Encoding(c)[0] < 0x80
  {
  }

  /** The low six bits. */
  function Bits(b: Byte): int {
    b as int % 64
  }

  function Decoded(u: seq<Byte>): int
    requires 1 <= |u| <= 4
  {
    if |u| == 1 then u[0] as int
    else if |u| == 2 then (u[0] as int - 0xC0) * 64 + Bits(u[1])
    else if |u| == 3 then ((u[0] as int - 0xE0) * 64 + Bits(u[1])) * 64 + Bits(u[2])
    else (((u[0] as int - 0xF0) * 64 + Bits(u[1])) * 64 + Bits(u[2])) * 64 + Bits(u[3])
  }

  lemma DecodedBack(c: int)
    requires Scalar(c)
    ensures Decoded(Encoding(c)) == c
  {
  }

  /** No encoding is the beginning of another's. */
  lemma {:induction false} PrefixFree(c: int, d: int, rest: seq<Byte>)
    requires Scalar(c) && Scalar(d) && Encoding(c) <= Encoding(d) + rest
    ensures c == d
  {
    var u, v := Encoding(c), Encoding(d);
    EncodingShape(c);
    EncodingShape(d);
    assert (v + rest)[0] == u[0];
    assert u == (v + rest)[..|u|] == v;
    DecodedBack(c);
    DecodedBack(d);
  }

  predicate Scalars(cs: seq<int>) {
    forall k | 0 <= k < |cs| :: Scalar(cs[k])
  }

  function Encode(cs: seq<int>): seq<Byte>
    requires Scalars(cs)
  {
    if cs == [] then [] else Encoding(cs[0]) + Encode(cs[1..])
  }

  /** A valid UTF-8 string. */
  ghost predicate Valid(s: seq<Byte>) {
    exists cs: seq<int> | Scalars(cs) :: Encode(cs) == s
  }

  lemma EncodeIsValid(cs: seq<int>)
    requires Scalars(cs)
    ensures Valid(Encode(cs))
  {
  }

  lemma Associate(a: seq<Byte>, b: seq<Byte>, c: seq<Byte>)
    ensures (a + b) + c == a + (b + c)
  {
  }

  lemma {:induction false} EncodeAppend(cs: seq<int>, ds: seq<int>)
    requires Scalars(cs) && Scalars(ds)
    ensures Scalars(cs + ds) && Encode(cs + ds) == Encode(cs) + Encode(ds)
  {
    if cs == [] {
      assert cs + ds == ds;
    } else {
      assert (cs + ds)[0] == cs[0] && (cs + ds)[1..] == cs[1..] + ds;
      EncodeAppend(cs[1..], ds);
      Associate(Encoding(cs[0]), Encode(cs[1..]), Encode(ds));
    }
  }

  /** The grammar of section 4 of RFC 3629 for one code point. */
  predicate Grammatical(u: seq<Byte>) {
    || (|u| == 1 && u[0] <= 0x7F)
    || (|u| == 2 && 0xC2 <= u[0] <= 0xDF && Continues(u[1]))
    || (|u| == 3 && Continues(u[1]) && Continues(u[2])
        && 0xE0 <= u[0] <= 0xEF && (u[0] == 0xE0 ==> 0xA0 <= u[1]) && (u[0] == 0xED ==> u[1] <= 0x9F))
    || (|u| == 4 && Continues(u[1]) && Continues(u[2]) && Continues(u[3])
        && 0xF0 <= u[0] <= 0xF4 && (u[0] == 0xF0 ==> 0x90 <= u[1]) && (u[0] == 0xF4 ==> u[1] <= 0x8F))
  }

  lemma {:induction false} DecodedForward(u: seq<Byte>)
    requires Grammatical(u)
    ensures var c := Decoded(u); Scalar(c) && Encoding(c) == u
  {
    if |u| == 2 {
      SixMore(u[0] as int - 0xC0, u[1]);
    } else if |u| == 3 {
      var a := u[0] as int - 0xE0;
      SixMore(a, u[1]);
      SixMore(a * 64 + Bits(u[1]), u[2]);
    } else if |u| == 4 {
      var a := u[0] as int - 0xF0;
      SixMore(a, u[1]);
      SixMore(a * 64 + Bits(u[1]), u[2]);
      SixMore((a * 64 + Bits(u[1])) * 64 + Bits(u[2]), u[3]);
    }
  }

  lemma SixMore(a: int, b: Byte)
    requires 0 <= a && Continues(b)
    ensures (a * 64 + Bits(b)) / 64 == a && Tail(a * 64 + Bits(b)) == b
  {
  }

  /** The encodings are what the grammar derives, and nothing else is. */
  lemma {:induction false} GrammarIsEncodings(u: seq<Byte>)
    ensures Grammatical(u) <==> exists c | Scalar(c) :: Encoding(c) == u
  {
    if Grammatical(u) {
      DecodedForward(u);
    }
  }
}
