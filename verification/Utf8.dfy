/** What well-formed UTF-8 is, by the code points it encodes. */
module Utf8 {
  import opened Octets

  /** A Unicode scalar value: a code point that is not a surrogate. */
  predicate IsScalar(c: nat) {
    c < 0xD800 || 0xE000 <= c < 0x11_0000
  }

  /** The UTF-8 form of a code point (RFC 3629, section 3). */
  function Utf8Of(c: nat): (s: octets)
    requires IsScalar(c)
    ensures 1 <= |s| <= 4
  {
    if c < 0x80 then [c]
    else if c < 0x800 then [0xC0 + c / 64, 0x80 + c % 64]
    else if c < 0x1_0000 then [0xE0 + c / 64 / 64, 0x80 + c / 64 % 64, 0x80 + c % 64]
    else [0xF0 + c / 64 / 64 / 64, 0x80 + c / 64 / 64 % 64, 0x80 + c / 64 % 64, 0x80 + c % 64]
  }

  predicate AllScalar(text: seq<nat>) {
    forall i :: 0 <= i < |text| ==> IsScalar(text[i])
  }

  function Utf8OfAll(text: seq<nat>): octets
    requires AllScalar(text)
  {
    if text == [] then [] else Utf8Of(text[0]) + Utf8OfAll(text[1..])
  }

  /** Putting one more code point in front changes nothing about the rest. */
  lemma OneMoreIsValid(c: nat, rest: octets)
    requires IsScalar(c)
    ensures ValidUtf8(Utf8Of(c) + rest) <==> ValidUtf8(rest)
  {
    var (u, s) := (Utf8Of(c), Utf8Of(c) + rest);
    assert s[|u|..] == rest;
    assert s[0] == u[0] && forall k, lo, hi :: 0 <= k < |u| ==> (InRange(s, k, lo, hi) <==> lo <= u[k] <= hi);
    if c < 0x80 {
    } else if c < 0x800 {
      TwoOctets(c);
    } else if c < 0x1_0000 {
      ThreeOctets(c);
    } else {
      FourOctets(c);
    }
    hide Utf8Of, InRange;
  }

  lemma TwoOctets(c: nat)
    requires 0x80 <= c < 0x800
    ensures var u := Utf8Of(c); |u| == 2 && 0xC2 <= u[0] <= 0xDF && 0x80 <= u[1] <= 0xBF
  {}

  lemma ThreeOctets(c: nat)
    requires 0x800 <= c < 0x1_0000 && IsScalar(c)
    ensures var u := Utf8Of(c);
      && |u| == 3 && 0xE0 <= u[0] <= 0xEF && 0x80 <= u[1] <= 0xBF && 0x80 <= u[2] <= 0xBF
      && (u[0] == 0xE0 ==> 0xA0 <= u[1]) && (u[0] == 0xED ==> u[1] <= 0x9F)
  {}

  lemma FourOctets(c: nat)
    requires 0x1_0000 <= c < 0x11_0000
    ensures var u := Utf8Of(c);
      && |u| == 4 && 0xF0 <= u[0] <= 0xF4 && 0x80 <= u[1] <= 0xBF && 0x80 <= u[2] <= 0xBF && 0x80 <= u[3] <= 0xBF
      && (u[0] == 0xF0 ==> 0x90 <= u[1]) && (u[0] == 0xF4 ==> u[1] <= 0x8F)
  {}

  lemma {:induction false} EncodedIsValid(text: seq<nat>)
    requires AllScalar(text)
    ensures ValidUtf8(Utf8OfAll(text))
  {
    if text != [] {
      EncodedIsValid(text[1..]);
      OneMoreIsValid(text[0], Utf8OfAll(text[1..]));
    }
  }

  /** Six bits at the end. */
  lemma SixBits(q: nat, r: nat)
    requires r < 64
    ensures (q * 64 + r) / 64 == q && (q * 64 + r) % 64 == r
  {}

  lemma FromTwo(a: nat, b: nat) returns (c: nat)
    requires 0xC2 <= a <= 0xDF && 0x80 <= b <= 0xBF
    ensures IsScalar(c) && Utf8Of(c) == [a, b]
  {
    c := (a - 0xC0) * 64 + (b - 0x80);
  }

  lemma FromThree(a: nat, b: nat, d: nat) returns (c: nat)
    requires 0xE0 <= a <= 0xEF && 0x80 <= b <= 0xBF && 0x80 <= d <= 0xBF
    requires (a == 0xE0 ==> 0xA0 <= b) && (a == 0xED ==> b <= 0x9F)
    ensures IsScalar(c) && Utf8Of(c) == [a, b, d]
  {
    var high := (a - 0xE0) * 64 + (b - 0x80);
    SixBits(a - 0xE0, b - 0x80);
    SixBits(high, d - 0x80);
    c := high * 64 + (d - 0x80);
  }

  lemma FromFour(a: nat, b: nat, d: nat, e: nat) returns (c: nat)
    requires 0xF0 <= a <= 0xF4 && 0x80 <= b <= 0xBF && 0x80 <= d <= 0xBF && 0x80 <= e <= 0xBF
    requires (a == 0xF0 ==> 0x90 <= b) && (a == 0xF4 ==> b <= 0x8F)
    ensures IsScalar(c) && Utf8Of(c) == [a, b, d, e]
  {
    var top := (a - 0xF0) * 64 + (b - 0x80);
    var high := top * 64 + (d - 0x80);
    SixBits(a - 0xF0, b - 0x80);
    SixBits(top, d - 0x80);
    SixBits(high, e - 0x80);
    c := high * 64 + (e - 0x80);
    assert 16 <= top < 272 && c / 64 == high && high / 64 == top && top / 64 == a - 0xF0;
  }

  /** The code point that well-formed octets start with. */
  lemma FirstCodePoint(s: octets) returns (c: nat)
    requires ValidUtf8(s) && s != []
    ensures IsScalar(c) && |Utf8Of(c)| <= |s| && s == Utf8Of(c) + s[|Utf8Of(c)|..]
    ensures ValidUtf8(s[|Utf8Of(c)|..])
  {
    hide Utf8Of, IsScalar;
    var n := 1;
    if s[0] < 0x80 {
      c := s[0];
      OneOctet(c);
    } else if s[0] <= 0xDF {
      n := 2;
      c := FromTwo(s[0], s[1]);
    } else if s[0] <= 0xEF {
      n := 3;
      c := FromThree(s[0], s[1], s[2]);
    } else {
      n := 4;
      c := FromFour(s[0], s[1], s[2], s[3]);
    }
    assert Utf8Of(c) == s[..n] && s == s[..n] + s[n..];
  }

  lemma OneOctet(c: nat)
    requires c < 0x80
    ensures IsScalar(c) && Utf8Of(c) == [c]
  {}

  lemma {:induction false} ValidIsEncoded(s: octets) returns (text: seq<nat>)
    requires ValidUtf8(s)
    ensures AllScalar(text) && Utf8OfAll(text) == s
    decreases |s|
  {
    if s == [] {
      text := [];
    } else {
      var c := FirstCodePoint(s);
      hide ValidUtf8, Utf8Of;
      var rest := ValidIsEncoded(s[|Utf8Of(c)|..]);
      text := [c] + rest;
      assert text[1..] == rest;
    }
  }

  /** Octets are well-formed iff they encode some sequence of scalar values. */
  lemma ValidUtf8Iff(s: octets)
    ensures ValidUtf8(s) <==> exists text :: AllScalar(text) && Utf8OfAll(text) == s
  {
    if ValidUtf8(s) {
      var text := ValidIsEncoded(s);
    }
    if text :| AllScalar(text) && Utf8OfAll(text) == s {
      EncodedIsValid(text);
    }
  }
}
