/** Octet strings: big-endian integers, windows into a buffer, and well-formed UTF-8. */
module Octets {
  import opened Results

  type octet = n: int | 0 <= n < 256
  type octets = seq<octet>

  /** 256 to the power `w`: the number of values `w` octets can hold. */
  function Pow256(w: nat): (p: nat)
    ensures 0 < p
  {
    if w == 0 then 1 else 256 * Pow256(w - 1)
  }

  /** `n.to_bytes(w, "big")`, keeping the low `w` octets. */
  function BigEndian(n: nat, w: nat): (s: octets)
    ensures |s| == w
  {
    if w == 0 then [] else BigEndian(n / 256, w - 1) + [n % 256]
  }

  /** `int.from_bytes(s, "big")`. */
  function FromBigEndian(s: octets): nat {
    if s == [] then 0 else FromBigEndian(s[..|s| - 1]) * 256 + s[|s| - 1]
  }

  lemma {:induction false} BigEndianRoundTrip(n: nat, w: nat)
    requires n < Pow256(w)
    ensures FromBigEndian(BigEndian(n, w)) == n
  {
    if w != 0 {
      BigEndianRoundTrip(n / 256, w - 1);
      assert BigEndian(n, w)[..w - 1] == BigEndian(n / 256, w - 1);
    }
  }

  lemma {:induction false} FromBigEndianRoundTrip(s: octets)
    ensures FromBigEndian(s) < Pow256(|s|)
    ensures BigEndian(FromBigEndian(s), |s|) == s
  {
    if s != [] {
      FromBigEndianRoundTrip(s[..|s| - 1]);
      assert s == s[..|s| - 1] + [s[|s| - 1]];
    }
  }

  /** The octets are the base-256 digits, the most significant one first. */
  lemma {:induction false} BigEndianDigits(n: nat, w: nat, i: nat)
    requires i < w
    ensures BigEndian(n, w)[i] == n / Pow256(w - 1 - i) % 256
  {
    if i < w - 1 {
      BigEndianDigits(n / 256, w - 1, i);
      DivideTwice(n, Pow256(w - 2 - i));
    }
  }

  lemma DivideTwice(n: nat, d: nat)
    requires 0 < d
    ensures n / 256 / d == n / (256 * d)
  {
    var q, r := n / (256 * d), n % (256 * d);
    var a, b := r / 256, r % 256;
    assert r < 256 * d && r == a * 256 + b;
    assert a < d by {
      assert a * 256 < d * 256;
    }
    assert n == q * (256 * d) + r == (q * d + a) * 256 + b;
    assert n / 256 == q * d + a;
    QuotientIs(q * d + a, d, q, a);
  }

  lemma QuotientIs(n: nat, d: nat, q: nat, r: nat)
    requires 0 < d && n == q * d + r && r < d
    ensures n / d == q
  {
    var q', r' := n / d, n % d;
    assert q' * d + r' == q * d + r;
    assert (q' - q) * d == r - r' && (q - q') * d == r' - r;
    if q < q' {
      Multiple(q' - q, d);
    } else if q' < q {
      Multiple(q - q', d);
    }
  }

  lemma Multiple(k: nat, d: nat)
    requires 0 < k
    ensures d <= k * d
  {
    assert k * d == d + (k - 1) * d;
  }

  /** `n.to_bytes(w, "big")`, which raises when `n` does not fit. */
  function ToBytes(n: int, w: nat): (r: Result<octets>)
    ensures r.Ok? ==> |r.value| == w
  {
    if 0 <= n < Pow256(w) then Ok(BigEndian(n, w)) else Err(OutOfRange)
  }

  /** `n.to_bytes(w, "big", signed=True)`: two's complement. */
  function ToBytesSigned(n: int, w: nat): (r: Result<octets>)
    ensures r.Ok? ==> |r.value| == w
  {
    if 0 <= 2 * n + Pow256(w) && 2 * n < Pow256(w)
    then Ok(BigEndian(if n < 0 then n + Pow256(w) else n, w))
    else Err(OutOfRange)
  }

  /** `int.from_bytes(s, "big", signed=True)`. */
  function FromBigEndianSigned(s: octets): int {
    var n := FromBigEndian(s);
    if 2 * n < Pow256(|s|) then n else n - Pow256(|s|)
  }

  lemma SignedRoundTrip(n: int, w: nat)
    requires ToBytesSigned(n, w).Ok?
    ensures FromBigEndianSigned(ToBytesSigned(n, w).value) == n
  {
    BigEndianRoundTrip(if n < 0 then n + Pow256(w) else n, w);
  }

  /** The first octet counts most. */
  lemma {:induction false} FirstOctet(s: octets)
    requires s != []
    ensures FromBigEndian(s) == s[0] * Pow256(|s| - 1) + FromBigEndian(s[1..])
  {
    var n := |s| - 1;
    if n > 0 {
      FirstOctet(s[..n]);
      assert s[..n][1..] == s[1..][..n - 1] && s[1..][n - 1] == s[n];
    }
  }

  /** Two's complement: a first octet of 128 or more makes the number negative. */
  lemma SignBit(s: octets)
    requires s != []
    ensures FromBigEndianSigned(s) == FromBigEndian(s) - if s[0] >= 128 then Pow256(|s|) else 0
  {
    FirstOctet(s);
    FromBigEndianRoundTrip(s[1..]);
    assert Pow256(|s|) == 256 * Pow256(|s| - 1);
    hide FromBigEndian, Pow256;
    HalfOrMore(s[0], Pow256(|s| - 1), FromBigEndian(s[1..]));
  }

  lemma HalfOrMore(first: octet, p: nat, rest: nat)
    requires rest < p
    ensures 2 * (first * p + rest) < 256 * p <==> first < 128
  {
    if first < 128 {
      assert first * p <= 127 * p;
    } else {
      assert first * p >= 128 * p;
    }
  }

  lemma PowersOf256()
    ensures Pow256(1) == 256 && Pow256(2) == 0x1_0000 && Pow256(4) == 0x1_0000_0000
    ensures Pow256(8) == 0x1_0000_0000_0000_0000
  {
    assert Pow256(3) == 256 * Pow256(2);
    assert Pow256(4) == 256 * Pow256(3);
    assert Pow256(5) == 256 * Pow256(4);
    assert Pow256(6) == 256 * Pow256(5);
    assert Pow256(7) == 256 * Pow256(6);
    assert Pow256(8) == 256 * Pow256(7);
  }

  /** The window of `data` that starts at `pos` holds exactly `s`. */
  predicate At(data: octets, pos: nat, s: octets) {
    pos + |s| <= |data| && data[pos..pos + |s|] == s
  }

  /** Two adjacent windows are one window. */
  lemma AtSplit(data: octets, pos: nat, s: octets, t: octets)
    ensures At(data, pos, s + t) <==> At(data, pos, s) && At(data, pos + |s|, t)
  {
    if At(data, pos, s + t) {
      assert s == (s + t)[..|s|] == data[pos..pos + |s|];
      assert t == (s + t)[|s|..] == data[pos + |s|..pos + |s + t|];
    }
    if At(data, pos, s) && At(data, pos + |s|, t) {
      assert data[pos..pos + |s + t|] == data[pos..pos + |s|] + data[pos + |s|..pos + |s + t|];
    }
  }

  /** Python's `s[a:b]`, which clips both bounds to the length. */
  function Slice(s: octets, a: nat, b: nat): octets
    requires a <= b
  {
    if |s| <= a then [] else if |s| <= b then s[a..] else s[a..b]
  }

  lemma SliceAt(data: octets, pos: nat, s: octets)
    requires At(data, pos, s)
    ensures Slice(data, pos, pos + |s|) == s
  {}

  predicate InRange(s: octets, k: nat, lo: octet, hi: octet) {
    k < |s| && lo <= s[k] <= hi
  }

  /** The octets a Python `str` encodes to: well-formed UTF-8.  `str.encode` raises on
      lone surrogates and `bytes.decode` on everything else this predicate excludes. */
  predicate ValidUtf8(s: octets) {
    if s == [] then true
    else if s[0] < 0x80 then ValidUtf8(s[1..])
    else if 0xC2 <= s[0] <= 0xDF then
      InRange(s, 1, 0x80, 0xBF) && ValidUtf8(s[2..])
    else if 0xE0 <= s[0] <= 0xEF then
      && InRange(s, 1, if s[0] == 0xE0 then 0xA0 else 0x80, if s[0] == 0xED then 0x9F else 0xBF)
      && InRange(s, 2, 0x80, 0xBF) && ValidUtf8(s[3..])
    else if 0xF0 <= s[0] <= 0xF4 then
      && InRange(s, 1, if s[0] == 0xF0 then 0x90 else 0x80, if s[0] == 0xF4 then 0x8F else 0xBF)
      && InRange(s, 2, 0x80, 0xBF) && InRange(s, 3, 0x80, 0xBF) && ValidUtf8(s[4..])
    else false
  }
}
