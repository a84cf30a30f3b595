/** UTF-8 as RFC 3629 (section 3) defines it: the encoder `str.encode('utf-8')` and a
    decoder with the `'ignore'` error handler, `bytes.decode('utf-8', 'ignore')`, which drops
    every byte that does not start or continue a well-formed character. */
module Utf8 {

  type Byte = x: int | 0 <= x < 256

  /** Bytes 0x80..0xBF continue a multi-byte character. */
  predicate IsCont(b: Byte) {
    0x80 <= b <= 0xBF
  }

  /** How many bytes the character `c` takes. */
  function CharLen(c: char): (n: nat)
    ensures 1 <= n <= 4
  {
    var v := c as int;
    if v < 0x80 then 1 else if v < 0x800 then 2 else if v < 0x10000 then 3 else 4
  }

  function EncodeChar(c: char): (r: seq<Byte>)
    ensures |r| == CharLen(c)
  {
    var v := c as int;
    if v < 0x80 then [v]
    else if v < 0x800 then [0xC0 + v / 64, 0x80 + v % 64]
    else if v < 0x10000 then [0xE0 + v / 4096, 0x80 + (v / 64) % 64, 0x80 + v % 64]
    else [0xF0 + v / 262144, 0x80 + (v / 4096) % 64, 0x80 + (v / 64) % 64, 0x80 + v % 64]
  }

  /** `s.encode('utf-8')`. */
  function Encode(s: string): (r: seq<Byte>)
  {
    if s == [] then [] else EncodeChar(s[0]) + Encode(s[1..])
  }

  /** The length of the sequence a lead byte announces; 0 for a byte that cannot start one. */
  function LeadLength(b: Byte): nat {
    if b < 0x80 then 1
    else if 0xC2 <= b <= 0xDF then 2
    else if 0xE0 <= b <= 0xEF then 3
    else if 0xF0 <= b <= 0xF4 then 4
    else 0
  }

  /** The code point a lead byte and its continuation bytes carry. */
  function CodePoint(b: seq<Byte>): int
    requires 1 <= |b| <= 4
  {
    var b0: int := b[0];
    if |b| == 1 then b0
    else if |b| == 2 then (b0 - 0xC0) * 64 + (b[1] as int - 0x80)
    else if |b| == 3 then ((b0 - 0xE0) * 64 + (b[1] as int - 0x80)) * 64 + (b[2] as int - 0x80)
    else (((b0 - 0xF0) * 64 + (b[1] as int - 0x80)) * 64 + (b[2] as int - 0x80)) * 64 + (b[3] as int - 0x80)
  }

  /** The shortest form rule and the scalar-value range of RFC 3629, section 3. */
  predicate WellFormedValue(v: int, n: nat) {
    if n == 1 then 0 <= v < 0x80
    else if n == 2 then 0x80 <= v < 0x800
    else if n == 3 then 0x800 <= v < 0x10000 && !(0xD800 <= v <= 0xDFFF)
    else n == 4 && 0x10000 <= v <= 0x10FFFF
  }

  /** `bytes.decode('utf-8', 'ignore')`. */
  function DecodeIgnore(b: seq<Byte>): string
    decreases |b|
  {
    if b == [] then []
    else
      var n := LeadLength(b[0]);
      if n == 0 || |b| < n || !(forall k :: 1 <= k < n ==> IsCont(b[k])) then DecodeIgnore(b[1..])
      else
        var v := CodePoint(b[..n]);
        if WellFormedValue(v, n) then [v as char] + DecodeIgnore(b[n..]) else DecodeIgnore(b[1..])
  }

  lemma EncodeCharShape(c: char)
    ensures LeadLength(EncodeChar(c)[0]) == CharLen(c)
    ensures forall k :: 1 <= k < CharLen(c) ==> IsCont(EncodeChar(c)[k])
    ensures CodePoint(EncodeChar(c)) == c as int
    ensures WellFormedValue(c as int, CharLen(c))
  {
    var v := c as int;
    if v >= 0x800 && v < 0x10000 {
      var q := v / 64;
      assert v == 64 * q + v % 64;
      assert q / 64 == v / 4096;
      assert q == 64 * (q / 64) + q % 64;
    } else if v >= 0x10000 {
      var q := v / 64;
      var q2 := q / 64;
      assert v == 64 * q + v % 64;
      assert q == 64 * q2 + q % 64;
      assert q2 == v / 4096;
      assert q2 / 64 == v / 262144;
      assert q2 == 64 * (q2 / 64) + q2 % 64;
    }
  }

  /** A well-formed character decodes to itself, whatever follows it. */
  lemma DecodeCharThen(c: char, rest: seq<Byte>)
    ensures DecodeIgnore(EncodeChar(c) + rest) == [c] + DecodeIgnore(rest)
  {
    var e := EncodeChar(c);
    var b := e + rest;
    EncodeCharShape(c);
    assert b[0] == e[0];
    assert b[..CharLen(c)] == e;
    assert b[CharLen(c)..] == rest;
    assert forall k :: 1 <= k < CharLen(c) ==> b[k] == e[k];
  }

  lemma {:induction false} DecodeContinuations(b: seq<Byte>)
    requires forall k :: 0 <= k < |b| ==> IsCont(b[k])
    ensures DecodeIgnore(b) == []
    decreases |b|
  {
    if b != [] {
      DecodeContinuations(b[1..]);
    }
  }

  /** The first `k` bytes of a character that needs more than `k` decode to nothing. */
  lemma CutCharDecodesEmpty(c: char, k: nat)
    requires 0 < k < CharLen(c)
    ensures DecodeIgnore(EncodeChar(c)[..k]) == []
  {
    var b := EncodeChar(c)[..k];
    EncodeCharShape(c);
    assert LeadLength(b[0]) > |b|;
    DecodeContinuations(b[1..]);
  }

  /** The longest prefix of `s` whose encoding takes at most `k` bytes. */
  function Fit(s: string, k: int): (r: string)
    ensures r <= s
  {
    if s == [] || CharLen(s[0]) > k then [] else [s[0]] + Fit(s[1..], k - CharLen(s[0]))
  }

  lemma {:induction false} EncodeAppend(a: string, b: string)
    ensures Encode(a + b) == Encode(a) + Encode(b)
  {
    if a != [] {
      assert (a + b)[0] == a[0];
      assert (a + b)[1..] == a[1..] + b;
      EncodeAppend(a[1..], b);
      calc {
        Encode(a + b);
        EncodeChar(a[0]) + Encode(a[1..] + b);
        EncodeChar(a[0]) + (Encode(a[1..]) + Encode(b));
        (EncodeChar(a[0]) + Encode(a[1..])) + Encode(b);
      }
    } else {
      assert a + b == b;
    }
  }

  lemma {:induction false} FitBound(s: string, k: int)
    requires k >= 0
    ensures |Encode(Fit(s, k))| <= k
    ensures |Encode(s)| <= k ==> Fit(s, k) == s
    ensures Fit(s, k) != s ==> |Encode(Fit(s, k))| + CharLen(s[|Fit(s, k)|]) > k
  {
    if s != [] && CharLen(s[0]) <= k {
      FitBound(s[1..], k - CharLen(s[0]));
      var f := Fit(s[1..], k - CharLen(s[0]));
      assert Encode([s[0]] + f) == EncodeChar(s[0]) + Encode(f) by {
        assert ([s[0]] + f)[1..] == f;
      }
      assert Fit(s, k) == [s[0]] + f;
      if Fit(s, k) != s {
        assert f != s[1..];
        assert s[|Fit(s, k)|] == s[1..][|f|];
      }
    }
  }

  /** Cutting the encoding after `k` bytes and decoding with 'ignore' gives the longest
      prefix of `s` that fits in `k` bytes: a partial trailing character is dropped. */
  lemma {:induction false} DecodeEncodedPrefix(s: string, k: nat)
    requires k <= |Encode(s)|
    ensures DecodeIgnore(Encode(s)[..k]) == Fit(s, k)
  {
    if s != [] {
      var e, t := EncodeChar(s[0]), Encode(s[1..]);
      assert Encode(s) == e + t;
      if CharLen(s[0]) <= k {
        assert Encode(s)[..k] == e + t[..k - |e|];
        DecodeCharThen(s[0], t[..k - |e|]);
        DecodeEncodedPrefix(s[1..], k - |e|);
      } else if k > 0 {
        assert Encode(s)[..k] == e[..k];
        CutCharDecodesEmpty(s[0], k);
      }
    }
  }

  /** Decoding undoes encoding. */
  lemma DecodeEncode(s: string)
    ensures DecodeIgnore(Encode(s)) == s
  {
    DecodeEncodedPrefix(s, |Encode(s)|);
    FitBound(s, |Encode(s)|);
    assert Encode(s)[..|Encode(s)|] == Encode(s);
  }
}
