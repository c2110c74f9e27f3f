/** UTF-8, as Python's codec applies it: `str.encode('utf-8')`, strict
    `bytes.decode('utf-8')`, and `decode('utf-8', 'replace')`, which puts
    one U+FFFD in place of each maximal ill-formed subsequence. */
module Utf8 {
  import opened Wrappers

  type byte = x: int | 0 <= x < 256

  function EncodeChar(c: char): (r: seq<byte>)
    ensures 1 <= |r| <= 4
  {
    var n := c as int;
    if n < 0x80 then [n]
    else if n < 0x800 then [0xC0 + n / 64, 0x80 + n % 64]
    else if n < 0x10000 then [0xE0 + n / 4096, 0x80 + (n / 64) % 64, 0x80 + n % 64]
    else [0xF0 + n / 0x40000, 0x80 + (n / 4096) % 64, 0x80 + (n / 64) % 64, 0x80 + n % 64]
  }

  function Encode(s: string): seq<byte> {
    if s == [] then [] else EncodeChar(s[0]) + Encode(s[1..])
  }

  /** What a lead byte announces: the sequence length (0 for a byte that
      cannot start one) and the range allowed for the second byte. */
  datatype Lead = Lead(len: nat, lo: int, hi: int)

  function LeadOf(x: byte): Lead {
    if 0xC2 <= x <= 0xDF then Lead(2, 0x80, 0xBF)
    else if x == 0xE0 then Lead(3, 0xA0, 0xBF)
    else if 0xE1 <= x <= 0xEC || 0xEE <= x <= 0xEF then Lead(3, 0x80, 0xBF)
    else if x == 0xED then Lead(3, 0x80, 0x9F)
    else if x == 0xF0 then Lead(4, 0x90, 0xBF)
    else if 0xF1 <= x <= 0xF3 then Lead(4, 0x80, 0xBF)
    else if x == 0xF4 then Lead(4, 0x80, 0x8F)
    else Lead(0, 0, 0)
  }

  predicate IsCont(x: byte) { 0x80 <= x <= 0xBF }

  function Scalar2(x: int, y: int): int { (x - 0xC0) * 64 + (y - 0x80) }
  function Scalar3(x: int, y: int, z: int): int { (x - 0xE0) * 4096 + (y - 0x80) * 64 + (z - 0x80) }
  function Scalar4(x: int, y: int, z: int, w: int): int {
    (x - 0xF0) * 0x40000 + (y - 0x80) * 4096 + (z - 0x80) * 64 + (w - 0x80)
  }

  /** One decoding step: the character read, or None for an ill-formed
      subsequence, and how many bytes it covers. */
  datatype Step = Step(ch: Option<char>, size: nat)

  function DecodeStep(b: seq<byte>): (r: Step)
    requires |b| > 0
    ensures 1 <= r.size <= |b|
  {
    var x := b[0];
    var l := LeadOf(x);
    if x < 0x80 then Step(Some(x as char), 1)
    else if l.len == 0 || |b| < 2 || !(l.lo <= b[1] <= l.hi) then Step(None, 1)
    else if l.len == 2 then Step(Some(Scalar2(x, b[1]) as char), 2)
    else if |b| < 3 || !IsCont(b[2]) then Step(None, 2)
    else if l.len == 3 then Step(Some(Scalar3(x, b[1], b[2]) as char), 3)
    else if |b| < 4 || !IsCont(b[3]) then Step(None, 3)
    else Step(Some(Scalar4(x, b[1], b[2], b[3]) as char), 4)
  }

  /** Strict decoding: None when the bytes are not well-formed UTF-8. */
  function Decode(b: seq<byte>): Option<string>
    decreases |b|
  {
    if b == [] then Some("")
    else
      var st := DecodeStep(b);
      match st.ch
      case None => None
      case Some(c) =>
        match Decode(b[st.size..])
        case None => None
        case Some(rest) => Some([c] + rest)
  }

  /** Decoding with the 'replace' error handler. */
  function DecodeReplace(b: seq<byte>): string
    decreases |b|
  {
    if b == [] then ""
    else
      var st := DecodeStep(b);
      [st.ch.GetOr('\U{FFFD}')] + DecodeReplace(b[st.size..])
  }

  lemma Encode2(n: int)
    requires 0x80 <= n < 0x800
    ensures 0xC2 <= 0xC0 + n / 64 <= 0xDF && IsCont(0x80 + n % 64)
    ensures Scalar2(0xC0 + n / 64, 0x80 + n % 64) == n
  {
  }

  lemma Encode3(n: int)
    requires 0x800 <= n < 0x10000 && !(0xD800 <= n < 0xE000)
    ensures var l := LeadOf(0xE0 + n / 4096);
      l.len == 3 && l.lo <= 0x80 + (n / 64) % 64 <= l.hi
    ensures Scalar3(0xE0 + n / 4096, 0x80 + (n / 64) % 64, 0x80 + n % 64) == n
  {
    var a, m := n / 4096, n % 4096;
    assert n == a * 4096 + m && 0 <= m < 4096;
    DivMod64(n, a * 64 + m / 64, m % 64);
    DivMod64(n / 64, a, m / 64);
  }

  lemma Encode4(n: int)
    requires 0x10000 <= n < 0x110000
    ensures var l := LeadOf(0xF0 + n / 0x40000);
      l.len == 4 && l.lo <= 0x80 + (n / 4096) % 64 <= l.hi
    ensures Scalar4(0xF0 + n / 0x40000, 0x80 + (n / 4096) % 64, 0x80 + (n / 64) % 64, 0x80 + n % 64) == n
  {
    var a, m := n / 0x40000, n % 0x40000;
    assert n == a * 0x40000 + m && 0 <= m < 0x40000;
    var b, k := m / 4096, m % 4096;
    assert m == b * 4096 + k && 0 <= k < 4096;
    DivMod4096(n, a * 64 + b, k);
    DivMod64(n / 4096, a, b);
    DivMod64(n, (a * 64 + b) * 64 + k / 64, k % 64);
    DivMod64(n / 64, a * 64 + b, k / 64);
  }

  lemma DivMod64(n: int, q: int, r: int)
    requires 0 <= r < 64 && n == q * 64 + r
    ensures n / 64 == q && n % 64 == r
  {
  }

  lemma DivMod4096(n: int, q: int, r: int)
    requires 0 <= r < 4096 && n == q * 4096 + r
    ensures n / 4096 == q && n % 4096 == r
  {
  }

  lemma DecodeStepEncodeChar(c: char, rest: seq<byte>)
    ensures DecodeStep(EncodeChar(c) + rest) == Step(Some(c), |EncodeChar(c)|)
  {
    var n := c as int;
    if 0x80 <= n < 0x800 {
      DecodeTwo(c, rest);
    } else if 0x800 <= n < 0x10000 {
      DecodeThree(c, rest);
    } else if 0x10000 <= n {
      DecodeFour(c, rest);
    }
  }

  lemma DecodeTwo(c: char, rest: seq<byte>)
    requires 0x80 <= c as int < 0x800
    ensures DecodeStep(EncodeChar(c) + rest) == Step(Some(c), 2)
  {
    var n := c as int;
    Encode2(n);
    var b := EncodeChar(c) + rest;
    assert b[0] == 0xC0 + n / 64 && b[1] == 0x80 + n % 64;
  }

  lemma DecodeThree(c: char, rest: seq<byte>)
    requires 0x800 <= c as int < 0x10000
    ensures DecodeStep(EncodeChar(c) + rest) == Step(Some(c), 3)
  {
    var n := c as int;
    Encode3(n);
    var b := EncodeChar(c) + rest;
    assert b[0] == 0xE0 + n / 4096 && b[1] == 0x80 + (n / 64) % 64 && b[2] == 0x80 + n % 64;
  }

  lemma DecodeFour(c: char, rest: seq<byte>)
    requires 0x10000 <= c as int
    ensures DecodeStep(EncodeChar(c) + rest) == Step(Some(c), 4)
  {
    var n := c as int;
    Encode4(n);
    var b := EncodeChar(c) + rest;
    assert b[0] == 0xF0 + n / 0x40000 && b[1] == 0x80 + (n / 4096) % 64;
    assert b[2] == 0x80 + (n / 64) % 64 && b[3] == 0x80 + n % 64;
  }

  /** Text encoded by Python decodes back to itself, in strict and in
      'replace' mode alike. */
  lemma {:induction false} DecodeEncode(s: string)
    ensures Decode(Encode(s)) == Some(s)
    ensures DecodeReplace(Encode(s)) == s
  {
    if s != [] {
      var e := EncodeChar(s[0]);
      var rest := Encode(s[1..]);
      assert Encode(s) == e + rest;
      DecodeStepEncodeChar(s[0], rest);
      assert (e + rest)[|e|..] == rest;
      DecodeEncode(s[1..]);
      assert [s[0]] + s[1..] == s;
    }
  }

  /** ASCII bytes decode one character each, in either mode. */
  lemma {:induction false} DecodeReplaceAscii(b: seq<byte>)
    requires forall i :: 0 <= i < |b| ==> b[i] < 0x80
    ensures |DecodeReplace(b)| == |b|
    ensures forall i :: 0 <= i < |b| ==> DecodeReplace(b)[i] as int == b[i]
  {
    if b != [] {
      DecodeReplaceAscii(b[1..]);
    }
  }
}
