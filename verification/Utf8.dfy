/**
 UTF-8 (RFC 3629, section 3) for strings of Unicode scalar values.  `Encode` stands for Python's
 `str.encode("utf-8")`, `DecodeIgnore` for `bytes.decode("utf-8", "ignore")`.
 */
module Utf8 {
  import opened Outcomes

  type byte = b: int | 0 <= b < 256

  function EncodeChar(c: char): (bytes: seq<byte>)
    ensures 1 <= |bytes| <= 4
  {
    var n := c as int;
    if n < 0x80 then [n]
    else if n < 0x800 then [0xC0 + n / 64, 0x80 + n % 64]
    else if n < 0x10000 then [0xE0 + n / 4096, 0x80 + n / 64 % 64, 0x80 + n % 64]
    else [0xF0 + n / 262144, 0x80 + n / 4096 % 64, 0x80 + n / 64 % 64, 0x80 + n % 64]
  }

  /** Section 3 of RFC 3629: the length goes by the range, the lead byte tells it, each later byte carries six bits. */
  lemma EncodeCharIs(c: char)
    ensures var n, bs := c as int, EncodeChar(c);
            && |bs| == (if n <= 0x7F then 1 else if n <= 0x7FF then 2 else if n <= 0xFFFF then 3 else 4)
            && (forall k :: 1 <= k < |bs| ==> 0x80 <= bs[k] <= 0xBF)
            && match |bs|
               case 1 => bs[0] == n
               case 2 => 0xC2 <= bs[0] <= 0xDF && n == 64 * (bs[0] as int - 0xC0) + (bs[1] as int - 0x80)
               case 3 =>
                 && 0xE0 <= bs[0] <= 0xEF
                 && n == 4096 * (bs[0] as int - 0xE0) + 64 * (bs[1] as int - 0x80) + (bs[2] as int - 0x80)
               case _ =>
                 && 0xF0 <= bs[0] <= 0xF4
                 && n == 262144 * (bs[0] as int - 0xF0) + 4096 * (bs[1] as int - 0x80)
                         + 64 * (bs[2] as int - 0x80) + (bs[3] as int - 0x80)
  {
    var n := c as int;
    assert n / 4096 == n / 64 / 64 && n / 262144 == n / 64 / 64 / 64;
  }

  function Encode(s: string): seq<byte> {
    if s == "" then [] else EncodeChar(s[0]) + Encode(s[1..])
  }

  predicate IsContinuation(b: byte) {
    0x80 <= b < 0xC0
  }

  /** How many bytes a sequence with this lead byte has; 0 for a byte that cannot lead. */
  function LeadLength(b: byte): nat {
    if b < 0x80 then 1
    else if b < 0xC0 then 0
    else if b < 0xE0 then 2
    else if b < 0xF0 then 3
    else if b < 0xF8 then 4
    else 0
  }

  /** The six bits a continuation byte carries. */
  function Low(b: byte): int {
    b as int - 0x80
  }

  function ScalarOf(bs: seq<byte>): int
    requires |bs| > 0 && 1 <= LeadLength(bs[0]) <= |bs|
  {
    var n := LeadLength(bs[0]);
    if n == 1 then bs[0]
    else if n == 2 then (bs[0] as int - 0xC0) * 64 + Low(bs[1])
    else if n == 3 then (bs[0] as int - 0xE0) * 4096 + Low(bs[1]) * 64 + Low(bs[2])
    else (bs[0] as int - 0xF0) * 262144 + Low(bs[1]) * 4096 + Low(bs[2]) * 64 + Low(bs[3])
  }

  /** The shortest form is the only one allowed. */
  predicate InRange(length: nat, scalar: int) {
    && (0 <= scalar < 0xD800 || 0xE000 <= scalar < 0x110000)
    && (length == 2 ==> 0x80 <= scalar)
    && (length == 3 ==> 0x800 <= scalar)
    && (length == 4 ==> 0x10000 <= scalar)
  }

  /** The first character of a byte sequence, or None if it does not begin with a complete one. */
  function DecodeFirst(bs: seq<byte>): (r: Option<char>)
  {
    if bs == [] then None else
    var n := LeadLength(bs[0]);
    if n == 0 || |bs| < n then None
    else if exists i {:trigger bs[i]} :: 1 <= i < n && !IsContinuation(bs[i]) then None
    else if InRange(n, ScalarOf(bs)) then Some(ScalarOf(bs) as char)
    else None
  }

  function DecodeIgnore(bs: seq<byte>): string {
    if bs == [] then ""
    else match DecodeFirst(bs)
      case Some(c) => [c] + DecodeIgnore(bs[LeadLength(bs[0])..])
      case None => DecodeIgnore(bs[1..])
  }

  lemma DecodeFirstEncode(c: char, rest: seq<byte>)
    ensures LeadLength(EncodeChar(c)[0]) == |EncodeChar(c)|
    ensures DecodeFirst(EncodeChar(c) + rest) == Some(c)
  {
    var head := EncodeChar(c);
    var bs := head + rest;
    assert forall i :: 0 <= i < |head| ==> bs[i] == head[i];
    EncodeCharScalar(c, bs);
    assert InRange(|head|, c as int);
  }

  lemma EncodeCharScalar(c: char, bs: seq<byte>)
    requires EncodeChar(c) <= bs
    ensures LeadLength(bs[0]) == |EncodeChar(c)|
    ensures forall i {:trigger bs[i]} :: 1 <= i < |EncodeChar(c)| ==> IsContinuation(bs[i])
    ensures ScalarOf(bs) == c as int
  {
    var n := c as int;
    var head := EncodeChar(c);
    assert forall i :: 0 <= i < |head| ==> bs[i] == head[i];
    assert n == n / 64 * 64 + n % 64;
    assert n / 64 == n / 4096 * 64 + n / 64 % 64;
    assert n / 4096 == n / 262144 * 64 + n / 4096 % 64;
  }

  lemma {:induction false} DecodeEncode(s: string)
    ensures DecodeIgnore(Encode(s)) == s
  {
    if s != "" {
      var head := EncodeChar(s[0]);
      DecodeFirstEncode(s[0], Encode(s[1..]));
      assert Encode(s)[0] == head[0];
      assert Encode(s)[|head|..] == Encode(s[1..]);
      DecodeEncode(s[1..]);
    }
  }

  /** Distinct strings have distinct encodings. */
  lemma EncodeInjective(a: string, b: string)
    requires Encode(a) == Encode(b)
    ensures a == b
  {
    DecodeEncode(a);
    DecodeEncode(b);
  }

  // ---------- truncated encodings ----------

  /** The longest prefix whose encoding has at most `n` bytes. */
  function FloorPrefix(s: string, n: nat): (p: string)
    ensures p <= s
    ensures |Encode(p)| <= n
    ensures p < s ==> |Encode(p)| + |EncodeChar(s[|p|])| > n
  {
    if s == "" || |EncodeChar(s[0])| > n then ""
    else
      var p := FloorPrefix(s[1..], n - |EncodeChar(s[0])|);
      assert ([s[0]] + p)[1..] == p;
      [s[0]] + p
  }

  lemma DecodePartial(c: char, k: nat)
    requires k < |EncodeChar(c)|
    ensures DecodeIgnore(EncodeChar(c)[..k]) == ""
  {
    DecodeFirstEncode(c, []);
    var bs := EncodeChar(c)[..k];
    if k > 0 {
      assert bs[0] == EncodeChar(c)[0];
      assert DecodeFirst(bs) == None;
      ContinuationsDecodeToNothing(bs[1..]);
    }
  }

  lemma {:induction false} ContinuationsDecodeToNothing(bs: seq<byte>)
    requires forall b :: b in bs ==> IsContinuation(b)
    ensures DecodeIgnore(bs) == ""
  {
    if bs != [] {
      assert IsContinuation(bs[0]);
      ContinuationsDecodeToNothing(bs[1..]);
    }
  }

  /** Cutting an encoding after `n` bytes and decoding what is left keeps whole characters only. */
  lemma {:induction false} DecodeCut(s: string, n: nat)
    requires n <= |Encode(s)|
    ensures DecodeIgnore(Encode(s)[..n]) == FloorPrefix(s, n)
  {
    if s != "" {
      var head := EncodeChar(s[0]);
      if |head| > n {
        assert Encode(s)[..n] == head[..n];
        DecodePartial(s[0], n);
      } else {
        var tail := Encode(s[1..])[..n - |head|];
        assert Encode(s)[..n] == head + tail;
        DecodeFirstEncode(s[0], tail);
        assert (head + tail)[0] == head[0];
        assert (head + tail)[|head|..] == tail;
        DecodeCut(s[1..], n - |head|);
      }
    }
  }
}
