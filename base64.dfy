/** The base64 encoding of section 4 of RFC 4648, as PHP's `base64_encode`
    produces it for the uploaded file before it is placed in the request to
    the analysis API. The decoder is the strict one of the same section
    (canonical padding bits, `=` only at the end); it is here as the
    encoder's inverse, so that "the request carries the uploaded bytes"
    can be stated as a round trip.

    Both directions go through 6-bit digits: bytes <-> digits is the
    arithmetic, digits <-> characters is Table 1 of the RFC. */
module Base64 {
  import opened Common

  /** A 6-bit value, or `Pad` = 64 for the pad character `=`. */
  type Digit = x: nat | x <= 64
  const Pad: Digit := 64

  // ---- digits <-> characters ----

  /** The character for a digit (Table 1 of RFC 4648, and `=` for Pad). */
  function Symbol(d: Digit): (c: char)
  {
    if d < 26 then (65 + d) as char
    else if d < 52 then (97 + d - 26) as char
    else if d < 62 then (48 + d - 52) as char
    else if d == 62 then '+'
    else if d == 63 then '/'
    else '='
  }

  /** The digit of a character; None for a character outside the alphabet. */
  function SymbolValue(c: char): (r: Option<Digit>)
    ensures r.Some? ==> Symbol(r.value) == c
  {
    if 'A' <= c <= 'Z' then Some(c as nat - 65)
    else if 'a' <= c <= 'z' then Some(c as nat - 97 + 26)
    else if '0' <= c <= '9' then Some(c as nat - 48 + 52)
    else if c == '+' then Some(62)
    else if c == '/' then Some(63)
    else if c == '=' then Some(Pad)
    else None
  }

  lemma SymbolValueOfSymbol(d: Digit)
    ensures SymbolValue(Symbol(d)) == Some(d)
  {
  }

  function Symbols(ds: seq<Digit>): (s: string)
    ensures |s| == |ds|
  {
    if ds == [] then [] else [Symbol(ds[0])] + Symbols(ds[1..])
  }

  function Values(s: string): (r: Option<seq<Digit>>)
  {
    if s == [] then Some([])
    else match (SymbolValue(s[0]), Values(s[1..]))
      case (Some(d), Some(ds)) => Some([d] + ds)
      case _ => None
  }

  lemma {:induction false} ValuesOfSymbols(ds: seq<Digit>)
    ensures Values(Symbols(ds)) == Some(ds)
  {
    if ds != [] {
      var s := Symbols(ds);
      assert s[0] == Symbol(ds[0]) && s[1..] == Symbols(ds[1..]);
      SymbolValueOfSymbol(ds[0]);
      ValuesOfSymbols(ds[1..]);
      assert [ds[0]] + ds[1..] == ds;
    }
  }

  // ---- bytes <-> digits ----

  /** Three bytes become four digits. */
  function Group(a: byte, b: byte, c: byte): seq<Digit>
  {
    [a as nat / 4, a as nat % 4 * 16 + b as nat / 16, b as nat % 16 * 4 + c as nat / 64, c as nat % 64]
  }

  /** A final group of two bytes: three digits and one pad. */
  function GroupOfTwo(a: byte, b: byte): seq<Digit>
  {
    [a as nat / 4, a as nat % 4 * 16 + b as nat / 16, b as nat % 16 * 4, Pad]
  }

  /** A final group of one byte: two digits and two pads. */
  function GroupOfOne(a: byte): seq<Digit>
  {
    [a as nat / 4, a as nat % 4 * 16, Pad, Pad]
  }

  /** Four digits for every started group of three bytes. */
  function Digits(bytes: seq<byte>): (ds: seq<Digit>)
    ensures |ds| == 4 * ((|bytes| + 2) / 3)
  {
    if |bytes| == 0 then []
    else if |bytes| == 1 then GroupOfOne(bytes[0])
    else if |bytes| == 2 then GroupOfTwo(bytes[0], bytes[1])
    else Group(bytes[0], bytes[1], bytes[2]) + Digits(bytes[3..])
  }

  /** Four digits without padding back to three bytes. */
  function Ungroup(d0: Digit, d1: Digit, d2: Digit, d3: Digit): (r: Option<seq<byte>>)
  {
    if d0 < 64 && d1 < 64 && d2 < 64 && d3 < 64 then
      Some([(d0 * 4 + d1 / 16) as byte, (d1 % 16 * 16 + d2 / 4) as byte, (d2 % 4 * 64 + d3) as byte])
    else None
  }

  /** The last four digits: a full group, or one or two bytes followed by
      padding, with the unused low bits zero. */
  function UngroupLast(d0: Digit, d1: Digit, d2: Digit, d3: Digit): (r: Option<seq<byte>>)
  {
    if d0 < 64 && d1 < 64 && d2 == Pad && d3 == Pad then
      if d1 % 16 == 0 then Some([(d0 * 4 + d1 / 16) as byte]) else None
    else if d0 < 64 && d1 < 64 && d2 < 64 && d3 == Pad then
      if d2 % 4 == 0 then Some([(d0 * 4 + d1 / 16) as byte, (d1 % 16 * 16 + d2 / 4) as byte]) else None
    else Ungroup(d0, d1, d2, d3)
  }

  function Undigits(ds: seq<Digit>): (r: Option<seq<byte>>)
    decreases |ds|
  {
    if |ds| == 0 then Some([])
    else if |ds| < 4 then None
    else if |ds| == 4 then UngroupLast(ds[0], ds[1], ds[2], ds[3])
    else match (Ungroup(ds[0], ds[1], ds[2], ds[3]), Undigits(ds[4..]))
      case (Some(head), Some(tail)) => Some(head + tail)
      case _ => None
  }

  /** Division by a constant undoes the placement of a digit in front of
      a smaller remainder. */
  lemma Split(q: nat, r: nat, n: nat)
    requires n in {4, 16, 64} && r < n
    ensures (q * n + r) / n == q && (q * n + r) % n == r
  {
    if n == 4 {
      assert (q * 4 + r) / 4 == q;
    } else if n == 16 {
      assert (q * 16 + r) / 16 == q;
    } else {
      assert (q * 64 + r) / 64 == q;
    }
  }

  lemma GroupRoundTrip(a: byte, b: byte, c: byte)
    ensures var g := Group(a, b, c); Ungroup(g[0], g[1], g[2], g[3]) == Some([a, b, c])
  {
    var g := Group(a, b, c);
    Split(a as nat % 4, b as nat / 16, 16);
    Split(b as nat % 16, c as nat / 64, 4);
    assert g[0] as nat * 4 + g[1] as nat / 16 == a as nat;
    assert g[1] as nat % 16 * 16 + g[2] as nat / 4 == b as nat;
    assert g[2] as nat % 4 * 64 + g[3] as nat == c as nat;
  }

  lemma GroupOfTwoRoundTrip(a: byte, b: byte)
    ensures var g := GroupOfTwo(a, b); UngroupLast(g[0], g[1], g[2], g[3]) == Some([a, b])
  {
    var g := GroupOfTwo(a, b);
    var hi, mid, lo := a as nat % 4, b as nat / 16, b as nat % 16;
    assert g == [a as nat / 4, hi * 16 + mid, lo * 4, Pad];
    Split(hi, mid, 16);
    Split(lo, 0, 4);
    assert g[0] < 64 && g[1] < 64 && g[2] < 64 && g[2] % 4 == 0;
    assert g[0] as nat * 4 + g[1] as nat / 16 == a as nat;
    assert g[1] as nat % 16 * 16 + g[2] as nat / 4 == b as nat;
  }

  lemma GroupOfOneRoundTrip(a: byte)
    ensures var g := GroupOfOne(a); UngroupLast(g[0], g[1], g[2], g[3]) == Some([a])
  {
    var g := GroupOfOne(a);
    Split(a as nat % 4, 0, 16);
    assert g[0] as nat * 4 + g[1] as nat / 16 == a as nat;
  }

  lemma {:induction false} UndigitsShort(bytes: seq<byte>)
    requires |bytes| <= 3
    ensures Undigits(Digits(bytes)) == Some(bytes)
  {
    if |bytes| == 1 {
      GroupOfOneRoundTrip(bytes[0]);
      assert [bytes[0]] == bytes;
    } else if |bytes| == 2 {
      GroupOfTwoRoundTrip(bytes[0], bytes[1]);
      assert [bytes[0], bytes[1]] == bytes;
    } else if |bytes| == 3 {
      assert Digits(bytes) == Group(bytes[0], bytes[1], bytes[2]) + Digits([]);
      GroupRoundTrip(bytes[0], bytes[1], bytes[2]);
      assert [bytes[0], bytes[1], bytes[2]] == bytes;
    }
  }

  lemma {:induction false} UndigitsDigits(bytes: seq<byte>)
    ensures Undigits(Digits(bytes)) == Some(bytes)
    decreases |bytes|
  {
    if |bytes| <= 3 {
      UndigitsShort(bytes);
    } else {
      var rest := bytes[3..];
      var head := Group(bytes[0], bytes[1], bytes[2]);
      var tail := Digits(rest);
      var ds := Digits(bytes);
      assert ds == head + tail;
      assert |tail| >= 4;
      assert ds[4..] == tail;
      assert ds[0] == head[0] && ds[1] == head[1] && ds[2] == head[2] && ds[3] == head[3];
      GroupRoundTrip(bytes[0], bytes[1], bytes[2]);
      UndigitsDigits(rest);
      assert [bytes[0], bytes[1], bytes[2]] + rest == bytes;
    }
  }

  // ---- the encoding ----

  /** `base64_encode`. */
  function Encode(bytes: seq<byte>): (s: string)
    ensures |s| == 4 * ((|bytes| + 2) / 3)
  {
    Symbols(Digits(bytes))
  }

  /** Strict RFC 4648 decoding. */
  function Decode(s: string): (r: Option<seq<byte>>)
  {
    match Values(s)
    case Some(ds) => Undigits(ds)
    case None => None
  }

  /** Decoding what was encoded gives back exactly the uploaded bytes. */
  lemma DecodeEncode(bytes: seq<byte>)
    ensures Decode(Encode(bytes)) == Some(bytes)
  {
    ValuesOfSymbols(Digits(bytes));
    UndigitsDigits(bytes);
  }
}
