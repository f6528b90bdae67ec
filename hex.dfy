/**
  The UID text of a scanned tag: the tag-code bytes put through Node's
  `Buffer.toString("hex")` and then `String.prototype.toUpperCase()`
  (index.js:66, 71, 74), with an independent decoder as its inverse.
 */
module Hex {
  import opened Wrappers

  /** One byte of a Node.js Buffer. */
  type byte = b: int | 0 <= b < 256

  predicate IsUpperHexDigit(c: char) {
    '0' <= c <= '9' || 'A' <= c <= 'F'
  }

  predicate IsLowerHexDigit(c: char) {
    '0' <= c <= '9' || 'a' <= c <= 'f'
  }

  /** Value of an upper-case hexadecimal digit; None for any other character. */
  function UpperDigitValue(c: char): (v: Option<nat>)
    ensures v.Some? <==> IsUpperHexDigit(c)
    ensures v.Some? ==> v.value < 16
  {
    if '0' <= c <= '9' then Some(c as int - '0' as int)
    else if 'A' <= c <= 'F' then Some(c as int - 'A' as int + 10)
    else None
  }

  /** The upper-case digit of a nibble. */
  function UpperDigit(n: nat): (c: char)
    requires n < 16
    ensures IsUpperHexDigit(c)
    ensures UpperDigitValue(c) == Some(n)
  {
    if n < 10 then ('0' as int + n) as char else ('A' as int + n - 10) as char
  }

  /** The lower-case digit of a nibble, as `Buffer.toString("hex")` writes it. */
  function LowerDigit(n: nat): (c: char)
    requires n < 16
    ensures IsLowerHexDigit(c)
    ensures UpperCase(c) == UpperDigit(n)
  {
    if n < 10 then ('0' as int + n) as char else ('a' as int + n - 10) as char
  }

  /** `toUpperCase` on one character, for the ASCII letters (the only ones hex text holds). */
  function UpperCase(c: char): (u: char)
    ensures !('a' <= u <= 'z')
    ensures !('a' <= c <= 'z') ==> u == c
  {
    if 'a' <= c <= 'z' then (c as int - 32) as char else c
  }

  /** `String.prototype.toUpperCase`, character by character. */
  function ToUpperCase(s: string): (r: string)
    ensures |r| == |s|
    ensures forall i :: 0 <= i < |s| ==> r[i] == UpperCase(s[i])
  {
    if s == [] then [] else [UpperCase(s[0])] + ToUpperCase(s[1..])
  }

  /** `Buffer.toString("hex")`: two lower-case digits per byte, high nibble first. */
  function BufferHex(bs: seq<byte>): (s: string)
    ensures |s| == 2 * |bs|
    ensures forall i :: 0 <= i < |s| ==> IsLowerHexDigit(s[i])
  {
    if bs == [] then [] else [LowerDigit(bs[0] / 16), LowerDigit(bs[0] % 16)] + BufferHex(bs[1..])
  }

  /** The UID text printed for a tag code: `tagCode.toString("hex").toUpperCase()`. */
  function UidText(bs: seq<byte>): (s: string)
    ensures |s| == 2 * |bs|
    ensures forall i :: 0 <= i < |s| ==> IsUpperHexDigit(s[i])
  {
    var lower := BufferHex(bs);
    assert forall i :: 0 <= i < |lower| ==> IsUpperHexDigit(UpperCase(lower[i]));
    ToUpperCase(lower)
  }

  /** Reads back upper-case hexadecimal text, two digits per byte. */
  function DecodeHex(s: string): (r: Option<seq<byte>>)
    ensures r.Some? ==> |s| == 2 * |r.value|
    ensures r.Some? ==> forall i :: 0 <= i < |s| ==> IsUpperHexDigit(s[i])
  {
    if s == [] then Some([])
    else if |s| == 1 then None
    else
      match (UpperDigitValue(s[0]), UpperDigitValue(s[1]), DecodeHex(s[2..]))
      case (Some(hi), Some(lo), Some(rest)) => Some([hi * 16 + lo] + rest)
      case _ => None
  }

  /** The first byte becomes the first two digits; the rest follow unchanged. */
  lemma UidTextCons(b: byte, rest: seq<byte>)
    ensures UidText([b] + rest) == [UpperDigit(b / 16), UpperDigit(b % 16)] + UidText(rest)
  {
    assert ([b] + rest)[1..] == rest;
  }

  /** Byte i of the tag code is written at positions 2i and 2i+1, high nibble first. */
  lemma {:induction false} UidTextAt(bs: seq<byte>, i: nat)
    requires i < |bs|
    ensures UidText(bs)[2 * i] == UpperDigit(bs[i] / 16)
    ensures UidText(bs)[2 * i + 1] == UpperDigit(bs[i] % 16)
  {
    UidTextCons(bs[0], bs[1..]);
    assert [bs[0]] + bs[1..] == bs;
    if i > 0 {
      UidTextAt(bs[1..], i - 1);
    }
  }

  /** Decoding the printed UID gives back the tag code. */
  lemma {:induction false} DecodeUidText(bs: seq<byte>)
    ensures DecodeHex(UidText(bs)) == Some(bs)
  {
    if bs != [] {
      UidTextCons(bs[0], bs[1..]);
      assert [bs[0]] + bs[1..] == bs;
      var s := UidText(bs);
      assert s[2..] == UidText(bs[1..]);
      DecodeUidText(bs[1..]);
      assert bs[0] / 16 * 16 + bs[0] % 16 == bs[0];
    }
  }

  /** Different tag codes print different UIDs. */
  lemma UidTextInjective(a: seq<byte>, b: seq<byte>)
    requires UidText(a) == UidText(b)
    ensures a == b
  {
    DecodeUidText(a);
    DecodeUidText(b);
  }

  /** Upper-casing the printed UID once more changes nothing. */
  lemma UidTextUpperIdempotent(bs: seq<byte>)
    ensures ToUpperCase(UidText(bs)) == UidText(bs)
  {
    var s := UidText(bs);
    assert forall i :: 0 <= i < |s| ==> UpperCase(s[i]) == s[i];
  }
}
