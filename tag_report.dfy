/**
  The line printed for a scanned tag (index.js:63-75): "UID: <HEX>", followed by
  ", Tag Description: <description>" when the tag-type lookup found one.
  ParseTagLine reads such a line back; the round trip shows the line loses nothing.
 */
module TagReport {
  import opened Wrappers
  import opened Hex

  const UidLabel: string := "UID: "
  const DescriptionLabel: string := ", Tag Description: "

  /** The stdout line for a tag with the given code and looked-up description. */
  function TagLine(code: seq<byte>, description: Option<string>): (line: string)
    ensures |UidLabel| + 2 * |code| <= |line|
    ensures line[..|UidLabel|] == UidLabel
    ensures line[|UidLabel|..|UidLabel| + 2 * |code|] == UidText(code)
    ensures description.None? <==> |line| == |UidLabel| + 2 * |code|
  {
    match description
    case Some(d) => UidLabel + UidText(code) + DescriptionLabel + d
    case None => UidLabel + UidText(code)
  }

  /** Number of upper-case hexadecimal digits at the start of s. */
  function HexRunLength(s: string): (n: nat)
    ensures n <= |s|
    ensures forall i :: 0 <= i < n ==> IsUpperHexDigit(s[i])
    ensures n < |s| ==> !IsUpperHexDigit(s[n])
  {
    if s != [] && IsUpperHexDigit(s[0]) then 1 + HexRunLength(s[1..]) else 0
  }

  /** Reads a tag line back into its tag code and description, if it is one. */
  function ParseTagLine(line: string): (r: Option<(seq<byte>, Option<string>)>)
  {
    if |line| < |UidLabel| || line[..|UidLabel|] != UidLabel then None
    else
      var rest := line[|UidLabel|..];
      var n := HexRunLength(rest);
      match DecodeHex(rest[..n])
      case None => None
      case Some(code) =>
        var tail := rest[n..];
        if tail == [] then Some((code, None))
        else if |DescriptionLabel| <= |tail| && tail[..|DescriptionLabel|] == DescriptionLabel then
          Some((code, Some(tail[|DescriptionLabel|..])))
        else None
  }

  /** The hex run of a UID ends where the UID ends, when what follows is not a digit. */
  lemma HexRunOfUid(code: seq<byte>, tail: string)
    requires tail == [] || !IsUpperHexDigit(tail[0])
    ensures HexRunLength(UidText(code) + tail) == 2 * |code|
  {
    var s := UidText(code) + tail;
    assert forall i :: 0 <= i < 2 * |code| ==> s[i] == UidText(code)[i];
    if tail != [] {
      assert s[2 * |code|] == tail[0];
    }
  }

  /** A printed tag line determines the tag code and the description it reports. */
  lemma ParseTagLineRoundTrip(code: seq<byte>, description: Option<string>)
    ensures ParseTagLine(TagLine(code, description)) == Some((code, description))
  {
    var line := TagLine(code, description);
    var uid := UidText(code);
    var tail := match description case Some(d) => DescriptionLabel + d case None => [];
    assert line == UidLabel + (uid + tail);
    var rest := line[|UidLabel|..];
    assert rest == uid + tail;
    HexRunOfUid(code, tail);
    assert rest[..2 * |code|] == uid;
    DecodeUidText(code);
    assert rest[2 * |code|..] == tail;
    if description.Some? {
      assert tail[..|DescriptionLabel|] == DescriptionLabel;
      assert tail[|DescriptionLabel|..] == description.value;
    }
  }

  /** A tag whose type has a description: both appear on the line. */
  lemma DescribedTagLine(code: seq<byte>, description: string)
    requires code == [0x04, 0xA2, 0xFE, 0x01] && description == "MIFARE Ultralight"
    ensures TagLine(code, Some(description)) == "UID: 04A2FE01, Tag Description: MIFARE Ultralight"
  {
    SampleUid(code);
    var head := UidLabel + UidText(code);
    assert head == "UID: 04A2FE01";
    var labelled := head + DescriptionLabel;
    assert labelled == "UID: 04A2FE01, Tag Description: ";
  }

  /** A tag whose type has no description: the UID alone. */
  lemma UndescribedTagLine(code: seq<byte>)
    requires code == [0x04, 0xA2, 0xFE, 0x01]
    ensures TagLine(code, None) == "UID: 04A2FE01"
  {
    SampleUid(code);
  }

  lemma SampleUid(code: seq<byte>)
    requires code == [0x04, 0xA2, 0xFE, 0x01]
    ensures UidText(code) == "04A2FE01"
  {
    var rest := code[4..];
    assert UidText(rest) == [];
    assert UpperDigit(0) == '0' && UpperDigit(1) == '1' && UpperDigit(2) == '2' && UpperDigit(4) == '4';
    assert UpperDigit(10) == 'A' && UpperDigit(14) == 'E' && UpperDigit(15) == 'F';
    UidTextCons(0x01, rest);
    assert code[3..] == [0x01] + rest;
    var t3 := UidText(code[3..]);
    assert t3 == ['0', '1'];
    UidTextCons(0xFE, code[3..]);
    assert code[2..] == [0xFE] + code[3..];
    var t2 := UidText(code[2..]);
    assert t2 == ['F', 'E'] + t3;
    UidTextCons(0xA2, code[2..]);
    assert code[1..] == [0xA2] + code[2..];
    var t1 := UidText(code[1..]);
    assert t1 == ['A', '2'] + t2;
    UidTextCons(0x04, code[1..]);
    assert code == [0x04] + code[1..];
    assert UidText(code) == ['0', '4'] + t1;
  }
}
