/**
  The two decisions the stream-tags listeners make: what an error reported by the
  transport leads to (index.js:30-49), and what an inbound message leads to once the
  NFC family and then the system family have been asked to resolve it (index.js:51-86).
 */
module Classify {
  import opened Wrappers
  import opened Hex
  import opened TagReport

  /** The kinds of `Tappy.ErrorType`; OtherError stands for every kind the switch does not name. */
  datatype ErrorKind = NotConnected | ConnectionError | InvalidHdlc | InvalidTcmp | OtherError(id: int)

  /** One console line: `console.log` writes Out, `console.error` writes Err. */
  datatype Line = Out(text: string) | Err(text: string)

  /**
    What a listener does: Log writes a line and the session goes on; ExitNow writes a line
    and calls `process.exit(code)` at once; DisconnectThenExit writes a line and calls
    `tappy.disconnect` with a continuation that calls `process.exit(code)`.
   */
  datatype Reaction =
    | Log(line: Line)
    | ExitNow(line: Line, code: int)
    | DisconnectThenExit(line: Line, code: int)

  const NotConnectedText: string := "Tappy not connected"
  const ConnectionErrorText: string := "Connection error"
  const InvalidFrameText: string := "Received invalid frame"
  const InvalidPacketText: string := "Received invalid packet"
  const UnknownErrorText: string := "Unknown error occurred"
  const UnexpectedResponseText: string := "Unexpected response"
  const TimeoutText: string := "Timeout reached"

  /** A framing error of the transport: a bad HDLC frame or a bad TCMP packet. */
  predicate IsFramingError(kind: ErrorKind) {
    kind.InvalidHdlc? || kind.InvalidTcmp?
  }

  /** The error listener's switch. */
  function ErrorReaction(kind: ErrorKind): (r: Reaction)
    ensures r.line.Err?
    ensures r.Log? <==> IsFramingError(kind)
    ensures r.ExitNow? <==> kind == NotConnected
    ensures !r.Log? ==> r.code == 1
    ensures kind.OtherError? ==> r == DisconnectThenExit(Err(UnknownErrorText), 1)
  {
    match kind
    case NotConnected => ExitNow(Err(NotConnectedText), 1)
    case ConnectionError => DisconnectThenExit(Err(ConnectionErrorText), 1)
    case InvalidHdlc => Log(Err(InvalidFrameText))
    case InvalidTcmp => Log(Err(InvalidPacketText))
    case OtherError(_) => DisconnectThenExit(Err(UnknownErrorText), 1)
  }

  /** An inbound TCMP message, as the transport hands it to the message listener. */
  datatype Message = Message(bytes: seq<byte>)

  /**
    A resolved response. TagFound and ScanTimeout are the two response types of the
    basic NFC family the listener tests for; OtherResponse is any other resolved type.
   */
  datatype Response =
    | TagFound(tagType: int, tagCode: seq<byte>)
    | ScanTimeout
    | OtherResponse(name: string)

  /**
    A command family's resolver: `checkFamily` says whether a message belongs to the
    family and `resolveResponse` decodes it, None standing for `null`. Their bodies
    live in the family libraries, so here they are arbitrary functions.
   */
  datatype Resolver = Resolver(checkFamily: Message -> bool, resolveResponse: Message -> Option<Response>)

  /** The listener's choice of resolver: the NFC family first, then the system family. */
  function ResolveMessage(nfc: Resolver, system: Resolver, m: Message): (resolved: Option<Response>)
    ensures resolved.Some? ==> nfc.checkFamily(m) || system.checkFamily(m)
  {
    if nfc.checkFamily(m) then nfc.resolveResponse(m)
    else if system.checkFamily(m) then system.resolveResponse(m)
    else None
  }

  /** When the NFC family accepts a message, the system resolver plays no part. */
  lemma NfcFamilyFirst(nfc: Resolver, system: Resolver, other: Resolver, m: Message)
    requires nfc.checkFamily(m)
    ensures ResolveMessage(nfc, system, m) == ResolveMessage(nfc, other, m) == nfc.resolveResponse(m)
  {
  }

  /** When the NFC family declines, only the system resolver decides, and nothing of the NFC one. */
  lemma SystemFamilyOnlyWhenNfcDeclines(nfc: Resolver, other: Resolver, system: Resolver, m: Message)
    requires !nfc.checkFamily(m) && !other.checkFamily(m)
    ensures ResolveMessage(nfc, system, m) == ResolveMessage(other, system, m)
    ensures ResolveMessage(nfc, system, m) == if system.checkFamily(m) then system.resolveResponse(m) else None
  {
  }

  /** A message neither family accepts resolves to null. */
  lemma UnclaimedMessageUnresolved(nfc: Resolver, system: Resolver, m: Message)
    requires !nfc.checkFamily(m) && !system.checkFamily(m)
    ensures ResolveMessage(nfc, system, m) == None
  {
  }

  /** What the message listener does with a resolved response (None is `null`). */
  function ResponseReaction(resolved: Option<Response>, tagTypes: int -> Option<string>): (r: Reaction)
    ensures !r.ExitNow?
    ensures r.Log? <==> resolved.Some? && resolved.value.TagFound?
    ensures r.Log? ==> r.line == Out(TagLine(resolved.value.tagCode, tagTypes(resolved.value.tagType)))
    ensures r.DisconnectThenExit? && r.code == 0 <==> resolved == Some(ScanTimeout)
    ensures r.DisconnectThenExit? && r.code == 0 ==> r.line == Out(TimeoutText)
    ensures r.DisconnectThenExit? && r.code != 0 ==> r == DisconnectThenExit(Err(UnexpectedResponseText), 1)
  {
    match resolved
    case Some(TagFound(tagType, tagCode)) => Log(Out(TagLine(tagCode, tagTypes(tagType))))
    case Some(ScanTimeout) => DisconnectThenExit(Out(TimeoutText), 0)
    case Some(OtherResponse(_)) => DisconnectThenExit(Err(UnexpectedResponseText), 1)
    case None => DisconnectThenExit(Err(UnexpectedResponseText), 1)
  }

  /** Every message the families cannot resolve, or resolve to another type, ends the session with code 1. */
  lemma UnexpectedMessageIsFatal(nfc: Resolver, system: Resolver, tagTypes: int -> Option<string>, m: Message)
    requires ResolveMessage(nfc, system, m).None? || ResolveMessage(nfc, system, m).value.OtherResponse?
    ensures ResponseReaction(ResolveMessage(nfc, system, m), tagTypes) == DisconnectThenExit(Err(UnexpectedResponseText), 1)
  {
  }
}
