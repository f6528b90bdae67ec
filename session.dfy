/**
  The stream-tags action of index.js as an object: the listeners become handler methods
  that mirror the JavaScript statement by statement, and each is proved to do what
  Lifecycle.Handle says of its callback.
 */
module Session {
  import opened Wrappers
  import opened Classify
  import opened Lifecycle

  class StreamTagsSession {
    const config: Config
    /** Exit codes of the disconnect continuations not yet run, oldest first. */
    var pending: seq<int>
    /** The code passed to `process.exit`, once it has run. */
    var exitCode: Option<int>
    /** Console lines and device actions, in order. */
    var trace: seq<Action>

    function State(): SessionState
      reads this
    {
      SessionState(pending, exitCode, trace)
    }

    /** The object invariant: the state is one Lifecycle.Consistent describes. */
    ghost predicate Valid()
      reads this
    {
      Consistent(State())
    }

    /** Builds the stream command, registers the listeners and calls `tappy.connect` (index.js:15-21, 89). */
    constructor (timeout: int, nfc: Resolver, system: Resolver, tagTypes: int -> Option<string>)
      ensures config.command == StreamCommand(timeout)
      ensures config.nfc.checkFamily == nfc.checkFamily && config.nfc.resolveResponse == nfc.resolveResponse
      ensures config.system.checkFamily == system.checkFamily && config.system.resolveResponse == system.resolveResponse
      ensures config.tagTypes == tagTypes
      ensures State() == Start()
      ensures Valid()
    {
      config := Config(StreamCommand(timeout), nfc, system, tagTypes);
      pending := [];
      exitCode := None;
      trace := [Connect];
    }

    /** `closeAndQuit`: an error line, then a disconnect whose continuation exits with 1. */
    method CloseAndQuit(message: string)
      modifies this
      ensures State() == React(old(State()), DisconnectThenExit(Err(message), 1))
    {
      trace := trace + [Print(Err(message))];
      trace := trace + [Disconnect];
      pending := pending + [1];
    }

    /** The connect callback: announce the connection, then send the stream command. */
    method OnConnected()
      modifies this
      ensures State() == Handle(config, old(State()), ConnectCompleted)
    {
      trace := trace + [Print(Out(ConnectedText))];
      trace := trace + [Send(config.command)];
    }

    /** The error listener. */
    method OnError(kind: ErrorKind)
      modifies this
      ensures State() == Handle(config, old(State()), TransportError(kind))
    {
      match kind
      case NotConnected =>
        trace := trace + [Print(Err(NotConnectedText))];
        trace := trace + [Exit(1)];
        exitCode := Some(1);
      case ConnectionError =>
        CloseAndQuit(ConnectionErrorText);
      case InvalidHdlc =>
        trace := trace + [Print(Err(InvalidFrameText))];
      case InvalidTcmp =>
        trace := trace + [Print(Err(InvalidPacketText))];
      case OtherError(_) =>
        CloseAndQuit(UnknownErrorText);
    }

    /** The message listener: resolve with the NFC family, else the system family, then dispatch. */
    method OnMessage(m: Message)
      modifies this
      ensures State() == Handle(config, old(State()), MessageReceived(m))
    {
      var resolved: Option<Response> := None;
      if config.nfc.checkFamily(m) {
        resolved := config.nfc.resolveResponse(m);
      } else if config.system.checkFamily(m) {
        resolved := config.system.resolveResponse(m);
      }

      if resolved.Some? {
        match resolved.value
        case TagFound(tagType, tagCode) =>
          var description := config.tagTypes(tagType);
          trace := trace + [Print(Out(TagReport.TagLine(tagCode, description)))];
        case ScanTimeout =>
          trace := trace + [Print(Out(TimeoutText))];
          trace := trace + [Disconnect];
          pending := pending + [0];
        case OtherResponse(_) =>
          CloseAndQuit(UnexpectedResponseText);
      } else {
        CloseAndQuit(UnexpectedResponseText);
      }
    }

    /** A disconnect completes: the oldest waiting continuation calls `process.exit` with its code. */
    method OnDisconnectDone()
      modifies this
      ensures State() == Handle(config, old(State()), DisconnectCompleted)
    {
      if pending != [] {
        var code := pending[0];
        pending := pending[1..];
        trace := trace + [Exit(code)];
        exitCode := Some(code);
      }
    }

    /** The event loop hands one callback to a process that has not exited; an exited process runs nothing. */
    method Deliver(e: Event)
      requires Valid()
      modifies this
      ensures Valid()
      ensures State() == Step(config, old(State()), e)
    {
      StepConsistent(config, State(), e);
      if exitCode.Some? {
        return;
      }
      match e
      case ConnectCompleted => OnConnected();
      case TransportError(kind) => OnError(kind);
      case MessageReceived(m) => OnMessage(m);
      case DisconnectCompleted => OnDisconnectDone();
    }
  }

  /** Starting a session and completing the connect sends StreamTags with the given timeout and GENERAL polling. */
  method StartStreaming(timeout: int, nfc: Resolver, system: Resolver, tagTypes: int -> Option<string>)
    returns (session: StreamTagsSession)
    ensures session.Valid()
    ensures session.exitCode == None && session.pending == []
    ensures session.trace == [Connect, Print(Out(ConnectedText)), Send(StreamTags(timeout, General))]
  {
    session := new StreamTagsSession(timeout, nfc, system, tagTypes);
    session.Deliver(ConnectCompleted);
  }

  /** A session that connects, reports one tag and reaches the scan timeout. */
  method TimeoutClient(nfc: Resolver, system: Resolver, tagTypes: int -> Option<string>, tag: Message, timeout: Message)
    requires nfc.checkFamily(tag) && nfc.resolveResponse(tag) == Some(TagFound(2, [0x04, 0xA2]))
    requires nfc.checkFamily(timeout) && nfc.resolveResponse(timeout) == Some(ScanTimeout)
  {
    var session := new StreamTagsSession(10, nfc, system, tagTypes);
    session.Deliver(ConnectCompleted);
    session.Deliver(MessageReceived(tag));
    session.Deliver(MessageReceived(timeout));
    assert session.exitCode == None && session.pending == [0];
    session.Deliver(DisconnectCompleted);
    assert session.exitCode == Some(0);
    session.Deliver(TransportError(ConnectionError));
    assert session.trace[|session.trace| - 1] == Exit(0);
  }
}
