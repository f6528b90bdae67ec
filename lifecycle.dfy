/**
  The stream-tags session as a transition system. index.js keeps no state variable of
  its own: what it changes is the outside world, so a session state here is what the
  world has seen (the trace of console lines and device actions), the disconnect
  continuations the code has handed to `tappy.disconnect` and that have not yet run
  (each with the exit code it will pass to `process.exit`), and the exit code once
  `process.exit` has run.
 */
module Lifecycle {
  import opened Wrappers
  import opened Classify

  const ConnectedText: string := "Tappy connected!"

  datatype PollingMode = General

  /** `new BasicNfcFamily.Commands.StreamTags(timeout, pollingMode)`; a timeout of 0 streams indefinitely. */
  datatype Command = StreamTags(timeout: int, polling: PollingMode)

  /** The stream command the session sends (index.js:20-21). */
  function StreamCommand(timeout: int): Command
  {
    StreamTags(timeout, General)
  }

  /** What the outside world observes, in order. */
  datatype Action = Connect | Print(line: Line) | Send(command: Command) | Disconnect | Exit(code: int)

  /** The callbacks the transport and the device library invoke. */
  datatype Event =
    | ConnectCompleted
    | TransportError(kind: ErrorKind)
    | MessageReceived(message: Message)
    | DisconnectCompleted

  /** What the session is built from: the command and the libraries' decision functions. */
  datatype Config = Config(command: Command, nfc: Resolver, system: Resolver, tagTypes: int -> Option<string>)

  /** `pending` lists the exit codes of the disconnect continuations not yet run, oldest first. */
  datatype SessionState = SessionState(pending: seq<int>, exit: Option<int>, trace: seq<Action>)

  /** After the listeners are registered, the action calls `tappy.connect` (index.js:89). */
  function Start(): (s: SessionState)
    ensures Consistent(s)
  {
    SessionState([], None, [Connect])
  }

  /** Carries out a listener's reaction; `closeAndQuit` is the DisconnectThenExit case with code 1. */
  function React(s: SessionState, r: Reaction): (t: SessionState)
    ensures r.Log? ==> t == s.(trace := s.trace + [Print(r.line)])
    ensures r.ExitNow? ==> t.pending == s.pending && t.exit == Some(r.code) && t.trace == s.trace + [Print(r.line), Exit(r.code)]
    ensures r.DisconnectThenExit? ==> t.pending == s.pending + [r.code] && t.exit == s.exit && t.trace == s.trace + [Print(r.line), Disconnect]
  {
    match r
    case Log(line) => s.(trace := s.trace + [Print(line)])
    case ExitNow(line, code) => s.(exit := Some(code), trace := s.trace + [Print(line), Exit(code)])
    case DisconnectThenExit(line, code) => s.(pending := s.pending + [code], trace := s.trace + [Print(line), Disconnect])
  }

  /**
    The code index.js runs for one callback. A disconnect completion runs the oldest
    continuation still waiting; with none waiting, no code of index.js runs.
   */
  function Handle(cfg: Config, s: SessionState, e: Event): (t: SessionState)
    ensures s.trace <= t.trace
    ensures t.exit != s.exit ==>
      || (e.DisconnectCompleted? && s.pending != [] && t.exit == Some(s.pending[0]))
      || (e == TransportError(NotConnected) && t.exit == Some(1))
  {
    match e
    case ConnectCompleted => s.(trace := s.trace + [Print(Out(ConnectedText)), Send(cfg.command)])
    case TransportError(kind) => React(s, ErrorReaction(kind))
    case MessageReceived(m) => React(s, ResponseReaction(ResolveMessage(cfg.nfc, cfg.system, m), cfg.tagTypes))
    case DisconnectCompleted =>
      if s.pending == [] then s
      else s.(pending := s.pending[1..], exit := Some(s.pending[0]), trace := s.trace + [Exit(s.pending[0])])
  }

  /** One event delivered to the process: once `process.exit` has run, the process is gone and nothing more happens. */
  function Step(cfg: Config, s: SessionState, e: Event): (t: SessionState)
    ensures s.trace <= t.trace
    ensures s.exit.Some? ==> t == s
    ensures s.exit.None? && t.exit.Some? ==>
      || (e.DisconnectCompleted? && s.pending != [] && t.exit == Some(s.pending[0]))
      || (e == TransportError(NotConnected) && t.exit == Some(1))
  {
    if s.exit.Some? then s else Handle(cfg, s, e)
  }

  /** A sequence of events delivered one at a time, in order. */
  function Run(cfg: Config, s: SessionState, events: seq<Event>): (t: SessionState)
    ensures s.trace <= t.trace
    ensures s.exit.Some? ==> t == s
    decreases |events|
  {
    if events == [] then s else Run(cfg, Step(cfg, s, events[0]), events[1..])
  }

  // Properties of every reachable state

  /** The trace opens with the connect call. */
  ghost predicate OpensWithConnect(trace: seq<Action>) {
    |trace| > 0 && trace[0] == Connect
  }

  /** The stream command is sent only right after "Tappy connected!", i.e. inside the connect callback. */
  ghost predicate SendsOnlyWhenConnected(trace: seq<Action>) {
    forall i :: 0 <= i < |trace| && trace[i].Send? ==> 0 < i && trace[i - 1] == Print(Out(ConnectedText))
  }

  /** `process.exit` is the last thing that happens, it happens at most once, and the state records its code. */
  ghost predicate ExitIsLast(s: SessionState) {
    && (forall i :: 0 <= i < |s.trace| && s.trace[i].Exit? ==> i == |s.trace| - 1 && s.exit == Some(s.trace[i].code))
    && (s.exit.Some? ==> |s.trace| > 0 && s.trace[|s.trace| - 1] == Exit(s.exit.value))
  }

  /** "Timeout reached" was printed and disconnect called right after it. */
  ghost predicate TimeoutThenDisconnect(trace: seq<Action>) {
    exists i :: 0 <= i < |trace| - 1 && trace[i] == Print(Out(TimeoutText)) && trace[i + 1] == Disconnect
  }

  /** Exit codes are 0 or 1, and 0 only after the scan timeout. */
  ghost predicate ExitCodesJustified(s: SessionState) {
    && (forall c :: c in s.pending ==> c == 0 || c == 1)
    && (s.exit.Some? ==> s.exit.value == 0 || s.exit.value == 1)
    && (0 in s.pending || s.exit == Some(0) ==> TimeoutThenDisconnect(s.trace))
  }

  /** Exit without a disconnect happens only straight after "Tappy not connected". */
  ghost predicate ExitFollowsDisconnect(s: SessionState) {
    && (s.pending != [] ==> Disconnect in s.trace)
    && (s.exit.Some? ==>
          || Disconnect in s.trace
          || (|s.trace| >= 2 && s.trace[|s.trace| - 2..] == [Print(Err(NotConnectedText)), Exit(1)]))
  }

  ghost predicate Consistent(s: SessionState) {
    && OpensWithConnect(s.trace)
    && SendsOnlyWhenConnected(s.trace)
    && ExitIsLast(s)
    && ExitCodesJustified(s)
    && ExitFollowsDisconnect(s)
  }

  lemma TimeoutThenDisconnectKept(trace: seq<Action>, more: seq<Action>)
    requires TimeoutThenDisconnect(trace)
    ensures TimeoutThenDisconnect(trace + more)
  {
    var i :| 0 <= i < |trace| - 1 && trace[i] == Print(Out(TimeoutText)) && trace[i + 1] == Disconnect;
    assert (trace + more)[i] == trace[i] && (trace + more)[i + 1] == trace[i + 1];
  }

  lemma ConsistentAfterLog(s: SessionState, line: Line)
    requires Consistent(s) && s.exit.None?
    ensures Consistent(s.(trace := s.trace + [Print(line)]))
  {
    var t := s.trace + [Print(line)];
    if TimeoutThenDisconnect(s.trace) {
      TimeoutThenDisconnectKept(s.trace, [Print(line)]);
    }
    assert forall i :: 0 <= i < |s.trace| ==> t[i] == s.trace[i];
  }

  lemma ConsistentAfterConnected(s: SessionState, command: Command)
    requires Consistent(s) && s.exit.None?
    ensures Consistent(s.(trace := s.trace + [Print(Out(ConnectedText)), Send(command)]))
  {
    var added := [Print(Out(ConnectedText)), Send(command)];
    var t := s.trace + added;
    if TimeoutThenDisconnect(s.trace) {
      TimeoutThenDisconnectKept(s.trace, added);
    }
    assert forall i :: 0 <= i < |s.trace| ==> t[i] == s.trace[i];
    assert t[|s.trace|] == Print(Out(ConnectedText)) && t[|s.trace| + 1] == Send(command);
  }

  lemma ConsistentAfterNotConnected(s: SessionState)
    requires Consistent(s) && s.exit.None?
    ensures Consistent(SessionState(s.pending, Some(1), s.trace + [Print(Err(NotConnectedText)), Exit(1)]))
  {
    var added := [Print(Err(NotConnectedText)), Exit(1)];
    var t := s.trace + added;
    if TimeoutThenDisconnect(s.trace) {
      TimeoutThenDisconnectKept(s.trace, added);
    }
    assert forall i :: 0 <= i < |s.trace| ==> t[i] == s.trace[i];
    assert t[|t| - 2..] == added;
  }

  lemma ConsistentAfterDisconnectCall(s: SessionState, line: Line, code: int)
    requires Consistent(s) && s.exit.None?
    requires code == 0 || code == 1
    requires code == 0 ==> line == Out(TimeoutText)
    ensures Consistent(SessionState(s.pending + [code], None, s.trace + [Print(line), Disconnect]))
  {
    var added := [Print(line), Disconnect];
    var t := s.trace + added;
    if TimeoutThenDisconnect(s.trace) {
      TimeoutThenDisconnectKept(s.trace, added);
    }
    assert forall i :: 0 <= i < |s.trace| ==> t[i] == s.trace[i];
    assert t[|s.trace|] == Print(line) && t[|s.trace| + 1] == Disconnect;
    assert Disconnect in t;
  }

  lemma ConsistentAfterCompletion(s: SessionState)
    requires Consistent(s) && s.exit.None? && s.pending != []
    ensures Consistent(SessionState(s.pending[1..], Some(s.pending[0]), s.trace + [Exit(s.pending[0])]))
  {
    var t := s.trace + [Exit(s.pending[0])];
    assert s.pending[0] in s.pending;
    if TimeoutThenDisconnect(s.trace) {
      TimeoutThenDisconnectKept(s.trace, [Exit(s.pending[0])]);
    }
    assert forall i :: 0 <= i < |s.trace| ==> t[i] == s.trace[i];
    assert forall c :: c in s.pending[1..] ==> c in s.pending;
  }

  /** Every callback keeps the session consistent. */
  lemma StepConsistent(cfg: Config, s: SessionState, e: Event)
    requires Consistent(s)
    ensures Consistent(Step(cfg, s, e))
  {
    if s.exit.None? {
      match e
      case ConnectCompleted =>
        ConsistentAfterConnected(s, cfg.command);
      case TransportError(kind) =>
        match ErrorReaction(kind) {
          case Log(line) => ConsistentAfterLog(s, line);
          case ExitNow(line, code) => ConsistentAfterNotConnected(s);
          case DisconnectThenExit(line, code) => ConsistentAfterDisconnectCall(s, line, code);
        }
      case MessageReceived(m) =>
        match ResponseReaction(ResolveMessage(cfg.nfc, cfg.system, m), cfg.tagTypes) {
          case Log(line) => ConsistentAfterLog(s, line);
          case DisconnectThenExit(line, code) => ConsistentAfterDisconnectCall(s, line, code);
        }
      case DisconnectCompleted =>
        if s.pending != [] {
          ConsistentAfterCompletion(s);
        }
    }
  }

  lemma {:induction false} RunConsistent(cfg: Config, s: SessionState, events: seq<Event>)
    requires Consistent(s)
    ensures Consistent(Run(cfg, s, events))
    decreases |events|
  {
    if events != [] {
      StepConsistent(cfg, s, events[0]);
      RunConsistent(cfg, Step(cfg, s, events[0]), events[1..]);
    }
  }

  /** Whatever the devices and libraries deliver, exit happens once, last, and with the recorded code. */
  lemma ExitHappensOnceAndLast(cfg: Config, events: seq<Event>)
    ensures ExitIsLast(Run(cfg, Start(), events))
  {
    RunConsistent(cfg, Start(), events);
  }

  /** The stream command goes out only from the connect callback, right after "Tappy connected!". */
  lemma CommandSentOnlyAfterConnect(cfg: Config, events: seq<Event>)
    ensures SendsOnlyWhenConnected(Run(cfg, Start(), events).trace)
  {
    RunConsistent(cfg, Start(), events);
  }

  /** Exit code 0 is reached only through "Timeout reached" followed by a disconnect. */
  lemma ExitZeroOnlyAfterTimeout(cfg: Config, events: seq<Event>)
    requires Run(cfg, Start(), events).exit == Some(0)
    ensures TimeoutThenDisconnect(Run(cfg, Start(), events).trace)
  {
    RunConsistent(cfg, Start(), events);
  }

  /** Every exit follows a disconnect, except the one straight after "Tappy not connected". */
  lemma ExitOnlyAfterDisconnectOrNotConnected(cfg: Config, events: seq<Event>)
    requires Run(cfg, Start(), events).exit.Some?
    ensures ExitFollowsDisconnect(Run(cfg, Start(), events))
    ensures Run(cfg, Start(), events).exit.value == 0 || Run(cfg, Start(), events).exit.value == 1
  {
    RunConsistent(cfg, Start(), events);
  }

  /** Every command sent is the session's own command. */
  ghost predicate SendsOnly(trace: seq<Action>, command: Command) {
    forall i :: 0 <= i < |trace| && trace[i].Send? ==> trace[i].command == command
  }

  lemma {:induction false} RunSendsOnly(cfg: Config, s: SessionState, events: seq<Event>)
    requires SendsOnly(s.trace, cfg.command)
    ensures SendsOnly(Run(cfg, s, events).trace, cfg.command)
    decreases |events|
  {
    if events != [] {
      var t := Step(cfg, s, events[0]);
      var added := t.trace[|s.trace|..];
      assert t.trace == s.trace + added;
      assert forall i :: 0 <= i < |added| && added[i].Send? ==> added[i].command == cfg.command by {
        if s.exit.None? {
          match events[0]
          case ConnectCompleted =>
            assert added == [Print(Out(ConnectedText)), Send(cfg.command)];
          case TransportError(kind) =>
          case MessageReceived(m) =>
          case DisconnectCompleted =>
        }
      }
      RunSendsOnly(cfg, t, events[1..]);
    }
  }

  /** Whatever happens, the only command ever sent is StreamTags with the session's timeout and GENERAL polling. */
  lemma SentCommandIsStreamTags(cfg: Config, timeout: int, events: seq<Event>)
    requires cfg.command == StreamCommand(timeout)
    ensures SendsOnly(Run(cfg, Start(), events).trace, StreamTags(timeout, General))
  {
    RunSendsOnly(cfg, Start(), events);
  }

  // Single callbacks

  /** A framing error writes one stderr line and changes nothing else. */
  lemma FramingErrorOnlyLogs(cfg: Config, s: SessionState, kind: ErrorKind)
    requires s.exit.None? && IsFramingError(kind)
    ensures Step(cfg, s, TransportError(kind))
         == s.(trace := s.trace + [Print(Err(if kind.InvalidHdlc? then InvalidFrameText else InvalidPacketText))])
  {
  }

  /** NOT_CONNECTED writes "Tappy not connected" and exits with 1 at once, with no disconnect. */
  lemma NotConnectedExitsAtOnce(cfg: Config, s: SessionState)
    requires s.exit.None?
    ensures Step(cfg, s, TransportError(NotConnected))
         == SessionState(s.pending, Some(1), s.trace + [Print(Err(NotConnectedText)), Exit(1)])
  {
  }

  /** A connection error or an unknown error writes its line and disconnects; exit waits for the completion. */
  lemma FatalErrorDisconnectsFirst(cfg: Config, s: SessionState, kind: ErrorKind)
    requires s.exit.None? && (kind == ConnectionError || kind.OtherError?)
    ensures var t := Step(cfg, s, TransportError(kind));
      && t.exit.None?
      && t.pending == s.pending + [1]
      && t.trace == s.trace + [Print(Err(if kind == ConnectionError then ConnectionErrorText else UnknownErrorText)), Disconnect]
  {
  }

  /** A found tag prints one stdout line and the session streams on. */
  lemma TagFoundKeepsStreaming(cfg: Config, s: SessionState, m: Message, tagType: int, tagCode: seq<Hex.byte>)
    requires s.exit.None?
    requires ResolveMessage(cfg.nfc, cfg.system, m) == Some(TagFound(tagType, tagCode))
    ensures Step(cfg, s, MessageReceived(m))
         == s.(trace := s.trace + [Print(Out(TagReport.TagLine(tagCode, cfg.tagTypes(tagType))))])
  {
  }

  /** The scan timeout prints "Timeout reached" and disconnects; exit 0 comes with the completion. */
  lemma ScanTimeoutDisconnects(cfg: Config, s: SessionState, m: Message)
    requires s.exit.None?
    requires ResolveMessage(cfg.nfc, cfg.system, m) == Some(ScanTimeout)
    ensures Step(cfg, s, MessageReceived(m))
         == SessionState(s.pending + [0], None, s.trace + [Print(Out(TimeoutText)), Disconnect])
  {
  }

  /** Events that neither fail nor end the scan. */
  ghost predicate KeepsStreaming(cfg: Config, e: Event) {
    || e.ConnectCompleted?
    || (e.TransportError? && IsFramingError(e.kind))
    || (e.MessageReceived? && ResolveMessage(cfg.nfc, cfg.system, e.message).Some?
                           && ResolveMessage(cfg.nfc, cfg.system, e.message).value.TagFound?)
  }

  /** Without a terminal event the session never disconnects or exits: any number of tags may be reported. */
  lemma {:induction false} StreamsUntilTerminalEvent(cfg: Config, s: SessionState, events: seq<Event>)
    requires forall i :: 0 <= i < |events| ==> KeepsStreaming(cfg, events[i])
    ensures Run(cfg, s, events).exit == s.exit
    ensures Run(cfg, s, events).pending == s.pending
    decreases |events|
  {
    if events != [] {
      StreamsUntilTerminalEvent(cfg, Step(cfg, s, events[0]), events[1..]);
    }
  }

  // Whole sessions

  /** Connect, a scan timeout, the disconnect completion: exit 0 after exactly one disconnect. */
  lemma TimeoutSession(cfg: Config, m: Message)
    requires ResolveMessage(cfg.nfc, cfg.system, m) == Some(ScanTimeout)
    ensures var t := Run(cfg, Start(), [ConnectCompleted, MessageReceived(m), DisconnectCompleted]);
      && t.exit == Some(0)
      && t.trace == [Connect, Print(Out(ConnectedText)), Send(cfg.command),
                     Print(Out(TimeoutText)), Disconnect, Exit(0)]
  {
    var s1 := Step(cfg, Start(), ConnectCompleted);
    var s2 := Step(cfg, s1, MessageReceived(m));
    var s3 := Step(cfg, s2, DisconnectCompleted);
    var events := [ConnectCompleted, MessageReceived(m), DisconnectCompleted];
    assert Run(cfg, s3, []) == s3;
    assert Run(cfg, s2, events[2..]) == s3;
    assert Run(cfg, s1, events[1..]) == s3;
    assert s2 == SessionState([0], None, s1.trace + [Print(Out(TimeoutText)), Disconnect]);
  }

  /** A connection error while streaming: "Connection error", one disconnect, then exit 1. */
  lemma ConnectionErrorSession(cfg: Config)
    ensures var t := Run(cfg, Start(), [ConnectCompleted, TransportError(ConnectionError), DisconnectCompleted]);
      && t.exit == Some(1)
      && t.trace == [Connect, Print(Out(ConnectedText)), Send(cfg.command),
                     Print(Err(ConnectionErrorText)), Disconnect, Exit(1)]
  {
    var s1 := Step(cfg, Start(), ConnectCompleted);
    var s2 := Step(cfg, s1, TransportError(ConnectionError));
    var s3 := Step(cfg, s2, DisconnectCompleted);
    assert Run(cfg, s3, []) == s3;
    assert Run(cfg, Start(), [ConnectCompleted, TransportError(ConnectionError), DisconnectCompleted]) == s3 by {
      assert [ConnectCompleted, TransportError(ConnectionError), DisconnectCompleted][1..]
          == [TransportError(ConnectionError), DisconnectCompleted];
      assert [TransportError(ConnectionError), DisconnectCompleted][1..] == [DisconnectCompleted];
    }
  }

  /** A device that is not connected: "Tappy not connected" and exit 1; nothing later happens. */
  lemma NotConnectedSession(cfg: Config, later: seq<Event>)
    ensures var t := Run(cfg, Start(), [TransportError(NotConnected)] + later);
      && t.exit == Some(1)
      && t.trace == [Connect, Print(Err(NotConnectedText)), Exit(1)]
  {
    var s1 := Step(cfg, Start(), TransportError(NotConnected));
    assert ([TransportError(NotConnected)] + later)[1..] == later;
    assert Run(cfg, s1, later) == s1;
  }
}
