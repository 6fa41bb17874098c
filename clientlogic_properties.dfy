/** Properties of ClientLogic's transitions and of the frames it emits. */
module LogicProperties {
  import opened Basics
  import opened Protocol
  import opened Wire
  import opened Digits
  import opened ClientCommon
  import opened Logic

  /** Connect moves NotStarted straight to WaitUserInput; any other state aborts. */
  lemma StartTransition(s: Snapshot)
    ensures AfterStart(s).state == if s.state == NotStarted then WaitUserInput else Aborted
    ensures AfterStart(s).network == s.network && AfterStart(s).archiver == s.archiver
  {
  }

  /** Console input never changes the state: commands only emit frames. */
  lemma ConsoleKeepsState(serialize: Request -> Option<seq<byte>>, s: Snapshot, message: string, fx: Effects)
    ensures AfterConsoleInput(serialize, s, message, fx).0.state == s.state
  {
  }

  /** Console input in Aborted is ignored; elsewhere outside WaitUserInput it only prints "Busy. Try later.". */
  lemma ConsoleOutsideWaitUserInput(serialize: Request -> Option<seq<byte>>, s: Snapshot, message: string, fx: Effects)
    requires s.state != WaitUserInput
    ensures AfterConsoleInput(serialize, s, message, fx) ==
      (if s.state == Aborted then s else s.(console := s.console + [Busy]), Handled)
  {
  }

  /** "help" prints the help text and then "Unknown command" as well. */
  lemma HelpAlsoUnknown(serialize: Request -> Option<seq<byte>>, s: Snapshot, fx: Effects)
    requires s.state == WaitUserInput
    ensures AfterConsoleInput(serialize, s, "help", fx) ==
      (s.(console := s.console + [Help, UnknownCommand("help")]), Handled)
  {
    assert "help"[0] == 'h';
    assert Classify("help") == Unrecognised;
    assert s.console + [Help] + [UnknownCommand("help")] == s.console + [Help, UnknownCommand("help")];
  }

  /**
    Only a serverExit reply changes the state, and it aborts; an empty
    message throws and changes nothing.
   */
  lemma NetworkStateChanges(serialize: Request -> Option<seq<byte>>, s: Snapshot, message: seq<byte>, answer: ServerAnswer, fx: Effects)
    ensures var (n, outcome) := AfterNetworkInput(serialize, s, message, answer, fx);
      && (message == [] ==> n == s && outcome == Threw(OutOfRange))
      && (n.state != s.state ==> message[0] == ServerToFixedType(ServerExit) && n.state == Aborted)
      && (message != [] && message[0] == ServerToFixedType(ServerExit) ==> n.state == Aborted)
  {
  }

  /** Tags the dispatcher has no case for, notFoundBackupByIdOnServer among them, are ignored. */
  lemma UnknownTagsIgnored(serialize: Request -> Option<seq<byte>>, s: Snapshot, message: seq<byte>, answer: ServerAnswer, fx: Effects)
    requires message != [] && message[0] >= ServerToFixedType(NotFoundBackupByIdOnServer)
    ensures AfterNetworkInput(serialize, s, message, answer, fx) == (s, Handled)
  {
  }

  /** A restore reply for a path that is not a directory: no unpack, and a failure acknowledgement. */
  lemma RestoreToNonDirectoryFails(serialize: Request -> Option<seq<byte>>, s: Snapshot, message: seq<byte>, answer: ServerAnswer, fx: Effects)
    requires message != [] && message[0] == ServerToFixedType(AnsToRestore)
    requires !fx.isDir
    ensures var (n, outcome) := AfterNetworkInput(serialize, s, message, answer, fx);
      var ack := serialize(ClientReplyAfterRestore(false));
      && outcome == Handled
      && n.archiver == s.archiver
      && n.network == s.network + (if ack.Some? then [EmittedFrame(ReplyAfterRestore, ack.value)] else [])
      && n.state == s.state
  {
  }

  /** With nothing after the digit run and its separator, a restore request sends nothing. */
  lemma RestoreWithoutPathIgnored(serialize: Request -> Option<seq<byte>>, s: Snapshot, command: string)
    requires DigitRun(command) + 1 >= |command|
    ensures AfterRestoreRequest(serialize, s, command) == s
  {
  }

  /** "restore <id><sep><path>" keeps path and requests backup id, as ClientSession does. */
  lemma RestoreCommandRoundTrip(serialize: Request -> Option<seq<byte>>, s: Snapshot, id: uint64, sep: char, path: string)
    requires !IsDigit(sep) && path != []
    ensures var n := AfterRestoreRequest(serialize, s, Decimal(id) + [sep] + path);
      && n.restorePath == path
      && n.state == s.state
      && n.network == SentOrDropped(serialize, s, RestoreClientRequest(id), Restore).network
  {
    var command := Decimal(id) + [sep] + path;
    assert command == Decimal(id) + ([sep] + path);
    ParseDecimal(id, [sep] + path);
    assert command[|Decimal(id)| + 1..] == path;
  }

  /**
    The ls tag is 0, so every ls request is emitted as an empty message:
    the frame is cut before its first byte.
   */
  lemma LsFrameEmittedEmpty(payload: seq<byte>)
    ensures EmittedFrame(Ls, payload) == []
  {
    CutFrameWithZeroTag(payload);
  }

  /** What askLs() puts on the network: an empty message, whatever the request serialized to. */
  lemma AskLsSendsNothingUseful(serialize: Request -> Option<seq<byte>>, s: Snapshot)
    requires serialize(LsClientRequest(None, None)).Some?
    ensures AfterAskLs(serialize, s).network == s.network + [[]]
  {
    LsFrameEmittedEmpty(serialize(LsClientRequest(None, None)).value);
  }

  /**
    A request whose tag is not 0 and whose payload is ASCII without a zero
    byte is emitted intact: the C-string read keeps all of it, and UTF-8
    decoding leaves ASCII bytes as they are.
   */
  lemma EmittedFrameIntact(cmd: ClientCommandId, payload: seq<byte>)
    requires cmd != Ls && 0 !in payload
    requires forall i :: 0 <= i < |payload| ==> payload[i] < 0x80
    ensures Unframe(EmittedFrame(cmd, payload)) == Some(Envelope(ClientToFixedType(cmd), payload))
  {
    CutFrameSurvives(ClientToFixedType(cmd), payload);
    UnframeFrameOf(ClientToFixedType(cmd), payload);
  }

  /** A zero byte inside the payload truncates the emitted message. */
  lemma ZeroBytePayloadTruncated(cmd: ClientCommandId, payload: seq<byte>)
    requires 0 in payload
    ensures |EmittedFrame(cmd, payload)| < CommandSize + |payload|
  {
    CutFrameSurvives(ClientToFixedType(cmd), payload);
  }

  /**
    "backup <path>" in WaitUserInput: the path is packed; an exception from
    the archiver escapes; otherwise the content and meta files, each read
    up to its first zero byte, are sent with the path, and the state is
    left alone.
   */
  lemma BackupCommandSent(serialize: Request -> Option<seq<byte>>, s: Snapshot, path: string, fx: Effects)
    requires s.state == WaitUserInput
    ensures var (n, outcome) := AfterConsoleInput(serialize, s, "backup " + path, fx);
      && n.archiver == s.archiver + [Pack(path)]
      && n.state == s.state && n.console == s.console && n.restorePath == s.restorePath
      && outcome == (if fx.packThrows then Threw(ArchiverException) else Handled)
      && n.network == (
           match serialize(ClientBackupRequest(CutAtZero(fx.packedArchive), path, Some(CutAtZero(fx.packedMeta))))
           case Some(bytes) => if fx.packThrows then s.network else s.network + [EmittedFrame(Backup, bytes)]
           case None => s.network)
  {
    BackupWithArgument(path);
  }
}
