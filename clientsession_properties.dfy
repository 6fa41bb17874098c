/**
  Properties of ClientSession's transitions, stated over the snapshot
  functions that the class's methods are proved to follow.
 */
module SessionProperties {
  import opened Basics
  import opened Wire
  import opened Digits
  import opened ClientCommon
  import opened Session

  /** The wait state a guarded reply handler expects; None for the unguarded ones. */
  function ExpectedState(t: ServerTag): Option<ClientState> {
    match t
    case AnsToClientLogin => Some(WaitLoginStatus)
    case AnsToLsSummary => Some(WaitLsResult)
    case AnsToLsDetailed => Some(WaitLsResult)
    case AnsToBackup => Some(WaitBackupResult)
    case AnsToRestore => Some(WaitRestoreResult)
    case _ => None
  }

  /** With distinct tags, the dispatcher recovers every reply kind from its byte. */
  lemma DecodeEncodeTag(tags: SessionTags, t: ServerTag)
    requires tags.Distinct()
    requires t != Unsupported
    ensures DecodeTag(tags, EncodeTag(tags, t)) == t
  {
    var ts := tags.ServerTags();
    assert ts[0] != ts[1] && ts[0] != ts[2] && ts[0] != ts[3] && ts[0] != ts[4];
    assert ts[0] != ts[5] && ts[0] != ts[6] && ts[0] != ts[7];
    assert ts[1] != ts[2] && ts[1] != ts[3] && ts[1] != ts[4] && ts[1] != ts[5];
    assert ts[1] != ts[6] && ts[1] != ts[7];
    assert ts[2] != ts[3] && ts[2] != ts[4] && ts[2] != ts[5] && ts[2] != ts[6] && ts[2] != ts[7];
    assert ts[3] != ts[4] && ts[3] != ts[5] && ts[3] != ts[6] && ts[3] != ts[7];
    assert ts[4] != ts[5] && ts[4] != ts[6] && ts[4] != ts[7];
    assert ts[5] != ts[6] && ts[5] != ts[7];
    assert ts[6] != ts[7];
  }

  /** Every byte the dispatcher recognises is the tag of the kind it decodes to. */
  lemma EncodeDecodeTag(tags: SessionTags, cmd: byte)
    requires DecodeTag(tags, cmd) != Unsupported
    ensures EncodeTag(tags, DecodeTag(tags, cmd)) == cmd
  {
  }

  /** Connect moves NotStarted to WaitLoginInput; a connect in any other state aborts. */
  lemma StartTransition(s: Snapshot)
    ensures AfterStart(s).state == if s.state == NotStarted then WaitLoginInput else Aborted
    ensures AfterStart(s).network == s.network && AfterStart(s).archiver == s.archiver
    ensures AfterStart(s).restorePath == s.restorePath
  {
  }

  /** Console input in Aborted changes nothing and sends nothing. */
  lemma ConsoleIgnoredWhenAborted(env: Env, s: Snapshot, message: string, fx: Effects)
    requires s.state == Aborted
    ensures AfterConsoleInput(env, s, message, fx) == (s, Handled)
  {
  }

  /** While a reply is awaited, console input only prints "Busy. Try later.". */
  lemma ConsoleBusyWhileWaiting(env: Env, s: Snapshot, message: string, fx: Effects)
    requires s.state !in {Aborted, WaitLoginInput, WaitUserInput}
    ensures AfterConsoleInput(env, s, message, fx) == (s.(console := s.console + [Busy]), Handled)
  {
  }

  /**
    In WaitLoginInput the whole line is sent as the login; the state
    becomes WaitLoginStatus exactly when serialization succeeded.
   */
  lemma LoginLineSent(env: Env, s: Snapshot, message: string, fx: Effects)
    requires s.state == WaitLoginInput
    ensures var (n, outcome) := AfterConsoleInput(env, s, message, fx);
      var serialized := env.serialize(LoginClientRequest(message));
      && outcome == Handled
      && n.state == (if serialized.Some? then WaitLoginStatus else WaitLoginInput)
      && n.network == s.network + (if serialized.Some? then [FrameOf(env.tags.clientLogin, serialized.value)] else [])
      && n.console == s.console && n.restorePath == s.restorePath && n.archiver == s.archiver
  {
  }

  /**
    A guarded reply (login, summary ls, detailed ls, backup result, restore
    archive) outside its wait state aborts and changes nothing else.
   */
  lemma GuardedReplyMismatchAborts(env: Env, s: Snapshot, message: seq<byte>, answer: ServerAnswer, fx: Effects)
    requires ExpectedState(DecodeTag(env.tags, TagByte(message))).Some?
    requires s.state != ExpectedState(DecodeTag(env.tags, TagByte(message))).value
    ensures AfterNetworkInput(env, s, message, answer, fx) == s.(state := Aborted)
  {
  }

  /**
    A guarded reply in its wait state ends in WaitUserInput, except a
    failed login, which ends in WaitLoginInput.
   */
  lemma GuardedReplyMatchCompletes(env: Env, s: Snapshot, message: seq<byte>, answer: ServerAnswer, fx: Effects)
    requires ExpectedState(DecodeTag(env.tags, TagByte(message))) == Some(s.state)
    ensures AfterNetworkInput(env, s, message, answer, fx).state ==
      if DecodeTag(env.tags, TagByte(message)) == AnsToClientLogin && !answer.isSuccess
      then WaitLoginInput else WaitUserInput
  {
  }

  /**
    The restore reply in WaitRestoreResult: unpack is called only when the
    restore path is a directory, success is acknowledged only when unpack
    returned normally, and the session always returns to WaitUserInput.
   */
  lemma RestoreReplyAcknowledges(env: Env, s: Snapshot, answer: ServerAnswer, fx: Effects)
    requires s.state == WaitRestoreResult
    ensures var n := AfterArchiveToRestore(env, s, answer, fx);
      var ack := env.serialize(ClientReplyAfterRestore(fx.isDir && !fx.unpackThrows));
      && n.state == WaitUserInput
      && n.archiver == s.archiver + (if fx.isDir then [Unpack(answer.archive, s.restorePath)] else [])
      && n.network == s.network + (if ack.Some? then [FrameOf(env.tags.replyAfterRestore, ack.value)] else [])
      && n.console == s.console && n.restorePath == s.restorePath
  {
  }

  /** A restore path that is not a directory: no unpack, and only a failure acknowledgement is sent. */
  lemma RestoreToNonDirectoryFails(env: Env, s: Snapshot, answer: ServerAnswer, fx: Effects)
    requires s.state == WaitRestoreResult && !fx.isDir
    ensures var n := AfterArchiveToRestore(env, s, answer, fx);
      && (forall call :: call in n.archiver ==> call in s.archiver)
      && (forall frame :: frame in n.network[|s.network|..] ==>
            exists bytes :: env.serialize(ClientReplyAfterRestore(false)) == Some(bytes)
                         && frame == FrameOf(env.tags.replyAfterRestore, bytes))
  {
    RestoreReplyAcknowledges(env, s, answer, fx);
    var n := AfterArchiveToRestore(env, s, answer, fx);
    forall frame | frame in n.network[|s.network|..]
      ensures exists bytes :: env.serialize(ClientReplyAfterRestore(false)) == Some(bytes)
                           && frame == FrameOf(env.tags.replyAfterRestore, bytes)
    {
      var bytes := env.serialize(ClientReplyAfterRestore(false)).value;
      assert n.network[|s.network|..] == [FrameOf(env.tags.replyAfterRestore, bytes)];
    }
  }

  /**
    The handlers of serverExit and notFoundBackupByIdOnServer set
    WaitUserInput from every state, Aborted included; the serverError
    handler aborts; an unrecognised tag changes nothing.
   */
  lemma UnguardedReplies(env: Env, s: Snapshot, message: seq<byte>, answer: ServerAnswer, fx: Effects)
    ensures var t := DecodeTag(env.tags, TagByte(message));
      var n := AfterNetworkInput(env, s, message, answer, fx);
      && (t == ServerExitTag || t == NotFoundBackupByIdOnServer ==> n.state == WaitUserInput)
      && (t == ServerErrorTag ==> n.state == Aborted)
      && (t == Unsupported ==> n == s)
  {
  }

  /** Aborted is not absorbing: a serverExit frame brings an aborted session back to WaitUserInput. */
  lemma AbortedIsNotAbsorbing(env: Env, s: Snapshot, payload: seq<byte>, answer: ServerAnswer, fx: Effects)
    requires env.tags.Distinct()
    requires s.state == Aborted
    ensures AfterNetworkInput(env, s, FrameOf(env.tags.serverExit, payload), answer, fx).state == WaitUserInput
  {
    DecodeEncodeTag(env.tags, ServerExitTag);
  }

  /**
    The only ways out of Aborted are the serverExit and
    notFoundBackupByIdOnServer replies; connect and console input keep it.
   */
  lemma LeavingAborted(env: Env, s: Snapshot, line: string, message: seq<byte>, answer: ServerAnswer, fx: Effects)
    requires s.state == Aborted
    ensures AfterStart(s).state == Aborted
    ensures AfterConsoleInput(env, s, line, fx).0.state == Aborted
    ensures AfterNetworkInput(env, s, message, answer, fx).state != Aborted ==>
      && DecodeTag(env.tags, TagByte(message)) in {ServerExitTag, NotFoundBackupByIdOnServer}
      && AfterNetworkInput(env, s, message, answer, fx).state == WaitUserInput
  {
  }

  /** askLs() moves to WaitLsResult even when the request could not be serialized and nothing was sent. */
  lemma AskLsWaitsEvenWhenDropped(env: Env, s: Snapshot)
    requires env.serialize(LsClientRequest(Some(1), None)).None?
    ensures AfterAskLs(env, s) == s.(state := WaitLsResult)
  {
  }

  /** Exactly "restore" or "backup" throws std::out_of_range before anything changes. */
  lemma BareKeywordThrows(env: Env, s: Snapshot, message: string, fx: Effects)
    requires s.state == WaitUserInput
    requires message == "restore" || message == "backup"
    ensures AfterConsoleInput(env, s, message, fx) == (s, Threw(OutOfRange))
  {
  }

  /** "ls <id><rest>" requests the details of backup id, whatever non-digit text follows the digits. */
  lemma LsByIdRequestsParsedId(env: Env, s: Snapshot, id: uint64, rest: string, fx: Effects)
    requires s.state == WaitUserInput
    requires rest == [] || !IsDigit(rest[0])
    ensures var (n, outcome) := AfterConsoleInput(env, s, "ls " + Decimal(id) + rest, fx);
      && outcome == Handled
      && n.state == WaitLsResult
      && n.network == SentOrDropped(env, s, LsClientRequest(Some(1), Some(id)), env.tags.ls).network
  {
    var arg := Decimal(id) + rest;
    assert "ls " + Decimal(id) + rest == "ls " + arg;
    LsWithArgument(arg);
    ParseDecimal(id, rest);
  }

  /** The scenario "ls 42": backup id 42 exactly. */
  lemma LsFortyTwo(env: Env, s: Snapshot, fx: Effects)
    requires s.state == WaitUserInput
    ensures AfterConsoleInput(env, s, "ls 42", fx).0.network ==
      SentOrDropped(env, s, LsClientRequest(Some(1), Some(42)), env.tags.ls).network
  {
    assert Decimal(42) == "42" by {
      assert Decimal(4) == "4";
    }
    LsByIdRequestsParsedId(env, s, 42, "", fx);
    assert "ls " + Decimal(42) + "" == "ls 42";
  }

  /** With nothing after the digit run and its separator, a restore request changes nothing. */
  lemma RestoreWithoutPathIgnored(env: Env, s: Snapshot, command: string)
    requires DigitRun(command) + 1 >= |command|
    ensures AfterRestoreRequest(env, s, command) == s
  {
  }

  /**
    "restore <id><sep><path>": the path is kept as restorePath and, when
    the request serializes, backup id is requested and the session waits
    for the archive.
   */
  lemma RestoreCommandRoundTrip(env: Env, s: Snapshot, id: uint64, sep: char, path: string)
    requires !IsDigit(sep) && path != []
    ensures var n := AfterRestoreRequest(env, s, Decimal(id) + [sep] + path);
      var serialized := env.serialize(RestoreClientRequest(id));
      && n.restorePath == path
      && n.state == (if serialized.Some? then WaitRestoreResult else s.state)
      && n.network == s.network + (if serialized.Some? then [FrameOf(env.tags.restore, serialized.value)] else [])
  {
    var command := Decimal(id) + [sep] + path;
    assert command == Decimal(id) + ([sep] + path);
    ParseDecimal(id, [sep] + path);
    assert command[|Decimal(id)| + 1..] == path;
  }

  /** The scenario of a successful backup reply: the id is shown and the session is ready again. */
  lemma BackupResultShown(s: Snapshot, answer: ServerAnswer)
    requires s.state == WaitBackupResult && answer.isSuccess
    ensures var n := AfterBackupResults(s, answer);
      n.state == WaitUserInput && n.console == s.console + [BackupSucceeded(answer.backupId)]
  {
  }

  /** Connect, a login line, and a successful login answer lead a fresh session to WaitUserInput. */
  lemma LoginHappyPath(env: Env, login: string, payload: seq<byte>, answer: ServerAnswer, fx: Effects)
    requires env.tags.Distinct()
    requires env.serialize(LoginClientRequest(login)).Some?
    requires answer.isSuccess
    ensures var s0 := Snapshot(NotStarted, "", [], [], []);
      var s1 := AfterStart(s0);
      var s2 := AfterConsoleInput(env, s1, login, fx).0;
      var s3 := AfterNetworkInput(env, s2, FrameOf(env.tags.ansToClientLogin, payload), answer, fx);
      s3.state == WaitUserInput
  {
    DecodeEncodeTag(env.tags, AnsToClientLogin);
  }

  /** "exit" in WaitUserInput ends the process and changes nothing. */
  lemma ExitCommandExits(env: Env, s: Snapshot, fx: Effects)
    requires s.state == WaitUserInput
    ensures AfterConsoleInput(env, s, "exit", fx) == (s, Exited)
  {
  }

  /** A line that is no command is echoed back as unknown, and nothing else changes. */
  lemma UnknownCommandReported(env: Env, s: Snapshot, line: string, fx: Effects)
    requires s.state == WaitUserInput
    requires line != "exit" && line != "help"
    requires !(|line| >= 2 && line[..2] == "ls")
    requires !(|line| >= 7 && line[..7] == "restore")
    requires !(|line| >= 6 && line[..6] == "backup")
    ensures AfterConsoleInput(env, s, line, fx) == (s.(console := s.console + [UnknownCommand(line)]), Handled)
  {
  }

  /**
    "backup <path>" in WaitUserInput: the path is packed; an exception from
    the archiver escapes; otherwise the archive and path are sent and the
    session waits for the result, both only when the request serializes.
   */
  lemma BackupCommandSent(env: Env, s: Snapshot, path: string, fx: Effects)
    requires s.state == WaitUserInput
    ensures var (n, outcome) := AfterConsoleInput(env, s, "backup " + path, fx);
      && n.archiver == s.archiver + [Pack(path)]
      && n.console == s.console && n.restorePath == s.restorePath
      && (fx.packThrows ==>
            outcome == Threw(ArchiverException) && n.state == s.state && n.network == s.network)
      && (!fx.packThrows ==>
            outcome == Handled &&
            match env.serialize(ClientBackupRequest(fx.packedArchive, path, None))
            case Some(bytes) => n.state == WaitBackupResult && n.network == s.network + [FrameOf(env.tags.backup, bytes)]
            case None => n.state == WaitUserInput && n.network == s.network)
  {
    BackupWithArgument(path);
  }
}
