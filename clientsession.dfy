/**
  ClientSession: the current client state machine. It reacts to three
  events (the transport connected, a console line, a framed network
  message), keeps its state and the path of a pending restore in fields,
  and emits console lines, network frames and archiver calls.

  The After* functions give the snapshot each operation leaves behind;
  every method of the class is proved to produce exactly that snapshot.
 */
module Session {
  import opened Basics
  import opened Wire
  import opened Digits
  import opened ClientCommon

  /**
    The tag bytes ClientSession uses. Its header declares tags that the
    shared protocol header does not (clientLogin, ansToClientLogin,
    serverError), so the bytes are a parameter of the model.
   */
  datatype SessionTags = SessionTags(
    clientLogin: byte,
    ls: byte,
    restore: byte,
    replyAfterRestore: byte,
    backup: byte,
    ansToClientLogin: byte,
    ansToLsSummary: byte,
    ansToLsDetailed: byte,
    ansToBackup: byte,
    ansToRestore: byte,
    serverExit: byte,
    notFoundBackupByIdOnServer: byte,
    serverError: byte)
  {
    /** The tags the network dispatcher switches on, in the order of its cases. */
    function ServerTags(): seq<byte> {
      [ansToClientLogin, ansToLsSummary, ansToLsDetailed, ansToBackup,
       ansToRestore, serverExit, notFoundBackupByIdOnServer, serverError]
    }

    /** The case labels of a C++ switch are distinct. */
    predicate Distinct() {
      var t := ServerTags();
      forall i, j :: 0 <= i < j < |t| ==> t[i] != t[j]
    }
  }

  /** The server tags the dispatcher tells apart, and every other byte. */
  datatype ServerTag =
    | AnsToClientLogin | AnsToLsSummary | AnsToLsDetailed | AnsToBackup | AnsToRestore
    | ServerExitTag | NotFoundBackupByIdOnServer | ServerErrorTag | Unsupported

  /** The collaborators a session is built with: its tag bytes and protobuf serialization. */
  datatype Env = Env(tags: SessionTags, serialize: Request -> Option<seq<byte>>)

  /** The dispatcher's switch on the tag byte. */
  function DecodeTag(tags: SessionTags, cmd: byte): (t: ServerTag)
    ensures t == Unsupported <==> cmd !in tags.ServerTags()
  {
    if cmd == tags.ansToClientLogin then AnsToClientLogin
    else if cmd == tags.ansToLsSummary then AnsToLsSummary
    else if cmd == tags.ansToLsDetailed then AnsToLsDetailed
    else if cmd == tags.ansToBackup then AnsToBackup
    else if cmd == tags.ansToRestore then AnsToRestore
    else if cmd == tags.serverExit then ServerExitTag
    else if cmd == tags.notFoundBackupByIdOnServer then NotFoundBackupByIdOnServer
    else if cmd == tags.serverError then ServerErrorTag
    else Unsupported
  }

  /** The byte a server puts in front of a reply of kind t. */
  function EncodeTag(tags: SessionTags, t: ServerTag): (cmd: byte)
    requires t != Unsupported
    ensures cmd in tags.ServerTags()
  {
    match t
    case AnsToClientLogin => tags.ansToClientLogin
    case AnsToLsSummary => tags.ansToLsSummary
    case AnsToLsDetailed => tags.ansToLsDetailed
    case AnsToBackup => tags.ansToBackup
    case AnsToRestore => tags.ansToRestore
    case ServerExitTag => tags.serverExit
    case NotFoundBackupByIdOnServer => tags.notFoundBackupByIdOnServer
    case ServerErrorTag => tags.serverError
  }

  /**
    The byte the dispatcher reads as the tag: the first byte, or the zero
    that QByteArray keeps after its data when the message is empty.
   */
  function TagByte(message: seq<byte>): (tag: byte)
    ensures |message| == 0 ==> tag == 0
    ensures |message| > 0 ==> tag == message[0]
  {
    if |message| == 0 then 0 else message[0]
  }

  /**
    Wherever a message splits into tag and payload, the dispatcher's byte is
    that tag; it differs from the split only on the empty message, which it
    reads as tag 0 instead of rejecting.
   */
  lemma TagByteAgreesWithUnframe(message: seq<byte>)
    ensures Unframe(message).Some? ==> TagByte(message) == Unframe(message).value.tag
    ensures Unframe(message).None? <==> message == []
  {
  }

  // ---------------------------------------------------------------------
  // Requests

  /** The frame of a request when it serializes; nothing when it does not. */
  function SentOrDropped(env: Env, s: Snapshot, req: Request, tag: byte): Snapshot {
    match env.serialize(req)
    case None => s
    case Some(bytes) => Transmit(s, FrameOf(tag, bytes))
  }

  /** sendLoginRequest: the state moves on only when the request was sent. */
  function AfterLoginRequest(env: Env, s: Snapshot, login: string): Snapshot {
    var req := LoginClientRequest(login);
    if env.serialize(req).None? then s
    else SentOrDropped(env, s, req, env.tags.clientLogin).(state := WaitLoginStatus)
  }

  /** askLs(): a summary request; the state moves on even when nothing was sent. */
  function AfterAskLs(env: Env, s: Snapshot): Snapshot {
    SentOrDropped(env, s, LsClientRequest(Some(1), None), env.tags.ls).(state := WaitLsResult)
  }

  /** askLs(command): a detail request for the leading backup id. */
  function AfterAskLsById(env: Env, s: Snapshot, command: string): Snapshot {
    var req := LsClientRequest(Some(1), Some(ParsedBackupId(command)));
    SentOrDropped(env, s, req, env.tags.ls).(state := WaitLsResult)
  }

  /**
    makeRestoreRequest: one character after the digit run is skipped and
    the rest is the restore path; with nothing left, nothing happens.
   */
  function AfterRestoreRequest(env: Env, s: Snapshot, command: string): Snapshot {
    var i := DigitRun(command) + 1;
    if i >= |command| then s
    else
      var s1 := s.(restorePath := command[i..]);
      var req := RestoreClientRequest(ParsedBackupId(command));
      if env.serialize(req).None? then s1
      else SentOrDropped(env, s1, req, env.tags.restore).(state := WaitRestoreResult)
  }

  /** makeBackup: pack the path, then send the archive and the path. */
  function AfterBackup(env: Env, s: Snapshot, command: string, fx: Effects): (Snapshot, Outcome) {
    var s1 := Invoke(s, Pack(command));
    if fx.packThrows then (s1, Threw(ArchiverException))
    else
      var req := ClientBackupRequest(fx.packedArchive, command, None);
      if env.serialize(req).None? then (s1, Handled)
      else (SentOrDropped(env, s1, req, env.tags.backup).(state := WaitBackupResult), Handled)
  }

  /** sendRestoreResult: acknowledge a restore to the server. */
  function AfterRestoreResult(env: Env, s: Snapshot, restoreResult: bool): Snapshot {
    var req := ClientReplyAfterRestore(restoreResult);
    if env.serialize(req).None? then s
    else SentOrDropped(env, s, req, env.tags.replyAfterRestore).(state := WaitUserInput)
  }

  /** onConsoleInput. */
  function AfterConsoleInput(env: Env, s: Snapshot, message: string, fx: Effects): (Snapshot, Outcome) {
    if s.state == Aborted then (s, Handled)
    else if s.state == WaitLoginInput then (AfterLoginRequest(env, s, message), Handled)
    else if s.state != WaitUserInput then (Print(s, Busy), Handled)
    else if message == "exit" then (s, Exited)
    else if message == "help" then (Print(s, Help), Handled)
    else
      match Classify(message)
      case LsAll => (AfterAskLs(env, s), Handled)
      case LsWith(arg) => (AfterAskLsById(env, s, arg), Handled)
      case RestoreWith(arg) => (AfterRestoreRequest(env, s, arg), Handled)
      case BackupWith(arg) => AfterBackup(env, s, arg, fx)
      case MissingArgument => (s, Threw(OutOfRange))
      case Unrecognised => (Print(s, UnknownCommand(message)), Handled)
  }

  /** onStart: only the first connect is expected. */
  function AfterStart(s: Snapshot): Snapshot {
    if s.state == NotStarted then Print(s.(state := WaitLoginInput), PrintLogin)
    else s.(state := Aborted)
  }

  // ---------------------------------------------------------------------
  // Replies

  function AfterLoginAns(s: Snapshot, answer: ServerAnswer): Snapshot {
    if s.state != WaitLoginStatus then s.(state := Aborted)
    else if answer.isSuccess then Print(s.(state := WaitUserInput), LoginSucceeded)
    else Print(s.(state := WaitLoginInput), LoginFailed)
  }

  function AfterDetailedLs(s: Snapshot, answer: ServerAnswer, fx: Effects): Snapshot {
    if s.state != WaitLsResult then s.(state := Aborted)
    else
      var s1 := Invoke(s, PrintFsTree(answer.meta));
      Print(s1, DetailedListing(answer.info, fx.fsTree)).(state := WaitUserInput)
  }

  function AfterSummaryLs(s: Snapshot, answer: ServerAnswer): Snapshot {
    if s.state != WaitLsResult then s.(state := Aborted)
    else Print(s, SummaryListing(answer.infos)).(state := WaitUserInput)
  }

  /**
    OnReceiveArchiveToRestore: unpack into restorePath only when it is a
    directory; acknowledge success only when unpack returned normally.
   */
  function AfterArchiveToRestore(env: Env, s: Snapshot, answer: ServerAnswer, fx: Effects): Snapshot {
    if s.state != WaitRestoreResult then s.(state := Aborted)
    else
      var acknowledged :=
        if fx.isDir then
          AfterRestoreResult(env, Invoke(s, Unpack(answer.archive, s.restorePath)), !fx.unpackThrows)
        else
          AfterRestoreResult(env, s, false);
      acknowledged.(state := WaitUserInput)
  }

  function AfterNotFoundBackupId(s: Snapshot, answer: ServerAnswer): Snapshot {
    Print(s, ErrorMessage(answer.errorMessage)).(state := WaitUserInput)
  }

  function AfterBackupResults(s: Snapshot, answer: ServerAnswer): Snapshot {
    if s.state != WaitBackupResult then s.(state := Aborted)
    else
      var line := if answer.isSuccess then BackupSucceeded(answer.backupId) else BackupFailed;
      Print(s, line).(state := WaitUserInput)
  }

  function AfterServerError(s: Snapshot, answer: ServerAnswer): Snapshot {
    Print(s, ServerErrorText(answer.errorMessage)).(state := WaitUserInput)
  }

  function AfterServerExit(s: Snapshot, answer: ServerAnswer): Snapshot {
    Print(s, ServerAbortedText(answer.errorMessage)).(state := Aborted)
  }

  /**
    onNetworkInput. The serverExit tag is routed to OnServerError and the
    serverError tag to OnServerExit, as the source's switch does.
   */
  function AfterNetworkInput(env: Env, s: Snapshot, message: seq<byte>, answer: ServerAnswer, fx: Effects): Snapshot {
    match DecodeTag(env.tags, TagByte(message))
    case AnsToClientLogin => AfterLoginAns(s, answer)
    case AnsToLsSummary => AfterSummaryLs(s, answer)
    case AnsToLsDetailed => AfterDetailedLs(s, answer, fx)
    case AnsToBackup => AfterBackupResults(s, answer)
    case AnsToRestore => AfterArchiveToRestore(env, s, answer, fx)
    case ServerExitTag => AfterServerError(s, answer)
    case NotFoundBackupByIdOnServer => AfterNotFoundBackupId(s, answer)
    case ServerErrorTag => AfterServerExit(s, answer)
    case Unsupported => s
  }

  // ---------------------------------------------------------------------
  // The class

  class ClientSession {
    const env: Env
    var state: ClientState
    var restorePath: string
    var console: seq<ConsoleLine>
    var network: seq<seq<byte>>
    var archiver: seq<ArchiverCall>

    function Snap(): Snapshot
      reads this
    {
      Snapshot(state, restorePath, console, network, archiver)
    }

    constructor(env: Env)
      ensures this.env == env
      ensures Snap() == Snapshot(NotStarted, "", [], [], [])
    {
      this.env := env;
      state := NotStarted;
      restorePath := "";
      console, network, archiver := [], [], [];
    }

    method OnConsoleInput(message: string, fx: Effects) returns (outcome: Outcome)
      modifies this
      ensures (Snap(), outcome) == AfterConsoleInput(env, old(Snap()), message, fx)
    {
      if state == Aborted {
        return Handled;
      }
      if state == WaitLoginInput {
        SendLoginRequest(message);
        return Handled;
      }
      if state != WaitUserInput {
        console := console + [Busy];
        return Handled;
      }
      if message == "exit" {
        return Exited;
      }
      if message == "help" {
        console := console + [Help];
      } else if message == "ls" {
        AskLs();
      } else if Substr0(message, 2) == "ls" {
        AskLsById(message[3..]);
      } else if Substr0(message, 7) == "restore" {
        if |message| < 8 {
          return Threw(OutOfRange);
        }
        MakeRestoreRequest(message[8..]);
      } else if Substr0(message, 6) == "backup" {
        if |message| < 7 {
          return Threw(OutOfRange);
        }
        outcome := MakeBackup(message[7..], fx);
        return;
      } else {
        console := console + [UnknownCommand(message)];
      }
      return Handled;
    }

    method OnNetworkInput(message: seq<byte>, answer: ServerAnswer, fx: Effects)
      modifies this
      ensures Snap() == AfterNetworkInput(env, old(Snap()), message, answer, fx)
    {
      match DecodeTag(env.tags, TagByte(message))
      case AnsToClientLogin => OnLoginAns(answer);
      case AnsToLsSummary => OnSummaryLs(answer);
      case AnsToLsDetailed => OnDetailedLs(answer, fx);
      case AnsToBackup => OnReceiveBackupResults(answer);
      case AnsToRestore => OnReceiveArchiveToRestore(answer, fx);
      case ServerExitTag => OnServerError(answer);
      case NotFoundBackupByIdOnServer => OnNotFoundBackupId(answer);
      case ServerErrorTag => OnServerExit(answer);
      case Unsupported =>
    }

    method OnStart()
      modifies this
      ensures Snap() == AfterStart(old(Snap()))
    {
      if state == NotStarted {
        state := WaitLoginInput;
        console := console + [PrintLogin];
      } else {
        state := Aborted;
      }
    }

    method SendLoginRequest(login: string)
      modifies this
      ensures Snap() == AfterLoginRequest(env, old(Snap()), login)
    {
      var serialized := env.serialize(LoginClientRequest(login));
      if serialized.None? {
        return;
      }
      SendSerializatedMessage(serialized.value, env.tags.clientLogin);
      state := WaitLoginStatus;
    }

    method SendLsFromClient(ls: Request)
      requires ls.LsClientRequest?
      modifies this
      ensures Snap() == SentOrDropped(env, old(Snap()), ls, env.tags.ls)
    {
      var serialized := env.serialize(ls);
      if serialized.None? {
        return;
      }
      SendSerializatedMessage(serialized.value, env.tags.ls);
    }

    method AskLs()
      modifies this
      ensures Snap() == AfterAskLs(env, old(Snap()))
    {
      SendLsFromClient(LsClientRequest(Some(1), None));
      state := WaitLsResult;
    }

    method AskLsById(command: string)
      modifies this
      ensures Snap() == AfterAskLsById(env, old(Snap()), command)
    {
      var backupId, _ := ScanBackupId(command);
      SendLsFromClient(LsClientRequest(Some(1), Some(backupId)));
      state := WaitLsResult;
    }

    method MakeRestoreRequest(command: string)
      modifies this
      ensures Snap() == AfterRestoreRequest(env, old(Snap()), command)
    {
      var backupId, i := ScanBackupId(command);
      i := i + 1;
      if i >= |command| {
        return;
      }
      restorePath := command[i..];
      var serialized := env.serialize(RestoreClientRequest(backupId));
      if serialized.None? {
        return;
      }
      SendSerializatedMessage(serialized.value, env.tags.restore);
      state := WaitRestoreResult;
    }

    method MakeBackup(command: string, fx: Effects) returns (outcome: Outcome)
      modifies this
      ensures (Snap(), outcome) == AfterBackup(env, old(Snap()), command, fx)
    {
      archiver := archiver + [Pack(command)];
      if fx.packThrows {
        return Threw(ArchiverException);
      }
      var serialized := env.serialize(ClientBackupRequest(fx.packedArchive, command, None));
      if serialized.None? {
        return Handled;
      }
      SendSerializatedMessage(serialized.value, env.tags.backup);
      state := WaitBackupResult;
      return Handled;
    }

    method SendRestoreResult(restoreResult: bool)
      modifies this
      ensures Snap() == AfterRestoreResult(env, old(Snap()), restoreResult)
    {
      var serialized := env.serialize(ClientReplyAfterRestore(restoreResult));
      if serialized.None? {
        return;
      }
      SendSerializatedMessage(serialized.value, env.tags.replyAfterRestore);
      state := WaitUserInput;
    }

    method OnLoginAns(answer: ServerAnswer)
      modifies this
      ensures Snap() == AfterLoginAns(old(Snap()), answer)
    {
      if state != WaitLoginStatus {
        state := Aborted;
        return;
      }
      if answer.isSuccess {
        state := WaitUserInput;
        console := console + [LoginSucceeded];
      } else {
        state := WaitLoginInput;
        console := console + [LoginFailed];
      }
    }

    method OnDetailedLs(answer: ServerAnswer, fx: Effects)
      modifies this
      ensures Snap() == AfterDetailedLs(old(Snap()), answer, fx)
    {
      if state != WaitLsResult {
        state := Aborted;
        return;
      }
      archiver := archiver + [PrintFsTree(answer.meta)];
      console := console + [DetailedListing(answer.info, fx.fsTree)];
      state := WaitUserInput;
    }

    method OnSummaryLs(answer: ServerAnswer)
      modifies this
      ensures Snap() == AfterSummaryLs(old(Snap()), answer)
    {
      if state != WaitLsResult {
        state := Aborted;
        return;
      }
      console := console + [SummaryListing(answer.infos)];
      state := WaitUserInput;
    }

    method OnReceiveArchiveToRestore(answer: ServerAnswer, fx: Effects)
      modifies this
      ensures Snap() == AfterArchiveToRestore(env, old(Snap()), answer, fx)
    {
      if state != WaitRestoreResult {
        state := Aborted;
        return;
      }
      if fx.isDir {
        archiver := archiver + [Unpack(answer.archive, restorePath)];
        if fx.unpackThrows {
          SendRestoreResult(false);
        } else {
          SendRestoreResult(true);
        }
      } else {
        SendRestoreResult(false);
      }
      state := WaitUserInput;
    }

    method OnNotFoundBackupId(answer: ServerAnswer)
      modifies this
      ensures Snap() == AfterNotFoundBackupId(old(Snap()), answer)
    {
      console := console + [ErrorMessage(answer.errorMessage)];
      state := WaitUserInput;
    }

    method OnReceiveBackupResults(answer: ServerAnswer)
      modifies this
      ensures Snap() == AfterBackupResults(old(Snap()), answer)
    {
      if state != WaitBackupResult {
        state := Aborted;
        return;
      }
      if answer.isSuccess {
        console := console + [BackupSucceeded(answer.backupId)];
      } else {
        console := console + [BackupFailed];
      }
      state := WaitUserInput;
    }

    method OnServerError(answer: ServerAnswer)
      modifies this
      ensures Snap() == AfterServerError(old(Snap()), answer)
    {
      console := console + [ServerErrorText(answer.errorMessage)];
      state := WaitUserInput;
    }

    method OnServerExit(answer: ServerAnswer)
      modifies this
      ensures Snap() == AfterServerExit(old(Snap()), answer)
    {
      console := console + [ServerAbortedText(answer.errorMessage)];
      state := Aborted;
    }

    method SendSerializatedMessage(binaryMessage: seq<byte>, cmdType: byte)
      modifies this
      ensures Snap() == Transmit(old(Snap()), FrameOf(cmdType, binaryMessage))
    {
      var message := BuildFrame(binaryMessage, cmdType);
      network := network + [message];
    }
  }
}
