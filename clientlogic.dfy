/**
  ClientLogic: the older client state machine. It has no login phase,
  its commands never move it into a wait state, only a serverExit reply
  changes its state, and every frame it sends goes through
  QString(const char*), which stops at the first zero byte.
 */
module Logic {
  import opened Basics
  import opened Protocol
  import opened Wire
  import opened Digits
  import opened ClientCommon

  /**
    The message emitted for a request: `[tag][payload]` as far as the first
    zero byte, as bytes; the UTF-8 decoding QString applies to them is not
    part of the model.
   */
  function EmittedFrame(cmd: ClientCommandId, payload: seq<byte>): (frame: seq<byte>)
    ensures frame <= FrameOf(ClientToFixedType(cmd), payload)
    ensures 0 !in frame
  {
    CutAtZero(FrameOf(ClientToFixedType(cmd), payload))
  }

  /** Serialize a request and emit its frame; nothing when serialization fails. */
  function SentOrDropped(serialize: Request -> Option<seq<byte>>, s: Snapshot, req: Request, cmd: ClientCommandId): Snapshot {
    match serialize(req)
    case None => s
    case Some(bytes) => Transmit(s, EmittedFrame(cmd, bytes))
  }

  /** askLs(): an ls request with no field set. */
  function AfterAskLs(serialize: Request -> Option<seq<byte>>, s: Snapshot): Snapshot {
    SentOrDropped(serialize, s, LsClientRequest(None, None), Ls)
  }

  /** askLs(command): an ls request for the leading backup id. */
  function AfterAskLsById(serialize: Request -> Option<seq<byte>>, s: Snapshot, command: string): Snapshot {
    SentOrDropped(serialize, s, LsClientRequest(None, Some(ParsedBackupId(command))), Ls)
  }

  /** makeRestoreRequest: as in ClientSession, but the state never changes. */
  function AfterRestoreRequest(serialize: Request -> Option<seq<byte>>, s: Snapshot, command: string): Snapshot {
    var i := DigitRun(command) + 1;
    if i >= |command| then s
    else SentOrDropped(serialize, s.(restorePath := command[i..]), RestoreClientRequest(ParsedBackupId(command)), Restore)
  }

  /**
    makeBackup: pack the path, then send the packed content and meta files,
    each read through a C string (so only up to its first zero byte).
   */
  function AfterBackup(serialize: Request -> Option<seq<byte>>, s: Snapshot, command: string, fx: Effects): (Snapshot, Outcome) {
    var s1 := Invoke(s, Pack(command));
    if fx.packThrows then (s1, Threw(ArchiverException))
    else
      var req := ClientBackupRequest(CutAtZero(fx.packedArchive), command, Some(CutAtZero(fx.packedMeta)));
      (SentOrDropped(serialize, s1, req, Backup), Handled)
  }

  /** sendRestoreResult: acknowledge a restore; the state is left alone. */
  function AfterRestoreResult(serialize: Request -> Option<seq<byte>>, s: Snapshot, restoreResult: bool): Snapshot {
    SentOrDropped(serialize, s, ClientReplyAfterRestore(restoreResult), ReplyAfterRestore)
  }

  /** slotReadFromConsole. The "help" test stands before the if-else chain, not in it. */
  function AfterConsoleInput(serialize: Request -> Option<seq<byte>>, s: Snapshot, message: string, fx: Effects): (Snapshot, Outcome) {
    if s.state == Aborted then (s, Handled)
    else if s.state != WaitUserInput then (Print(s, Busy), Handled)
    else if message == "exit" then (s, Exited)
    else
      var s1 := if message == "help" then Print(s, Help) else s;
      match Classify(message)
      case LsAll => (AfterAskLs(serialize, s1), Handled)
      case LsWith(arg) => (AfterAskLsById(serialize, s1, arg), Handled)
      case RestoreWith(arg) => (AfterRestoreRequest(serialize, s1, arg), Handled)
      case BackupWith(arg) => AfterBackup(serialize, s1, arg, fx)
      case MissingArgument => (s1, Threw(OutOfRange))
      case Unrecognised => (Print(s1, UnknownCommand(message)), Handled)
  }

  /** slotStarting: the first connect goes straight to WaitUserInput. */
  function AfterStart(s: Snapshot): Snapshot {
    if s.state == NotStarted then Print(s.(state := WaitUserInput), PrintCommand)
    else s.(state := Aborted)
  }

  /**
    OnReceiveArchiveToRestore: the archive and meta are written to the
    content file that unpack reads; unpack runs only for a directory, and
    an exception it throws is not caught.
   */
  function AfterArchiveToRestore(serialize: Request -> Option<seq<byte>>, s: Snapshot, answer: ServerAnswer, fx: Effects): (Snapshot, Outcome) {
    if fx.isDir then
      var s1 := Invoke(s, Unpack(answer.archive + answer.meta, s.restorePath));
      if fx.unpackThrows then (s1, Threw(ArchiverException))
      else (AfterRestoreResult(serialize, s1, true), Handled)
    else (AfterRestoreResult(serialize, s, false), Handled)
  }

  function AfterBackupResults(s: Snapshot, answer: ServerAnswer): Snapshot {
    Print(s, if answer.isSuccess then BackupSucceeded(answer.backupId) else BackupFailed)
  }

  function AfterServerError(s: Snapshot, answer: ServerAnswer): Snapshot {
    Print(s, ServerAbortedText(answer.errorMessage)).(state := Aborted)
  }

  /**
    slotReadFromNetwork: the tag is the first byte of the message read
    back as a string; an empty message makes substr(commandSize) throw.
   */
  function AfterNetworkInput(serialize: Request -> Option<seq<byte>>, s: Snapshot, message: seq<byte>, answer: ServerAnswer, fx: Effects): (Snapshot, Outcome) {
    match Unframe(message)
    case None => (s, Threw(OutOfRange))
    case Some(envelope) =>
      match ServerCommandOf(envelope.tag)
      case Some(AnsToLsSummary) => (Print(s, SummaryListing(answer.infos)), Handled)
      case Some(AnsToLsDetailed) => (Print(s, InfoLine(answer.info)), Handled)
      case Some(AnsToBackup) => (AfterBackupResults(s, answer), Handled)
      case Some(AnsToRestore) => AfterArchiveToRestore(serialize, s, answer, fx)
      case Some(ServerExit) => (AfterServerError(s, answer), Handled)
      case _ => (s, Handled)
  }

  class ClientLogic {
    const serialize: Request -> Option<seq<byte>>
    var state: ClientState
    var restorePath: string
    var console: seq<ConsoleLine>
    var network: seq<seq<byte>>
    var archiver: seq<ArchiverCall>

    function Snap(): Snapshot
      reads this
    {
      Snapshot(state, restorePath, console, network, archiver)
    }

    constructor(serialize: Request -> Option<seq<byte>>)
      ensures this.serialize == serialize
      ensures Snap() == Snapshot(NotStarted, "", [], [], [])
    {
      this.serialize := serialize;
      state := NotStarted;
      restorePath := "";
      console, network, archiver := [], [], [];
    }

    method SlotReadFromConsole(message: string, fx: Effects) returns (outcome: Outcome)
      modifies this
      ensures (Snap(), outcome) == AfterConsoleInput(serialize, old(Snap()), message, fx)
    {
      if state == Aborted {
        return Handled;
      }
      if state == WaitUserInput {
        if message == "exit" {
          return Exited;
        }
        if message == "help" {
          console := console + [Help];
        }
        if message == "ls" {
          AskLs();
        } else if Substr0(message, 2) == "ls" {
          AskLsById(message[3..]);
        } else if Substr0(message, 7) == "restore" {
          if |message| < 8 {
            return Threw(OutOfRange);
          }
          MakeRestoreRequest(message[8..]);
        } else if Substr0(message, 6) == "backup" {
          if |message| < 7 {
            return Threw(OutOfRange);
          }
          outcome := MakeBackup(message[7..], fx);
          return;
        } else {
          console := console + [UnknownCommand(message)];
        }
      } else {
        console := console + [Busy];
      }
      return Handled;
    }

    method SlotReadFromNetwork(message: seq<byte>, answer: ServerAnswer, fx: Effects) returns (outcome: Outcome)
      modifies this
      ensures (Snap(), outcome) == AfterNetworkInput(serialize, old(Snap()), message, answer, fx)
    {
      var split := Unframe(message);
      if split.None? {
        return Threw(OutOfRange);
      }
      outcome := Handled;
      match ServerCommandOf(split.value.tag)
      case Some(AnsToLsSummary) => OnSummaryLs(answer);
      case Some(AnsToLsDetailed) => OnDetailedLs(answer);
      case Some(AnsToBackup) => OnReceiveBackupResults(answer);
      case Some(AnsToRestore) => outcome := OnReceiveArchiveToRestore(answer, fx);
      case Some(ServerExit) => OnServerError(answer);
      case _ =>
    }

    method SlotStarting()
      modifies this
      ensures Snap() == AfterStart(old(Snap()))
    {
      if state == NotStarted {
        state := WaitUserInput;
        console := console + [PrintCommand];
      } else {
        state := Aborted;
      }
    }

    /** The memcpy into a vector and QString(message.data()) that every sender repeats. */
    method EmitFrame(binaryMessage: seq<byte>, cmd: ClientCommandId)
      modifies this
      ensures Snap() == Transmit(old(Snap()), EmittedFrame(cmd, binaryMessage))
    {
      var message := BuildFrame(binaryMessage, ClientToFixedType(cmd));
      network := network + [CutAtZero(message)];
    }

    method SendLsFromClient(ls: Request)
      requires ls.LsClientRequest?
      modifies this
      ensures Snap() == SentOrDropped(serialize, old(Snap()), ls, Ls)
    {
      var serialized := serialize(ls);
      if serialized.None? {
        return;
      }
      EmitFrame(serialized.value, Ls);
    }

    method AskLs()
      modifies this
      ensures Snap() == AfterAskLs(serialize, old(Snap()))
    {
      SendLsFromClient(LsClientRequest(None, None));
    }

    method AskLsById(command: string)
      modifies this
      ensures Snap() == AfterAskLsById(serialize, old(Snap()), command)
    {
      var backupId, _ := ScanBackupId(command);
      SendLsFromClient(LsClientRequest(None, Some(backupId)));
    }

    method MakeRestoreRequest(command: string)
      modifies this
      ensures Snap() == AfterRestoreRequest(serialize, old(Snap()), command)
    {
      var backupId, i := ScanBackupId(command);
      i := i + 1;
      if i >= |command| {
        return;
      }
      restorePath := command[i..];
      var serialized := serialize(RestoreClientRequest(backupId));
      if serialized.None? {
        return;
      }
      EmitFrame(serialized.value, Restore);
    }

    method MakeBackup(command: string, fx: Effects) returns (outcome: Outcome)
      modifies this
      ensures (Snap(), outcome) == AfterBackup(serialize, old(Snap()), command, fx)
    {
      archiver := archiver + [Pack(command)];
      if fx.packThrows {
        return Threw(ArchiverException);
      }
      var req := ClientBackupRequest(CutAtZero(fx.packedArchive), command, Some(CutAtZero(fx.packedMeta)));
      var serialized := serialize(req);
      if serialized.Some? {
        EmitFrame(serialized.value, Backup);
      }
      return Handled;
    }

    method SendRestoreResult(restoreResult: bool)
      modifies this
      ensures Snap() == AfterRestoreResult(serialize, old(Snap()), restoreResult)
    {
      var serialized := serialize(ClientReplyAfterRestore(restoreResult));
      if serialized.None? {
        return;
      }
      EmitFrame(serialized.value, ReplyAfterRestore);
    }

    method OnDetailedLs(answer: ServerAnswer)
      modifies this
      ensures Snap() == Print(old(Snap()), InfoLine(answer.info))
    {
      console := console + [InfoLine(answer.info)];
    }

    method OnSummaryLs(answer: ServerAnswer)
      modifies this
      ensures Snap() == Print(old(Snap()), SummaryListing(answer.infos))
    {
      console := console + [SummaryListing(answer.infos)];
    }

    method OnReceiveArchiveToRestore(answer: ServerAnswer, fx: Effects) returns (outcome: Outcome)
      modifies this
      ensures (Snap(), outcome) == AfterArchiveToRestore(serialize, old(Snap()), answer, fx)
    {
      if fx.isDir {
        archiver := archiver + [Unpack(answer.archive + answer.meta, restorePath)];
        if fx.unpackThrows {
          return Threw(ArchiverException);
        }
        SendRestoreResult(true);
      } else {
        SendRestoreResult(false);
      }
      return Handled;
    }

    method OnReceiveBackupResults(answer: ServerAnswer)
      modifies this
      ensures Snap() == AfterBackupResults(old(Snap()), answer)
    {
      if answer.isSuccess {
        console := console + [BackupSucceeded(answer.backupId)];
      } else {
        console := console + [BackupFailed];
      }
    }

    method OnServerError(answer: ServerAnswer)
      modifies this
      ensures Snap() == AfterServerError(old(Snap()), answer)
    {
      console := console + [ServerAbortedText(answer.errorMessage)];
      state := Aborted;
    }
  }
}
