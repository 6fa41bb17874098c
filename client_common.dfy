/**
  What the two client versions share: the client states, the requests a
  client serializes, the fields it reads from server answers, the
  external effects it depends on, the command classifier of the console
  handler, and the observable record of a client (its Snapshot).
 */
module ClientCommon {
  import opened Basics
  import opened Digits

  datatype ClientState =
    | NotStarted | WaitLoginInput | WaitLoginStatus | WaitUserInput
    | WaitLsResult | WaitBackupResult | WaitRestoreResult | Aborted

  /** The protobuf requests a client builds; None marks a field left unset. */
  datatype Request =
    | LoginClientRequest(login: string)
    | LsClientRequest(isls: Option<uint64>, backupId: Option<uint64>)
    | RestoreClientRequest(restoreId: uint64)
    | ClientBackupRequest(archive: seq<byte>, path: string, meta: Option<seq<byte>>)
    | ClientReplyAfterRestore(isSuccess: bool)

  datatype BackupInfo = BackupInfo(backupId: uint64, path: string, time: int)

  /** The fields the reply handlers read from what ParseFromArray/ParseFromString yields. */
  datatype ServerAnswer = ServerAnswer(
    isSuccess: bool,
    backupId: uint64,
    errorMessage: string,
    infos: seq<BackupInfo>,
    info: BackupInfo,
    meta: seq<byte>,
    archive: seq<byte>)

  /**
    What the file system and the archiver do when the client calls them:
    whether Archiver::pack throws, the files it leaves behind, whether the
    restore path is a directory, whether Archiver::unpack throws, and the
    text Archiver::printArchiveFsTree writes. packedArchive is the file
    ClientSession reads back (curpack.pck); ClientLogic reads two files
    instead, packedArchive standing for curpack.pckcontent and packedMeta
    for curpack.pckmeta.
   */
  datatype Effects = Effects(
    packThrows: bool,
    packedArchive: seq<byte>,
    packedMeta: seq<byte>,
    isDir: bool,
    unpackThrows: bool,
    fsTree: string)

  /** What the client writes to the console, one variant per message it emits. */
  datatype ConsoleLine =
    | PrintLogin
    | PrintCommand
    | Busy
    | Help
    | UnknownCommand(message: string)
    | LoginSucceeded
    | LoginFailed
    | SummaryListing(infos: seq<BackupInfo>)
    | DetailedListing(info: BackupInfo, fsTree: string)
    | InfoLine(info: BackupInfo)
    | BackupSucceeded(backupId: uint64)
    | BackupFailed
    | ErrorMessage(text: string)
    | ServerErrorText(text: string)
    | ServerAbortedText(text: string)

  /** Calls into the archiver, with the archive bytes the client wrote for it. */
  datatype ArchiverCall =
    | Pack(source: string)
    | Unpack(archive: seq<byte>, destination: string)
    | PrintFsTree(meta: seq<byte>)

  datatype Exception = OutOfRange | ArchiverException

  /** How an event handler ends: normally, by exit(0), or by an exception it does not catch. */
  datatype Outcome = Handled | Exited | Threw(e: Exception)

  /** The state fields of a client and everything it has emitted so far. */
  datatype Snapshot = Snapshot(
    state: ClientState,
    restorePath: string,
    console: seq<ConsoleLine>,
    network: seq<seq<byte>>,
    archiver: seq<ArchiverCall>)

  function Print(s: Snapshot, line: ConsoleLine): Snapshot {
    s.(console := s.console + [line])
  }

  function Transmit(s: Snapshot, frame: seq<byte>): Snapshot {
    s.(network := s.network + [frame])
  }

  function Invoke(s: Snapshot, call: ArchiverCall): Snapshot {
    s.(archiver := s.archiver + [call])
  }

  /** std::string::substr(0, n). */
  function Substr0(s: string, n: nat): string {
    if |s| <= n then s else s[..n]
  }

  /** The command chain of the console handler, after "exit" and "help". */
  datatype Command =
    | LsAll
    | LsWith(arg: string)
    | RestoreWith(arg: string)
    | BackupWith(arg: string)
    | MissingArgument
    | Unrecognised

  /**
    Classifies a console line by prefix: "ls", then "ls…", "restore…",
    "backup…". The argument is what follows the keyword and one separator
    character; exactly "restore" or "backup" leaves no room for the
    separator, and substr throws std::out_of_range.
   */
  function Classify(message: string): (c: Command)
    ensures c == LsAll <==> message == "ls"
    ensures c.LsWith? <==> |message| > 2 && message[..2] == "ls"
    ensures c.RestoreWith? <==> |message| > 7 && message[..7] == "restore"
    ensures c.BackupWith? <==> |message| > 6 && message[..6] == "backup"
    ensures c == MissingArgument <==> message == "restore" || message == "backup"
    ensures c.LsWith? ==> c.arg == message[3..]
    ensures c.RestoreWith? ==> c.arg == message[8..]
    ensures c.BackupWith? ==> c.arg == message[7..]
  {
    if message == "ls" then LsAll
    else if Substr0(message, 2) == "ls" then
      assert message[0] == message[..2][0] == 'l';
      LsWith(message[3..])
    else if Substr0(message, 7) == "restore" then
      (if |message| < 8 then MissingArgument else RestoreWith(message[8..]))
    else if Substr0(message, 6) == "backup" then
      (if |message| < 7 then MissingArgument else BackupWith(message[7..]))
    else Unrecognised
  }

  /** "ls " followed by any argument is an ls request for that argument. */
  lemma LsWithArgument(arg: string)
    ensures Classify("ls " + arg) == LsWith(arg)
    ensures "ls " + arg != "exit" && "ls " + arg != "help"
  {
    var message := "ls " + arg;
    assert message[..2] == "ls" && message[3..] == arg;
    assert message[0] == 'l';
  }

  /** "backup " followed by any path is a backup request for that path. */
  lemma BackupWithArgument(path: string)
    ensures Classify("backup " + path) == BackupWith(path)
    ensures "backup " + path != "exit" && "backup " + path != "help"
  {
    var message := "backup " + path;
    assert message[..6] == "backup" && message[7..] == path;
    assert message[0] == 'b';
  }
}
