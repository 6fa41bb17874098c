/**
  The one-byte command tags shared by client and server (namespace utils):
  a tag is a uint8_t, and each of the two enumerations numbers its
  commands by declaration order, starting at 0.
 */
module Protocol {
  import opened Basics

  /** sizeof(uint8_t): the number of bytes a command tag occupies. */
  const CommandSize: nat := 1

  /** commandType is uint8_t, so every tag value fits in one byte. */
  type CommandType = byte

  /** Commands sent by a client. */
  datatype ClientCommandId = Ls | Restore | ReplyAfterRestore | Backup | ClientExit

  /** Commands sent by the server. */
  datatype ServerCommandId =
    | AnsToLsSummary | AnsToLsDetailed | AnsToRestore | AnsToBackup
    | ServerExit | NotFoundBackupByIdOnServer

  /** toFixedType(ClientCommandId): the enumerator's integer value. */
  function ClientToFixedType(cmd: ClientCommandId): (tag: CommandType)
    ensures tag < 5
  {
    match cmd
    case Ls => 0
    case Restore => 1
    case ReplyAfterRestore => 2
    case Backup => 3
    case ClientExit => 4
  }

  /** toFixedType(ServerCommandId): the enumerator's integer value. */
  function ServerToFixedType(cmd: ServerCommandId): (tag: CommandType)
    ensures tag < 6
  {
    match cmd
    case AnsToLsSummary => 0
    case AnsToLsDetailed => 1
    case AnsToRestore => 2
    case AnsToBackup => 3
    case ServerExit => 4
    case NotFoundBackupByIdOnServer => 5
  }

  /** The client command a tag byte names, if any (the inverse of ClientToFixedType). */
  function ClientCommandOf(tag: CommandType): (cmd: Option<ClientCommandId>)
    ensures cmd.Some? <==> tag < 5
  {
    if tag == 0 then Some(Ls)
    else if tag == 1 then Some(Restore)
    else if tag == 2 then Some(ReplyAfterRestore)
    else if tag == 3 then Some(Backup)
    else if tag == 4 then Some(ClientExit)
    else None
  }

  /** The server command a tag byte names, if any (the inverse of ServerToFixedType). */
  function ServerCommandOf(tag: CommandType): (cmd: Option<ServerCommandId>)
    ensures cmd.Some? <==> tag < 6
  {
    if tag == 0 then Some(AnsToLsSummary)
    else if tag == 1 then Some(AnsToLsDetailed)
    else if tag == 2 then Some(AnsToRestore)
    else if tag == 3 then Some(AnsToBackup)
    else if tag == 4 then Some(ServerExit)
    else if tag == 5 then Some(NotFoundBackupByIdOnServer)
    else None
  }

  /** Converting a client command to its byte loses nothing. */
  lemma ClientTagRoundTrip(cmd: ClientCommandId)
    ensures ClientCommandOf(ClientToFixedType(cmd)) == Some(cmd)
  {
  }

  /** Every byte that names a client command is that command's tag. */
  lemma ClientTagOnto(tag: CommandType)
    requires ClientCommandOf(tag).Some?
    ensures ClientToFixedType(ClientCommandOf(tag).value) == tag
  {
  }

  /** Converting a server command to its byte loses nothing. */
  lemma ServerTagRoundTrip(cmd: ServerCommandId)
    ensures ServerCommandOf(ServerToFixedType(cmd)) == Some(cmd)
  {
  }

  /** Every byte that names a server command is that command's tag. */
  lemma ServerTagOnto(tag: CommandType)
    requires ServerCommandOf(tag).Some?
    ensures ServerToFixedType(ServerCommandOf(tag).value) == tag
  {
  }

  /** Within one enumeration, distinct commands have distinct tags. */
  lemma ToFixedTypeInjective(a: ClientCommandId, b: ClientCommandId, c: ServerCommandId, d: ServerCommandId)
    ensures ClientToFixedType(a) == ClientToFixedType(b) ==> a == b
    ensures ServerToFixedType(c) == ServerToFixedType(d) ==> c == d
  {
    ClientTagRoundTrip(a);
    ClientTagRoundTrip(b);
    ServerTagRoundTrip(c);
    ServerTagRoundTrip(d);
  }

  /**
    The two enumerations reuse the same numbers: every byte below 5 names
    both a client and a server command (ls and ansToLsSummary are both 0),
    so a tag identifies a command only together with its direction.
   */
  lemma TagsNeedDirection(tag: CommandType)
    requires tag < 5
    ensures ClientCommandOf(tag).Some? && ServerCommandOf(tag).Some?
    ensures ClientToFixedType(ClientCommandOf(tag).value) == ServerToFixedType(ServerCommandOf(tag).value)
  {
  }
}
