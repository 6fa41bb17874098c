# Backup client session logic in Dafny

This project models the client side of a network backup system, where a client asks a server to list, back up and restore directories. It covers three parts of the repository:

- **`ClientSession`** (`net/client/src/clientsession.cpp`) is the current client state machine. It reacts to three events: the transport connected, a console line, and a framed network message. Its phases are login, then idle, then one outstanding request (ls, backup or restore), then idle again.
- **`ClientLogic`** (`client/src/clientlogic.cpp`) is the older variant of the same machine. It has no login phase and no wait states. Only a `serverExit` reply changes its state.
- **The command-tag vocabulary** (`net/protocol/protocol.h`). A tag is one `uint8_t`. The client and server commands are two enumerations, each numbered by declaration order. `toFixedType` converts a command to its byte.

## How the model is organised

- `Basics` holds `Option` and the fixed-width types `byte` and `uint64`. Wrap-around on `uint64` is written out as `% 2^64`.
- `Protocol` holds the two command enumerations, both `toFixedType` conversions and their inverses.
- `Wire` holds the frame `[1-byte tag][payload]`, its decoder and the buffer-building loop of `sendSerializatedMessage`. It also has `CutAtZero`: the bytes that reading a buffer as a C string (`QString(const char*)`) keeps, before that constructor's UTF-8 decoding, which is not modelled.
- `Digits` holds the leading-digit backup-id parser and `inttostr`. Both are loops proved against recursive definitions, and both client versions use them.
- `ClientCommon` holds what the two clients share:
  - the client states;
  - the protobuf requests;
  - the server-answer fields the handlers read;
  - the console command classifier;
  - `Snapshot`, which records the state fields (`mClientState`, `restorePath`) together with everything the client has emitted: console lines, network frames and archiver calls.
- `Session` and `Logic` each hold one class, `ClientSession` and `ClientLogic`.
  - Each class has the source's fields, and one method per slot, helper and reply handler.
  - Each method is proved to leave exactly the snapshot that a pure function `After<Operation>` gives.
  - `SessionProperties` and `LogicProperties` prove the transition rules about those functions.

External effects are inputs to the model:

- Protobuf serialization is a function `Request -> Option<seq<byte>>` held by the object. `None` means `SerializeToString` failed. It is assumed that `ByteSize()` equals the length of the serialized bytes.
- What `ParseFromArray`/`ParseFromString` yields is passed to the handler as a `ServerAnswer`.
- The file system and the archiver are an `Effects` value. It says whether `Archiver::pack` throws and which files it leaves, whether the restore path is a directory, whether `Archiver::unpack` throws, and the text `printArchiveFsTree` writes.
- `exit(0)` and exceptions that no handler catches are the `Outcome` of an event.

`ClientSession`'s tag bytes are a parameter of the model (`SessionTags`). That class uses tags that `protocol.h` does not declare (`clientLogin`, `ansToClientLogin`, `serverError`), so the model does not pin them to that header's numbers. The lemmas that need the dispatcher to tell tags apart assume they are distinct, as the `case` labels of a C++ `switch` must be. `ClientLogic` uses the numbers from `protocol.h`.

Where the design description and the code disagree, the model follows the code:

- `Aborted` is not absorbing. The handlers that `ClientSession` calls for the `serverExit` and `notFoundBackupByIdOnServer` tags set `WaitUserInput` without looking at the state. The lemmas `SessionProperties.AbortedIsNotAbsorbing` and `SessionProperties.LeavingAborted` show this.
- The `serverExit` tag is routed to `OnServerError`, which returns to `WaitUserInput`. The `serverError` tag is routed to `OnServerExit`, which aborts.
- `askLs` moves to `WaitLsResult` even when the request could not be serialized.

## Model

| member | source | states |
|---|---|---|
| Protocol.ClientToFixedType | net/protocol/protocol.h:30-32 | a client command's tag is its declaration-order value, below 5, so it fits in the one-byte commandType |
| Protocol.ServerToFixedType | net/protocol/protocol.h:34-36 | a server command's tag is its declaration-order value, below 6 |
| Protocol.ClientCommandOf | net/protocol/protocol.h:13-19 | a byte names a client command exactly when it is below 5 |
| Protocol.ServerCommandOf | net/protocol/protocol.h:21-28 | a byte names a server command exactly when it is below 6 |
| Protocol.ClientTagRoundTrip | net/protocol/protocol.h:13-32 | converting a client command to its byte and back gives the command |
| Protocol.ClientTagOnto | net/protocol/protocol.h:13-32 | every byte that names a client command is that command's tag |
| Protocol.ServerTagRoundTrip | net/protocol/protocol.h:21-36 | converting a server command to its byte and back gives the command |
| Protocol.ServerTagOnto | net/protocol/protocol.h:21-36 | every byte that names a server command is that command's tag |
| Protocol.ToFixedTypeInjective | net/protocol/protocol.h:30-36 | within each enumeration, distinct commands get distinct bytes |
| Protocol.TagsNeedDirection | net/protocol/protocol.h:13-28 | every byte below 5 names both a client and a server command, so a tag identifies a command only together with its direction |
| Wire.TagOccupiesCommandSize | net/protocol/protocol.h:10-11 | a tag is one `commandType` byte occupying the first `commandSize` bytes of a frame, and the payload starts at offset `commandSize` |
| Wire.FrameOf | net/client/src/clientsession.cpp:392-397 | a frame is one tag byte longer than its payload |
| Wire.Unframe | client/src/clientlogic.cpp:76-78 | ClientLogic's split into `str.c_str()[0]` and `substr(commandSize)` fails exactly when the message is shorter than one tag; otherwise the payload is the rest |
| Wire.UnframeFrameOf | net/client/src/clientsession.cpp:392-397 | splitting a frame gives back its tag and payload, for payloads of any length |
| Wire.FrameOfUnframe | client/src/clientlogic.cpp:76-78 | every message that splits is the frame of its own tag and payload, so the split loses nothing |
| Wire.BuildFrame | net/client/src/clientsession.cpp:392-396 | the copy loop into the `commandSize + size` buffer yields exactly `[tag] + payload` |
| Wire.CutAtZero | client/src/clientlogic.cpp:123-127 | the C-string read of a buffer is its longest prefix without a zero byte, and it stops at a zero byte when it is shorter than the buffer |
| Wire.CutAtZeroNoZero | client/src/clientlogic.cpp:123-127 | a buffer without a zero byte is read whole |
| Wire.CutFrameWithZeroTag | client/src/clientlogic.cpp:123-127 | a frame whose tag is 0 is read as the empty string |
| Wire.CutFrameSurvives | client/src/clientlogic.cpp:123-127 | a frame survives the C-string read exactly when neither its tag nor its payload holds a zero byte |
| Digits.DigitRun | net/client/src/clientsession.cpp:170-176 | the scan stops at the first non-digit: every character before it is a digit, and the character there is not |
| Digits.ScanBackupId | net/client/src/clientsession.cpp:148-176 | the loop's index ends at the digit run's length, and the id is the run's decimal value mod 2^64 (0 with no leading digit) |
| Digits.Decimal | net/client/src/clientsession.cpp:233-242 | the decimal text is non-empty, all digits, and starts with '0' exactly when the number is 0 |
| Digits.IntToStr | net/client/src/clientsession.cpp:233-242 | inttostr's prepend-and-divide loop returns the canonical decimal text, "0" for 0 |
| Digits.DecimalValueOfDecimal | net/client/src/clientsession.cpp:233-242 | reading the digits of inttostr(n) gives n |
| Digits.ParseDecimal | net/client/src/clientsession.cpp:148-163 | parsing inttostr(n), followed by text that does not start with a digit, returns n, and the digit run is exactly inttostr(n) |
| Digits.DecimalInjective | net/client/src/clientsession.cpp:233-242 | distinct numbers have distinct inttostr texts |
| ClientCommon.Classify | net/client/src/clientsession.cpp:62-72 | each command is recognised by its prefix, and the argument follows the keyword and one separator; exactly "restore" or "backup" is the out-of-range case |
| ClientCommon.LsWithArgument | net/client/src/clientsession.cpp:62-65 | any line "ls " + argument is an ls request for that argument; it is neither exit nor help |
| ClientCommon.BackupWithArgument | net/client/src/clientsession.cpp:68-69 | any line "backup " + path is a backup request for that path; it is neither exit nor help |
| Session.TagByte | net/client/src/clientsession.cpp:77 | the byte the dispatcher switches on: the first byte, or 0 for an empty message |
| Session.TagByteAgreesWithUnframe | net/client/src/clientsession.cpp:76-80 | wherever a message splits into tag and payload, the dispatcher's byte is that tag; only the empty message fails to split, and the dispatcher reads it as 0 instead of rejecting it |
| Session.DecodeTag | net/client/src/clientsession.cpp:76-106 | a byte is unsupported exactly when it is none of the eight server tags |
| Session.EncodeTag | net/client/src/clientsession.cpp:76-106 | every reply kind has a tag among the dispatcher's cases |
| Session.ClientSession.constructor | net/client/src/clientsession.cpp:21-25 | a new session is NotStarted, has an empty restore path and has emitted nothing |
| Session.ClientSession.OnConsoleInput | net/client/src/clientsession.cpp:35-73 | the new snapshot and outcome are AfterConsoleInput's: ignored in Aborted, the whole line is the login in WaitLoginInput, Busy in wait states, and the command chain in WaitUserInput |
| Session.ClientSession.OnNetworkInput | net/client/src/clientsession.cpp:76-106 | byte 0 is the tag, and it is routed to its handler, with serverExit and serverError crossed; unknown tags change nothing |
| Session.ClientSession.OnStart | net/client/src/clientsession.cpp:109-117 | NotStarted becomes WaitLoginInput with a login prompt; any other state becomes Aborted |
| Session.ClientSession.SendLoginRequest | net/client/src/clientsession.cpp:119-130 | when serialization succeeds, the clientLogin frame is sent and the state becomes WaitLoginStatus; otherwise nothing changes |
| Session.ClientSession.SendLsFromClient | net/client/src/clientsession.cpp:132-139 | the ls frame is sent when the request serializes, and dropped otherwise |
| Session.ClientSession.AskLs | net/client/src/clientsession.cpp:141-146 | a summary request (isls set, no id), then WaitLsResult whether or not it was sent |
| Session.ClientSession.AskLsById | net/client/src/clientsession.cpp:148-163 | a detail request for the parsed leading backup id, then WaitLsResult |
| Session.ClientSession.MakeRestoreRequest | net/client/src/clientsession.cpp:165-195 | with nothing after the digit run and one separator, nothing changes; otherwise restorePath is the rest, and after a successful serialization the restore frame is sent and the state is WaitRestoreResult |
| Session.ClientSession.MakeBackup | net/client/src/clientsession.cpp:197-216 | pack the path; when pack throws, the exception escapes; otherwise the archive and path are sent and the state is WaitBackupResult if serialization succeeded |
| Session.ClientSession.SendRestoreResult | net/client/src/clientsession.cpp:218-230 | the acknowledgement frame is sent and the state becomes WaitUserInput, both only when serialization succeeded |
| Session.ClientSession.OnLoginAns | net/client/src/clientsession.cpp:244-260 | outside WaitLoginStatus it aborts; success goes to WaitUserInput and failure to WaitLoginInput |
| Session.ClientSession.OnDetailedLs | net/client/src/clientsession.cpp:267-294 | outside WaitLsResult it aborts; otherwise the file tree is printed and the state is WaitUserInput |
| Session.ClientSession.OnSummaryLs | net/client/src/clientsession.cpp:296-313 | outside WaitLsResult it aborts; otherwise the listing is printed and the state is WaitUserInput |
| Session.ClientSession.OnReceiveArchiveToRestore | net/client/src/clientsession.cpp:315-349 | outside WaitRestoreResult it aborts; otherwise unpack runs only into a directory, success is acknowledged only if unpack did not throw, and the state ends as WaitUserInput |
| Session.ClientSession.OnNotFoundBackupId | net/client/src/clientsession.cpp:351-358 | prints the error and sets WaitUserInput in every state |
| Session.ClientSession.OnReceiveBackupResults | net/client/src/clientsession.cpp:361-376 | outside WaitBackupResult it aborts; otherwise it reports the backup id or the failure and sets WaitUserInput |
| Session.ClientSession.OnServerError | net/client/src/clientsession.cpp:378-383 | prints the error and sets WaitUserInput in every state |
| Session.ClientSession.OnServerExit | net/client/src/clientsession.cpp:385-390 | prints the error and sets Aborted |
| Session.ClientSession.SendSerializatedMessage | net/client/src/clientsession.cpp:392-397 | exactly one frame `[tag] + payload` is appended to what was sent, and nothing else changes |
| SessionProperties.DecodeEncodeTag | net/client/src/clientsession.cpp:76-106 | with distinct case labels, the dispatcher recovers every reply kind from its tag |
| SessionProperties.EncodeDecodeTag | net/client/src/clientsession.cpp:76-106 | every recognised byte is the tag of the kind it decodes to |
| SessionProperties.StartTransition | net/client/src/clientsession.cpp:109-117 | connect takes NotStarted to WaitLoginInput and any other state to Aborted, and sends nothing |
| SessionProperties.ConsoleIgnoredWhenAborted | net/client/src/clientsession.cpp:35-39 | console input in Aborted changes nothing and sends nothing |
| SessionProperties.ConsoleBusyWhileWaiting | net/client/src/clientsession.cpp:46-49 | outside WaitLoginInput, WaitUserInput and Aborted, console input only prints Busy |
| SessionProperties.LoginLineSent | net/client/src/clientsession.cpp:41-44 | in WaitLoginInput the whole line is sent as the login, and the state becomes WaitLoginStatus exactly when serialization succeeded |
| SessionProperties.GuardedReplyMismatchAborts | net/client/src/clientsession.cpp:244-320 | a login, ls, backup-result or restore reply outside its wait state sets Aborted and changes nothing else |
| SessionProperties.GuardedReplyMatchCompletes | net/client/src/clientsession.cpp:244-376 | a guarded reply in its wait state ends in WaitUserInput, except that a failed login ends in WaitLoginInput |
| SessionProperties.RestoreReplyAcknowledges | net/client/src/clientsession.cpp:335-348 | in WaitRestoreResult: unpack into restorePath happens iff it is a directory; the acknowledgement is `isDir && no exception`; the state always ends as WaitUserInput |
| SessionProperties.RestoreToNonDirectoryFails | net/client/src/clientsession.cpp:336-342 | for a non-directory no archiver call is made, and the only frame sent is the failure acknowledgement |
| SessionProperties.UnguardedReplies | net/client/src/clientsession.cpp:94-104 | the serverExit and notFound tags set WaitUserInput from any state; the serverError tag aborts; unknown tags change nothing |
| SessionProperties.AbortedIsNotAbsorbing | net/client/src/clientsession.cpp:378-383 | a serverExit frame takes an aborted session to WaitUserInput |
| SessionProperties.LeavingAborted | net/client/src/clientsession.cpp:94-117 | from Aborted, connect and console input stay Aborted, and only a serverExit or notFound reply leaves, to WaitUserInput |
| SessionProperties.AskLsWaitsEvenWhenDropped | net/client/src/clientsession.cpp:141-146 | when the ls request cannot be serialized, nothing is sent, yet the state becomes WaitLsResult |
| SessionProperties.BareKeywordThrows | net/client/src/clientsession.cpp:66-69 | exactly "restore" or "backup" throws out_of_range before anything changes |
| SessionProperties.LsByIdRequestsParsedId | net/client/src/clientsession.cpp:62-65 | "ls " + inttostr(id) + non-digit text requests the details of id and waits for the ls result |
| SessionProperties.LsFortyTwo | net/client/src/clientsession.cpp:148-163 | "ls 42" requests backup id 42 |
| SessionProperties.RestoreWithoutPathIgnored | net/client/src/clientsession.cpp:177-183 | with nothing after the digit run and its separator, a restore request changes nothing |
| SessionProperties.RestoreCommandRoundTrip | net/client/src/clientsession.cpp:165-193 | for id, separator, path: the path becomes restorePath; the id is requested and the state is WaitRestoreResult exactly when serialization succeeded |
| SessionProperties.BackupResultShown | net/client/src/clientsession.cpp:361-376 | a successful backup reply shows the assigned id and returns to WaitUserInput |
| SessionProperties.LoginHappyPath | net/client/src/clientsession.cpp:109-130 | connect, then a login line, then a successful answer take a fresh session to WaitUserInput |
| SessionProperties.ExitCommandExits | net/client/src/clientsession.cpp:52-53 | "exit" in WaitUserInput ends the process with the snapshot unchanged |
| SessionProperties.UnknownCommandReported | net/client/src/clientsession.cpp:70-71 | in WaitUserInput, a line that is not exit or help and starts with no command keyword is reported as unknown, and nothing else changes |
| SessionProperties.BackupCommandSent | net/client/src/clientsession.cpp:197-216 | "backup <path>" in WaitUserInput packs the path; if pack throws, the exception escapes with state and network unchanged; otherwise the archive and path are sent and the state is WaitBackupResult exactly when the request serializes, and stays WaitUserInput when it does not |
| Logic.EmittedFrame | client/src/clientlogic.cpp:123-127 | the bytes handed to `QString(const char*)` are a prefix of `[tag] + payload` with no zero byte (UTF-8 decoding not modelled) |
| Logic.ClientLogic.constructor | client/src/clientlogic.cpp:15-20 | a new client is NotStarted and has emitted nothing |
| Logic.ClientLogic.SlotReadFromConsole | client/src/clientlogic.cpp:28-71 | the new snapshot and outcome are AfterConsoleInput's: ignored in Aborted, Busy outside WaitUserInput, help printed before the command chain |
| Logic.ClientLogic.SlotReadFromNetwork | client/src/clientlogic.cpp:74-99 | an empty message throws; otherwise byte 0 selects the ls, backup, restore or serverExit handler, and other tags are ignored |
| Logic.ClientLogic.SlotStarting | client/src/clientlogic.cpp:102-113 | NotStarted becomes WaitUserInput; any other state becomes Aborted |
| Logic.ClientLogic.EmitFrame | client/src/clientlogic.cpp:123-127 | exactly the frame cut at its first zero byte, before UTF-8 decoding, is appended to what was sent |
| Logic.ClientLogic.SendLsFromClient | client/src/clientlogic.cpp:115-128 | the ls frame, cut at its first zero byte, is sent when the request serializes |
| Logic.ClientLogic.AskLs | client/src/clientlogic.cpp:130-134 | an ls request with no field set; the state is unchanged |
| Logic.ClientLogic.AskLsById | client/src/clientlogic.cpp:136-151 | an ls request for the parsed leading backup id; the state is unchanged |
| Logic.ClientLogic.MakeRestoreRequest | client/src/clientlogic.cpp:153-189 | with no path nothing changes; otherwise restorePath is set and the request is sent if it serializes; the state is unchanged |
| Logic.ClientLogic.MakeBackup | client/src/clientlogic.cpp:191-214 | pack the path; when pack throws, the exception escapes; otherwise the content and meta files, each read up to its first zero byte, are sent with the path |
| Logic.ClientLogic.SendRestoreResult | client/src/clientlogic.cpp:216-232 | the acknowledgement frame is sent when it serializes; the state is unchanged |
| Logic.ClientLogic.OnDetailedLs | client/src/clientlogic.cpp:253-259 | prints the backup's info line and changes nothing else |
| Logic.ClientLogic.OnSummaryLs | client/src/clientlogic.cpp:261-272 | prints the listing and changes nothing else |
| Logic.ClientLogic.OnReceiveArchiveToRestore | client/src/clientlogic.cpp:274-301 | unpack runs only into a directory, and an exception from it escapes; a non-directory gets a failure acknowledgement |
| Logic.ClientLogic.OnReceiveBackupResults | client/src/clientlogic.cpp:303-316 | reports the backup id or the failure; the state is unchanged |
| Logic.ClientLogic.OnServerError | client/src/clientlogic.cpp:318-324 | prints the error and sets Aborted |
| LogicProperties.StartTransition | client/src/clientlogic.cpp:102-113 | connect takes NotStarted directly to WaitUserInput and any other state to Aborted |
| LogicProperties.ConsoleKeepsState | client/src/clientlogic.cpp:28-71 | no console input changes the state |
| LogicProperties.ConsoleOutsideWaitUserInput | client/src/clientlogic.cpp:30-34 | in Aborted, input is ignored; in other states outside WaitUserInput, it only prints Busy |
| LogicProperties.HelpAlsoUnknown | client/src/clientlogic.cpp:40-65 | "help" prints the help text and then "Unknown command" |
| LogicProperties.NetworkStateChanges | client/src/clientlogic.cpp:74-99 | an empty message throws and changes nothing; the state changes only on the serverExit tag, and always to Aborted |
| LogicProperties.UnknownTagsIgnored | client/src/clientlogic.cpp:96-98 | tags from 5 up, notFoundBackupByIdOnServer included, change nothing |
| LogicProperties.RestoreToNonDirectoryFails | client/src/clientlogic.cpp:286-296 | a restore reply for a non-directory makes no archiver call and sends only the failure acknowledgement |
| LogicProperties.RestoreWithoutPathIgnored | client/src/clientlogic.cpp:167-174 | a restore argument with nothing after the digit run and its separator sends nothing |
| LogicProperties.RestoreCommandRoundTrip | client/src/clientlogic.cpp:153-189 | for id, separator, path: the path becomes restorePath and the request carries id, with the same parser as ClientSession |
| LogicProperties.LsFrameEmittedEmpty | client/src/clientlogic.cpp:123-127 | the ls frame is emitted empty because its tag is 0 |
| LogicProperties.AskLsSendsNothingUseful | client/src/clientlogic.cpp:130-134 | askLs() sends an empty message |
| LogicProperties.EmittedFrameIntact | client/src/clientlogic.cpp:123-127 | a non-ls frame whose payload is ASCII without zero bytes is emitted whole, with its tag and payload; UTF-8 decoding leaves such bytes as they are |
| LogicProperties.BackupCommandSent | client/src/clientlogic.cpp:191-214 | "backup <path>" in WaitUserInput packs the path; if pack throws, the exception escapes and nothing is sent; otherwise content and meta, each cut at its first zero byte, are sent with the path when the request serializes; the state is unchanged |
| LogicProperties.ZeroBytePayloadTruncated | client/src/clientlogic.cpp:123-127 | a zero byte in the payload shortens the emitted message |

## Left out

- The server side (`net/server/src/serverclientmanager.h`) is not part of this model. It declares only the slot pool, the session map, the user registry and a mutex. The logic that allocates slots and authenticates is not in the files this model covers.
- Qt signal/slot wiring in the constructors is left out. Each slot is a method called on the object.
- Console text is left out. Each message is a `ConsoleLine` variant, not its exact string. This covers `ctime` formatting and `shortBackupInfoToString`. It also covers the pointer arithmetic `ans += int + " backups."` in `ClientLogic::OnSummaryLs`.
- File I/O is left out. That is the writing of `curpack.pck`, `curunpack.pck` and their `meta`/`content` companions. The model records instead the bytes that are handed to the archiver.
- `stderr` logging (`LOG`, `std::cerr`) is left out.
- Protobuf serialization and parsing are foreign code. Serialization is an input function, and parsing is an input value.
- Session.ClientSession.OnNetworkInput: the payload is not decoded in the model; the handler receives the parsed `ServerAnswer` as an input. Unlike ClientLogic, this dispatcher never rejects a short message: for an empty one the tag is the zero after the data (`TagByte`) and the source passes a wrapped-around size (2^64-1) to `ParseFromArray`; the model takes that parse result as an input too, so `Wire.Unframe` is not used here.
- Logic.ClientLogic.SlotReadFromNetwork: the message is taken as the bytes of `toStdString()`. QString's UTF-8 conversion is not modelled.
- Logic.EmittedFrame (and Logic.ClientLogic.EmitFrame, LogicProperties.EmittedFrameIntact): `QString(const char*)` decodes the bytes before the first zero as UTF-8 and turns each invalid sequence into U+FFFD (a restore request for backup id 200 carries the varint `C8 01`, which is invalid); that decoding is not modelled, and the network log holds the bytes before decoding. EmittedFrameIntact is stated only for ASCII payloads, which decoding leaves unchanged.
- Logic.ClientLogic.EmitFrame: when the frame has no zero byte, `QString(message.data())` reads past the end of the vector. The model takes the whole frame in that case.
- Session.ClientSession.OnDetailedLs: `Archiver::printArchiveFsTree` (clientsession.cpp:285) is called outside any `try`, and the model takes it to return normally; an exception from it would escape and leave the state at WaitLsResult.
- `exit(0)` is the outcome `Exited`. The process ending is not modelled further.
- Digits.ScanBackupId: `ClientLogic` indexes with `int`. Overflow of that index for commands longer than 2^31 characters is not modelled.
- Each Dafny `char` of a console line, command argument or path stands for one byte of the source's `std::string`: console text is taken byte by byte, so a multi-byte UTF-8 character counts as several characters in `substr` and in the one-character separator skip of `makeRestoreRequest`. The model does not capture a line whose characters are not single bytes.
- The archiver's path arguments are passed as `c_str()` (clientsession.cpp:199, 337; clientlogic.cpp:194, 289), which stops at an embedded zero character; `Pack` and `Unpack` record the whole string, so that truncation is not modelled.

## Findings

| source | as written | input that shows it | evidently intended | confidence | as-written member | corrected member |
|---|---|---|---|---|---|---|
| client/src/clientlogic.cpp:123-127 | every frame is emitted as `QString(message.data())`, which stops at the first zero byte | `askLs()`: the `ls` tag is 0, so the emitted message is empty for any payload | send the whole `[tag][payload]` frame, as `ClientSession::sendSerializatedMessage` does with `QByteArray(data, size)` | high; not executed | LogicProperties.LsFrameEmittedEmpty | Wire.UnframeFrameOf |
