# MyFTP, modelled and proved

An FTP server (a subset of RFC 959) and its small client, as Dafny models with proofs. The server is one
process with a table of 128 client slots and one process directory that all clients share. It reads one
command line per ready slot and turn, and forks a child for each data transfer.

Verify everything with `dafny verify dfyconfig.toml`.

## How it is laid out

| file | what it holds |
|---|---|
| `LibC.dfy` | C strings, `getline`, `strtok`, `atoi`, `%d`, `sscanf` |
| `Utils.dfy` | in-place trimming and case raising, port arithmetic |
| `CommandParser.dfy` | from bytes on a stream to a command, and back |
| `HostPort.dfy` | the host-port text of PORT and of the 227 reply, on both sides |
| `FileTree.dfy` | path resolution, printed paths, the `strncmp` prefix test |
| `Commands.dfy` | the specification: what each command does to its session and to the shared process directory |
| `Handlers.dfy` | the handlers as methods on `Process` and `Connection`, proved against that specification |
| `SessionLaws.dfy` | what every command keeps; exactly when CWD does what it should, when a command is undefined, and where an upload lands |
| `CommandLaws.dfy` | command by command: what a line with that name does, read off the specification without its helpers |
| `EventLoop.dfy` | the server as a transition system with children running beside it |
| `SlotTable.dfy`, `Replies.dfy`, `ReplyOrder.dfy`, `Sessions.dfy` | theorems about every reachable state of that system |
| `StepLaws.dfy`, `Jobs.dfy` | what each step changes and leaves alone; which child runs for which line |
| `SampleRuns.dfy` | runs that exist for every served directory |
| `ServerLoop.dfy` | the main loop over `fds[]` and `connections[]`, proved to follow that system |
| `CopyLoops.dfy`, `Pipes.dfy` | the loops that move file contents |
| `Children.dfy` | what a forked child does, and whether it finds what the server checked before the fork |
| `Storage.dfy` | what an upload leaves in the file system |
| `Setup.dfy` | many clients and the one server loop setting up passive data connections |
| `Upload.dfy`, `Download.dfy` | STOR with `put` and RETR with `get`, as processes over a bounded data connection |

Each in-place loop and each object that updates its fields is a method with loops and `modifies` clauses; it
is proved equal to a function, and the theorems are about that function. Runs are sequences of events, and a
theorem about runs holds for every sequence the system accepts, that is, for every interleaving.

Replies are reduced to their three-digit codes. What the kernel decides (whether a socket could be made, who
connects, whether permissions allow a removal) are labels on the events: `Outcome` for one command, `Round` for one turn of
the loop. Numbers are unbounded, except for the address word (32 bits) and the port in a socket address
(16 bits), which are reduced as the code reduces them.

A command can be undefined in the C code: the parser reads cells of `tokens[]` it never wrote, or a null
`getcwd` result is passed to `strncmp`. The specification calls this `Crash` and the transition system has no
step for it. `SessionLaws.CrashesExactly` says exactly when that happens, and `CommandParser.ParseExact` which
lines are among it.

What the transition system assumes of the surroundings:

* The served directory stays, and directories do not turn into symbolic links; links do not change at all.
  Files and directories may otherwise come and go at any time.
* Nobody renames a directory. The model knows a directory by its path, so one that is moved away counts as
  removed, and one that is made again under the same name as the same one. The real process directory would
  follow the move, out of the served directory if it goes there; the confinement results are for the rest.
* No client resets its control connection. SIGPIPE is not handled (src/signal.c:44-53), so a write to such a
  connection kills whoever writes, the server included. A client that closes a data connection early is part of
  the model: it kills the child that sends (`CutOff`).

## Main results

* Upload: for every file and every capacity of the data connection from one byte up, every interleaving ends,
  none gets stuck, the client has read 150 and then 226, and the server's file is the client's, byte for byte
  (`Upload.UploadCompletes`, with `Upload.RunsAreBounded`). 226 says that everything was received, not that it
  was written: it is sent before the file is closed (`Upload.FinalReplyBeforeFile`).
* Download: every run ends; it delivers the file if and only if the file has no NUL byte and fits the
  data connection, because the client reads both replies before any data (`Download.DownloadFaithful`).
  Otherwise either the bytes behind a NUL are lost, or both sides wait for ever (`Download.DownloadEnds`).
* Isolation: whatever the other clients do in between, a session's login, user and transfer mode are what its
  own lines make of a fresh session (`Sessions.AuthProjects`), and given the kernel's answers so is its data
  socket (`Sessions.SocketProjects`).
* Login: a session is logged in if and only if its own lines hold a USER with an anonymous name followed by a
  PASS with an empty password, with no USER or PASS in between (`Sessions.LoggedInExactly`).
* Confinement: in every reachable state the shared process directory and every session's directory pass the
  prefix test (`Sessions.ConfinedInRun`); that test is true containment if and only if no directory beside
  the served one has a name that extends its name (`FileTree.PrefixTestIsContainment`). This is about
  directories the server itself goes to: RETR, STOR and DELE take their path without any such test, and LIST's
  child goes to its directory after the test (see Children below).
* Commands: each of the fifteen names, in any case, has exactly the effect, reply and conditions that
  `CommandLaws` states for it, over every session, process directory and file system; what no command but its own
  may change is `CommandLaws.NothingElseChanges`. DELE of a name answers 250 if and only if the permissions allow it
  and the name is a file's or an empty directory's, and then exactly that entry is gone (`CommandLaws.DeleExactly`).
* CWD looks for its target from the shared process directory and enters it from the session's own, or from the
  process directory when that is gone. It does what it is for if and only if both places agree on whether the
  target is a directory and, when the session's directory is gone, also on where the session ends up, in a
  directory that is still there (`SessionLaws.CwdAsMeantExactly`; `CommandLaws.DirectoryCommandsAsMeant` says so of
  the commands CWD and CDUP; `SessionLaws.CwdRefusesWhatIsThere` and `SessionLaws.CwdMissesTheParent` are cases where
  it does not).
* Undefined behaviour: a command is undefined if and only if its text has adjacent spaces, or it changes
  directory while the session's own directory is gone, to another one that is gone
  (`SessionLaws.CrashesExactly`; `SessionLaws.CdupCrashes` is such a case).
* Uploads: STOR writes into the process directory, so an upload lands where the last command of any client has
  left the process, in its own session's directory if and only if that is the same place
  (`SessionLaws.UploadLandsExactly`). Once its line has been told 226 the file was made there under its name, and
  it is there still, unless a DELE that names it or somebody outside the server has taken it away since
  (`Storage.StoredUnlessDisturbed`).
* Replies: in every interleaving of the main loop and the children, a line that was read is answered by one
  final reply, or by 150 and then one final reply, if and only if its child was not killed while it sent; if it
  was, the line is left with its 150 (`Replies.CompleteUnlessCut`, `Replies.AllAnswered`), and such a run exists
  for every served directory (`SampleRuns.LineLeftAt150`).
* Jobs: on every run a child that retrieves, stores under a name or lists runs for a line that says RETR, STOR
  with just that name, or LIST; 150 and 226 answer no other line, and no child of a STOR is ever killed
  (`Jobs.JobsInRun`).
* Reply order: a client that waits for the final reply gets its replies in the order of its lines
  (`ReplyOrder.WaitingIsInOrder`); after any line that does not wait, they may come out of turn
  (`ReplyOrder.ImpatienceMayBeOutOfTurn`).
* Setting up: some clients connect to the passive port before they send their command, as the client program
  does, some after it, some never. If each connects sooner or later, every run starts every transfer; otherwise
  every run ends with the server loop held up in `accept` for one that never does, serving nobody (`Setup.SetupEnds`). For a
  client that connects before, `accept` returns at once (`Setup.AcceptReturns`).
* Children: the server looks a file or directory up, returns to the served directory and forks; the child looks
  it up again on its own. It finds the same one if and only if the session's directory is still there, or (for
  LIST) no path was given, or the path leads to the same place from the process directory and from the served one
  (`Children.RetrieveFindsItAgain`, `Children.ListingShowsWhatWasChecked`). Otherwise it may send another file
  (`Children.RetrieveFindsAnother`) or list a directory outside the served one (`Children.ListingGoesAstray`); what
  it lists passes the prefix test exactly under the condition of `Children.ListingStaysInsideExactly`.
* Connections: live descriptors are distinct, the table is never overfull, and every connection that gets a
  slot is told 221 once and destroyed once, and not used afterwards (`SlotTable.LivesInRun`,
  `SlotTable.EndOfLife`); every handler asks for a connection that was not destroyed.
* The main loop over the two arrays takes, turn by turn, exactly the steps that what it meets prescribes: the
  accept if a descriptor is to be had, then for each slot that was live and ready, once and in the order of the
  table, the line that has arrived there (`ServerLoop.TurnsRead`). What each connection has been sent is what the log of that run says
  (`ServerLoop.Server.ProcessConnections`).
* Texts: the client connects to exactly the address and port the server printed
  (`HostPort.PassiveRoundTrip`); a command that was written as words comes back as those words
  (`CommandParser.CommandRoundTrip`).

## Where code and documentation differ

The model follows the code.

* docs/RFC959.md lists 200 as the reply to CDUP; the code answers 250.
* docs/commands.md lists 500 for a PASS when already logged in, and shows a login with password `anonymous`;
  the code answers 230 to the former and 530 to the latter, since only the empty password is accepted.
* A lost connection does not end: the slot stays taken (src/client_handler.c:53-54, 79), so `Hangup` changes nothing.
* A second PASV or PORT replaces a data socket that was never used; the first one is not destroyed.
* The comments speak of stripping CR and LF from the last token; that never happens (`CommandParser.StripNeverFires`).
* `merge_port` returns -1 for a bad port half and nobody looks (`HostPort.BadPortHalf`).
* STOR opens its file in the process directory, not in the session's (`SessionLaws.UploadLandsExactly`).
* The reply sequences of section 5.4 of RFC 959 end in a final reply; a child killed by SIGPIPE sends none.

## Model

| member | source | states |
|---|---|---|
| Utils.Trim | src/utils.c:96-116 | in place and in bounds, with the overlapping move, the buffer ends up holding the trimmed text, and nothing behind the old terminator changes |
| Utils.TrimmedSplits | src/utils.c:96-116 | what trimming removes is whitespace at the two ends only, and what is left has none at either end |
| Utils.TrimmedIs | src/utils.c:96-116 | conversely, any text with no whitespace at its ends comes back from any padding: the result is the largest such middle |
| Utils.TrimIdempotent | src/utils.c:96-116 | trimming again changes nothing |
| Utils.ToUpperCase | src/utils.c:16-27 | the in-place loop raises every lower-case ASCII letter and keeps the rest |
| Utils.UpperIsCaseless | src/utils.c:16-27 | two names agree after raising iff they are equal up to the case of ASCII letters |
| Utils.ReplaceDotsWithCommas | src/utils.c:79-87 | the in-place loop changes dots to commas and nothing else |
| Utils.PortRoundTrip | src/utils.c:38-69 | `merge_port` and `split_port` are inverse on ports and octet pairs, and each rejects everything else |
| LibC.StrTok.Next | src/command_parser.c:69-73 | each `strtok` call hands out the next maximal run without the delimiter and leaves the rest, cutting the buffer in place |
| LibC.TokensOfJoin | src/command_parser.c:61-81 | splitting undoes joining, for non-empty tokens without the delimiter |
| LibC.TokensOfWeave | src/command_parser.c:61-81 | of words with any runs of delimiters in front, between and behind, `strtok` hands out exactly the words |
| LibC.EveryTextIsWoven | src/command_parser.c:61-81 | and every text is such words and such runs, so this is what `strtok` does to all of them |
| LibC.AtoiReads | src/commands/port.c:19-35 | `atoi` of whitespace, a sign, digits and a rest that does not start with one is the number that the digits write, signed |
| LibC.ReadNumberOfDecimal | src/commands/port.c:19-35 | scanning a number gives back what printing it wrote and leaves what follows |
| CommandParser.CountArgs | src/command_parser.c:40-49 | the loop gives one more than the number of spaces |
| CommandParser.TokensFit | src/command_parser.c:61-81 | that is never less than the number of tokens, so writes to `tokens[]` are in bounds for every input |
| CommandParser.CountExact | src/command_parser.c:40-81 | it is exact iff no two spaces are adjacent and none ends the text, and only then do the tokens account for the whole text |
| CommandParser.FillTokens | src/command_parser.c:69-73 | the loop writes exactly the tokens, in order, and leaves every other cell as allocated |
| CommandParser.TokenizeBuffer | src/command_parser.c:61-81 | the array is what the specification says, ended by a null, iff every cell and byte read was defined |
| CommandParser.ParseBuffer | src/command_parser.c:110-131 | the in-place parser agrees with the specification on every buffer |
| CommandParser.StripNeverFires | src/command_parser.c:74-79 | on trimmed text the CR and LF branches never change a token |
| CommandParser.ParseExact | src/command_parser.c:110-131 | blank iff all whitespace; undefined iff two spaces are adjacent in the trimmed text; else words without spaces that join to the trimmed text |
| CommandParser.ParsedClean | src/command_parser.c:110-131 | no name or argument holds a NUL |
| CommandParser.ReadSocket | src/client_handler.c:21-35 | takes one line off the stream and leaves it as a C string without its newline; fails iff the stream has ended |
| CommandParser.CommandRoundTrip | src/command_parser.c:110-131 | words joined by single spaces and ended by CR LF are read and parsed back to exactly those words, and the bytes behind them stay unread |
| HostPort.WordOfOctets | bonus/src/data_socket.c:26-36 | packing the four octets of an address word gives the word back |
| HostPort.OctetsRecoverable | src/active_data_socket.c:47-57 | four numbers can be recovered from the packed word iff each is an octet |
| HostPort.PassiveReply | src/commands/pasv.c:32-38 | the 227 text composed by rewriting the dotted address in place is the six numbers with commas between them |
| HostPort.PassiveTextReads | src/commands/pasv.c:32-38 | for an address a.b.c.d and port 256*p1+p2 the text is `227 Entering Passive Mode (a,b,c,d,p1,p2).`, number by number |
| HostPort.ScanReply | bonus/src/data_socket.c:75-87 | the client's scan of that text gives exactly the six numbers |
| HostPort.PassiveRoundTrip | bonus/src/data_socket.c:26-87 | for every address and port, the client aims at the address and port the server announced |
| HostPort.ParseHostPortValues | src/commands/port.c:19-35 | the `strtok` loop fills the six values, or fails, as the specification says, for every argument |
| HostPort.PortArgument | src/commands/port.c:19-58 | rejected iff fewer than six non-empty fields; six printed numbers parse to themselves |
| HostPort.TokensAreFields | src/commands/port.c:19-35 | the number of `strtok` tokens is the number of non-empty fields counted in one pass over the text |
| HostPort.SetupActiveDataSocket | src/active_data_socket.c:69-85 | the first four values become the address, the last two the port, and the socket address follows from them |
| HostPort.PortEndpoint | src/active_data_socket.c:47-85 | six octets give port 256*p1+p2 and an address word that gives the four octets back |
| HostPort.BadPortHalf | src/active_data_socket.c:73 | a half that is not an octet makes -1, and the socket is aimed at port 65535 |
| FileTree.DirIsCanonical | src/commands/cwd.c:84 | the path of an existing directory has real names and no link on the way |
| FileTree.PrintInjective | src/commands/cwd.c:84 | different places print differently |
| FileTree.PrintReads | src/commands/cwd.c:84-88 | what `getcwd` prints: `/` for the top, else the parent's path, a slash and the name |
| FileTree.NameReads | src/commands/cwd.c:36-44 | a plain name leads to the directory or file of that name, or where the link in its place points; from a directory that is gone it leads nowhere |
| FileTree.DotsRead | src/commands/cdup.c:68-86 | `.` stays and `..` goes up, from every directory, there or gone |
| FileTree.SlashReads | src/commands/cwd.c:74-92 | a path is its first name and then the rest from there, if that is a directory; a leading slash starts at the top |
| FileTree.EntryReads | src/commands/dele.c:21-30 | which entry of the directory a name to be removed names: none for a link, `.` or `..`, and with a slash behind only a directory |
| FileTree.NewFileReads | src/commands/stor.c:53 | a plain name is made in the directory, unless that is gone or has a directory of that name |
| FileTree.LastNameReads | src/commands/stor.c:53 | what a longer path removes or makes is what its last name does in the directory the rest leads to |
| FileTree.ChDirBack | src/commands/cwd.c:82-88 | `chdir` to a path `getcwd` printed leads to that very directory from anywhere, or fails iff it is gone |
| FileTree.WalkStays | src/commands/list.c:68 | from a directory that is there, resolution leads only to directories that are there |
| FileTree.TargetIsFound | src/commands/stor.c:53 | a file opened for writing under a path is found under that path afterwards |
| FileTree.PrefixTest | src/commands/cwd.c:54-61 | the `strncmp` test holds iff all names of the root but the last match and the last is a prefix of the name at its level |
| FileTree.PrefixTestIsContainment | src/commands/list.c:73-75 | it is true containment for every directory iff no directory beside the root has a name that extends the root's |
| Commands.DispatchExact | src/command_executor.c:46-55 | a name finds a table entry iff it is that entry's name up to the case of letters, and finds none iff no entry is |
| Commands.TableDistinct | src/command_executor.c:10-15 | no two entries share a name or a handler |
| Handlers.GetCommandHandler | src/command_executor.c:46-55 | raising the name in place and scanning the table finds the specified handler |
| Handlers.Connection.constructor | src/connection.c:23-46 | a fresh connection is in the initial session state |
| Handlers.Connection.ProcessLogin | src/commands/pass.c:60-73 | logs in iff the user is `Anonymous` or `anonymous` and the password empty, and forgets the user otherwise |
| Handlers.Connection.CheckNewPath | src/commands/cwd.c:54-61 | a directory outside the prefix is replaced by where the process is; undefined iff that is gone |
| Handlers.Connection.ChangeDirectoryTo | src/commands/cwd.c:74-92 | the three `chdir` calls and the check leave session and process directory as specified, or are undefined exactly when the specification is |
| Handlers.Connection.DeleCommand | src/commands/dele.c:21-56 | removes the entry the path names from the session's directory, if it is a file or a vacant directory, and leaves the process there; nothing else in the tree changes |
| Handlers.Connection.PortCommand | src/commands/port.c:71-119 | parses, sets up and replaces as specified, with 500 for a bad argument and 451 for a failed setup |
| Handlers.Connection.ExecuteDataSocketCommand | src/data_socket_executor.c:119-138 | the socket is gone in every case; a child is started iff connecting and forking succeed, else 425 or 451 |
| Handlers.Connection.CheckFileExists | src/commands/retr.c:20-38 | looks from the session's directory, returns the process to the served one, and answers 451 or 550 by what is there |
| Handlers.Connection.CheckDirectoryAccess | src/commands/list.c:62-85 | refuses what cannot be entered, leaving the process in the session's directory, and what fails the prefix test |
| Handlers.Connection.TypeCommand | src/commands/type.c:22-64 | A or I in either case sets the mode; everything else is refused |
| Handlers.Connection.ExecuteCommand | src/command_executor.c:67-81 | every command line, also blank and unknown ones, does to connection and process what the specification says, command by command, and writes the replies it says |
| SessionLaws.AnswersAreFinal | src/command_executor.c:67-81 | what the server itself answers is always one final reply; 221 is QUIT's alone, which changes nothing in the session |
| SessionLaws.AuthIsLocal | src/commands/pass.c:36-97 | login, user and mode depend on the line and on themselves only, not on directories, files, kernel or data socket |
| SessionLaws.SocketIsLocal | src/data_socket_executor.c:119-138 | given the kernel's answers and whether the named file or directory was there, the same holds of the data socket |
| SessionLaws.SocketChange | src/data_socket_executor.c:119-138 | only PASV and PORT grant or lose a socket, only RETR, STOR and LIST use one up, and a child is started only with one |
| SessionLaws.SocketSoundKept | src/data_socket_executor.c:119-138 | each transfer directly follows a successful PASV or PORT, and a socket is held iff the last act was to get one |
| SessionLaws.TransfersCovered | src/data_socket_executor.c:119-138 | transfers, plus one for a socket still held, never exceed successful PASVs and PORTs |
| SessionLaws.ConfinementKept | src/commands/cwd.c:54-92 | every command keeps session and process directory inside, also those that leave the process moved |
| SessionLaws.ProperStays | src/commands/dele.c:21-30 | no command breaks the file system up: directories still hang together and the served one is still there |
| SessionLaws.CwdAsMeantExactly | src/commands/cwd.c:74-92 | for every session and process directory, there or gone: CWD resolves from the session's directory as a user expects iff the process directory agrees on whether the target is a directory and, with the session's directory gone, on where that ends up, in a directory that is there |
| SessionLaws.ChangeFromNowhere | src/commands/cwd.c:82-88 | a directory change of a session whose own directory is gone is one from the process directory |
| SessionLaws.CwdRefusesWhatIsThere | src/commands/cwd.c:78-80 | a concrete tree where a client is refused a subdirectory of its own directory |
| SessionLaws.CwdMissesTheParent | src/commands/cwd.c:82-83 | a concrete tree where a client in a removed directory asks for its parent, which is there, and ends up in the served directory |
| SessionLaws.ChangeCrashesExactly | src/commands/cwd.c:84-88 | CWD and CDUP use a null `getcwd` result iff the session's directory is gone and the path leads from the process directory to one that is gone |
| SessionLaws.ListingCrashesExactly | src/commands/list.c:73-75 | LIST does iff it gets as far as changing to its argument and the same holds |
| SessionLaws.CrashesExactly | src/command_executor.c:67-81 | over all commands: undefined iff parsed from adjacent spaces, or a directory change from a directory that is gone to another one that is gone |
| SessionLaws.CdupCrashes | src/commands/cdup.c:68-86 | a concrete state where CDUP does: two nested directories removed while the session stands in the inner one |
| SessionLaws.StandsExactly | src/commands/dele.c:21-30 | where each command leaves the process directory: the served one, the session's, or where it was |
| SessionLaws.UploadLandsExactly | src/commands/stor.c:53 | after any command of any session, an upload lands where that command left the process, and in its own session's directory iff that is the same place |
| SessionLaws.UploadAfterCwd | src/commands/stor.c:53 | right after a successful directory change that place is the served directory |
| CommandLaws.NamesReach | src/command_executor.c:10-55 | each of the fifteen names, in any case, reaches its own handler and no other name does |
| CommandLaws.UnknownIsNobody | src/command_executor.c:46-55 | a line reaches no handler iff it has none of the fifteen names |
| CommandLaws.UnknownExactly | src/command_executor.c:26-34 | such a line, and a blank one, is answered 500 or, before login, 530, and changes nothing |
| CommandLaws.GuestExactly | src/commands/pwd.c:21-32 | before login every line but USER, PASS and QUIT is answered 530 and changes nothing |
| CommandLaws.QuitExactly | src/commands/quit.c:21-26 | QUIT always ends the connection with 221 and changes nothing |
| CommandLaws.UserExactly | src/commands/user.c:23-39 | USER remembers its first argument and answers 331; after login it is refused with 530 |
| CommandLaws.PassExactly | src/commands/pass.c:36-97 | PASS logs in with 230 iff the user is `Anonymous` or `anonymous` and the password empty or missing; otherwise 530 and the user is forgotten; 503 without a USER, 230 when already in |
| CommandLaws.InformationExactly | src/commands/pwd.c:21-32 | PWD, HELP and NOOP answer 257, 214 and 200 and change nothing |
| CommandLaws.TypeExactly | src/commands/type.c:22-64 | TYPE sets ASCII for `A` or `a` and binary for `I` or `i`; all else is 500 and changes nothing |
| CommandLaws.PasvExactly | src/commands/pasv.c:20-62 | PASV replaces the data socket by one on the port it was given, with 227, or loses it with 451 |
| CommandLaws.PortExactly | src/commands/port.c:19-119 | PORT takes one argument of at least six fields, and the first six are the address and the port of the new socket; otherwise 500, or 451 and the socket lost |
| CommandLaws.StorExactly | src/commands/stor.c:80-97 | STOR starts a child that stores under its one argument, where the process stands; 425 without a socket, 550 without exactly one argument |
| CommandLaws.RetrExactly | src/commands/retr.c:20-106 | RETR looks in the session's directory, or where the process is when that is gone, and starts a child that retrieves, from the served directory; otherwise 451 or 550 by whether the served directory has the name |
| CommandLaws.ListExactly | src/commands/list.c:38-172 | LIST looks for its argument from the process directory, enters it from the session's, applies the prefix test, and starts a child that lists |
| CommandLaws.JobsExactly | src/data_socket_executor.c:21-40 | a child that is started retrieves iff the line says RETR, lists iff it says LIST, and stores iff it says STOR, then under its one argument |
| CommandLaws.DirectoryCommandsAsMeant | src/commands/cwd.c:74-118 | over whole command lines: CWD with one argument, and CDUP, do what they are meant to do iff the two places agree; any other number of arguments is 550 |
| CommandLaws.DirectoryCommandsExactly | src/commands/cdup.c:68-108 | what they do in every case: where the target is looked for, where it is entered, and where session and process end up |
| CommandLaws.NothingElseChanges | src/command_executor.c:67-81 | only CWD and CDUP change the directory, only TYPE the mode, only PASS the login, USER and PASS the user, PASV, PORT, RETR, STOR and LIST the socket, and only DELE the files |
| CommandLaws.DeleExactly | src/commands/dele.c:21-56 | DELE of a name in the session's directory answers 250 iff permissions allow it and the name is a file's or an empty directory's other than the served one; then it leads nowhere and all else is as before, otherwise everything is |
| EventLoop.FirstFree | src/connection.c:90-98 | the lowest free index: everything below it is taken |
| StepLaws.ConnectExactly | src/connection.c:23-99 | a newcomer gets the lowest free place with a session that is not logged in, in the served directory, binary, with no socket; the others keep theirs, and with no place free nothing changes |
| StepLaws.LineExactly | src/client_handler.c:46-85 | a line changes its own session, the process and at most one child, as executing it says; its place is given up iff it says QUIT |
| StepLaws.OthersLeave | src/data_socket_executor.c:21-40 | no other step but the end touches a session or moves the process, and a child adds at most one file |
| Jobs.JobsInRun | src/data_socket_executor.c:21-40 | in every reachable state each child does what the line it answers orders, RETR's from the served directory; 150 and 226 answer only such lines, and only children that send are killed |
| SlotTable.TableKept | src/connection.c:77-147 | one step keeps live descriptors and connections distinct, and live connections equal to arrivals less destructions |
| SlotTable.TableInRun | src/connection.c:77-170 | the same in every reachable state, with never more than 128 live connections |
| SlotTable.FarewellsTally | src/destroyers.c:21-33 | shutdown tells each live connection 221 once, destroys it once, and touches no other |
| SlotTable.LivesInRun | src/client_handler.c:75-85 | in every reachable state each connection that got a slot is live and untouched, or told 221 once and destroyed once; none is read from afterwards |
| SlotTable.EndOfLife | src/destroyers.c:21-33 | once the server has stopped, every connection that ever got a slot has exactly one arrival, one 221 and one destruction |
| Replies.RepliesKept | src/data_socket_executor.c:21-40 | one step of the loop, of a child or of the surroundings keeps every line settled: told and still to be told a complete answer, or left at 150 by a child that was killed |
| Replies.RepliesInRun | src/client_handler.c:46-85 | the same in every reachable state; replies go to the connection the line came from, and final replies, running children and killed children together are the lines read |
| Replies.CompleteUnlessCut | src/commands/retr.c:68-70 | in every reachable state a line's replies, with those pending, are `[final]` or `[150, final]` iff its child was not killed; if it was, the line has been told 150 |
| Replies.AllAnswered | docs/RFC959.md:52-115 | with no child left, a line is answered completely iff its child was not killed, and final replies are the lines less the children killed |
| Replies.ChildrenCanSpeak | src/data_socket_executor.c:21-40 | neither a busy loop nor a stopped one keeps a child from its next reply |
| SampleRuns.LineLeftAt150 | src/signal.c:44-53 | for every served directory there is a run with no child left and a line that has only its 150 |
| ReplyOrder.WaitingIsInOrder | src/data_socket_executor.c:21-40 | if no line is taken from a connection while a child of it runs, its replies come in the order of its lines |
| ReplyOrder.ImpatienceMayBeOutOfTurn | src/data_socket_executor.c:21-40 | after any line taken while one runs, there is a way to go on in which replies come out of turn |
| ReplyOrder.AnsweredOutOfTurn | src/commands/noop.c:21-31 | for every served directory there is a run where a NOOP is answered before an earlier LIST is finished |
| Sessions.AuthProjects | src/client_handler.c:46-85 | login, user and mode of a live slot equal a single client's run over the lines given to that slot since its accept |
| Sessions.SocketProjects | src/command_executor.c:67-81 | with outcomes as labels, so does its data socket |
| Sessions.LoginExactly | src/commands/pass.c:36-97 | a history logs in iff USER with an anonymous name is later followed by PASS with an empty password, with neither in between |
| Sessions.EmptyMeansNoArgument | src/commands/pass.c:19-25 | through the parser, the empty password is the missing argument |
| Sessions.LoggedInExactly | src/commands/user.c:23-39 | the same for every live slot of every reachable state and its own lines |
| Sessions.SessionsKept | src/commands/list.c:62-85 | one step of anybody keeps every session and the process directory inside and every data socket single-use |
| Sessions.SoundInRun | src/commands/dele.c:21-30 | the same in every reachable state |
| Sessions.ConfinedInRun | src/commands/cwd.c:54-61 | in every reachable state the printed process and session directories start with the served path, and transfers are covered by PASVs and PORTs |
| ServerLoop.HandleClientCommand | src/client_handler.c:46-63 | one line is read, parsed and executed as specified; its replies and nothing else are written; a lost connection changes nothing |
| ServerLoop.ReadySlotsExact | src/connection.c:110-120 | a slot is among those served iff it was live and its index, from 1 on, was ready when `poll` returned; each once, in order |
| ServerLoop.ServedInOrder | src/connection.c:110-120 | the events of a turn are, slot by slot, what has arrived at those |
| ServerLoop.ServedOnce | src/connection.c:110-120 | in a defined turn every slot that was live and ready has exactly one event, that of what has arrived there; no other slot has one; they come in the order of the table |
| ServerLoop.TurnsRead | src/connection.c:132-170 | all rounds, up to the first in which `poll` fails, are turns: the file system is seen, a waiting client is accepted if its descriptor is not in use, and each slot that was live and ready is served once |
| ServerLoop.Server.constructor | src/connection.c:57-64 | the arrays show the initial state: the listening socket in front, every slot free |
| ServerLoop.Server.FirstFreeIndex | src/connection.c:90-91 | the scan stops at the lowest free index, or behind the table |
| ServerLoop.Server.AcceptNewConnection | src/connection.c:77-99 | a newcomer takes the lowest free index and nobody else moves; with no index free nothing changes |
| ServerLoop.Server.HandleConnection | src/client_handler.c:75-85 | the arrays follow the step of the transition system; QUIT's connection has been sent its replies and 221 last, and is destroyed |
| ServerLoop.Server.Accept | src/connection.c:82-86 | gives the waiting client its descriptor iff no live connection has it |
| ServerLoop.Server.ServeIndex | src/connection.c:113-118 | serving an index is the event of exactly what has arrived there, with the kernel's answers for it; defined iff the transition system has the step |
| ServerLoop.Server.ProcessClientEvents | src/connection.c:110-120 | the events are those that the arrivals prescribe, index by index, each in the state the ones before have led to; if all are defined, every slot that was live and ready is served once |
| ServerLoop.Server.ProcessConnection | src/connection.c:132-147 | a turn is exactly the events its round prescribes: the accept if it succeeds, then what has arrived at each slot that was live and ready before |
| ServerLoop.Server.DestroyServer | src/destroyers.c:21-33 | each live connection has been sent its replies and then 221, and is destroyed |
| ServerLoop.Server.ProcessConnections | src/connection.c:158-170 | all turns and the shutdown are exactly the run the rounds prescribe, to its end; every live connection has been sent that run's replies and 221 and is destroyed, and every connection ever in a slot was told 221 and destroyed once |
| Children.ExecuteRetr | src/commands/retr.c:51-73 | the child looks from the session's directory, answers 150 and then 226 or 451 by what it finds, and sends what the loop makes of the file; a write that the connection no longer takes ends it with 150 alone |
| Children.ExecuteStor | src/commands/stor.c:50-66 | 150 and then 226 with the file made under its name where the child stands and every byte of the data connection stored, or 451 with no file made and no byte taken, by whether the file can be opened |
| Children.ExecuteLs | src/commands/list.c:97-139 | 550 alone, 451 alone, or 150 and 226 around the listing, by where the two `chdir` calls lead and whether `ls` starts; a write that the connection no longer takes ends it with 150 alone |
| Children.KilledWhileSending | src/commands/retr.c:68-70 | a child is killed iff what it sends takes more writes than the connection lasts, and then it stands where the transition system lets it be killed |
| Children.RetrieveFindsItAgain | src/commands/retr.c:20-73 | the child retrieves, starting from the served directory; it finds the very file the server had found iff the session's directory is still there or the name leads to the same from the process directory and from the served one; it finds anything iff the directory is there or the name leads somewhere from the served one |
| Children.RetrieveFindsAnother | src/commands/retr.c:24-60 | a concrete case where the server finds one file and the child sends another |
| Children.ListingShowsWhatWasChecked | src/commands/list.c:38-139 | the child lists, and it lists the directory that passed the check iff the session's directory is still there, no path was given, or the path leads to the same place from the process directory and from the served one |
| Children.ListingStaysInsideExactly | src/commands/list.c:38-139 | what the child lists passes the prefix test iff the session's directory is still there, no path was given, or the path does not lead outside from the served directory |
| Children.ListingGoesAstray | src/commands/list.c:42-43 | a concrete case where the server tests the served directory and the child lists the root of the file system |
| Storage.StoreOpens | src/commands/stor.c:53-61 | when a STOR child says 150 its file is there and found under its name from where the child started, or 451 comes next |
| Storage.FileStays | src/commands/dele.c:21-30 | no step takes a file away but a DELE that names it, or somebody outside the server |
| Storage.StoredUnlessDisturbed | src/commands/stor.c:50-66 | in every run, a STOR line told 226 has had its file opened at some step, and the file is there still unless a later step was one of those |
| CopyLoops.CopyLines | src/commands/stor.c:20-37 | the `getline` and `fwrite` loop copies every byte, NULs included |
| CopyLoops.Fgets | src/commands/retr.c:68 | fills the 1024-byte buffer character by character: through the newline, or 1023 bytes, and a NUL behind |
| CopyLoops.SendChunks | src/commands/retr.c:68-69 | each buffer is sent up to its first NUL, until the end or until a write kills the sender |
| CopyLoops.SentUntilExactly | src/commands/retr.c:68-69 | the sender is killed iff the content takes more writes than the connection lasts; what arrived is all of it otherwise, and a beginning of it in any case |
| CopyLoops.KilledAfter | src/commands/retr.c:68-69 | a sender that is killed has got across exactly what as many writes carry as the connection lasts |
| CopyLoops.SentExactly | src/commands/retr.c:55-69 | what is sent is the file iff the file has no NUL |
| Pipes.LineReader.ReaderProgress | src/commands/stor.c:20-37 | a reader is held up only by a connection that is open and empty |
| Setup.AcceptReturns | src/data_socket_executor.c:51-65 | while the loop is in `accept`: it returns at once for a client that connects before its command, and it can be left, now or after the client has connected, iff the client connects at all |
| Setup.RunsAreBounded | bonus/src/data_socket.c:104-125 | no run has more than 9 steps a client |
| Setup.SetupEnds | src/data_socket_executor.c:96-138 | every maximal run: every transfer is started iff no client never connects; otherwise the loop is held up for good for one that never does |
| Upload.InvInRun | bonus/src/commands/put.c:10-53 | in every reachable state stored, in flight and unread make up the client's file, and replies are read in the order written |
| Upload.MeasureDrops | src/commands/stor.c:20-37 | every step of either process brings the transfer nearer to its end |
| Upload.RunsAreBounded | src/commands/stor.c:20-66 | no run is longer than 6 times the file plus 6 |
| Upload.SomebodyCanGo | src/commands/stor.c:50-66 | no deadlock: until both processes are done, one of them can go on |
| Upload.UploadCompletes | bonus/src/commands/put.c:32-53 | every maximal run ends with both done, 150 and 226 read, and the server's file equal to the client's |
| Upload.FinalReplyMeansReceived | src/commands/stor.c:62-63 | once 226 is on its way every byte has reached the server |
| Upload.FinalReplyBeforeFile | src/commands/stor.c:63-64 | for every file and capacity there is a run where the client is done and the server's file still empty |
| Download.InvInRun | src/commands/retr.c:51-73 | in every reachable state received, in flight and still to be sent make up what RETR sends of the file; 226 goes out only when all of it fits |
| Download.RunsAreBounded | src/commands/retr.c:51-73 | no run is longer than 5 times the file plus 7 |
| Download.SomebodyCanGo | bonus/src/commands/get.c:32-75 | the one state in which nobody can go on is a full connection with the client waiting for 226 |
| Download.DownloadEnds | bonus/src/commands/get.c:32-75 | every maximal run: what RETR sends fits and the client has it, or it does not and both wait for ever with nothing received |
| Download.DownloadFaithful | bonus/src/commands/get.c:10-52 | the client gets the file iff it has no NUL and fits the data connection |

## Left out

- Handlers.Connection.DeleCommand: refuses a symbolic link and the served directory itself, because links and
  the served directory are assumed to stay; whether permissions allow a removal is a label.
* Sockets, `poll`, `accept`, `fork`, `connect` and `popen` themselves: they are labels on events; an `accept`
  fails exactly when it is offered a descriptor that is in use or negative.
* Failing allocations and a failing `fdopen` in `init_connection`: assumed to succeed.
* Close counts of descriptors, the passive listening socket that is never closed, and data sockets lost to a
  second PASV or PORT: only logical destruction is counted.
* The greeting 220 is not a reply to a line and is not in the log.
* Reply texts other than the 227 reply, and the several lines of HELP: a reply is its code.
* Lines that wait in a stream's buffer after one was read: what a stream has to offer in a turn is part of the label.
* The client's own read-ahead on the control connection: its reader takes exactly one line.
* Client start-up, prompts, login, `ls`, `cd`, `pwd`, the argument checks of both programs and signal
  handlers: no property of interest; a signal is the end of the list of rounds.
* Integer overflow in `atoi`, `sscanf` and `merge_port`: numbers are unbounded before they reach an address word or a port.
* File permissions: a file or directory that is there can be opened and entered.
* A child's steps in the main loop's class: children run beside it in the transition system only. What a child
  writes when nothing kills it is a label, one of the sequences `Children` proves for its job.
* What `ls -l` prints, and whether permissions let STOR's file be opened: parameters of the child's methods, and in
  the transition system part of the label that says what a child will write.
* What files hold, in the transition system: it knows which files are there. Contents are in `CopyLoops`,
  `Upload` and `Download`.
* A transfer whose files cannot be opened, or whose client closes the data connection early: outside `Upload`
  and `Download`; their replies are in the transition system.
* Names and arguments are values: a handler that cuts or raises its argument in place does so on a copy,
  since nothing reads the argument afterwards.
* ASCII conversion: TYPE has no effect on transfers.
