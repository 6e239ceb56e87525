/** The command handlers as the server runs them: they update a connection and move the process
    directory all connections share. Each is proved against its specification in Commands. */
module Handlers {
  import opened LibC
  import opened Utils
  import opened CommandParser
  import opened FileTree
  import opened HostPort
  import opened Commands

  /** The kernel's view of the server process. */
  class Process {
    const links: Links
    var cwd: Path
    var tree: Tree

    constructor (links: Links, cwd: Path, tree: Tree)
      ensures this.links == links && State() == World(cwd, tree)
    {
      this.links, this.cwd, this.tree := links, cwd, tree;
    }

    function State(): World
      reads this
    {
      World(cwd, tree)
    }

    /** `chdir`. */
    method Chdir(path: string) returns (ok: bool)
      modifies this`cwd
      ensures ok <==> ChDir(tree, links, old(cwd), path).Some?
      ensures cwd == Moved(tree, links, old(cwd), path)
    {
      match ChDir(tree, links, cwd, path)
      case None => ok := false;
      case Some(d) => cwd, ok := d, true;
    }

    /** `getcwd(NULL, 0)`: a null result is `None`. */
    method Getcwd() returns (path: Option<string>)
      ensures path == GetCwd(State())
    {
      path := if cwd in tree.dirs then Some(Print(cwd)) else None;
    }

    /** `access(path, F_OK)`, and `fopen(path, "r")`: something is there. */
    method Exists(path: string) returns (ok: bool)
      ensures ok <==> Lookup(tree, links, cwd, path).Some?
    {
      ok := Lookup(tree, links, cwd, path).Some?;
    }

    /** `opendir`, closed again at once. */
    method IsDirectory(path: string) returns (ok: bool)
      ensures ok <==> ChDir(tree, links, cwd, path).Some?
    {
      ok := ChDir(tree, links, cwd, path).Some?;
    }

    /** `fopen(path, "wb")`; `allowed`: the permissions do not stand in the way. */
    method Create(path: string, allowed: bool) returns (ok: bool)
      modifies this`tree
      ensures var target := Target(old(tree), links, cwd, path);
        && ok == (allowed && target.Some?)
        && tree == if ok then WithFile(old(tree), target.value) else old(tree)
    {
      var target := Target(tree, links, cwd, path);
      ok := allowed && target.Some?;
      if ok { tree := WithFile(tree, target.value); }
    }

    /** `remove`. */
    method Remove(site: Site, path: string, o: Outcome) returns (ok: bool)
      requires site.links == links
      modifies this`tree
      ensures var left := Removal(site, old(State()), path, o);
        && (ok <==> left.Some?)
        && tree == if left.Some? then left.value else old(tree)
    {
      var left := Removal(site, State(), path, o);
      ok := left.Some?;
      if ok { tree := left.value; }
    }
  }

  /** `connection_t`. `control` is what was written to the control socket, reply code by reply code;
      `acts` is bookkeeping. */
  class Connection {
    const site: Site
    const process: Process
    var loggedIn: bool
    var user: Option<string>
    var workingDirectory: string
    var dataSocket: Option<DataSocket>
    var transferMode: TransferMode
    var control: seq<int>
    var destroyed: bool
    ghost var acts: seq<Act>

    ghost function State(): Session
      reads this
    {
      Session(loggedIn, user, workingDirectory, dataSocket, transferMode, acts)
    }

    /** `init_connection`. */
    constructor (site: Site, process: Process)
      requires process.links == site.links
      ensures this.site == site && this.process == process
      ensures State() == NewSession(site) && control == [] && !destroyed
    {
      this.site, this.process := site, process;
      loggedIn, user, workingDirectory := false, None, ServerPath(site);
      dataSocket, transferMode := None, Binary;
      control, destroyed, acts := [], false, [];
    }

    /** The process is the one that serves the site, and the connection has not been destroyed. Every
        handler asks for this. */
    ghost predicate Usable()
      reads this`destroyed
    {
      process.links == site.links && !destroyed
    }

    /** `destroy_connection`. */
    method Destroy()
      requires Usable()
      modifies this`destroyed
      ensures destroyed
    {
      destroyed := true;
    }

    /** The handler took the connection and the process to where `result` says, wrote the replies
        it says, and nothing else. */
    twostate predicate Did(result: Result, status: Status, new launch: Option<Response>)
      reads this, process
    {
      && result.Done?
      && State() == result.session
      && process.State() == result.world
      && destroyed == old(destroyed)
      && status == result.status
      && (match result.response
          case Answer(code) => launch.None? && control == old(control) + (if status == Quit then [] else [code])
          case Launch(_, _) => launch == Some(result.response) && control == old(control))
    }

    method Say(code: int)
      requires Usable()
      modifies this`control
      ensures control == old(control) + [code]
    {
      control := control + [code];
    }

    method UserCommand(args: seq<string>) returns (status: Status)
      requires Usable()
      modifies this
      ensures Did(User(old(State()), old(process.State()), args), status, None)
    {
      if loggedIn {
        Say(530);
        return Failure;
      }
      user := None;
      if |args| != 0 {
        user := Some(args[0]);
      }
      Say(331);
      status := Success;
    }

    method CheckPreconditions() returns (status: Status)
      requires Usable()
      modifies this`control
      ensures status == Failure <==> loggedIn || user.None?
      ensures status == Success || status == Failure
      ensures control == old(control) + (if loggedIn then [230] else if user.None? then [503] else [])
    {
      if loggedIn {
        Say(230);
        return Failure;
      }
      if user.None? {
        Say(503);
        return Failure;
      }
      status := Success;
    }

    method ProcessLogin(password: string) returns (status: Status)
      requires Usable()
      requires user.Some?
      modifies this
      ensures var good := (old(user) == Some("Anonymous") || old(user) == Some("anonymous")) && password == "";
        && loggedIn == (old(loggedIn) || good)
        && user == (if good then old(user) else None)
        && control == old(control) + [if good then 230 else 530]
        && status == (if good then Success else Failure)
      ensures unchanged(`workingDirectory) && unchanged(`dataSocket) && unchanged(`transferMode) && unchanged(`acts)
      ensures unchanged(`destroyed)
    {
      if Anonymous(user.value) && password == "" {
        Say(230);
        loggedIn := true;
        return Success;
      }
      user := None;
      Say(530);
      status := Failure;
    }

    method PassCommand(args: seq<string>) returns (status: Status)
      requires Usable()
      modifies this
      ensures Did(Pass(old(State()), old(process.State()), args), status, None)
    {
      status := CheckPreconditions();
      if status == Failure {
        return;
      }
      status := ProcessLogin(if |args| == 0 then "" else args[0]);
    }

    /** `check_new_path`: a directory outside the prefix is replaced by where the process is now.
        `defined` is false when `getcwd` gave null. */
    method CheckNewPath() returns (defined: bool)
      requires Usable()
      modifies this`workingDirectory
      ensures StartsWith(old(workingDirectory), ServerPath(site)) ==> defined && unchanged(`workingDirectory)
      ensures !StartsWith(old(workingDirectory), ServerPath(site)) ==>
        var here := GetCwd(process.State());
        (defined <==> here.Some?) && (defined ==> workingDirectory == here.value)
    {
      defined := true;
      if !StartsWith(workingDirectory, ServerPath(site)) {
        var here := process.Getcwd();
        if here.None? {
          return false;
        }
        workingDirectory := here.value;
      }
    }

    /** `change_dir` of src/commands/cwd.c and src/commands/cdup.c. */
    method ChangeDirectoryTo(path: string) returns (status: Status, defined: bool)
      requires Usable()
      modifies this, process`cwd
      ensures var result := ChangeDirectory(site, old(State()), old(process.State()), path);
        (defined <==> result.Done?) && (defined ==> Did(result, status, None))
    {
      hide Walk;
      hide Split;
      hide Print;
      hide StartsWith;
      status, defined := Failure, true;
      var found := process.Exists(path);
      if !found {
        Say(550);
        return;
      }
      var directory := process.IsDirectory(path);
      if !directory {
        Say(550);
        return;
      }
      var moved := process.Chdir(workingDirectory);
      moved := process.Chdir(path);
      var entered := process.Getcwd();
      if entered.None? {
        return Failure, false;
      }
      workingDirectory := entered.value;
      moved := process.Chdir(ServerPath(site));
      defined := CheckNewPath();
      if !defined {
        return;
      }
      Say(250);
      status := Success;
    }

    method CwdCommand(args: seq<string>) returns (status: Status, defined: bool)
      requires Usable()
      modifies this, process`cwd
      ensures var result := ChangeDir(site, old(State()), old(process.State()), args);
        (defined <==> result.Done?) && (defined ==> Did(result, status, None))
    {
      status, defined := Failure, true;
      if !loggedIn {
        Say(530);
        return;
      }
      if |args| != 1 {
        Say(550);
        return;
      }
      status, defined := ChangeDirectoryTo(args[0]);
    }

    method CdupCommand() returns (status: Status, defined: bool)
      requires Usable()
      modifies this, process`cwd
      ensures var result := ChangeUp(site, old(State()), old(process.State()));
        (defined <==> result.Done?) && (defined ==> Did(result, status, None))
    {
      status, defined := Failure, true;
      if !loggedIn {
        Say(530);
        return;
      }
      status, defined := ChangeDirectoryTo("..");
    }

    method DeleCommand(args: seq<string>, o: Outcome) returns (status: Status)
      requires Usable()
      modifies this, process
      ensures Did(Delete(site, old(State()), old(process.State()), args, o), status, None)
    {
      if !loggedIn {
        Say(530);
        return Failure;
      }
      if |args| != 1 {
        Say(550);
        return Failure;
      }
      var moved := process.Chdir(workingDirectory);
      var removed := process.Remove(site, args[0], o);
      if !removed {
        Say(550);
        return Failure;
      }
      Say(250);
      status := Success;
    }

    /** PWD, HELP and NOOP: the login check, then one reply. */
    method InformationalCommand(code: int) returns (status: Status)
      requires Usable()
      modifies this`control
      ensures Did(Informational(old(State()), old(process.State()), code), status, None)
    {
      if !loggedIn {
        Say(530);
        return Failure;
      }
      Say(code);
      status := Success;
    }

    method PasvCommand(o: Outcome) returns (status: Status)
      requires Usable()
      modifies this
      ensures Did(OpenPassive(old(State()), old(process.State()), o), status, None)
    {
      if !loggedIn {
        Say(530);
        return Failure;
      }
      dataSocket := if o.passivePort.Some? then Some(Passive(o.passivePort.value)) else None;
      if dataSocket.None? {
        acts := acts + [Lost];
        Say(451);
        return Failure;
      }
      acts := acts + [Granted];
      Say(227);
      status := Success;
    }

    method PortCommand(args: seq<string>, o: Outcome) returns (status: Status)
      requires Usable()
      requires forall a :: a in args ==> NUL !in a
      modifies this
      ensures Did(OpenActive(old(State()), old(process.State()), args, o), status, None)
    {
      if !loggedIn {
        Say(530);
        return Failure;
      }
      if |args| != 1 {
        Say(500);
        return Failure;
      }
      var arg := StrDup(args[0]);
      var hostPort := new int[6];
      var parsed := ParseHostPortValues(arg, hostPort, args[0]);
      if parsed < 0 {
        Say(500);
        return Failure;
      }
      if !o.activeSocket {
        dataSocket := None;
        acts := acts + [Lost];
        Say(451);
        return Failure;
      }
      var address, port, endpoint := SetupActiveDataSocket(hostPort);
      dataSocket := Some(Active(address[..], port, endpoint));
      acts := acts + [Granted];
      Say(200);
      status := Success;
    }

    /** `execute_data_socket_command`. */
    method ExecuteDataSocketCommand(job: Job, o: Outcome) returns (status: Status, launch: Option<Response>)
      requires Usable()
      requires dataSocket.Some?
      modifies this
      ensures Did(Transfer(old(State()), old(process.State()), job, o), status, launch)
    {
      acts := acts + [Used];
      launch := None;
      if !o.connected {
        Say(425);
        dataSocket := None;
        return Failure, launch;
      }
      if o.forked {
        launch := Some(Launch(job, process.cwd));
      } else {
        Say(451);
      }
      dataSocket := None;
      status := Success;
    }

    /** The checks RETR, STOR and LIST share. */
    method MayTransfer() returns (ok: bool)
      requires Usable()
      modifies this`control
      ensures ok <==> loggedIn && dataSocket.Some?
      ensures control == old(control) + (if !loggedIn then [530] else if dataSocket.None? then [425] else [])
    {
      if !loggedIn {
        Say(530);
        return false;
      }
      if dataSocket.None? {
        Say(425);
        return false;
      }
      ok := true;
    }

    /** `check_file_exists`. */
    method CheckFileExists(path: string) returns (ok: bool)
      requires Usable()
      modifies this`control, process`cwd
      ensures var here := Go(site, old(process.State()), workingDirectory);
        var home := Go(site, here, ServerPath(site));
        && process.State() == home
        && (ok <==> Lookup(here.tree, site.links, here.cwd, path).Some?)
        && control == old(control) + (if ok then []
                                      else if Lookup(home.tree, site.links, home.cwd, path).None? then [550]
                                      else [451])
    {
      var moved := process.Chdir(workingDirectory);
      ok := process.Exists(path);
      moved := process.Chdir(ServerPath(site));
      if !ok {
        var readable := process.Exists(path);
        Say(if readable then 451 else 550);
      }
    }

    method RetrCommand(args: seq<string>, o: Outcome) returns (status: Status, launch: Option<Response>)
      requires Usable()
      modifies this, process`cwd
      ensures Did(Retrieving(site, old(State()), old(process.State()), args, o), status, launch)
    {
      status, launch := Failure, None;
      var ok := MayTransfer();
      if !ok {
        return;
      }
      if |args| != 1 {
        Say(550);
        return;
      }
      ok := CheckFileExists(args[0]);
      if !ok {
        return;
      }
      status, launch := ExecuteDataSocketCommand(Retrieve, o);
    }

    method StorCommand(args: seq<string>, o: Outcome) returns (status: Status, launch: Option<Response>)
      requires Usable()
      modifies this
      ensures Did(Storing(old(State()), old(process.State()), args, o), status, launch)
    {
      status, launch := Failure, None;
      var ok := MayTransfer();
      if !ok {
        return;
      }
      if |args| != 1 {
        Say(550);
        return;
      }
      status, launch := ExecuteDataSocketCommand(Store(args[0]), o);
    }

    /** `check_directory_access`. `defined` is false when `getcwd` gave null. */
    method CheckDirectoryAccess(path: string) returns (ok: bool, defined: bool)
      requires Usable()
      modifies this`control, process`cwd
      ensures var here := Go(site, old(process.State()), workingDirectory);
        var there := Go(site, here, path);
        var home := Go(site, there, ServerPath(site));
        if ChDir(here.tree, site.links, here.cwd, path).None? then
          defined && !ok && process.State() == here && control == old(control) + [550]
        else if GetCwd(there).None? then !defined
        else
          && defined && process.State() == home
          && ok == StartsWith(GetCwd(there).value, ServerPath(site))
          && control == old(control) + (if ok then [] else [550])
    {
      ok, defined := false, true;
      var moved := process.Chdir(workingDirectory);
      moved := process.Chdir(path);
      if !moved {
        Say(550);
        return;
      }
      var current := process.Getcwd();
      if current.None? {
        return false, false;
      }
      if !StartsWith(current.value, ServerPath(site)) {
        moved := process.Chdir(ServerPath(site));
        Say(550);
        return;
      }
      moved := process.Chdir(ServerPath(site));
      ok := true;
    }

    method ListCommand(args: seq<string>, o: Outcome)
      returns (status: Status, launch: Option<Response>, defined: bool)
      requires Usable()
      modifies this, process`cwd
      ensures var result := Listing(site, old(State()), old(process.State()), args, o);
        (defined <==> result.Done?) && (defined ==> Did(result, status, launch))
    {
      status, launch, defined := Failure, None, true;
      var ok := MayTransfer();
      if !ok {
        return;
      }
      if |args| >= 1 {
        ok := process.Exists(args[0]);
        if !ok {
          Say(550);
          return;
        }
        ok, defined := CheckDirectoryAccess(args[0]);
        if !ok || !defined {
          return;
        }
      }
      status, launch := ExecuteDataSocketCommand(ListDirectory, o);
    }

    method TypeCommand(args: seq<string>) returns (status: Status)
      requires Usable()
      requires forall a :: a in args ==> NUL !in a
      modifies this
      ensures Did(ChangeType(old(State()), old(process.State()), args), status, None)
    {
      if !loggedIn {
        Say(530);
        return Failure;
      }
      if |args| != 1 {
        Say(500);
        return Failure;
      }
      var kind := StrDup(args[0]);
      ToUpperCase(kind, args[0]);
      var upper := kind[..kind.Length - 1];
      assert upper == ToUpper(args[0]);
      if upper == "A" {
        transferMode := Ascii;
        Say(200);
      } else if upper == "I" {
        transferMode := Binary;
        Say(200);
      } else {
        Say(500);
        return Failure;
      }
      status := Success;
    }

    method NotFoundMessageSent() returns (status: Status)
      requires Usable()
      modifies this`control
      ensures Did(NotFoundMessage(old(State()), old(process.State())), status, None)
    {
      if loggedIn {
        Say(500);
      } else {
        Say(530);
      }
      status := NotFound;
    }

    /** `execute_command`. The handlers return what they are proved to; a child's job, if one was
        forked, comes back in `launch`. */
    method ExecuteCommand(parse: Parse, o: Outcome)
      returns (status: Status, launch: Option<Response>, defined: bool)
      requires Usable()
      requires parse.Parsed? ==> NUL !in parse.name && forall a :: a in parse.args ==> NUL !in a
      modifies this, process
      ensures var result := Execute(site, old(State()), old(process.State()), parse, o);
        (defined <==> result.Done?) && (defined ==> Did(result, status, launch))
    {
      launch, defined := None, true;
      if parse.Undefined? {
        return Failure, None, false;
      }
      if parse.Blank? {
        status := NotFoundMessageSent();
        return;
      }
      var handler := GetCommandHandler(parse.name);
      if handler.None? {
        status := NotFoundMessageSent();
        return;
      }
      var args := parse.args;
      match handler.value
      case USER => status := UserCommand(args);
      case PASS => status := PassCommand(args);
      case CWD => status, defined := CwdCommand(args);
      case CDUP => status, defined := CdupCommand();
      case QUIT => status := Quit;
      case DELE => status := DeleCommand(args, o);
      case PWD => status := InformationalCommand(257);
      case PASV => status := PasvCommand(o);
      case PORT => status := PortCommand(args, o);
      case HELP => status := InformationalCommand(214);
      case NOOP => status := InformationalCommand(200);
      case RETR => status, launch := RetrCommand(args, o);
      case STOR => status, launch := StorCommand(args, o);
      case LIST => status, launch, defined := ListCommand(args, o);
      case TYPE => status := TypeCommand(args);
    }
  }

  /** `get_command_handler`: the name is raised to upper case in place, then the table is scanned. */
  method GetCommandHandler(name: string) returns (handler: Option<Verb>)
    requires NUL !in name
    ensures handler == Handler(name)
  {
    var upper := StrDup(name);
    ToUpperCase(upper, name);
    var text := upper[..upper.Length - 1];
    assert text == ToUpper(name);
    var i := 0;
    while i < |HANDLERS|
      invariant 0 <= i <= |HANDLERS|
      invariant FindHandler(text, i) == Handler(name)
    {
      if HANDLERS[i].0 == text {
        return Some(HANDLERS[i].1);
      }
      i := i + 1;
    }
    handler := None;
  }
}
