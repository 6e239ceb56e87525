/** What one command does to its session and to the process: the specification the handlers of
    the files of src/commands, src/command_executor.c and src/data_socket_executor.c are proved against.
    Replies are reduced to their codes. */
module Commands {
  import opened LibC
  import opened Utils
  import opened CommandParser
  import opened FileTree
  import opened HostPort

  datatype DataSocket =
    | Passive(port: int)
    | Active(address: seq<int>, port: int, endpoint: Endpoint)

  datatype TransferMode = Binary | Ascii

  /** What happens to data sockets: one is set up, one is lost to a failed setup, one is handed to a
      transfer. */
  datatype Act = Granted | Lost | Used

  /** `connection_t`, without its descriptors. `acts` is bookkeeping the C structure does not have. */
  datatype Session = Session(
    loggedIn: bool,
    user: Option<string>,
    workingDirectory: string,
    dataSocket: Option<DataSocket>,
    transferMode: TransferMode,
    acts: seq<Act>)

  /** What all sessions share: the process directory, and the file system. */
  datatype World = World(cwd: Path, tree: Tree)

  /** The served directory, and the symbolic links, which never change. */
  datatype Site = Site(root: Path, links: Links)

  /** What the kernel answers during one command. */
  datatype Outcome = Outcome(
    passivePort: Option<int>,   // setup_passive_data_socket
    activeSocket: bool,         // socket() in init_active_data_socket
    connected: bool,            // accept() or connect() on the data socket
    forked: bool,               // fork()
    mayRemove: bool)            // remove(): the permissions allow it

  datatype Status = Success | Failure | NotFound | Quit

  /** The work a child is forked for. */
  datatype Job = Retrieve | Store(file: string) | ListDirectory

  /** Every command line is answered by the server itself, or by a child that starts in `cwd`. */
  datatype Response = Answer(code: int) | Launch(job: Job, cwd: Path)

  /** `Crash`: the command dereferences a null `getcwd` result, or was parsed from garbage. */
  datatype Result =
    | Crash
    | Done(session: Session, world: World, status: Status, response: Response)

  // ---------------------------------------------------------------- dispatch

  datatype Verb = USER | PASS | CWD | CDUP | QUIT | DELE | PWD | PASV | PORT | HELP | NOOP | RETR | STOR | LIST | TYPE

  const HANDLERS: seq<(string, Verb)> := [
    ("USER", USER), ("PASS", PASS), ("CWD", CWD), ("CDUP", CDUP), ("QUIT", QUIT), ("DELE", DELE),
    ("PWD", PWD), ("PASV", PASV), ("PORT", PORT), ("HELP", HELP), ("NOOP", NOOP), ("RETR", RETR),
    ("STOR", STOR), ("LIST", LIST), ("TYPE", TYPE)]

  /** The first entry at or after `i` whose name is `name`. */
  function FindHandler(name: string, i: nat): Option<Verb>
    requires i <= |HANDLERS|
    decreases |HANDLERS| - i
  {
    if i == |HANDLERS| then None
    else if HANDLERS[i].0 == name then Some(HANDLERS[i].1)
    else FindHandler(name, i + 1)
  }

  function Handler(name: string): Option<Verb> {
    FindHandler(ToUpper(name), 0)
  }

  lemma {:induction false} FindHandlerExact(name: string, i: nat)
    requires i <= |HANDLERS|
    ensures FindHandler(name, i).None? <==> forall k :: i <= k < |HANDLERS| ==> HANDLERS[k].0 != name
    ensures FindHandler(name, i).Some? ==>
      exists k :: i <= k < |HANDLERS| && HANDLERS[k] == (name, FindHandler(name, i).value)
    decreases |HANDLERS| - i
  {
    if i < |HANDLERS| {
      FindHandlerExact(name, i + 1);
      if HANDLERS[i].0 == name {
        assert HANDLERS[i] == (name, HANDLERS[i].1);
      }
    }
  }

  /** Dispatch finds the one table entry that is the given name up to the case of letters. */
  lemma DispatchExact(name: string, k: nat)
    requires k < |HANDLERS|
    ensures Handler(name) == Some(HANDLERS[k].1) <==> SameLetters(name, HANDLERS[k].0)
    ensures Handler(name).None? <==> forall i :: 0 <= i < |HANDLERS| ==> !SameLetters(name, HANDLERS[i].0)
  {
    forall i | 0 <= i < |HANDLERS|
      ensures SameLetters(name, HANDLERS[i].0) <==> ToUpper(name) == HANDLERS[i].0
    {
      UpperIsCaseless(name, HANDLERS[i].0);
      assert ToUpper(HANDLERS[i].0) == HANDLERS[i].0;
    }
    FindHandlerExact(ToUpper(name), 0);
    TableDistinct();
  }

  lemma TableDistinct()
    ensures forall i, j :: 0 <= i < j < |HANDLERS| ==>
      HANDLERS[i].0 != HANDLERS[j].0 && HANDLERS[i].1 != HANDLERS[j].1
  {
    assert forall i :: 0 <= i < |HANDLERS| ==> HANDLERS[i].1 == VerbAt(i);
    forall i, j | 0 <= i < j < |HANDLERS|
      ensures HANDLERS[i].0 != HANDLERS[j].0
    {
      assert |HANDLERS[i].0| == |HANDLERS[j].0| ==>
        exists k :: 0 <= k < |HANDLERS[i].0| && HANDLERS[i].0[k] != HANDLERS[j].0[k] by {
        var a, b := HANDLERS[i].0, HANDLERS[j].0;
        assert |a| == |b| ==> a[0] != b[0] || a[1] != b[1] || a[2] != b[2] || (|a| == 4 && a[3] != b[3]);
      }
    }
  }

  function VerbAt(i: int): Verb {
    if i == 0 then USER else if i == 1 then PASS else if i == 2 then CWD else if i == 3 then CDUP
    else if i == 4 then QUIT else if i == 5 then DELE else if i == 6 then PWD else if i == 7 then PASV
    else if i == 8 then PORT else if i == 9 then HELP else if i == 10 then NOOP else if i == 11 then RETR
    else if i == 12 then STOR else if i == 13 then LIST else TYPE
  }

  // ---------------------------------------------------------------- handlers

  function Refuse(s: Session, w: World, code: int): Result {
    Done(s, w, Failure, Answer(code))
  }

  function Accept(s: Session, w: World, code: int): Result {
    Done(s, w, Success, Answer(code))
  }

  /** An ignored `chdir` of the process. */
  function Go(site: Site, w: World, path: string): World {
    w.(cwd := Moved(w.tree, site.links, w.cwd, path))
  }

  function GetCwd(w: World): Option<string> {
    if w.cwd in w.tree.dirs then Some(Print(w.cwd)) else None
  }

  function ServerPath(site: Site): string {
    Print(site.root)
  }

  function User(s: Session, w: World, args: seq<string>): Result {
    if s.loggedIn then Refuse(s, w, 530)
    else Accept(s.(user := if args == [] then None else Some(args[0])), w, 331)
  }

  predicate Anonymous(user: string) {
    user == "Anonymous" || user == "anonymous"
  }

  function Pass(s: Session, w: World, args: seq<string>): Result {
    if s.loggedIn then Refuse(s, w, 230)
    else if s.user.None? then Refuse(s, w, 503)
    else if Anonymous(s.user.value) && (args == [] || args[0] == "") then Accept(s.(loggedIn := true), w, 230)
    else Refuse(s.(user := None), w, 530)
  }

  /** `change_dir` of CWD and CDUP. The target must be a directory as seen from the process
      directory; it is entered from the session's own. */
  function ChangeDirectory(site: Site, s: Session, w: World, path: string): Result {
    if ChDir(w.tree, site.links, w.cwd, path).None? then Refuse(s, w, 550)
    else
      var there := Go(site, Go(site, w, s.workingDirectory), path);
      var home := Go(site, there, ServerPath(site));
      var entered := GetCwd(there);
      if entered.None? then Crash
      else if StartsWith(entered.value, ServerPath(site)) then
        Accept(s.(workingDirectory := entered.value), home, 250)
      else if GetCwd(home).None? then Crash
      else Accept(s.(workingDirectory := GetCwd(home).value), home, 250)
  }

  function ChangeDir(site: Site, s: Session, w: World, args: seq<string>): Result {
    if !s.loggedIn then Refuse(s, w, 530)
    else if |args| != 1 then Refuse(s, w, 550)
    else ChangeDirectory(site, s, w, args[0])
  }

  function ChangeUp(site: Site, s: Session, w: World): Result {
    if !s.loggedIn then Refuse(s, w, 530) else ChangeDirectory(site, s, w, "..")
  }

  /** The tree `remove` leaves, if it succeeds. That the served directory itself stays is assumed. */
  function Removal(site: Site, w: World, path: string, o: Outcome): Option<Tree> {
    match EntryNamed(w.tree, site.links, w.cwd, path)
    case None => None
    case Some(p) =>
      if o.mayRemove && p != site.root && Removable(w.tree, site.links, p) then Some(Without(w.tree, p)) else None
  }

  /** The process is left in the session's directory. */
  function Delete(site: Site, s: Session, w: World, args: seq<string>, o: Outcome): Result {
    if !s.loggedIn then Refuse(s, w, 530)
    else if |args| != 1 then Refuse(s, w, 550)
    else
      var here := Go(site, w, s.workingDirectory);
      match Removal(site, here, args[0], o)
      case None => Refuse(s, here, 550)
      case Some(tree) => Accept(s, here.(tree := tree), 250)
  }

  /** A failed setup clears the socket the session may have had. */
  function OpenPassive(s: Session, w: World, o: Outcome): Result {
    if !s.loggedIn then Refuse(s, w, 530)
    else
      match o.passivePort
      case None => Refuse(s.(dataSocket := None, acts := s.acts + [Lost]), w, 451)
      case Some(port) => Accept(s.(dataSocket := Some(Passive(port)), acts := s.acts + [Granted]), w, 227)
  }

  function OpenActive(s: Session, w: World, args: seq<string>, o: Outcome): Result {
    if !s.loggedIn then Refuse(s, w, 530)
    else if |args| != 1 then Refuse(s, w, 500)
    else
      match HostPortOf(args[0])
      case None => Refuse(s, w, 500)
      case Some(h) =>
        if !o.activeSocket then Refuse(s.(dataSocket := None, acts := s.acts + [Lost]), w, 451)
        else
          var port := MergePort(h[4], h[5]);
          var socket := Active(h[..4], port, SockIn(h[..4], port));
          Accept(s.(dataSocket := Some(socket), acts := s.acts + [Granted]), w, 200)
  }

  /** `execute_data_socket_command`: the socket is gone afterwards, whatever happened. */
  function Transfer(s: Session, w: World, job: Job, o: Outcome): Result {
    var after := s.(dataSocket := None, acts := s.acts + [Used]);
    if !o.connected then Refuse(after, w, 425)
    else if !o.forked then Accept(after, w, 451)
    else Done(after, w, Success, Launch(job, w.cwd))
  }

  function Retrieving(site: Site, s: Session, w: World, args: seq<string>, o: Outcome): Result {
    if !s.loggedIn then Refuse(s, w, 530)
    else if s.dataSocket.None? then Refuse(s, w, 425)
    else if |args| != 1 then Refuse(s, w, 550)
    else
      var here := Go(site, w, s.workingDirectory);
      var home := Go(site, here, ServerPath(site));
      if Lookup(here.tree, site.links, here.cwd, args[0]).Some? then Transfer(s, home, Retrieve, o)
      else if Lookup(home.tree, site.links, home.cwd, args[0]).None? then Refuse(s, home, 550)
      else Refuse(s, home, 451)
  }

  function Storing(s: Session, w: World, args: seq<string>, o: Outcome): Result {
    if !s.loggedIn then Refuse(s, w, 530)
    else if s.dataSocket.None? then Refuse(s, w, 425)
    else if |args| != 1 then Refuse(s, w, 550)
    else Transfer(s, w, Store(args[0]), o)
  }

  /** `check_directory_access` leaves the process in the session's directory when the target
      cannot be entered. */
  function Listing(site: Site, s: Session, w: World, args: seq<string>, o: Outcome): Result {
    if !s.loggedIn then Refuse(s, w, 530)
    else if s.dataSocket.None? then Refuse(s, w, 425)
    else if args == [] then Transfer(s, w, ListDirectory, o)
    else if Lookup(w.tree, site.links, w.cwd, args[0]).None? then Refuse(s, w, 550)
    else
      var here := Go(site, w, s.workingDirectory);
      if ChDir(here.tree, site.links, here.cwd, args[0]).None? then Refuse(s, here, 550)
      else
        var there := Go(site, here, args[0]);
        var home := Go(site, there, ServerPath(site));
        if GetCwd(there).None? then Crash
        else if !StartsWith(GetCwd(there).value, ServerPath(site)) then Refuse(s, home, 550)
        else Transfer(s, home, ListDirectory, o)
  }

  function ChangeType(s: Session, w: World, args: seq<string>): Result {
    if !s.loggedIn then Refuse(s, w, 530)
    else if |args| != 1 then Refuse(s, w, 500)
    else if ToUpper(args[0]) == "A" then Accept(s.(transferMode := Ascii), w, 200)
    else if ToUpper(args[0]) == "I" then Accept(s.(transferMode := Binary), w, 200)
    else Refuse(s, w, 500)
  }

  /** PWD, HELP, NOOP. */
  function Informational(s: Session, w: World, code: int): Result {
    if !s.loggedIn then Refuse(s, w, 530) else Accept(s, w, code)
  }

  function NotFoundMessage(s: Session, w: World): Result {
    Done(s, w, NotFound, Answer(if s.loggedIn then 500 else 530))
  }

  function Handle(site: Site, s: Session, w: World, verb: Verb, args: seq<string>, o: Outcome): Result {
    match verb
    case USER => User(s, w, args)
    case PASS => Pass(s, w, args)
    case CWD => ChangeDir(site, s, w, args)
    case CDUP => ChangeUp(site, s, w)
    case QUIT => Done(s, w, Quit, Answer(221))
    case DELE => Delete(site, s, w, args, o)
    case PWD => Informational(s, w, 257)
    case PASV => OpenPassive(s, w, o)
    case PORT => OpenActive(s, w, args, o)
    case HELP => Informational(s, w, 214)
    case NOOP => Informational(s, w, 200)
    case RETR => Retrieving(site, s, w, args, o)
    case STOR => Storing(s, w, args, o)
    case LIST => Listing(site, s, w, args, o)
    case TYPE => ChangeType(s, w, args)
  }

  function Execute(site: Site, s: Session, w: World, parse: Parse, o: Outcome): Result {
    match parse
    case Undefined => Crash
    case Blank => NotFoundMessage(s, w)
    case Parsed(name, args) =>
      match Handler(name)
      case None => NotFoundMessage(s, w)
      case Some(verb) => Handle(site, s, w, verb, args, o)
  }

  /** A fresh connection. */
  function NewSession(site: Site): Session {
    Session(false, None, ServerPath(site), None, Binary, [])
  }
}
