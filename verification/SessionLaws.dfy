/** What every command keeps, and exactly when a directory change does what it should. */
module SessionLaws {
  import opened LibC
  import opened Utils
  import opened CommandParser
  import opened FileTree
  import opened HostPort
  import opened Commands

  // ---------------------------------------------------------------- replies

  /** The server's own answers are final, and 221 is QUIT's alone. */
  lemma AnswersAreFinal(site: Site, s: Session, w: World, parse: Parse, o: Outcome)
    ensures var r := Execute(site, s, w, parse, o);
      r.Done? && r.response.Answer? ==>
        && 200 <= r.response.code < 600
        && (r.response.code == 221 <==> r.status == Quit)
    ensures var r := Execute(site, s, w, parse, o);
      r.Done? && r.status == Quit ==> r.response.Answer? && r.session == s && r.world == w
  {
    hide Handler;
    hide Handle;
    if parse.Parsed? && Handler(parse.name).Some? {
      HandlersAnswer(site, s, w, Handler(parse.name).value, parse.args, o);
    }
  }

  lemma HandlersAnswer(site: Site, s: Session, w: World, verb: Verb, args: seq<string>, o: Outcome)
    ensures var r := Handle(site, s, w, verb, args, o);
      r.Done? && r.response.Answer? ==>
        && 200 <= r.response.code < 600
        && (r.response.code == 221 <==> r.status == Quit)
    ensures var r := Handle(site, s, w, verb, args, o);
      r.Done? && r.status == Quit ==> r.response.Answer? && r.session == s && r.world == w
  {
    hide Go;
    hide Lookup;
    hide ChDir;
    hide GetCwd;
    hide ServerPath;
    hide HostPortOf;
    hide ToUpper;
    hide Anonymous;
  }

  // ---------------------------------------------------------------- login and mode

  /** The part of a session its own command lines decide. */
  datatype Auth = Auth(loggedIn: bool, user: Option<string>, mode: TransferMode)

  function AuthOf(s: Session): Auth {
    Auth(s.loggedIn, s.user, s.transferMode)
  }

  const FRESH := Auth(false, None, Binary)

  predicate Says(parse: Parse, verb: Verb) {
    parse.Parsed? && Handler(parse.name) == Some(verb)
  }

  function FirstArgument(parse: Parse): Option<string>
    requires parse.Parsed?
  {
    if parse.args == [] then None else Some(parse.args[0])
  }

  /** The same decision for a client that is alone. */
  function AuthStep(a: Auth, parse: Parse): Auth {
    if Says(parse, USER) && !a.loggedIn then a.(user := FirstArgument(parse))
    else if Says(parse, PASS) && !a.loggedIn && a.user.Some? then
      if Anonymous(a.user.value) && FirstArgument(parse) in {None, Some("")} then a.(loggedIn := true)
      else a.(user := None)
    else if Says(parse, TYPE) && a.loggedIn && |parse.args| == 1 then
      if SameMode(parse.args[0], "A") then a.(mode := Ascii)
      else if SameMode(parse.args[0], "I") then a.(mode := Binary)
      else a
    else a
  }

  predicate SameMode(arg: string, letter: string) {
    ToUpper(arg) == letter
  }

  /** Neither the process directory, nor the file system, nor the kernel's answers, nor the rest of
      the session has any say in login, user and transfer mode. */
  lemma AuthIsLocal(site: Site, s: Session, w: World, parse: Parse, o: Outcome)
    requires Execute(site, s, w, parse, o).Done?
    ensures AuthOf(Execute(site, s, w, parse, o).session) == AuthStep(AuthOf(s), parse)
  {
    hide Handler;
    hide Lookup;
    hide ChDir;
    hide Moved;
    hide GetCwd;
    hide ServerPath;
    hide HostPortOf;
    hide ToUpper;
    hide Anonymous;
    hide AddressWord;
    hide MergePort;
  }

  // ---------------------------------------------------------------- the data socket

  /** A command line with all that decides what becomes of the data socket: the kernel's answers, and
      whether what the command names was there for it. */
  datatype Mark = Mark(parse: Parse, outcome: Outcome, found: bool)

  /** RETR's file is there; LIST's directory can be entered and passes the prefix test. */
  function Found(site: Site, s: Session, w: World, parse: Parse): bool {
    if Says(parse, RETR) && parse.args != [] then
      var here := Go(site, w, s.workingDirectory);
      Lookup(here.tree, site.links, here.cwd, parse.args[0]).Some?
    else if Says(parse, LIST) && parse.args != [] then
      var here := Go(site, w, s.workingDirectory);
      var there := Go(site, here, parse.args[0]);
      && Lookup(w.tree, site.links, w.cwd, parse.args[0]).Some?
      && ChDir(here.tree, site.links, here.cwd, parse.args[0]).Some?
      && GetCwd(there).Some? && StartsWith(GetCwd(there).value, ServerPath(site))
    else true
  }

  /** The data socket of a client that is alone. */
  function SocketStep(loggedIn: bool, socket: Option<DataSocket>, m: Mark): Option<DataSocket> {
    if !loggedIn || !m.parse.Parsed? then socket
    else
      var args := m.parse.args;
      match Handler(m.parse.name)
      case Some(PASV) =>
        if m.outcome.passivePort.Some? then Some(Passive(m.outcome.passivePort.value)) else None
      case Some(PORT) =>
        if |args| != 1 || HostPortOf(args[0]).None? then socket
        else if !m.outcome.activeSocket then None
        else
          var h := HostPortOf(args[0]).value;
          Some(Active(h[..4], MergePort(h[4], h[5]), SockIn(h[..4], MergePort(h[4], h[5]))))
      case Some(RETR) => if |args| == 1 && m.found then None else socket
      case Some(STOR) => if |args| == 1 then None else socket
      case Some(LIST) => if m.found then None else socket
      case _ => socket
  }

  /** Given that label, nobody else has any say in the data socket either. */
  lemma SocketIsLocal(site: Site, s: Session, w: World, parse: Parse, o: Outcome)
    requires Execute(site, s, w, parse, o).Done?
    ensures Execute(site, s, w, parse, o).session.dataSocket ==
      SocketStep(s.loggedIn, s.dataSocket, Mark(parse, o, Found(site, s, w, parse)))
  {
    hide Handler;
    hide Lookup;
    hide ChDir;
    hide Moved;
    hide GetCwd;
    hide ServerPath;
    hide HostPortOf;
    hide ToUpper;
    hide Anonymous;
    hide AddressWord;
    hide MergePort;
  }

  /** Every transfer follows directly on a successful PASV or PORT, and a session holds a socket iff
      its last act was to get one. */
  ghost predicate SocketSound(s: Session) {
    && (forall i :: 0 <= i < |s.acts| && s.acts[i] == Used ==> i > 0 && s.acts[i - 1] == Granted)
    && (s.dataSocket.Some? <==> s.acts != [] && s.acts[|s.acts| - 1] == Granted)
  }

  lemma SocketSoundKept(site: Site, s: Session, w: World, parse: Parse, o: Outcome)
    requires SocketSound(s)
    requires Execute(site, s, w, parse, o).Done?
    ensures SocketSound(Execute(site, s, w, parse, o).session)
  {
    hide Execute;
    var t := Execute(site, s, w, parse, o).session;
    SocketChange(site, s, w, parse, o);
    if t.acts != s.acts {
      assert forall i :: 0 <= i < |s.acts| ==> t.acts[i] == s.acts[i];
    }
  }

  /** How a command may change the data socket: PASV and PORT grant one or, when setup fails, lose
      it; RETR, STOR and LIST use up the one they found, or refuse and keep it. */
  ghost predicate SocketMove(s: Session, t: Session, verb: Option<Verb>) {
    || (t.acts == s.acts && t.dataSocket == s.dataSocket)
    || (verb in {Some(PASV), Some(PORT)} && t.acts == s.acts + [Lost] && t.dataSocket.None?)
    || (verb in {Some(PASV), Some(PORT)} && t.acts == s.acts + [Granted] && t.dataSocket.Some?)
    || (&& verb in {Some(RETR), Some(STOR), Some(LIST)} && t.acts == s.acts + [Used]
        && s.dataSocket.Some? && t.dataSocket.None?)
  }

  function VerbOf(parse: Parse): Option<Verb> {
    if parse.Parsed? then Handler(parse.name) else None
  }

  lemma SocketChange(site: Site, s: Session, w: World, parse: Parse, o: Outcome)
    requires Execute(site, s, w, parse, o).Done?
    ensures SocketMove(s, Execute(site, s, w, parse, o).session, VerbOf(parse))
    ensures Execute(site, s, w, parse, o).response.Launch? ==>
      Execute(site, s, w, parse, o).session.acts == s.acts + [Used]
  {
    hide Handler;
    hide Handle;
    if VerbOf(parse).Some? {
      HandleSocketChange(site, s, w, VerbOf(parse).value, parse.args, o);
    }
  }

  lemma HandleSocketChange(site: Site, s: Session, w: World, verb: Verb, args: seq<string>, o: Outcome)
    requires Handle(site, s, w, verb, args, o).Done?
    ensures SocketMove(s, Handle(site, s, w, verb, args, o).session, Some(verb))
    ensures Handle(site, s, w, verb, args, o).response.Launch? ==>
      Handle(site, s, w, verb, args, o).session.acts == s.acts + [Used]
  {
    hide Lookup;
    hide ChDir;
    hide Moved;
    hide GetCwd;
    hide ServerPath;
    hide HostPortOf;
    hide ToUpper;
    hide Anonymous;
  }

  function Count(acts: seq<Act>, act: Act): nat {
    if acts == [] then 0 else (if acts[|acts| - 1] == act then 1 else 0) + Count(acts[..|acts| - 1], act)
  }

  /** So transfers, plus one for a socket still held, never exceed the successful PASVs and PORTs. */
  lemma {:induction false} UsesCovered(acts: seq<Act>)
    requires forall i :: 0 <= i < |acts| && acts[i] == Used ==> i > 0 && acts[i - 1] == Granted
    ensures Count(acts, Used) + (if acts != [] && acts[|acts| - 1] == Granted then 1 else 0) <= Count(acts, Granted)
  {
    if acts == [] {
    } else {
      UsesCovered(acts[..|acts| - 1]);
    }
  }

  lemma TransfersCovered(s: Session)
    requires SocketSound(s)
    ensures Count(s.acts, Used) + (if s.dataSocket.Some? then 1 else 0) <= Count(s.acts, Granted)
  {
    UsesCovered(s.acts);
  }

  // ---------------------------------------------------------------- confinement

  /** The file system around the server: hanging together, and the served directory in it. */
  ghost predicate Proper(site: Site, tree: Tree) {
    WellFormed(tree, site.links) && site.root in tree.dirs
  }

  /** `d` passes the server's prefix test, and `chdir` to its printed path cannot lead elsewhere. */
  ghost predicate Inside(site: Site, d: Path) {
    Canonical(site.links, d) && Print(site.root) <= Print(d)
  }

  ghost predicate WorldConfined(site: Site, w: World) {
    Proper(site, w.tree) && Inside(site, w.cwd)
  }

  ghost predicate SessionConfined(site: Site, s: Session) {
    exists d :: Inside(site, d) && s.workingDirectory == Print(d)
  }

  lemma RootInside(site: Site, tree: Tree)
    requires Proper(site, tree)
    ensures Inside(site, site.root)
  {
    DirIsCanonical(tree, site.links, site.root);
  }

  lemma GoHome(site: Site, w: World)
    requires Proper(site, w.tree)
    ensures Go(site, w, ServerPath(site)) == w.(cwd := site.root)
  {
    DirIsCanonical(w.tree, site.links, site.root);
    ChDirBack(w.tree, site.links, w.cwd, site.root);
  }

  lemma GoBack(site: Site, w: World, d: Path)
    requires WorldConfined(site, w) && Inside(site, d)
    ensures Go(site, w, Print(d)) == w.(cwd := if d in w.tree.dirs then d else w.cwd)
    ensures WorldConfined(site, Go(site, w, Print(d)))
  {
    ChDirBack(w.tree, site.links, w.cwd, d);
  }

  /** Every command keeps both the session's directory and the process directory inside, even the
      ones that leave the process where it was not before. */
  lemma ConfinementKept(site: Site, s: Session, w: World, parse: Parse, o: Outcome)
    requires WorldConfined(site, w) && SessionConfined(site, s)
    requires Execute(site, s, w, parse, o).Done?
    ensures WorldConfined(site, Execute(site, s, w, parse, o).world)
    ensures SessionConfined(site, Execute(site, s, w, parse, o).session)
  {
    hide Handler;
    if parse.Parsed? && Handler(parse.name).Some? {
      hide Handle;
      HandleConfined(site, s, w, Handler(parse.name).value, parse.args, o);
    }
  }

  lemma HandleConfined(site: Site, s: Session, w: World, verb: Verb, args: seq<string>, o: Outcome)
    requires WorldConfined(site, w) && SessionConfined(site, s)
    requires Handle(site, s, w, verb, args, o).Done?
    ensures WorldConfined(site, Handle(site, s, w, verb, args, o).world)
    ensures SessionConfined(site, Handle(site, s, w, verb, args, o).session)
  {
    hide ChangeDirectory;
    hide Retrieving;
    hide Listing;
    hide HostPortOf;
    hide ToUpper;
    hide Moved;
    hide Inside;
    hide Proper;
    match verb
    case CWD => if s.loggedIn && |args| == 1 { ChangeConfined(site, s, w, args[0]); }
    case CDUP => if s.loggedIn { ChangeConfined(site, s, w, ".."); }
    case DELE => DeleteConfined(site, s, w, args, o);
    case RETR => RetrievingConfined(site, s, w, args, o);
    case LIST => ListingConfined(site, s, w, args, o);
    case _ =>
  }

  lemma WayBackConfined(site: Site, s: Session, w: World)
    requires WorldConfined(site, w) && SessionConfined(site, s)
    ensures WorldConfined(site, Go(site, w, s.workingDirectory))
  {
    var d :| Inside(site, d) && s.workingDirectory == Print(d);
    GoBack(site, w, d);
  }

  /** What DELE removes is not the served directory, and no directory that still has something in it. */
  lemma RemovalProper(site: Site, w: World, path: string, o: Outcome)
    requires Proper(site, w.tree) && Removal(site, w, path, o).Some?
    ensures Proper(site, Removal(site, w, path, o).value)
  {
    RemovalKeeps(w.tree, site.links, w.cwd, path);
    hide EntryNamed;
    hide Vacant;
  }

  /** No command makes the file system improper: only DELE changes the tree. */
  lemma ProperStays(site: Site, s: Session, w: World, parse: Parse, o: Outcome)
    requires Proper(site, w.tree) && Execute(site, s, w, parse, o).Done?
    ensures Proper(site, Execute(site, s, w, parse, o).world.tree)
  {
    hide Handler;
    hide Handle;
    hide Proper;
    if VerbOf(parse).Some? {
      HandleProper(site, s, w, VerbOf(parse).value, parse.args, o);
    }
  }

  lemma HandleProper(site: Site, s: Session, w: World, verb: Verb, args: seq<string>, o: Outcome)
    requires Proper(site, w.tree) && Handle(site, s, w, verb, args, o).Done?
    ensures Proper(site, Handle(site, s, w, verb, args, o).world.tree)
  {
    hide Proper;
    hide Removal;
    hide Lookup;
    hide ChDir;
    hide Moved;
    hide GetCwd;
    hide ServerPath;
    hide HostPortOf;
    hide ToUpper;
    hide Anonymous;
    if verb == DELE && |args| == 1 && Removal(site, Go(site, w, s.workingDirectory), args[0], o).Some? {
      RemovalProper(site, Go(site, w, s.workingDirectory), args[0], o);
    }
  }

  lemma DeleteConfined(site: Site, s: Session, w: World, args: seq<string>, o: Outcome)
    requires WorldConfined(site, w) && SessionConfined(site, s)
    ensures WorldConfined(site, Delete(site, s, w, args, o).world)
    ensures SessionConfined(site, Delete(site, s, w, args, o).session)
  {
    hide Removal;
    hide Proper;
    hide Inside;
    WayBackConfined(site, s, w);
    if |args| == 1 && Removal(site, Go(site, w, s.workingDirectory), args[0], o).Some? {
      RemovalProper(site, Go(site, w, s.workingDirectory), args[0], o);
    }
  }

  lemma HomeConfined(site: Site, w: World)
    requires Proper(site, w.tree)
    ensures WorldConfined(site, Go(site, w, ServerPath(site)))
  {
    GoHome(site, w);
    RootInside(site, w.tree);
  }

  lemma RetrievingConfined(site: Site, s: Session, w: World, args: seq<string>, o: Outcome)
    requires WorldConfined(site, w) && SessionConfined(site, s)
    ensures WorldConfined(site, Retrieving(site, s, w, args, o).world)
    ensures SessionConfined(site, Retrieving(site, s, w, args, o).session)
  {
    RetrievingMoves(site, s, w, args, o);
    hide Retrieving;
    HomeConfined(site, Go(site, w, s.workingDirectory));
  }

  lemma RetrievingMoves(site: Site, s: Session, w: World, args: seq<string>, o: Outcome)
    ensures var r := Retrieving(site, s, w, args, o);
      && r.world in {w, Go(site, Go(site, w, s.workingDirectory), ServerPath(site))}
      && r.session.workingDirectory == s.workingDirectory
  {
    hide Lookup;
    hide Moved;
    hide ServerPath;
  }

  lemma ListingConfined(site: Site, s: Session, w: World, args: seq<string>, o: Outcome)
    requires WorldConfined(site, w) && SessionConfined(site, s)
    requires Listing(site, s, w, args, o).Done?
    ensures WorldConfined(site, Listing(site, s, w, args, o).world)
    ensures SessionConfined(site, Listing(site, s, w, args, o).session)
  {
    ListingWorld(site, s, w, args, o);
    hide Listing;
    WayBackConfined(site, s, w);
    if args != [] {
      HomeConfined(site, Go(site, Go(site, w, s.workingDirectory), args[0]));
    }
  }

  lemma ChangeConfined(site: Site, s: Session, w: World, path: string)
    requires WorldConfined(site, w) && SessionConfined(site, s)
    requires ChangeDirectory(site, s, w, path).Done?
    ensures WorldConfined(site, ChangeDirectory(site, s, w, path).world)
    ensures SessionConfined(site, ChangeDirectory(site, s, w, path).session)
  {
    var r := ChangeDirectory(site, s, w, path);
    if r.status == Success {
      var there := Go(site, Go(site, w, s.workingDirectory), path);
      GoHome(site, there);
      RootInside(site, w.tree);
      DirIsCanonical(w.tree, site.links, there.cwd);
      assert Inside(site, site.root) && (Inside(site, there.cwd) || !StartsWith(Print(there.cwd), ServerPath(site)));
    }
  }

  // ---------------------------------------------------------------- CWD, as meant and as done

  /** The session's directory after a change to `target`: there, or the served directory when the target
      is outside. */
  function Landing(site: Site, target: Path): string {
    if Print(site.root) <= Print(target) then Print(target) else Print(site.root)
  }

  /** What CWD is for: the path is resolved from the session's own directory `d`; what is not there
      is refused, what is outside takes the session back to the served directory. */
  ghost predicate AsMeant(site: Site, s: Session, w: World, d: Path, path: string, r: Result) {
    && r.Done?
    && match ChDir(w.tree, site.links, d, path)
       case None => r.session == s && r.response == Answer(550)
       case Some(target) =>
         && r.response == Answer(250)
         && r.session == s.(workingDirectory := Landing(site, target))
  }

  /** The code looks for the target from the shared process directory, and enters it from the session's
      own, or from the process directory again when the session's is gone. */
  ghost predicate PlacesAgree(site: Site, w: World, d: Path, path: string) {
    var meant, seen := ChDir(w.tree, site.links, d, path), ChDir(w.tree, site.links, w.cwd, path);
    && (meant.Some? <==> seen.Some?)
    && (d !in w.tree.dirs && seen.Some? ==>
          seen.value in w.tree.dirs && Landing(site, meant.value) == Landing(site, seen.value))
  }

  /** CWD does what it is meant to do iff the two places agree on whether the target is a directory and,
      when the session's own directory is gone, also on where the session ends up, in a directory that
      is still there. */
  lemma CwdAsMeantExactly(site: Site, s: Session, w: World, d: Path, path: string)
    requires WorldConfined(site, w) && Inside(site, d)
    requires s.workingDirectory == Print(d)
    ensures AsMeant(site, s, w, d, path, ChangeDirectory(site, s, w, path)) <==> PlacesAgree(site, w, d, path)
  {
    if d in w.tree.dirs {
      CwdFromHome(site, s, w, d, path);
    } else {
      CwdFromNowhere(site, s, w, d, path);
    }
  }

  lemma CwdFromHome(site: Site, s: Session, w: World, d: Path, path: string)
    requires WorldConfined(site, w) && Inside(site, d)
    requires s.workingDirectory == Print(d) && d in w.tree.dirs
    ensures AsMeant(site, s, w, d, path, ChangeDirectory(site, s, w, path)) <==> PlacesAgree(site, w, d, path)
  {
    GoBack(site, w, d);
    MovedStays(w.tree, site.links, d, path);
    GoHome(site, Go(site, Go(site, w, s.workingDirectory), path));
    hide Lookup;
    hide Print;
    hide Inside;
    hide Proper;
  }

  lemma CwdFromNowhere(site: Site, s: Session, w: World, d: Path, path: string)
    requires WorldConfined(site, w) && Inside(site, d)
    requires s.workingDirectory == Print(d) && d !in w.tree.dirs
    ensures AsMeant(site, s, w, d, path, ChangeDirectory(site, s, w, path)) <==> PlacesAgree(site, w, d, path)
  {
    ChangeFromNowhere(site, s, w, d, path);
    hide ChangeDirectory;
    hide ChDir;
    hide Landing;
    hide Inside;
    hide Proper;
  }

  /** A directory change when the session's directory is gone. */
  lemma ChangeFromNowhere(site: Site, s: Session, w: World, d: Path, path: string)
    requires WorldConfined(site, w) && Inside(site, d)
    requires s.workingDirectory == Print(d) && d !in w.tree.dirs
    ensures ChangeDirectory(site, s, w, path) ==
      match ChDir(w.tree, site.links, w.cwd, path)
      case None => Refuse(s, w, 550)
      case Some(there) =>
        if there !in w.tree.dirs then Crash
        else Accept(s.(workingDirectory := Landing(site, there)), w.(cwd := site.root), 250)
  {
    GoBack(site, w, d);
    GoHome(site, Go(site, Go(site, w, s.workingDirectory), path));
    hide ChDir;
    hide Print;
    hide StartsWith;
    hide Inside;
    hide WellFormed;
  }

  /** A client in a subdirectory is refused an entry that is there, because the process stands in
      the served directory. */
  lemma CwdRefusesWhatIsThere() returns (site: Site, s: Session, w: World, d: Path)
    ensures WorldConfined(site, w) && Inside(site, d) && s.workingDirectory == Print(d) && s.loggedIn
    ensures w.cwd == site.root == ["srv"] && d == ["srv", "a"]
    ensures ChDir(w.tree, site.links, d, "b") == Some(["srv", "a", "b"])
    ensures ChangeDirectory(site, s, w, "b") == Refuse(s, w, 550)
  {
    var tree := Tree({[], ["srv"], ["srv", "a"], ["srv", "a", "b"]}, {});
    site, d := Site(["srv"], map[]), ["srv", "a"];
    s := NewSession(site).(loggedIn := true, workingDirectory := Print(d));
    w := World(["srv"], tree);
    SmallTree(tree);
    DirIsCanonical(tree, map[], d);
    DirIsCanonical(tree, map[], ["srv"]);
    PrefixTest(d, ["srv"]);
    NameReads(tree, site.links, d, "b");
    NameReads(tree, site.links, ["srv"], "b");
    hide ChDir;
    hide Canonical;
    hide WellFormed;
    hide Print;
    assert ["srv"] + ["b"] == ["srv", "b"] && d + ["b"] == ["srv", "a", "b"];
    assert ["srv", "b"] !in tree.dirs by {
      assert ["srv", "b"][1] == "b" && ["srv", "a"][1] == "a" && "a"[0] != "b"[0];
    }
  }

  /** Agreeing on whether the target is there is not enough when the session's directory was removed: a
      client in what was /srv/a/b asks for its parent, which is still there, and ends up in /srv. */
  lemma CwdMissesTheParent() returns (site: Site, s: Session, w: World, d: Path)
    ensures WorldConfined(site, w) && Inside(site, d) && s.workingDirectory == Print(d) && s.loggedIn
    ensures w.cwd == site.root == ["srv"] && d == ["srv", "a", "b"] && d !in w.tree.dirs
    ensures ChDir(w.tree, site.links, d, "..") == Some(["srv", "a"]) && ["srv", "a"] in w.tree.dirs
    ensures ChDir(w.tree, site.links, w.cwd, "..").Some?
    ensures var r := ChangeDirectory(site, s, w, "..");
      r.Done? && r.session.workingDirectory == Print(["srv"]) && !AsMeant(site, s, w, d, "..", r)
  {
    d := ["srv", "a", "b"];
    site := Site(["srv"], map[]);
    s := NewSession(site).(loggedIn := true, workingDirectory := Print(d));
    w := World(["srv"], Tree({[], ["srv"], ["srv", "a"]}, {}));
    WorldOfTheMissed(site, w, d);
    hide *;
    ParentMissed(site, s, w, d);
  }

  lemma WorldOfTheMissed(site: Site, w: World, d: Path)
    requires d == ["srv", "a", "b"] && site == Site(["srv"], map[])
    requires w == World(["srv"], Tree({[], ["srv"], ["srv", "a"]}, {}))
    ensures WorldConfined(site, w) && Inside(site, d) && d !in w.tree.dirs
    ensures ChDir(w.tree, site.links, d, "..") == Some(["srv", "a"])
    ensures ChDir(w.tree, site.links, w.cwd, "..") == Some([])
    ensures StartsWith(Print(["srv", "a"]), ServerPath(site)) && !StartsWith(Print([]), ServerPath(site))
  {
    hide Print;
    hide WellFormed;
    hide Lookup;
    MissedTree(w.tree);
    DirIsCanonical(w.tree, site.links, ["srv"]);
    assert Canonical(site.links, d);
    DotsRead(w.tree, site.links, d);
    DotsRead(w.tree, site.links, w.cwd);
    assert d[..2] == ["srv", "a"] && ["srv"][..0] == [];
    PrefixTest(d, ["srv"]);
    PrefixTest([], ["srv"]);
    PrefixTest(["srv", "a"], ["srv"]);
  }

  lemma MissedTree(tree: Tree)
    requires tree == Tree({[], ["srv"], ["srv", "a"]}, {})
    ensures WellFormed(tree, map[])
  {
    assert Parent(["srv"]) == [] && Parent(["srv", "a"]) == ["srv"];
  }

  lemma ParentMissed(site: Site, s: Session, w: World, d: Path)
    requires WorldConfined(site, w) && Inside(site, d) && s.workingDirectory == Print(d) && d !in w.tree.dirs
    requires site.root == ["srv"] == w.cwd && [] in w.tree.dirs
    requires ChDir(w.tree, site.links, d, "..") == Some(["srv", "a"])
    requires ChDir(w.tree, site.links, w.cwd, "..") == Some([])
    requires StartsWith(Print(["srv", "a"]), ServerPath(site)) && !StartsWith(Print([]), ServerPath(site))
    ensures var r := ChangeDirectory(site, s, w, "..");
      r.Done? && r.session.workingDirectory == Print(["srv"]) && !AsMeant(site, s, w, d, "..", r)
  {
    hide Print;
    GoBack(site, w, d);
    GoHome(site, Go(site, Go(site, w, s.workingDirectory), ".."));
    hide ChDir;
    hide Inside;
    hide Proper;
    assert Print(["srv", "a"]) != Print(["srv"]) by {
      if Print(["srv", "a"]) == Print(["srv"]) {
        PrintInjective(["srv", "a"], ["srv"]);
      }
    }
  }

  lemma SmallTree(tree: Tree)
    requires tree == Tree({[], ["srv"], ["srv", "a"], ["srv", "a", "b"]}, {})
    ensures WellFormed(tree, map[])
  {
    assert Parent(["srv", "a", "b"]) == ["srv", "a"] && Parent(["srv", "a"]) == ["srv"] && Parent(["srv"]) == [];
  }

  // ---------------------------------------------------------------- a null getcwd

  /** The path leads from the process directory to a directory that is gone. */
  predicate LeadsNowhere(site: Site, w: World, path: string) {
    var there := ChDir(w.tree, site.links, w.cwd, path);
    there.Some? && there.value !in w.tree.dirs
  }

  /** A directory change passes on a null path exactly when the session's directory `d` is gone and the
      path leads from where the process stands to another one that is gone. */
  lemma ChangeCrashesExactly(site: Site, s: Session, w: World, d: Path, path: string)
    requires WorldConfined(site, w) && Inside(site, d)
    requires s.workingDirectory == Print(d)
    ensures ChangeDirectory(site, s, w, path).Crash? <==> d !in w.tree.dirs && LeadsNowhere(site, w, path)
  {
    GoBack(site, w, d);
    var here := Go(site, w, s.workingDirectory);
    var there := Go(site, here, path);
    if here.cwd in w.tree.dirs {
      MovedStays(w.tree, site.links, here.cwd, path);
    }
    GoHome(site, there);
  }

  lemma ChDirFinds(tree: Tree, links: Links, cwd: Path, path: string)
    ensures ChDir(tree, links, cwd, path).Some? ==> Lookup(tree, links, cwd, path).Some?
  {
  }

  /** So does LIST when it gets as far as changing to its argument. */
  lemma ListingCrashesExactly(site: Site, s: Session, w: World, d: Path, args: seq<string>, o: Outcome)
    requires WorldConfined(site, w) && Inside(site, d)
    requires s.workingDirectory == Print(d)
    ensures Listing(site, s, w, args, o).Crash?
      <==> s.loggedIn && s.dataSocket.Some? && args != [] && d !in w.tree.dirs && LeadsNowhere(site, w, args[0])
  {
    GoBack(site, w, d);
    var here := Go(site, w, s.workingDirectory);
    if args != [] && here.cwd in w.tree.dirs {
      MovedStays(w.tree, site.links, here.cwd, args[0]);
    }
    hide Inside;
    hide Proper;
    hide Lookup;
    ChDirFinds(w.tree, site.links, w.cwd, if args == [] then "" else args[0]);
  }

  /** The directory a command changes to: CWD's argument, CDUP's parent, LIST's argument once a data
      socket is there. `None`: the command changes to no directory of the client's choice. */
  function Destination(s: Session, parse: Parse): Option<string> {
    if !s.loggedIn || !parse.Parsed? then None
    else
      match Handler(parse.name)
      case Some(CWD) => if |parse.args| == 1 then Some(parse.args[0]) else None
      case Some(CDUP) => Some("..")
      case Some(LIST) => if s.dataSocket.Some? && parse.args != [] then Some(parse.args[0]) else None
      case _ => None
  }

  /** Exactly when a command's behaviour is undefined: it was parsed from text with adjacent spaces, or
      it changes directory while the session's own is gone, to another one that is gone. */
  lemma CrashesExactly(site: Site, s: Session, w: World, d: Path, parse: Parse, o: Outcome)
    requires WorldConfined(site, w) && Inside(site, d)
    requires s.workingDirectory == Print(d)
    ensures Execute(site, s, w, parse, o).Crash? <==>
      || parse.Undefined?
      || (d !in w.tree.dirs && Destination(s, parse).Some? && LeadsNowhere(site, w, Destination(s, parse).value))
  {
    hide Handler;
    hide LeadsNowhere;
    hide WorldConfined;
    hide Inside;
    hide ChangeDirectory;
    hide Listing;
    if parse.Parsed? && Handler(parse.name).Some? {
      var verb, args := Handler(parse.name).value, parse.args;
      if verb == LIST {
        ListingCrashesExactly(site, s, w, d, args, o);
      } else if verb == CDUP {
        ChangeCrashesExactly(site, s, w, d, "..");
      } else if verb == CWD && |args| == 1 {
        ChangeCrashesExactly(site, s, w, d, args[0]);
      } else {
        OthersNeverCrash(site, s, w, verb, args, o);
      }
    }
  }

  lemma OthersNeverCrash(site: Site, s: Session, w: World, verb: Verb, args: seq<string>, o: Outcome)
    requires verb !in {CWD, CDUP, LIST} || (verb == CWD && |args| != 1)
    ensures Handle(site, s, w, verb, args, o).Done?
  {
    hide ChangeDirectory;
    hide Go;
    hide Lookup;
    hide Removal;
    hide HostPortOf;
    hide ToUpper;
    hide Anonymous;
  }

  /** A case that happens: two directories are removed, one in the other, while session and process
      stand in the inner one; then CDUP hands a null path to `strncmp`. */
  lemma CdupCrashes() returns (site: Site, s: Session, w: World)
    ensures Proper(site, w.tree) && WorldConfined(site, w) && SessionConfined(site, s) && s.loggedIn
    ensures w.cwd == ["srv", "a", "b"] && s.workingDirectory == Print(w.cwd)
    ensures ["srv", "a"] !in w.tree.dirs
    ensures ChangeUp(site, s, w).Crash?
  {
    var d := ["srv", "a", "b"];
    site := Site(["srv"], map[]);
    s := NewSession(site).(loggedIn := true, workingDirectory := Print(d));
    w := World(d, Tree({[], ["srv"]}, {}));
    assert Parent(["srv"]) == [] && Parent(d) == ["srv", "a"];
    assert Canonical(site.links, d);
    PrefixTest(d, ["srv"]);
    assert Inside(site, d);
    assert ["srv", "a"] !in w.tree.dirs;
    DotsRead(w.tree, site.links, d);
    hide Print;
    hide ChDir;
    ChangeCrashesExactly(site, s, w, d, "..");
  }

  // ---------------------------------------------------------------- where uploads land

  /** Where a command of a session in `d` leaves the process: directory changes, RETR and LIST end in
      the served directory once they have got far enough, DELE and a LIST that cannot enter its
      argument in `d`, everything else where the process was. */
  function Standing(site: Site, s: Session, w: World, d: Path, parse: Parse): Path {
    if s.loggedIn && VerbOf(parse).Some? then StandingAfter(site, s, w, d, VerbOf(parse).value, parse.args) else w.cwd
  }

  function StandingAfter(site: Site, s: Session, w: World, d: Path, verb: Verb, args: seq<string>): Path {
    match verb
    case CWD => if |args| == 1 then AfterChange(site, w, args[0]) else w.cwd
    case CDUP => AfterChange(site, w, "..")
    case DELE => if |args| == 1 then AtHome(w, d) else w.cwd
    case RETR => if s.dataSocket.Some? && |args| == 1 then site.root else w.cwd
    case LIST => if s.dataSocket.Some? then AfterListing(site, w, d, args) else w.cwd
    case _ => w.cwd
  }

  /** The session's directory, unless it is gone. */
  function AtHome(w: World, d: Path): Path {
    if d in w.tree.dirs then d else w.cwd
  }

  function AfterChange(site: Site, w: World, path: string): Path {
    if ChDir(w.tree, site.links, w.cwd, path).Some? then site.root else w.cwd
  }

  function AfterListing(site: Site, w: World, d: Path, args: seq<string>): Path {
    if args == [] || Lookup(w.tree, site.links, w.cwd, args[0]).None? then w.cwd
    else if ChDir(w.tree, site.links, AtHome(w, d), args[0]).None? then AtHome(w, d)
    else site.root
  }

  lemma StandsExactly(site: Site, s: Session, w: World, d: Path, parse: Parse, o: Outcome)
    requires WorldConfined(site, w) && Inside(site, d) && s.workingDirectory == Print(d)
    requires Execute(site, s, w, parse, o).Done?
    ensures Execute(site, s, w, parse, o).world.cwd == Standing(site, s, w, d, parse)
  {
    hide Handler;
    hide Handle;
    hide StandingAfter;
    if VerbOf(parse).Some? {
      HandleStands(site, s, w, d, VerbOf(parse).value, parse.args, o);
    }
  }

  lemma HandleStands(site: Site, s: Session, w: World, d: Path, verb: Verb, args: seq<string>, o: Outcome)
    requires WorldConfined(site, w) && Inside(site, d) && s.workingDirectory == Print(d)
    requires Handle(site, s, w, verb, args, o).Done?
    ensures Handle(site, s, w, verb, args, o).world.cwd ==
      if s.loggedIn then StandingAfter(site, s, w, d, verb, args) else w.cwd
  {
    hide AtHome;
    hide AfterChange;
    hide AfterListing;
    hide ChangeDirectory;
    hide ChangeDir;
    hide Delete;
    hide Retrieving;
    hide Listing;
    hide User;
    hide Pass;
    hide OpenPassive;
    hide OpenActive;
    hide Storing;
    hide ChangeType;
    hide Informational;
    hide Inside;
    hide Proper;
    match verb
    case CWD => ChangeDirStands(site, s, w, args);
    case CDUP => if s.loggedIn { ChangeStands(site, s, w, ".."); }
    case DELE => DeleteStands(site, s, w, d, args, o);
    case RETR => RetrievingStands(site, s, w, d, args, o);
    case LIST => ListingStands(site, s, w, d, args, o);
    case _ => OthersStay(site, s, w, verb, args, o);
  }

  lemma ChangeDirStands(site: Site, s: Session, w: World, args: seq<string>)
    requires WorldConfined(site, w) && ChangeDir(site, s, w, args).Done?
    ensures ChangeDir(site, s, w, args).world.cwd ==
      if s.loggedIn && |args| == 1 then AfterChange(site, w, args[0]) else w.cwd
  {
    if s.loggedIn && |args| == 1 {
      ChangeStands(site, s, w, args[0]);
    }
    hide ChangeDirectory;
    hide AfterChange;
  }

  /** The commands that never touch the process directory. */
  lemma OthersStay(site: Site, s: Session, w: World, verb: Verb, args: seq<string>, o: Outcome)
    requires verb !in {CWD, CDUP, DELE, RETR, LIST}
    ensures Handle(site, s, w, verb, args, o).Done? && Handle(site, s, w, verb, args, o).world == w
  {
    hide HostPortOf;
    hide ToUpper;
    hide Anonymous;
  }

  lemma DeleteStands(site: Site, s: Session, w: World, d: Path, args: seq<string>, o: Outcome)
    requires WorldConfined(site, w) && Inside(site, d) && s.workingDirectory == Print(d)
    ensures Delete(site, s, w, args, o).world.cwd == if s.loggedIn && |args| == 1 then AtHome(w, d) else w.cwd
  {
    GoBack(site, w, d);
    hide Go;
    hide Removal;
    hide Inside;
    hide Proper;
  }

  lemma RetrievingStands(site: Site, s: Session, w: World, d: Path, args: seq<string>, o: Outcome)
    requires WorldConfined(site, w) && Inside(site, d) && s.workingDirectory == Print(d)
    ensures Retrieving(site, s, w, args, o).world.cwd ==
      if s.loggedIn && s.dataSocket.Some? && |args| == 1 then site.root else w.cwd
  {
    GoBack(site, w, d);
    GoHome(site, Go(site, w, s.workingDirectory));
    hide Go;
    hide Lookup;
    hide Inside;
    hide Proper;
  }

  lemma ListingStands(site: Site, s: Session, w: World, d: Path, args: seq<string>, o: Outcome)
    requires WorldConfined(site, w) && Inside(site, d) && s.workingDirectory == Print(d)
    requires Listing(site, s, w, args, o).Done?
    ensures Listing(site, s, w, args, o).world.cwd ==
      if s.loggedIn && s.dataSocket.Some? then AfterListing(site, w, d, args) else w.cwd
  {
    ListingWorld(site, s, w, args, o);
    GoBack(site, w, d);
    hide Listing;
    hide Lookup;
    hide ChDir;
    hide ServerPath;
    hide Inside;
    if args != [] {
      var here := Go(site, w, s.workingDirectory);
      GoKeepsTree(site, here, args[0]);
      GoHome(site, Go(site, here, args[0]));
      hide Go;
      hide Proper;
    }
  }

  lemma ListingWorld(site: Site, s: Session, w: World, args: seq<string>, o: Outcome)
    requires Listing(site, s, w, args, o).Done?
    ensures var here := Go(site, w, s.workingDirectory);
      Listing(site, s, w, args, o).world ==
        if !s.loggedIn || s.dataSocket.None? || args == [] || Lookup(w.tree, site.links, w.cwd, args[0]).None? then w
        else if ChDir(here.tree, site.links, here.cwd, args[0]).None? then here
        else Go(site, Go(site, here, args[0]), ServerPath(site))
    ensures Listing(site, s, w, args, o).session.workingDirectory == s.workingDirectory
  {
    hide Go;
    hide Lookup;
    hide ChDir;
    hide GetCwd;
    hide ServerPath;
    hide StartsWith;
  }

  lemma ChangeStands(site: Site, s: Session, w: World, path: string)
    requires Proper(site, w.tree) && ChangeDirectory(site, s, w, path).Done?
    ensures ChangeDirectory(site, s, w, path).world.cwd == AfterChange(site, w, path)
  {
    GoHome(site, Go(site, Go(site, w, s.workingDirectory), path));
    hide Moved;
    hide ChDir;
    hide GetCwd;
  }

  lemma GoKeepsTree(site: Site, w: World, path: string)
    ensures Go(site, w, path).tree == w.tree
  {
  }

  /** STOR opens its file in the process directory. So after a command of one session, an upload of
      another one, or of the same, lands where that command left the process, and in the uploading
      session's own directory `e` iff the two are the same place. */
  lemma UploadLandsExactly(site: Site, s: Session, w: World, d: Path, parse: Parse, o: Outcome,
                           other: Session, e: Path, name: string, p: Outcome)
    requires WorldConfined(site, w) && Inside(site, d) && s.workingDirectory == Print(d)
    requires Execute(site, s, w, parse, o).Done?
    requires Inside(site, e) && other.workingDirectory == Print(e) && other.loggedIn && other.dataSocket.Some?
    requires p.connected && p.forked
    ensures var stands := Standing(site, s, w, d, parse);
      var stored := Storing(other, Execute(site, s, w, parse, o).world, [name], p);
      && stored.Done? && stored.response == Launch(Store(name), stands)
      && (Print(stands) == other.workingDirectory <==> stands == e)
  {
    assert SessionConfined(site, s);
    hide *;
    StandsExactly(site, s, w, d, parse, o);
    ConfinementKept(site, s, w, parse, o);
    StoreLands(site, Execute(site, s, w, parse, o).world, other, e, name, p);
  }

  lemma StoreLands(site: Site, w: World, s: Session, d: Path, name: string, o: Outcome)
    requires WorldConfined(site, w) && s.loggedIn && s.dataSocket.Some? && o.connected && o.forked
    requires Inside(site, d) && s.workingDirectory == Print(d)
    ensures var stored := Storing(s, w, [name], o);
      stored.Done? && stored.response == Launch(Store(name), w.cwd)
    ensures Print(w.cwd) == s.workingDirectory <==> w.cwd == d
  {
    if Print(w.cwd) == Print(d) {
      PrintInjective(w.cwd, d);
    }
  }

  /** Right after a successful directory change that place is the served directory. */
  lemma UploadAfterCwd(site: Site, s: Session, w: World, path: string, name: string, o: Outcome)
    requires WorldConfined(site, w) && SessionConfined(site, s) && s.loggedIn && s.dataSocket.Some?
    requires var r := ChangeDirectory(site, s, w, path); r.Done? && r.status == Success
    requires o.connected && o.forked
    ensures var r := ChangeDirectory(site, s, w, path);
      var stored := Storing(r.session, r.world, [name], o);
      stored.Done? && stored.response == Launch(Store(name), site.root)
  {
    GoHome(site, Go(site, Go(site, w, s.workingDirectory), path));
  }
}
