/** What each command does, command by command, in terms of its name as it was sent, its arguments, the
    files, and the reply: every line has exactly the effect stated here. RFC 959 section 4.1, as far as
    the handlers in src/commands follow it. */
module CommandLaws {
  import opened LibC
  import opened Utils
  import opened CommandParser
  import opened FileTree
  import opened HostPort
  import opened Commands
  import opened SessionLaws

  // ---------------------------------------------------------------- names

  /** The line's first word is `name`, in whatever case. */
  ghost predicate Named(parse: Parse, name: string) {
    parse.Parsed? && SameLetters(parse.name, name)
  }

  /** Fifteen names, and the handler each of them reaches. */
  lemma NamesReach(parse: Parse)
    ensures Says(parse, USER) <==> Named(parse, "USER")
    ensures Says(parse, PASS) <==> Named(parse, "PASS")
    ensures Says(parse, CWD) <==> Named(parse, "CWD")
    ensures Says(parse, CDUP) <==> Named(parse, "CDUP")
    ensures Says(parse, QUIT) <==> Named(parse, "QUIT")
    ensures Says(parse, DELE) <==> Named(parse, "DELE")
    ensures Says(parse, PWD) <==> Named(parse, "PWD")
    ensures Says(parse, PASV) <==> Named(parse, "PASV")
    ensures Says(parse, PORT) <==> Named(parse, "PORT")
    ensures Says(parse, HELP) <==> Named(parse, "HELP")
    ensures Says(parse, NOOP) <==> Named(parse, "NOOP")
    ensures Says(parse, RETR) <==> Named(parse, "RETR")
    ensures Says(parse, STOR) <==> Named(parse, "STOR")
    ensures Says(parse, LIST) <==> Named(parse, "LIST")
    ensures Says(parse, TYPE) <==> Named(parse, "TYPE")
  {
    hide Says;
    hide Named;
    NameReaches(parse, 0, "USER", USER);
    NameReaches(parse, 1, "PASS", PASS);
    NameReaches(parse, 2, "CWD", CWD);
    NameReaches(parse, 3, "CDUP", CDUP);
    NameReaches(parse, 4, "QUIT", QUIT);
    NameReaches(parse, 5, "DELE", DELE);
    NameReaches(parse, 6, "PWD", PWD);
    NameReaches(parse, 7, "PASV", PASV);
    NameReaches(parse, 8, "PORT", PORT);
    NameReaches(parse, 9, "HELP", HELP);
    NameReaches(parse, 10, "NOOP", NOOP);
    NameReaches(parse, 11, "RETR", RETR);
    NameReaches(parse, 12, "STOR", STOR);
    NameReaches(parse, 13, "LIST", LIST);
    NameReaches(parse, 14, "TYPE", TYPE);
  }

  lemma NameReaches(parse: Parse, k: nat, name: string, verb: Verb)
    requires k < |HANDLERS| && HANDLERS[k] == (name, verb)
    ensures Says(parse, verb) <==> Named(parse, name)
  {
    if parse.Parsed? {
      DispatchExact(parse.name, k);
    }
    hide Handler;
    hide SameLetters;
  }

  /** A line that is none of these. */
  ghost predicate Unknown(parse: Parse) {
    parse.Blank? || (parse.Parsed? && Handler(parse.name).None?)
  }

  /** A line is unknown when it has none of these names. */
  lemma UnknownIsNobody(parse: Parse)
    requires !parse.Undefined?
    ensures Unknown(parse) <==>
      !(|| Named(parse, "USER") || Named(parse, "PASS") || Named(parse, "CWD") || Named(parse, "CDUP")
        || Named(parse, "QUIT") || Named(parse, "DELE") || Named(parse, "PWD") || Named(parse, "PASV")
        || Named(parse, "PORT") || Named(parse, "HELP") || Named(parse, "NOOP") || Named(parse, "RETR")
        || Named(parse, "STOR") || Named(parse, "LIST") || Named(parse, "TYPE"))
  {
    NamesReach(parse);
    SomeVerb(parse);
    hide Says;
    hide Named;
    hide Unknown;
  }

  lemma SomeVerb(parse: Parse)
    requires !parse.Undefined?
    ensures Unknown(parse) <==>
      !(|| Says(parse, USER) || Says(parse, PASS) || Says(parse, CWD) || Says(parse, CDUP)
        || Says(parse, QUIT) || Says(parse, DELE) || Says(parse, PWD) || Says(parse, PASV)
        || Says(parse, PORT) || Says(parse, HELP) || Says(parse, NOOP) || Says(parse, RETR)
        || Says(parse, STOR) || Says(parse, LIST) || Says(parse, TYPE))
  {
    if parse.Parsed? && Handler(parse.name).Some? {
      var verb := Handler(parse.name).value;
      assert verb.USER? || verb.PASS? || verb.CWD? || verb.CDUP? || verb.QUIT? || verb.DELE? || verb.PWD?
        || verb.PASV? || verb.PORT? || verb.HELP? || verb.NOOP? || verb.RETR? || verb.STOR? || verb.LIST?
        || verb.TYPE?;
    }
    hide Handler;
  }

  /** A line that names a command does what that command does. */
  lemma Dispatched(site: Site, s: Session, w: World, parse: Parse, o: Outcome, verb: Verb)
    requires Says(parse, verb)
    ensures Execute(site, s, w, parse, o) == Handle(site, s, w, verb, parse.args, o)
  {
    hide Handle;
    hide Handler;
  }

  // ---------------------------------------------------------------- answered by the server

  /** The command is answered with `code`, and leaves session and world so. */
  predicate Answers(r: Result, s: Session, w: World, code: int) {
    r.Done? && r.session == s && r.world == w && r.response == Answer(code) && r.status != Quit
  }

  lemma UnknownExactly(site: Site, s: Session, w: World, parse: Parse, o: Outcome)
    requires Unknown(parse)
    ensures Answers(Execute(site, s, w, parse, o), s, w, if s.loggedIn then 500 else 530)
  {
    hide Handler;
    hide Handle;
  }

  /** Before a login only three commands do anything. */
  lemma GuestExactly(site: Site, s: Session, w: World, parse: Parse, o: Outcome)
    requires !s.loggedIn && !parse.Undefined?
    requires !Says(parse, USER) && !Says(parse, PASS) && !Says(parse, QUIT)
    ensures Answers(Execute(site, s, w, parse, o), s, w, 530)
  {
    hide Handler;
    hide ChangeDirectory;
    hide Transfer;
  }

  lemma QuitExactly(site: Site, s: Session, w: World, parse: Parse, o: Outcome)
    requires Says(parse, QUIT)
    ensures Execute(site, s, w, parse, o) == Done(s, w, Quit, Answer(221))
  {
    hide Handler;
  }

  lemma UserExactly(site: Site, s: Session, w: World, parse: Parse, o: Outcome)
    requires Says(parse, USER)
    ensures var r := Execute(site, s, w, parse, o);
      if s.loggedIn then Answers(r, s, w, 530)
      else Answers(r, s.(user := if parse.args == [] then None else Some(parse.args[0])), w, 331)
  {
    hide Handler;
  }

  lemma PassExactly(site: Site, s: Session, w: World, parse: Parse, o: Outcome)
    requires Says(parse, PASS)
    ensures var r := Execute(site, s, w, parse, o);
      if s.loggedIn then Answers(r, s, w, 230)
      else if s.user.None? then Answers(r, s, w, 503)
      else if s.user.value in {"Anonymous", "anonymous"} && (parse.args == [] || parse.args[0] == "") then
        Answers(r, s.(loggedIn := true), w, 230)
      else Answers(r, s.(user := None), w, 530)
  {
    hide Handler;
  }

  lemma InformationExactly(site: Site, s: Session, w: World, parse: Parse, o: Outcome)
    requires s.loggedIn
    ensures Says(parse, PWD) ==> Answers(Execute(site, s, w, parse, o), s, w, 257)
    ensures Says(parse, HELP) ==> Answers(Execute(site, s, w, parse, o), s, w, 214)
    ensures Says(parse, NOOP) ==> Answers(Execute(site, s, w, parse, o), s, w, 200)
  {
    hide Handler;
  }

  lemma TypeExactly(site: Site, s: Session, w: World, parse: Parse, o: Outcome)
    requires Says(parse, TYPE) && s.loggedIn
    ensures var r := Execute(site, s, w, parse, o);
      if |parse.args| == 1 && SameLetters(parse.args[0], "A") then Answers(r, s.(transferMode := Ascii), w, 200)
      else if |parse.args| == 1 && SameLetters(parse.args[0], "I") then Answers(r, s.(transferMode := Binary), w, 200)
      else Answers(r, s, w, 500)
  {
    hide Handler;
    if |parse.args| == 1 {
      UpperIsCaseless(parse.args[0], "A");
      UpperIsCaseless(parse.args[0], "I");
      assert ToUpper("A") == "A" && ToUpper("I") == "I";
    }
    hide ToUpper;
    hide SameLetters;
  }

  // ---------------------------------------------------------------- data sockets

  lemma PasvExactly(site: Site, s: Session, w: World, parse: Parse, o: Outcome)
    requires Says(parse, PASV) && s.loggedIn
    ensures var r := Execute(site, s, w, parse, o);
      match o.passivePort
      case None => Answers(r, s.(dataSocket := None, acts := s.acts + [Lost]), w, 451)
      case Some(port) => Answers(r, s.(dataSocket := Some(Passive(port)), acts := s.acts + [Granted]), w, 227)
  {
    hide Handler;
  }

  /** The six numbers of a PORT argument are those of its first six fields. */
  lemma PortExactly(site: Site, s: Session, w: World, parse: Parse, o: Outcome)
    requires Says(parse, PORT) && s.loggedIn
    ensures var r := Execute(site, s, w, parse, o);
      if |parse.args| != 1 || Fields(parse.args[0], false) < 6 then Answers(r, s, w, 500)
      else if !o.activeSocket then Answers(r, s.(dataSocket := None, acts := s.acts + [Lost]), w, 451)
      else
        var ts := Tokens(parse.args[0], ',');
        |ts| >= 6 &&
        var address := [Atoi(ts[0]), Atoi(ts[1]), Atoi(ts[2]), Atoi(ts[3])];
        var high, low := Atoi(ts[4]), Atoi(ts[5]);
        var port := if 0 <= high < 256 && 0 <= low < 256 then 256 * high + low else -1;
        var socket := Active(address, port, Endpoint(AddressWord(address), port % 0x1_0000));
        Answers(r, s.(dataSocket := Some(socket), acts := s.acts + [Granted]), w, 200)
  {
    hide Handler;
    hide AddressWord;
    hide Tokens;
    hide Atoi;
    if |parse.args| == 1 {
      TokensAreFields(parse.args[0]);
      FirstSix(parse.args[0]);
    }
    hide HostPortOf;
  }

  lemma FirstSix(arg: string)
    ensures var ts := Tokens(arg, ',');
      if |ts| < 6 then HostPortOf(arg).None?
      else
        && HostPortOf(arg).Some? && |HostPortOf(arg).value| == 6
        && HostPortOf(arg).value[..4] == [Atoi(ts[0]), Atoi(ts[1]), Atoi(ts[2]), Atoi(ts[3])]
        && HostPortOf(arg).value[4] == Atoi(ts[4]) && HostPortOf(arg).value[5] == Atoi(ts[5])
  {
    hide Tokens;
    hide Atoi;
  }

  // ---------------------------------------------------------------- transfers

  /** What becomes of a transfer whose checks are passed: the socket is used up in any case. */
  predicate Transfers(r: Result, s: Session, w: World, job: Job, o: Outcome) {
    var after := s.(dataSocket := None, acts := s.acts + [Used]);
    if !o.connected then Answers(r, after, w, 425)
    else if !o.forked then Answers(r, after, w, 451)
    else r == Done(after, w, Success, Launch(job, w.cwd))
  }

  lemma StorExactly(site: Site, s: Session, w: World, parse: Parse, o: Outcome)
    requires Says(parse, STOR) && s.loggedIn
    ensures var r := Execute(site, s, w, parse, o);
      if s.dataSocket.None? then Answers(r, s, w, 425)
      else if |parse.args| != 1 then Answers(r, s, w, 550)
      else Transfers(r, s, w, Store(parse.args[0]), o)
  {
    hide Handler;
  }

  /** A name is looked for in the session's directory `d`, or where the process is when that is gone. */
  lemma RetrExactly(site: Site, s: Session, w: World, d: Path, parse: Parse, o: Outcome)
    requires WorldConfined(site, w) && Inside(site, d) && s.workingDirectory == Print(d)
    requires Says(parse, RETR) && s.loggedIn
    ensures var r := Execute(site, s, w, parse, o);
      if s.dataSocket.None? then Answers(r, s, w, 425)
      else if |parse.args| != 1 then Answers(r, s, w, 550)
      else
        var here, home := if d in w.tree.dirs then d else w.cwd, w.(cwd := site.root);
        if Lookup(w.tree, site.links, here, parse.args[0]).Some? then Transfers(r, s, home, Retrieve, o)
        else if Lookup(w.tree, site.links, site.root, parse.args[0]).Some? then Answers(r, s, home, 451)
        else Answers(r, s, home, 550)
  {
    Dispatched(site, s, w, parse, o, RETR);
    hide Execute;
    hide Says;
    hide Answers;
    hide Transfers;
    GoBack(site, w, d);
    RetrGuards(site, s, w, parse.args, o);
    hide Handle;
    hide Retrieving;
    if s.dataSocket.Some? && |parse.args| == 1 {
      RetrArgument(site, s, w, if d in w.tree.dirs then d else w.cwd, parse.args, o);
    }
    hide Go;
    hide Lookup;
    hide Inside;
    hide Proper;
  }

  lemma RetrGuards(site: Site, s: Session, w: World, args: seq<string>, o: Outcome)
    requires s.loggedIn
    ensures var r := Retrieving(site, s, w, args, o);
      && Handle(site, s, w, RETR, args, o) == r
      && (s.dataSocket.None? ==> Answers(r, s, w, 425))
      && (s.dataSocket.Some? && |args| != 1 ==> Answers(r, s, w, 550))
  {
    hide Lookup;
    hide Go;
    hide ServerPath;
  }

  lemma RetrArgument(site: Site, s: Session, w: World, here: Path, args: seq<string>, o: Outcome)
    requires Proper(site, w.tree) && Go(site, w, s.workingDirectory) == w.(cwd := here)
    requires s.loggedIn && s.dataSocket.Some? && |args| == 1
    ensures var r, home := Retrieving(site, s, w, args, o), w.(cwd := site.root);
      if Lookup(w.tree, site.links, here, args[0]).Some? then Transfers(r, s, home, Retrieve, o)
      else if Lookup(w.tree, site.links, site.root, args[0]).Some? then Answers(r, s, home, 451)
      else Answers(r, s, home, 550)
  {
    GoHome(site, w.(cwd := here));
    hide Go;
    hide Lookup;
    hide Proper;
    hide ServerPath;
  }

  /** LIST's argument is looked for where the process is, then entered from the session's directory, and
      what is entered has to have the served directory's path at the start of its own. */
  lemma ListExactly(site: Site, s: Session, w: World, d: Path, parse: Parse, o: Outcome)
    requires WorldConfined(site, w) && Inside(site, d) && s.workingDirectory == Print(d)
    requires Says(parse, LIST) && s.loggedIn
    ensures var r := Execute(site, s, w, parse, o);
      if s.dataSocket.None? then Answers(r, s, w, 425)
      else if parse.args == [] then Transfers(r, s, w, ListDirectory, o)
      else if Lookup(w.tree, site.links, w.cwd, parse.args[0]).None? then Answers(r, s, w, 550)
      else
        var here, home := if d in w.tree.dirs then d else w.cwd, w.(cwd := site.root);
        match ChDir(w.tree, site.links, here, parse.args[0])
        case None => Answers(r, s, w.(cwd := here), 550)
        case Some(there) =>
          if there !in w.tree.dirs then r.Crash?
          else if Print(site.root) <= Print(there) then Transfers(r, s, home, ListDirectory, o)
          else Answers(r, s, home, 550)
  {
    Dispatched(site, s, w, parse, o, LIST);
    hide Execute;
    hide Says;
    hide Answers;
    hide Transfers;
    GoBack(site, w, d);
    ListGuards(site, s, w, parse.args, o);
    hide Handle;
    hide Listing;
    if s.dataSocket.Some? && parse.args != [] && Lookup(w.tree, site.links, w.cwd, parse.args[0]).Some? {
      ListArgument(site, s, w, if d in w.tree.dirs then d else w.cwd, parse.args, o);
    }
    hide Go;
    hide Lookup;
    hide ChDir;
    hide GetCwd;
    hide StartsWith;
    hide Inside;
    hide Proper;
  }

  lemma ListGuards(site: Site, s: Session, w: World, args: seq<string>, o: Outcome)
    requires s.loggedIn
    ensures var r := Listing(site, s, w, args, o);
      && Handle(site, s, w, LIST, args, o) == r
      && (s.dataSocket.None? ==> Answers(r, s, w, 425))
      && (s.dataSocket.Some? && args == [] ==> Transfers(r, s, w, ListDirectory, o))
      && (s.dataSocket.Some? && args != [] && Lookup(w.tree, site.links, w.cwd, args[0]).None? ==>
            Answers(r, s, w, 550))
  {
    hide Lookup;
    hide Go;
    hide ChDir;
    hide GetCwd;
    hide ServerPath;
  }

  lemma ListArgument(site: Site, s: Session, w: World, here: Path, args: seq<string>, o: Outcome)
    requires Proper(site, w.tree) && Go(site, w, s.workingDirectory) == w.(cwd := here)
    requires s.loggedIn && s.dataSocket.Some? && args != [] && Lookup(w.tree, site.links, w.cwd, args[0]).Some?
    ensures var r, home := Listing(site, s, w, args, o), w.(cwd := site.root);
      match ChDir(w.tree, site.links, here, args[0])
      case None => Answers(r, s, w.(cwd := here), 550)
      case Some(there) =>
        if there !in w.tree.dirs then r.Crash?
        else if Print(site.root) <= Print(there) then Transfers(r, s, home, ListDirectory, o)
        else Answers(r, s, home, 550)
  {
    GoHome(site, Go(site, w.(cwd := here), args[0]));
    hide Lookup;
    hide Print;
    hide Proper;
    hide ChDir;
  }

  /** Which child a line starts, if it starts one. */
  lemma JobsExactly(site: Site, s: Session, w: World, parse: Parse, o: Outcome)
    requires Execute(site, s, w, parse, o).Done? && Execute(site, s, w, parse, o).response.Launch?
    ensures var job := Execute(site, s, w, parse, o).response.job;
      && (job == Retrieve <==> Says(parse, RETR))
      && (job == ListDirectory <==> Says(parse, LIST))
      && (job.Store? <==> Says(parse, STOR))
      && (job.Store? ==> parse.args == [job.file])
  {
    hide Handler;
    hide Handle;
    HandleLaunches(site, s, w, VerbOf(parse).value, parse.args, o);
  }

  lemma HandleLaunches(site: Site, s: Session, w: World, verb: Verb, args: seq<string>, o: Outcome)
    requires Handle(site, s, w, verb, args, o).Done? && Handle(site, s, w, verb, args, o).response.Launch?
    ensures verb in {RETR, STOR, LIST}
    ensures Handle(site, s, w, verb, args, o).response.job ==
      if verb == RETR then Retrieve else if verb == LIST then ListDirectory else Store(args[0])
    ensures verb == STOR ==> |args| == 1
  {
    hide Go;
    hide Lookup;
    hide ChDir;
    hide GetCwd;
    hide ServerPath;
    hide HostPortOf;
    hide ToUpper;
    hide Anonymous;
  }

  // ---------------------------------------------------------------- directories

  /** CWD and CDUP do what they are meant to do, resolve the path from the session's own directory, exactly
      when the places agree. */
  lemma DirectoryCommandsAsMeant(site: Site, s: Session, w: World, d: Path, parse: Parse, o: Outcome)
    requires WorldConfined(site, w) && Inside(site, d) && s.workingDirectory == Print(d) && s.loggedIn
    ensures Says(parse, CWD) && |parse.args| == 1 ==>
      (AsMeant(site, s, w, d, parse.args[0], Execute(site, s, w, parse, o)) <==>
        PlacesAgree(site, w, d, parse.args[0]))
    ensures Says(parse, CDUP) ==>
      (AsMeant(site, s, w, d, "..", Execute(site, s, w, parse, o)) <==> PlacesAgree(site, w, d, ".."))
    ensures Says(parse, CWD) && |parse.args| != 1 ==> Answers(Execute(site, s, w, parse, o), s, w, 550)
  {
    hide Handler;
    hide ChangeDirectory;
    hide AsMeant;
    hide PlacesAgree;
    hide Inside;
    hide WorldConfined;
    if Says(parse, CWD) && |parse.args| == 1 {
      CwdAsMeantExactly(site, s, w, d, parse.args[0]);
    }
    CwdAsMeantExactly(site, s, w, d, "..");
  }

  /** What they do in any case. The target is looked for where the process is; it is entered from `d`, or
      from where the process is when `d` is gone; and a path that does not lead anywhere from `d` leaves
      the session in `d`. */
  lemma DirectoryCommandsExactly(site: Site, s: Session, w: World, d: Path, parse: Parse, o: Outcome)
    requires WorldConfined(site, w) && Inside(site, d) && s.workingDirectory == Print(d) && s.loggedIn
    requires (Says(parse, CWD) && |parse.args| == 1) || Says(parse, CDUP)
    ensures var path := if Says(parse, CWD) then parse.args[0] else "..";
      var r := Execute(site, s, w, parse, o);
      var here := if d in w.tree.dirs then d else w.cwd;
      if ChDir(w.tree, site.links, w.cwd, path).None? then Answers(r, s, w, 550)
      else
        var entered := ChDir(w.tree, site.links, here, path);
        var there := if entered.Some? then entered.value else here;
        if there !in w.tree.dirs then r.Crash?
        else
          var lands := if Print(site.root) <= Print(there) then Print(there) else Print(site.root);
          Answers(r, s.(workingDirectory := lands), w.(cwd := site.root), 250)
  {
    var path := if Says(parse, CWD) then parse.args[0] else "..";
    ChangeDispatched(site, s, w, parse, o);
    GoBack(site, w, d);
    ChangeFrom(site, s, w, if d in w.tree.dirs then d else w.cwd, path);
    hide Execute;
    hide Says;
    hide ChangeDirectory;
    hide Go;
    hide ChDir;
    hide Print;
    hide Inside;
    hide Proper;
    hide Answers;
  }

  lemma ChangeDispatched(site: Site, s: Session, w: World, parse: Parse, o: Outcome)
    requires s.loggedIn && ((Says(parse, CWD) && |parse.args| == 1) || Says(parse, CDUP))
    ensures Execute(site, s, w, parse, o) ==
      ChangeDirectory(site, s, w, if Says(parse, CWD) then parse.args[0] else "..")
  {
    hide Handler;
    hide ChangeDirectory;
    if Says(parse, CWD) {
      Dispatched(site, s, w, parse, o, CWD);
    } else {
      Dispatched(site, s, w, parse, o, CDUP);
    }
    hide Execute;
  }

  lemma ChangeFrom(site: Site, s: Session, w: World, here: Path, path: string)
    requires Proper(site, w.tree) && Go(site, w, s.workingDirectory) == w.(cwd := here)
    ensures var r := ChangeDirectory(site, s, w, path);
      if ChDir(w.tree, site.links, w.cwd, path).None? then Answers(r, s, w, 550)
      else
        var entered := ChDir(w.tree, site.links, here, path);
        var there := if entered.Some? then entered.value else here;
        if there !in w.tree.dirs then r.Crash?
        else
          var lands := if Print(site.root) <= Print(there) then Print(there) else Print(site.root);
          Answers(r, s.(workingDirectory := lands), w.(cwd := site.root), 250)
  {
    GoHome(site, Go(site, w.(cwd := here), path));
    hide Print;
    hide ChDir;
    hide WellFormed;
  }

  /** What a line can change of its session, and of the files, by its name. */
  lemma NothingElseChanges(site: Site, s: Session, w: World, parse: Parse, o: Outcome)
    requires Execute(site, s, w, parse, o).Done?
    ensures var t := Execute(site, s, w, parse, o).session;
      && (t.workingDirectory != s.workingDirectory ==> Says(parse, CWD) || Says(parse, CDUP))
      && (t.transferMode != s.transferMode ==> Says(parse, TYPE))
      && (t.loggedIn != s.loggedIn ==> Says(parse, PASS) && t.loggedIn)
      && (t.user != s.user ==> Says(parse, USER) || Says(parse, PASS))
      && (t.dataSocket != s.dataSocket ==>
            || Says(parse, PASV) || Says(parse, PORT)
            || Says(parse, RETR) || Says(parse, STOR) || Says(parse, LIST))
    ensures Execute(site, s, w, parse, o).world.tree != w.tree ==> Says(parse, DELE)
  {
    hide Handler;
    hide Handle;
    if VerbOf(parse).Some? {
      HandlerChanges(site, s, w, VerbOf(parse).value, parse.args, o);
    }
  }

  lemma HandlerChanges(site: Site, s: Session, w: World, verb: Verb, args: seq<string>, o: Outcome)
    requires Handle(site, s, w, verb, args, o).Done?
    ensures var t := Handle(site, s, w, verb, args, o).session;
      && (verb in {CWD, CDUP} || t.workingDirectory == s.workingDirectory)
      && (verb == TYPE || t.transferMode == s.transferMode)
      && (t.loggedIn == s.loggedIn || (verb == PASS && t.loggedIn))
      && (verb in {USER, PASS} || t.user == s.user)
      && (verb in {PASV, PORT, RETR, STOR, LIST} || t.dataSocket == s.dataSocket)
    ensures verb == DELE || Handle(site, s, w, verb, args, o).world.tree == w.tree
  {
    hide Lookup;
    hide ChDir;
    hide Moved;
    hide GetCwd;
    hide ServerPath;
    hide Removal;
    hide HostPortOf;
    hide ToUpper;
    hide Anonymous;
  }

  // ---------------------------------------------------------------- removing

  /** Nothing is left in the directory `p`. */
  ghost predicate Empty(tree: Tree, links: Links, p: Path) {
    forall name :: p + [name] !in tree.dirs && p + [name] !in tree.files && p + [name] !in links
  }

  /** DELE of a plain name in the session's directory `d`. It succeeds iff permissions allow it and the
      name is a file's or an empty directory's, other than the served one. Then the name leads nowhere, and
      every other file and directory is as before; otherwise all of them are. */
  lemma DeleExactly(site: Site, s: Session, w: World, d: Path, name: string, parse: Parse, o: Outcome)
    requires WorldConfined(site, w) && Inside(site, d) && s.workingDirectory == Print(d) && s.loggedIn
    requires d in w.tree.dirs && ValidName(name) && d + [name] !in site.links
    requires Says(parse, DELE) && parse.args == [name]
    ensures var r, p := Execute(site, s, w, parse, o), d + [name];
      var left := if r.Done? then r.world.tree else w.tree;
      var removable := if p in w.tree.dirs then Empty(w.tree, site.links, p) else p in w.tree.files;
      if o.mayRemove && p != site.root && removable then
        && Answers(r, s, World(d, left), 250)
        && Lookup(left, site.links, d, name).None?
        && (forall q :: q != p ==> (q in left.dirs <==> q in w.tree.dirs) && (q in left.files <==> q in w.tree.files))
      else Answers(r, s, w.(cwd := d), 550)
  {
    hide Execute;
    hide Says;
    hide Go;
    hide Removal;
    hide Lookup;
    hide Empty;
    hide Inside;
    hide Proper;
    var here, p := w.(cwd := d), d + [name];
    Dispatched(site, s, w, parse, o, DELE);
    GoBack(site, w, d);
    RemovalOfName(site, here, name, o);
    DeleteFrom(site, s, w, here, [name], o);
    hide Handle;
    NameReads(Without(w.tree, p), site.links, d, name);
    assert p[..|d|] == d;
  }

  lemma DeleteFrom(site: Site, s: Session, w: World, here: World, args: seq<string>, o: Outcome)
    requires s.loggedIn && |args| == 1 && Go(site, w, s.workingDirectory) == here
    ensures var r, left := Handle(site, s, w, DELE, args, o), Removal(site, here, args[0], o);
      if left.Some? then Answers(r, s, World(here.cwd, left.value), 250) else Answers(r, s, here, 550)
  {
    hide Removal;
    hide Go;
  }

  lemma RemovalOfName(site: Site, w: World, name: string, o: Outcome)
    requires Proper(site, w.tree) && w.cwd in w.tree.dirs && ValidName(name) && w.cwd + [name] !in site.links
    ensures var p := w.cwd + [name];
      var removable := if p in w.tree.dirs then Empty(w.tree, site.links, p) else p in w.tree.files;
      Removal(site, w, name, o) ==
        if o.mayRemove && p != site.root && removable then Some(Without(w.tree, p)) else None
  {
    var p := w.cwd + [name];
    OnlyName(name);
    assert [name][..0] == [] && Unslashed([name]) == [name];
    VacantIsEmpty(w.tree, site.links, p);
    hide Vacant;
    hide Empty;
  }

  lemma VacantIsEmpty(tree: Tree, links: Links, p: Path)
    ensures Vacant(tree, links, p) <==> Empty(tree, links, p)
  {
    if Vacant(tree, links, p) {
      forall name: string
        ensures p + [name] !in tree.dirs && p + [name] !in tree.files && p + [name] !in links
      {
        assert Parent(p + [name]) == p;
      }
    }
    if Empty(tree, links, p) {
      forall q: Path | q != [] && Parent(q) == p
        ensures q !in tree.dirs && q !in tree.files && q !in links
      {
        assert q == p + [q[|q| - 1]];
      }
    }
  }
}
