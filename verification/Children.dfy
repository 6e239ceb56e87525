/** What a forked child does: the second halves of src/commands/retr.c, src/commands/stor.c and
    src/commands/list.c. A child has its own copies of the connection and of the process directory. */
module Children {
  import opened LibC
  import opened FileTree
  import opened Commands
  import opened Handlers
  import opened SessionLaws
  import opened CommandLaws
  import opened EventLoop
  import opened CopyLoops

  /** Where a child that starts in `start` looks for its file or directory. */
  function ChildPlace(site: Site, s: Session, tree: Tree, start: Path): World {
    Go(site, World(start, tree), s.workingDirectory)
  }

  /** The directory a LIST child lists; `None` when it cannot be entered. */
  function Listed(site: Site, s: Session, tree: Tree, start: Path, args: seq<string>): Option<Path> {
    ChDir(tree, site.links, ChildPlace(site, s, tree, start).cwd, if args == [] then "." else args[0])
  }

  /** What the child has written to the control connection: its script, or when it is killed only what
      comes before the transfer's last reply. */
  function Wrote(script: seq<int>, killed: bool): seq<int>
    requires killed ==> script != []
  {
    if killed then script[..|script| - 1] else script
  }

  /** `execute_retr_command`. `content` is what the file holds if it can be opened; the data connection
      takes `lasts` more writes before one of them kills the child. */
  method ExecuteRetr(connection: Connection, name: string, content: string, lasts: nat)
    returns (sent: string, killed: bool, ghost script: seq<int>)
    requires connection.Usable()
    modifies connection`control, connection.process`cwd
    ensures Script(Retrieve, script) && connection.control == old(connection.control) + Wrote(script, killed)
    ensures var start := old(connection.process.cwd);
      var place := ChildPlace(connection.site, old(connection.State()), connection.process.tree, start);
      var there := Lookup(place.tree, connection.site.links, place.cwd, name).Some?;
      && script == [150, if there then 226 else 451]
      && (sent, killed) == if there then SentUntil(content, lasts) else ("", false)
    ensures connection.State() == old(connection.State())
  {
    hide Lookup;
    hide ChDir;
    hide SentUntil;
    connection.Say(150);
    var moved := connection.process.Chdir(connection.workingDirectory);
    var found := connection.process.Exists(name);
    moved := connection.process.Chdir(ServerPath(connection.site));
    script := [150, if found then 226 else 451];
    sent, killed := "", false;
    if !found {
      connection.Say(451);
      return;
    }
    var file := new Stream(content);
    sent, killed := SendChunks(file, lasts);
    if killed {
      return;
    }
    connection.Say(226);
  }

  /** `execute_stor_command`. `allowed`: the permissions do not keep it from opening the file; `data` is
      the data connection, which is only read. */
  method ExecuteStor(connection: Connection, name: string, allowed: bool, data: Stream)
    returns (file: Sink, ghost script: seq<int>)
    requires connection.Usable()
    modifies connection`control, connection.process`tree, data
    ensures fresh(file) && Script(Store(name), script) && connection.control == old(connection.control) + script
    ensures var tree, process := old(connection.process.tree), connection.process;
      var target := Target(tree, process.links, process.cwd, name);
      if allowed && target.Some? then
        && script == [150, 226] && process.tree == WithFile(tree, target.value)
        && file.content == old(data.rest) && data.rest == ""
      else
        && script == [150, 451] && process.tree == tree
        && file.content == "" && data.rest == old(data.rest)
    ensures connection.State() == old(connection.State())
  {
    hide Target;
    var created := connection.process.Create(name, allowed);
    script := [150, if created then 226 else 451];
    file := new Sink();
    connection.Say(150);
    if !created {
      connection.Say(451);
      return;
    }
    CopyLines(data, file);
    assert file.content == "" + old(data.rest);
    connection.Say(226);
  }

  /** `execute_ls_command`. `output` is what `ls -l` prints, nothing when it cannot be started; the data
      connection takes `lasts` more writes. */
  method ExecuteLs(connection: Connection, args: seq<string>, output: Option<string>, lasts: nat)
    returns (sent: string, killed: bool, ghost script: seq<int>)
    requires connection.Usable()
    modifies connection`control, connection.process`cwd
    ensures Script(ListDirectory, script) && connection.control == old(connection.control) + Wrote(script, killed)
    ensures var start := old(connection.process.cwd);
      var place := Listed(connection.site, old(connection.State()), connection.process.tree, start, args);
      && script == (if place.None? then [550] else if output.None? then [451] else [150, 226])
      && (sent, killed) == (if place.Some? && output.Some? then SentUntil(output.value, lasts) else ("", false))
    ensures connection.State() == old(connection.State())
  {
    hide ChDir;
    hide SentUntil;
    hide ServerPath;
    sent, killed := "", false;
    var moved := connection.process.Chdir(connection.workingDirectory);
    moved := connection.process.Chdir(if |args| == 0 then "." else args[0]);
    if !moved {
      connection.Say(550);
      script := [550];
      return;
    }
    if output.None? {
      connection.Say(451);
      script := [451];
      return;
    }
    connection.Say(150);
    script := [150, 226];
    var pipe := new Stream(output.value);
    sent, killed := SendChunks(pipe, lasts);
    if killed {
      return;
    }
    moved := connection.process.Chdir(ServerPath(connection.site));
    connection.Say(226);
  }

  /** A sender is killed only where the transition system lets it: with 150 said and 226 to come. And it
      is killed iff what it sends takes more writes than the connection lasts. */
  lemma KilledWhileSending(id: nat, job: Job, place: Path, script: seq<int>, content: string, lasts: nat)
    requires !job.Store? && Script(job, script) && script == [150, 226]
    ensures SentUntil(content, lasts).1 <==> Writes(content) > lasts
    ensures Wrote(script, true) == [150] && Sending(Child(id, job, place, script[1..]))
  {
    SentUntilExactly(content, lasts);
  }

  // ---------------------------------------------------------------- parent and child agree

  /** The server has found something under the name before it forked; while the files stay as they are,
      the child resolves the name again, from the served directory as its starting point. It finds the
      very same thing iff the session's directory is still there, or the name leads from the process
      directory to where it leads from the served one. It finds anything at all, and RETR does not end in
      451, iff the session's directory is still there or the name leads somewhere from the served one. */
  lemma RetrieveFindsItAgain(site: Site, s: Session, w: World, d: Path, name: string, o: Outcome)
    requires WorldConfined(site, w) && Inside(site, d) && s.workingDirectory == Print(d)
    requires var r := Retrieving(site, s, w, [name], o); r.Done? && r.response.Launch?
    ensures Retrieving(site, s, w, [name], o).response == Launch(Retrieve, site.root)
    ensures ChildPlace(site, s, w.tree, site.root).cwd == if d in w.tree.dirs then d else site.root
    ensures var place := ChildPlace(site, s, w.tree, site.root).cwd;
      var found := Lookup(w.tree, site.links, if d in w.tree.dirs then d else w.cwd, name);
      && found.Some?
      && (Lookup(w.tree, site.links, place, name) == found <==>
            || d in w.tree.dirs
            || Lookup(w.tree, site.links, w.cwd, name) == Lookup(w.tree, site.links, site.root, name))
      && (Lookup(w.tree, site.links, place, name).Some? <==>
            d in w.tree.dirs || Lookup(w.tree, site.links, site.root, name).Some?)
  {
    hide Lookup;
    GoBack(site, w, d);
    GoHome(site, Go(site, w, s.workingDirectory));
    RootInside(site, w.tree);
    GoBack(site, w.(cwd := site.root), d);
  }

  /** The directory LIST went to and checked before the fork, for a session in `d`. */
  function Checked(site: Site, w: World, d: Path, args: seq<string>): Option<Path> {
    var here := if d in w.tree.dirs then d else w.cwd;
    if args == [] then Some(here) else ChDir(w.tree, site.links, here, args[0])
  }

  /** The child goes there by itself. It lists the directory that passed the check iff the session's
      directory is still there, or no path was given, or the path leads from the process directory to
      where it leads from the served one. */
  lemma ListingShowsWhatWasChecked(site: Site, s: Session, w: World, d: Path, args: seq<string>, o: Outcome)
    requires WorldConfined(site, w) && Inside(site, d) && s.workingDirectory == Print(d)
    requires var r := Listing(site, s, w, args, o); r.Done? && r.response.Launch?
    ensures Listing(site, s, w, args, o).response.job == ListDirectory
    ensures var start := Listing(site, s, w, args, o).response.cwd;
      Listed(site, s, w.tree, start, args) == Checked(site, w, d, args) <==>
        || d in w.tree.dirs
        || args == []
        || ChDir(w.tree, site.links, w.cwd, args[0]) == ChDir(w.tree, site.links, site.root, args[0])
    ensures var checked := Checked(site, w, d, args);
      checked.Some? && Print(site.root) <= Print(checked.value)
  {
    hide Listing;
    hide Lookup;
    hide Go;
    hide Proper;
    hide Print;
    var here := if d in w.tree.dirs then d else w.cwd;
    GoBack(site, w, d);
    ListingStarts(site, s, w, here, args, o);
    RootInside(site, w.tree);
    GoBack(site, w.(cwd := site.root), d);
    DotsRead(w.tree, site.links, here);
  }

  lemma ListingStarts(site: Site, s: Session, w: World, here: Path, args: seq<string>, o: Outcome)
    requires WorldConfined(site, w) && Go(site, w, s.workingDirectory) == w.(cwd := here)
    requires var r := Listing(site, s, w, args, o); r.Done? && r.response.Launch?
    ensures Listing(site, s, w, args, o).response == Launch(ListDirectory, if args == [] then w.cwd else site.root)
    ensures args != [] ==>
      var there := ChDir(w.tree, site.links, here, args[0]);
      there.Some? && Print(site.root) <= Print(there.value)
  {
    hide Lookup;
    hide ChDir;
    hide Print;
    hide Proper;
    if args != [] {
      GoHome(site, Go(site, w.(cwd := here), args[0]));
    }
  }

  /** So what is listed passes the prefix test for sure only while the session's directory is there, or
      when no path is given; otherwise iff the path does not lead outside from the served directory. */
  lemma ListingStaysInsideExactly(site: Site, s: Session, w: World, d: Path, args: seq<string>, o: Outcome)
    requires WorldConfined(site, w) && Inside(site, d) && s.workingDirectory == Print(d)
    requires var r := Listing(site, s, w, args, o); r.Done? && r.response.Launch?
    ensures PassesTest(site, Listed(site, s, w.tree, Listing(site, s, w, args, o).response.cwd, args)) <==>
        || d in w.tree.dirs
        || args == []
        || PassesTest(site, ChDir(w.tree, site.links, site.root, args[0]))
  {
    ListingShowsWhatWasChecked(site, s, w, d, args, o);
    if d !in w.tree.dirs && args != [] {
      GoBack(site, w, d);
      GoHome(site, Go(site, Go(site, w, s.workingDirectory), args[0]));
      RootInside(site, w.tree);
      GoBack(site, w.(cwd := site.root), d);
    }
  }

  /** A directory, if there is one, that the server's prefix test lets through. */
  predicate PassesTest(site: Site, place: Option<Path>) {
    place.Some? ==> Print(site.root) <= Print(place.value)
  }

  // ---------------------------------------------------------------- where they do not

  /** A session whose directory /srv/a was removed, while the process stands in /srv/x. */
  ghost predicate Stray(site: Site, s: Session, w: World, d: Path) {
    && site == Site(["srv"], map[]) && d == ["srv", "a"]
    && s.loggedIn && s.dataSocket.Some? && s.workingDirectory == Print(d)
    && w.cwd == ["srv", "x"] && w.tree.dirs == {[], ["srv"], ["srv", "x"]}
    && WorldConfined(site, w) && Inside(site, d)
  }

  const GRANTED := Outcome(None, false, true, true, false)

  lemma AStray(files: set<Path>) returns (site: Site, s: Session, w: World, d: Path)
    ensures Stray(site, s, w, d) && w.tree.files == files
  {
    d, site := ["srv", "a"], Site(["srv"], map[]);
    s := NewSession(site).(loggedIn := true, dataSocket := Some(Passive(2000)), workingDirectory := Print(d));
    w := World(["srv", "x"], Tree({[], ["srv"], ["srv", "x"]}, files));
    hide Print;
    StrayTree(w.tree);
    hide WellFormed;
    DirIsCanonical(w.tree, site.links, w.cwd);
    DirIsCanonical(w.tree, site.links, ["srv"]);
    assert Canonical(site.links, d);
    PrefixTest(d, ["srv"]);
    PrefixTest(w.cwd, ["srv"]);
  }

  lemma StrayTree(tree: Tree)
    requires tree.dirs == {[], ["srv"], ["srv", "x"]}
    ensures WellFormed(tree, map[])
  {
    assert Parent(["srv"]) == [] && Parent(["srv", "x"]) == ["srv"];
  }

  /** The server finds one file and the child sends another. */
  lemma RetrieveFindsAnother() returns (site: Site, s: Session, w: World, d: Path)
    ensures Stray(site, s, w, d)
    ensures var r := Retrieving(site, s, w, ["f"], GRANTED);
      && r.Done? && r.response == Launch(Retrieve, ["srv"]) && d !in w.tree.dirs
      && Lookup(w.tree, site.links, w.cwd, "f") == Some(File(["srv", "x", "f"]))
      && Lookup(w.tree, site.links, ChildPlace(site, s, w.tree, ["srv"]).cwd, "f") == Some(File(["srv", "f"]))
  {
    var here, home := ["srv", "x", "f"], ["srv", "f"];
    site, s, w, d := AStray({here, home});
    hide Lookup;
    hide Print;
    hide WellFormed;
    hide Canonical;
    TwoFiles(w.tree);
    StrayStays(site, s, w, d);
    RetrArgument(site, s, w, w.cwd, ["f"], GRANTED);
    hide Go;
  }

  lemma TwoFiles(tree: Tree)
    requires tree == Tree({[], ["srv"], ["srv", "x"]}, {["srv", "x", "f"], ["srv", "f"]})
    ensures Lookup(tree, map[], ["srv", "x"], "f") == Some(File(["srv", "x", "f"]))
    ensures Lookup(tree, map[], ["srv"], "f") == Some(File(["srv", "f"]))
  {
    var here, home := ["srv", "x", "f"], ["srv", "f"];
    assert ["srv", "x"] + ["f"] == here && ["srv"] + ["f"] == home;
    assert here !in tree.dirs && |home| == |["srv", "x"]| && home[1] == "f" && ["srv", "x"][1] == "x";
    assert "f"[0] != "x"[0];
    NameReads(tree, map[], ["srv", "x"], "f");
    NameReads(tree, map[], ["srv"], "f");
  }

  /** Its directory is gone, so its processes stay where they start. */
  lemma StrayStays(site: Site, s: Session, w: World, d: Path)
    requires Stray(site, s, w, d)
    ensures d !in w.tree.dirs && Go(site, w, s.workingDirectory) == w
    ensures Go(site, w.(cwd := site.root), s.workingDirectory) == w.(cwd := site.root)
  {
    assert d !in w.tree.dirs by { assert ["srv", "a"][1] == "a" && ["srv", "x"][1] == "x" && "a"[0] != "x"[0]; }
    hide Print;
    hide WellFormed;
    hide Canonical;
    GoBack(site, w, d);
    RootInside(site, w.tree);
    GoBack(site, w.(cwd := site.root), d);
    hide Go;
  }

  /** The server has tested /srv, and the child lists the root of the file system. */
  lemma ListingGoesAstray() returns (site: Site, s: Session, w: World, d: Path)
    ensures Stray(site, s, w, d)
    ensures var r := Listing(site, s, w, [".."], GRANTED);
      && r.Done? && r.response.Launch?
      && Checked(site, w, d, [".."]) == Some(["srv"])
      && Listed(site, s, w.tree, r.response.cwd, [".."]) == Some([])
  {
    site, s, w, d := AStray({});
    hide Lookup;
    hide Print;
    hide WellFormed;
    hide Canonical;
    DotsRead(w.tree, site.links, w.cwd);
    DotsRead(w.tree, site.links, site.root);
    assert ["srv", "x"][..1] == ["srv"] && ["srv"][..0] == [];
    StrayStays(site, s, w, d);
    ListArgument(site, s, w, w.cwd, [".."], GRANTED);
    hide Go;
  }
}
