/** What an upload leaves in the file system that all clients share: the file is there from the moment its
    150 is written, under the name it was given in the place the child started in, until somebody else
    removes it. src/commands/stor.c, src/commands/dele.c. */
module Storage {
  import opened LibC
  import opened CommandParser
  import opened FileTree
  import opened Commands
  import opened SessionLaws
  import opened EventLoop
  import opened Replies

  /** A STOR child that has not said anything yet, and may open its file. */
  predicate Storing(child: Child) {
    child.job.Store? && child.script == [150, 226]
  }

  /** When it says 150, the file is there and its name leads to it; or it cannot be had, and what comes
      next is 451. */
  lemma StoreOpens(site: Site, st: State, line: nat)
    requires line in st.children && Storing(st.children[line])
    ensures var child, t := st.children[line], Spoken(Opened(site, st, line), line);
      && line in t.children
      && match Target(st.world.tree, site.links, child.place, child.job.file)
         case None => t.children[line] == child.(script := [451]) && t.world == st.world
         case Some(p) =>
           && t.children[line] == child.(script := [226]) && p in t.world.tree.files
           && Lookup(t.world.tree, site.links, child.place, child.job.file) == Some(File(p))
  {
    var child := st.children[line];
    if Target(st.world.tree, site.links, child.place, child.job.file).Some? {
      TargetIsFound(st.world.tree, site.links, child.place, child.job.file);
    }
    assert [150, 226][1..] == [226] && [150, 451][1..] == [451];
    hide Target;
    hide Lookup;
  }

  // ---------------------------------------------------------------- files stay

  /** The step takes the file away: a DELE that names it, or somebody outside the server. */
  ghost predicate Disturbs(site: Site, st: State, e: Event, p: Path) {
    match e
    case Environment(tree) => p !in tree.files
    case Line(i, raw, _, _) =>
      i < |st.slots| && st.slots[i].Live? && Deletes(site, st.slots[i].session, st.world, ParseLine(raw), p)
    case _ => false
  }

  predicate Deletes(site: Site, s: Session, w: World, parse: Parse, p: Path) {
    && Says(parse, DELE) && s.loggedIn && |parse.args| == 1
    && var here := Go(site, w, s.workingDirectory);
       EntryNamed(w.tree, site.links, here.cwd, parse.args[0]) == Some(p)
  }

  lemma FileStays(site: Site, st: State, e: Event, p: Path)
    requires Next(site, st, e).Some? && p in st.world.tree.files && !Disturbs(site, st, e, p)
    ensures p in Next(site, st, e).value.world.tree.files
  {
    hide Execute;
    hide Proper;
    hide ParseLine;
    hide NewSession;
    hide Script;
    hide Target;
    hide Deletes;
    if e.Line? {
      CommandLeavesFile(site, st.slots[e.slot].session, st.world, ParseLine(e.raw), e.outcome, p);
    }
  }

  lemma CommandLeavesFile(site: Site, s: Session, w: World, parse: Parse, o: Outcome, p: Path)
    requires Execute(site, s, w, parse, o).Done? && p in w.tree.files && !Deletes(site, s, w, parse, p)
    ensures p in Execute(site, s, w, parse, o).world.tree.files
  {
    hide Handler;
    hide Handle;
    if VerbOf(parse).Some? {
      HandlerLeavesFile(site, s, w, VerbOf(parse).value, parse.args, o, p);
      hide Go;
      hide EntryNamed;
    }
  }

  lemma HandlerLeavesFile(site: Site, s: Session, w: World, verb: Verb, args: seq<string>, o: Outcome, p: Path)
    requires Handle(site, s, w, verb, args, o).Done? && p in w.tree.files
    requires verb == DELE && s.loggedIn && |args| == 1 ==>
      EntryNamed(w.tree, site.links, Go(site, w, s.workingDirectory).cwd, args[0]) != Some(p)
    ensures p in Handle(site, s, w, verb, args, o).world.tree.files
  {
    hide EntryNamed;
    hide Removable;
    hide Lookup;
    hide ChDir;
    hide Moved;
    hide GetCwd;
    hide ServerPath;
    hide HostPort.HostPortOf;
    hide Utils.ToUpper;
    hide Anonymous;
  }

  // ---------------------------------------------------------------- one upload, from fork to 226

  /** The child has opened its file at step `k`, as `p`. */
  ghost predicate OpenedAt(site: Site, tree: Tree, es: seq<Event>, more: seq<Event>, line: nat, child: Child,
                           k: nat, p: Path)
    requires child.job.Store?
  {
    && k < |more| && more[k] == Speak(line)
    && Run(site, tree, es + more[..k]).Some?
    && var there := Run(site, tree, es + more[..k]).value;
       Target(there.world.tree, site.links, child.place, child.job.file) == Some(p)
  }

  /** A later step has taken the file away. */
  ghost predicate LostAfter(site: Site, tree: Tree, es: seq<Event>, more: seq<Event>, k: nat, p: Path) {
    exists j :: k < j < |more| && LostAt(site, tree, es, more, j, p)
  }

  ghost predicate LostAt(site: Site, tree: Tree, es: seq<Event>, more: seq<Event>, j: nat, p: Path)
    requires j < |more|
  {
    && Run(site, tree, es + more[..j]).Some?
    && Disturbs(site, Run(site, tree, es + more[..j]).value, more[j], p)
  }

  /** The file was opened, and is there unless somebody took it away. */
  ghost predicate Kept(site: Site, tree: Tree, es: seq<Event>, more: seq<Event>, line: nat, child: Child,
                       k: nat, p: Path)
    requires child.job.Store? && Run(site, tree, es + more).Some?
  {
    && OpenedAt(site, tree, es, more, line, child, k, p)
    && (p in Run(site, tree, es + more).value.world.tree.files || LostAfter(site, tree, es, more, k, p))
  }

  lemma KeptNow(site: Site, tree: Tree, es: seq<Event>, more: seq<Event>, line: nat, p: Path)
    requires Run(site, tree, es + more).Some?
    requires var st := Run(site, tree, es + more).value;
      && line in st.children && Storing(st.children[line])
      && Target(st.world.tree, site.links, st.children[line].place, st.children[line].job.file) == Some(p)
    requires Run(site, tree, es + (more + [Speak(line)])).Some?
    ensures var child := Run(site, tree, es + more).value.children[line];
      Kept(site, tree, es, more + [Speak(line)], line, child, |more|, p)
  {
    var all, st := more + [Speak(line)], Run(site, tree, es + more).value;
    assert all[..|more|] == more && es + all == (es + more) + [Speak(line)];
    RunStep(site, tree, es + more, Speak(line));
    StoreOpens(site, st, line);
    hide Run;
    hide Target;
    hide Lookup;
    hide Opened;
    hide Spoken;
  }

  lemma KeptOn(site: Site, tree: Tree, es: seq<Event>, more: seq<Event>, e: Event, line: nat, child: Child,
               k: nat, p: Path)
    requires child.job.Store? && Run(site, tree, es + more).Some? && Run(site, tree, es + (more + [e])).Some?
    requires Kept(site, tree, es, more, line, child, k, p)
    ensures Kept(site, tree, es, more + [e], line, child, k, p)
  {
    hide Run;
    hide Next;
    hide Disturbs;
    hide Target;
    var all, st := more + [e], Run(site, tree, es + more).value;
    assert es + all == (es + more) + [e];
    RunStep(site, tree, es + more, e);
    assert all[..k] == more[..k] && all[k] == more[k];
    hide LostAt;
    if p in st.world.tree.files {
      if Disturbs(site, st, e, p) {
        LostNow(site, tree, es, more, e, p);
      } else {
        FileStays(site, st, e, p);
      }
    } else {
      var j :| k < j < |more| && LostAt(site, tree, es, more, j, p);
      StillLost(site, tree, es, more, e, j, p);
    }
  }

  lemma LostNow(site: Site, tree: Tree, es: seq<Event>, more: seq<Event>, e: Event, p: Path)
    requires Run(site, tree, es + more).Some? && Disturbs(site, Run(site, tree, es + more).value, e, p)
    ensures LostAt(site, tree, es, more + [e], |more|, p)
  {
    assert (more + [e])[..|more|] == more && (more + [e])[|more|] == e;
  }

  lemma StillLost(site: Site, tree: Tree, es: seq<Event>, more: seq<Event>, e: Event, j: nat, p: Path)
    requires j < |more| && LostAt(site, tree, es, more, j, p)
    ensures LostAt(site, tree, es, more + [e], j, p)
  {
    assert (more + [e])[..j] == more[..j] && (more + [e])[j] == more[j];
  }

  /** How far a STOR child has come. */
  predicate Phase(forked: Child, child: Option<Child>, said: seq<int>, kept: bool) {
    || (child == Some(forked) && said == [])
    || (child == Some(forked.(script := [226])) && said == [150] && kept)
    || (child == Some(forked.(script := [451])) && said == [150])
    || (child.None? && said == [150, 226] && kept)
    || (child.None? && said == [150, 451])
  }

  /** Steps of others leave a child and what was said to its line alone. */
  lemma OthersStep(site: Site, st: State, e: Event, line: nat)
    requires Next(site, st, e).Some? && line < st.lines
    requires e != Speak(line) && e != CutOff(line)
    ensures var t := Next(site, st, e).value;
      line < t.lines && ChildOf(t, line) == ChildOf(st, line) && SaidTo(t.log, line) == SaidTo(st.log, line)
  {
    hide Execute;
    hide Proper;
    hide ParseLine;
    hide NewSession;
    hide Script;
    hide Target;
    hide SaidTo;
    hide WasCut;
    hide Finals;
    hide Farewells;
    hide Answers;
    match e
    case Line(i, raw, o, script) =>
      AnswersAreFinal(site, st.slots[i].session, st.world, ParseLine(raw), o);
      HandledLog(st, i, Execute(site, st.slots[i].session, st.world, ParseLine(raw), o), script, line);
    case Speak(m) => LogOne(st.log, Said(st.children[m].id, m, Opened(site, st, m).children[m].script[0]), line);
    case CutOff(m) => LogOne(st.log, CutShort(st.children[m].id, m), line);
    case Connect(_) => LogOne(st.log, Slotted(st.born), line);
    case Stop =>
      FarewellsSilent(st.slots);
      SilentAppend(st.log, Farewells(st.slots), line);
    case _ =>
  }

  /** The child's own step. */
  lemma OwnStep(site: Site, st: State, line: nat, forked: Child, kept: bool)
    requires Storing(forked) && Phase(forked, ChildOf(st, line), SaidTo(st.log, line), kept)
    requires Next(site, st, Speak(line)).Some?
    ensures var t := Next(site, st, Speak(line)).value;
      var opens := ChildOf(st, line) == Some(forked)
        && Target(st.world.tree, site.links, forked.place, forked.job.file).Some?;
      t.lines == st.lines && Phase(forked, ChildOf(t, line), SaidTo(t.log, line), kept || opens)
  {
    OpenedScript(site, st, line);
    SpokenSays(Opened(site, st, line), line);
    var said, child := SaidTo(st.log, line), st.children[line];
    var opens := child == forked && Target(st.world.tree, site.links, forked.place, forked.job.file).Some?;
    PhaseStep(forked, child, said, kept, opens);
    hide Opened;
    hide Spoken;
    hide SaidTo;
    hide Target;
    hide Phase;
  }

  /** What a child says next: 451 instead of 226 when its file could not be opened. */
  function ToSay(forked: Child, child: Child, opens: bool): seq<int> {
    if child == forked && !opens then [150, 451] else child.script
  }

  lemma PhaseStep(forked: Child, child: Child, said: seq<int>, kept: bool, opens: bool)
    requires Storing(forked) && Phase(forked, Some(child), said, kept)
    ensures Storing(child) <==> child == forked
    ensures var script := ToSay(forked, child, opens);
      && script != []
      && Phase(forked, if |script| == 1 then None else Some(child.(script := script[1..])), said + [script[0]],
               kept || (child == forked && opens))
  {
    var script := ToSay(forked, child, opens);
    if child == forked {
      assert script[1..] == (if opens then [226] else [451]) && said + [script[0]] == [150];
    } else {
      assert said + [script[0]] == [150, script[0]];
    }
  }

  lemma OpenedScript(site: Site, st: State, line: nat)
    requires line in st.children
    ensures var u, child := Opened(site, st, line), st.children[line];
      && u.log == st.log && u.lines == st.lines && line in u.children
      && u.children[line] ==
           if Storing(child) && Target(st.world.tree, site.links, child.place, child.job.file).None?
           then child.(script := [150, 451]) else child
  {
    hide Target;
  }

  lemma SpokenSays(st: State, line: nat)
    requires line in st.children && st.children[line].script != []
    ensures var t, child := Spoken(st, line), st.children[line];
      && t.lines == st.lines
      && SaidTo(t.log, line) == SaidTo(st.log, line) + [child.script[0]]
      && ChildOf(t, line) == if |child.script| == 1 then None else Some(child.(script := child.script[1..]))
  {
    var child := st.children[line];
    LogOne(st.log, Said(child.id, line, child.script[0]), line);
    hide SaidTo;
  }

  lemma {:induction false} Progress(site: Site, tree: Tree, es: seq<Event>, more: seq<Event>, line: nat)
    returns (k: nat, p: Path)
    requires Run(site, tree, es).Some? && Run(site, tree, es + more).Some?
    requires var st := Run(site, tree, es).value;
      line < st.lines && line in st.children && Storing(st.children[line]) && SaidTo(st.log, line) == []
    ensures HasCome(site, tree, es, more, line, Run(site, tree, es).value.children[line], k, p)
    decreases |more|
  {
    hide *;
    k, p := 0, [];
    if more == [] {
      NothingYet(site, tree, es, line, k, p);
    } else {
      var before, e := more[..|more| - 1], more[|more| - 1];
      assert es + more == (es + before) + [e] && more == before + [e];
      RunStep(site, tree, es + before, e);
      k, p := Progress(site, tree, es, before, line);
      k, p := ProgressStep(site, tree, es, before, e, line, Run(site, tree, es).value.children[line], k, p);
    }
  }

  lemma NothingYet(site: Site, tree: Tree, es: seq<Event>, line: nat, k: nat, p: Path)
    requires Run(site, tree, es).Some? && Run(site, tree, es + []).Some?
    requires var st := Run(site, tree, es).value;
      line < st.lines && line in st.children && Storing(st.children[line]) && SaidTo(st.log, line) == []
    ensures HasCome(site, tree, es, [], line, Run(site, tree, es).value.children[line], k, p)
  {
    assert es + [] == es;
    hide Run;
    hide Kept;
    hide SaidTo;
  }

  ghost predicate HasCome(site: Site, tree: Tree, es: seq<Event>, more: seq<Event>, line: nat, forked: Child,
                          k: nat, p: Path)
    requires Storing(forked) && Run(site, tree, es + more).Some?
  {
    var t := Run(site, tree, es + more).value;
    && line < t.lines
    && Phase(forked, ChildOf(t, line), SaidTo(t.log, line), Kept(site, tree, es, more, line, forked, k, p))
  }

  lemma ProgressStep(site: Site, tree: Tree, es: seq<Event>, before: seq<Event>, e: Event, line: nat, forked: Child,
                     k: nat, p: Path)
    returns (l: nat, q: Path)
    requires Storing(forked) && Run(site, tree, es + before).Some? && Run(site, tree, es + (before + [e])).Some?
    requires HasCome(site, tree, es, before, line, forked, k, p)
    ensures HasCome(site, tree, es, before + [e], line, forked, l, q)
  {
    assert es + (before + [e]) == (es + before) + [e];
    RunStep(site, tree, es + before, e);
    hide Run;
    hide Next;
    hide Kept;
    hide SaidTo;
    hide Target;
    var st, kept := Run(site, tree, es + before).value, Kept(site, tree, es, before, line, forked, k, p);
    l, q := k, p;
    if kept {
      KeptOn(site, tree, es, before, e, line, forked, k, p);
    }
    if e == Speak(line) {
      OwnStep(site, st, line, forked, kept);
      var target := Target(st.world.tree, site.links, forked.place, forked.job.file);
      if !kept && ChildOf(st, line) == Some(forked) && target.Some? {
        l, q := |before|, target.value;
        KeptNow(site, tree, es, before, line, q);
      }
      hide Phase;
    } else {
      NotKilled(site, st, e, line, forked, kept);
      OthersStep(site, st, e, line);
    }
  }

  /** A STOR child does not write to its data connection. */
  lemma NotKilled(site: Site, st: State, e: Event, line: nat, forked: Child, kept: bool)
    requires Storing(forked) && Phase(forked, ChildOf(st, line), SaidTo(st.log, line), kept)
    requires Next(site, st, e).Some?
    ensures e != CutOff(line)
  {
  }

  /** So when a STOR line has been told 226, its child has opened the file, under the line's name in the
      place where the child started; and the file is there still, unless after that a DELE named it or
      somebody outside the server took it away. */
  lemma StoredUnlessDisturbed(site: Site, tree: Tree, es: seq<Event>, more: seq<Event>, line: nat)
    returns (k: nat, p: Path)
    requires Run(site, tree, es).Some? && Run(site, tree, es + more).Some?
    requires var st := Run(site, tree, es).value; line in st.children && Storing(st.children[line])
    requires SaidTo(Run(site, tree, es + more).value.log, line) == [150, 226]
    ensures Kept(site, tree, es, more, line, Run(site, tree, es).value.children[line], k, p)
  {
    var st := Run(site, tree, es).value;
    RepliesInRun(site, tree, es);
    NothingSaidYet(st, line);
    hide Run;
    hide SaidTo;
    hide Kept;
    k, p := Progress(site, tree, es, more, line);
  }

  lemma NothingSaidYet(st: State, line: nat)
    requires LineSound(st, line) && line in st.children && Storing(st.children[line])
    ensures line < st.lines && SaidTo(st.log, line) == []
  {
    assert |SaidTo(st.log, line) + [150, 226]| == |SaidTo(st.log, line)| + 2;
  }
}
