/** What each step of the server changes, place by place, and what it leaves alone: the table of
    connections of src/connection.c, the process, and the children. */
module StepLaws {
  import opened LibC
  import opened Utils
  import opened CommandParser
  import opened FileTree
  import opened Commands
  import opened SessionLaws
  import opened CommandLaws
  import opened EventLoop

  /** A newcomer takes the lowest free place with nothing granted: not logged in, in the served
      directory. When there is no free place nothing happens. */
  lemma ConnectExactly(site: Site, st: State, fd: int)
    requires Next(site, st, Connect(fd)).Some?
    ensures var t := Next(site, st, Connect(fd)).value;
      if forall k :: 0 <= k < |st.slots| ==> st.slots[k].Live? then t == st
      else
        && t == st.(slots := t.slots, born := st.born + 1, log := st.log + [Slotted(st.born)])
        && |t.slots| == |st.slots|
        && exists i :: 0 <= i < |st.slots| && st.slots[i].Free? && (forall k :: 0 <= k < i ==> st.slots[k].Live?)
             && t.slots[i] == Live(fd, st.born, Session(false, None, Print(site.root), None, Binary, []))
             && forall k :: 0 <= k < |st.slots| && k != i ==> t.slots[k] == st.slots[k]
  {
    hide Print;
    var i := FirstFree(st.slots);
    if i < |st.slots| {
      assert !(forall k :: 0 <= k < |st.slots| ==> st.slots[k].Live?) by { assert st.slots[i].Free?; }
      assert Next(site, st, Connect(fd)).value.slots == st.slots[i := Live(fd, st.born, NewSession(site))];
    }
  }

  /** A line changes its own session, the process, and the children by at most one. The place is given up
      iff the line says QUIT. */
  lemma LineExactly(site: Site, st: State, i: nat, raw: string, o: Outcome, script: seq<int>)
    requires Next(site, st, Line(i, raw, o, script)).Some?
    ensures i < |st.slots| && st.slots[i].Live?
    ensures var t, was := Next(site, st, Line(i, raw, o, script)).value, st.slots[i];
      var r := Execute(site, was.session, st.world, ParseLine(raw), o);
      && r.Done? && t.world == r.world && t.lines == st.lines + 1
      && t.born == st.born && t.stopped == st.stopped && |t.slots| == |st.slots|
      && t.slots[i] == (if Named(ParseLine(raw), "QUIT") then Free else Live(was.fd, was.id, r.session))
      && (forall k :: 0 <= k < |st.slots| && k != i ==> t.slots[k] == st.slots[k])
      && (forall n :: n != st.lines ==> (n in t.children <==> n in st.children))
      && (forall n :: n in st.children && n != st.lines ==> t.children[n] == st.children[n])
      && (r.response.Launch? ==>
            && st.lines in t.children
            && (if r.response.job == ListDirectory then script in {[550], [451], [150, 226]}
                else script in {[150, 226], [150, 451]})
            && t.children[st.lines] == Child(was.id, r.response.job, r.response.cwd, script))
      && (!r.response.Launch? ==> t.children == st.children)
  {
    hide ParseLine;
    hide Execute;
    hide Named;
    var was := st.slots[i];
    QuitStatus(site, was.session, st.world, ParseLine(raw), o);
    NamesReach(ParseLine(raw));
    hide Says;
  }

  lemma QuitStatus(site: Site, s: Session, w: World, parse: Parse, o: Outcome)
    ensures var r := Execute(site, s, w, parse, o);
      r.Done? ==> (r.status == Quit <==> Says(parse, QUIT))
  {
    hide Handler;
    hide Go;
    hide Lookup;
    hide ChDir;
    hide GetCwd;
    hide Removal;
    hide ServerPath;
    hide ToUpper;
    hide Anonymous;
  }

  /** No other step but the end touches a session, or moves the process. A child that speaks may add one
      file; the others that go about their work change no file. */
  lemma OthersLeave(site: Site, st: State, e: Event)
    requires Next(site, st, e).Some? && !e.Connect? && !e.Line?
    ensures var t := Next(site, st, e).value;
      && (if e.Stop? then |t.slots| == |st.slots| && (forall k :: 0 <= k < |t.slots| ==> t.slots[k].Free?)
          else t.slots == st.slots)
      && t.world.cwd == st.world.cwd && t.born == st.born && t.lines == st.lines
      && (t.stopped <==> st.stopped || e.Stop?)
      && (!e.Speak? && !e.Environment? ==> t.world == st.world)
      && (e.Environment? ==> t == st.(world := World(st.world.cwd, e.tree)))
      && (e.Hangup? ==> t == st)
      && (e.Speak? ==>
            || t.world.tree == st.world.tree
            || (exists p :: t.world.tree.files == st.world.tree.files + {p} && t.world.tree.dirs == st.world.tree.dirs))
      && (forall n :: n in st.children && (e.Speak? || e.CutOff? ==> n != e.line) ==>
            n in t.children && t.children[n] == st.children[n])
      && (forall n :: n in t.children ==> n in st.children)
  {
    hide Target;
    hide Proper;
    hide Farewells;
    if e.Speak? {
      OpenedLeaves(site, st, e.line);
      hide Opened;
    }
  }

  lemma OpenedLeaves(site: Site, st: State, line: nat)
    requires line in st.children && st.children[line].script != []
    ensures var t := Opened(site, st, line);
      && t == st.(world := st.world.(tree := t.world.tree), children := t.children)
      && t.children.Keys == st.children.Keys && t.children[line].script != []
      && (forall n :: n in st.children && n != line ==> t.children[n] == st.children[n])
      && (|| t.world.tree == st.world.tree
          || (exists p :: t.world.tree.files == st.world.tree.files + {p} && t.world.tree.dirs == st.world.tree.dirs))
  {
    hide Target;
  }
}
