/** Which child runs for which line, on every run: the work of execute_retr_command,
    execute_stor_command and execute_ls in src/commands is only ever done for a line that orders it. */
module Jobs {
  import opened LibC
  import opened Utils
  import opened CommandParser
  import opened HostPort
  import opened FileTree
  import opened Commands
  import opened SessionLaws
  import opened CommandLaws
  import opened EventLoop

  /** The lines of a history, in the order they were read. */
  function Lines(es: seq<Event>): seq<string> {
    if es == [] then []
    else
      var last := es[|es| - 1];
      Lines(es[..|es| - 1]) + (if last.Line? then [last.raw] else [])
  }

  /** The line orders this work. */
  ghost predicate Orders(raw: string, job: Job) {
    var parse := ParseLine(raw);
    match job
    case Retrieve => Named(parse, "RETR") && |parse.args| == 1
    case Store(name) => Named(parse, "STOR") && parse.args == [name]
    case ListDirectory => Named(parse, "LIST")
  }

  /** Each child does what its line orders, RETR's in the served directory; only a line that orders some
      work is answered by 150 or 226, and only the child of one that orders to send is ever killed. */
  ghost predicate Ordered(site: Site, st: State, lines: seq<string>) {
    && st.lines == |lines|
    && (forall n :: n in st.children ==>
          && n < |lines| && Orders(lines[n], st.children[n].job)
          && (st.children[n].job == Retrieve ==> st.children[n].place == site.root))
    && (forall e :: e in st.log && e.Said? && e.code in {150, 226} ==>
          e.line < |lines| && exists job :: Orders(lines[e.line], job))
    && (forall e :: e in st.log && e.CutShort? ==>
          e.line < |lines| && exists job: Job :: !job.Store? && Orders(lines[e.line], job))
  }

  lemma {:induction false} JobsInRun(site: Site, tree: Tree, es: seq<Event>)
    requires Run(site, tree, es).Some?
    ensures Ordered(site, Run(site, tree, es).value, Lines(es))
    ensures Proper(site, Run(site, tree, es).value.world.tree)
    decreases |es|
  {
    hide Next;
    hide Proper;
    if es == [] {
      hide Orders;
    } else {
      hide Ordered;
      var front, e := es[..|es| - 1], es[|es| - 1];
      JobsInRun(site, tree, front);
      var st := Run(site, tree, front).value;
      ProperKept(site, st, e);
      OrderedKept(site, st, Lines(front), e);
    }
  }

  lemma OrderedKept(site: Site, st: State, lines: seq<string>, e: Event)
    requires Proper(site, st.world.tree) && Next(site, st, e).Some? && Ordered(site, st, lines)
    ensures Ordered(site, Next(site, st, e).value, lines + (if e.Line? then [e.raw] else []))
  {
    hide Proper;
    hide Orders;
    hide Script;
    hide Execute;
    hide ParseLine;
    if e.Line? {
      var s := st.slots[e.slot].session;
      LaunchOrdered(site, s, st.world, e.raw, e.outcome);
      HandledOrdered(site, st, lines, e.slot, e.raw, Execute(site, s, st.world, ParseLine(e.raw), e.outcome), e.script);
      hide Ordered;
    } else {
      assert lines + [] == lines;
      if e.Speak? {
        OpenedOrdered(site, st, lines, e.line);
        SpokenOrdered(site, Opened(site, st, e.line), lines, e.line);
        hide Ordered;
      } else if e.Stop? {
        FarewellsSaid(st.slots);
      }
    }
  }

  /** What the line of a launched child orders. */
  ghost predicate Fits(site: Site, raw: string, r: Result) {
    r.Done? ==>
      match r.response
      case Answer(code) => code !in {150, 226}
      case Launch(job, place) => Orders(raw, job) && (job == Retrieve ==> place == site.root)
  }

  lemma LaunchOrdered(site: Site, s: Session, w: World, raw: string, o: Outcome)
    requires Proper(site, w.tree)
    ensures Fits(site, raw, Execute(site, s, w, ParseLine(raw), o))
  {
    hide ParseLine;
    hide Execute;
    hide Proper;
    hide Says;
    hide Named;
    var parse := ParseLine(raw);
    var r := Execute(site, s, w, parse, o);
    ServerCodes(site, s, w, parse, o);
    if r.Done? && r.response.Launch? {
      JobsExactly(site, s, w, parse, o);
      NamesReach(parse);
      if Says(parse, RETR) {
        RetrieveStarts(site, s, w, parse, o);
      }
    }
  }

  lemma ServerCodes(site: Site, s: Session, w: World, parse: Parse, o: Outcome)
    ensures var r := Execute(site, s, w, parse, o);
      r.Done? && r.response.Answer? ==> r.response.code !in {150, 226}
  {
    hide Handler;
    hide Go;
    hide Lookup;
    hide ChDir;
    hide GetCwd;
    hide Removal;
    hide ServerPath;
    hide HostPortOf;
    hide ToUpper;
    hide Anonymous;
  }

  lemma RetrieveStarts(site: Site, s: Session, w: World, parse: Parse, o: Outcome)
    requires Proper(site, w.tree) && Says(parse, RETR)
    requires Execute(site, s, w, parse, o).Done? && Execute(site, s, w, parse, o).response.Launch?
    ensures |parse.args| == 1 && Execute(site, s, w, parse, o).response.cwd == site.root
  {
    hide Execute;
    hide Handler;
    Dispatched(site, s, w, parse, o, RETR);
    RetrievingStarts(site, s, w, parse.args, o);
    hide Retrieving;
    hide Proper;
  }

  lemma RetrievingStarts(site: Site, s: Session, w: World, args: seq<string>, o: Outcome)
    requires Proper(site, w.tree)
    requires Retrieving(site, s, w, args, o).Done? && Retrieving(site, s, w, args, o).response.Launch?
    ensures |args| == 1 && Retrieving(site, s, w, args, o).response.cwd == site.root
  {
    GoHome(site, Go(site, w, s.workingDirectory));
    GoKeeps(site, w, s.workingDirectory);
    hide Go;
    hide Lookup;
    hide ServerPath;
    hide Proper;
  }

  lemma GoKeeps(site: Site, w: World, path: string)
    ensures Go(site, w, path).tree == w.tree
  {
  }

  lemma HandledOrdered(
    site: Site, st: State, lines: seq<string>, i: nat, raw: string, r: Result, script: seq<int>)
    requires i < |st.slots| && st.slots[i].Live? && r.Done? && Fits(site, raw, r) && Ordered(site, st, lines)
    ensures Ordered(site, Handled(st, i, r, script), lines + [raw])
  {
    hide Orders;
    var t, all := Handled(st, i, r, script), lines + [raw];
    forall e | e in t.log && e.Said? && e.code in {150, 226}
      ensures e.line < |all| && exists job :: Orders(all[e.line], job)
    {
      assert e in st.log;
      assert all[e.line] == lines[e.line];
    }
    forall e | e in t.log && e.CutShort?
      ensures e.line < |all| && exists job: Job :: !job.Store? && Orders(all[e.line], job)
    {
      assert e in st.log;
      assert all[e.line] == lines[e.line];
    }
  }

  lemma OpenedOrdered(site: Site, st: State, lines: seq<string>, line: nat)
    requires line in st.children && Ordered(site, st, lines)
    ensures line in Opened(site, st, line).children && Ordered(site, Opened(site, st, line), lines)
  {
    hide Orders;
    hide Target;
  }

  lemma SpokenOrdered(site: Site, st: State, lines: seq<string>, line: nat)
    requires line in st.children && st.children[line].script != [] && Ordered(site, st, lines)
    ensures Ordered(site, Spoken(st, line), lines)
  {
    hide Orders;
    assert Orders(lines[line], st.children[line].job);
  }

  lemma {:induction false} FarewellsSaid(slots: seq<Slot>)
    ensures forall e :: e in Farewells(slots) ==> !e.Said? && !e.CutShort?
  {
    if slots != [] {
      FarewellsSaid(slots[1..]);
    }
  }
}
