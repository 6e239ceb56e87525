/** The server as a transition system: src/connection.c, src/client_handler.c and src/destroyers.c,
    with the children forked by src/data_socket_executor.c running beside the main loop. */
module EventLoop {
  import opened LibC
  import opened CommandParser
  import opened FileTree
  import opened Commands
  import opened SessionLaws

  const MAX_CLIENTS: nat := 128

  /** One place in `fds[]` and `connections[]`. `id` numbers the connections in order of arrival. */
  datatype Slot = Free | Live(fd: int, id: nat, session: Session)

  /** A forked child: the connection it serves, its work, where it has started, and the replies it has
      still to write. */
  datatype Child = Child(id: nat, job: Job, place: Path, script: seq<int>)

  datatype Entry =
    | Slotted(id: nat)
    | Took(id: nat, line: nat)             // a line was read from the connection
    | Said(id: nat, line: nat, code: int)  // a reply to that line was written
    | CutShort(id: nat, line: nat)         // the child answering the line was killed
    | Farewell(id: nat)                    // 221 at shutdown
    | Destroyed(id: nat)                   // destroy_connection

  /** `children` is keyed by the line each child answers. `born`, `lines` and `log` are bookkeeping. */
  datatype State = State(
    slots: seq<Slot>,
    world: World,
    children: map<nat, Child>,
    stopped: bool,
    born: nat,
    lines: nat,
    log: seq<Entry>)

  datatype Event =
    | Connect(fd: int)
    | Line(slot: nat, raw: string, outcome: Outcome, script: seq<int>)
    | Hangup(slot: nat)          // getline fails: the connection was lost
    | Speak(line: nat)           // the child answering `line` writes its next reply
    | CutOff(line: nat)          // that child writes to a data connection the client has closed
    | Environment(tree: Tree)    // files and directories come and go
    | Stop

  /** What a child writes when nothing kills it. */
  predicate Script(job: Job, script: seq<int>) {
    match job
    case Retrieve => script in {[150, 226], [150, 451]}
    case Store(_) => script in {[150, 226], [150, 451]}
    case ListDirectory => script in {[550], [451], [150, 226]}
  }

  function Init(site: Site, tree: Tree): State {
    State(seq(MAX_CLIENTS, _ => Free), World(site.root, tree), map[], false, 0, 0, [])
  }

  /** The lowest free slot, or the length when there is none. */
  function FirstFree(slots: seq<Slot>): (i: nat)
    ensures i <= |slots|
    ensures forall k :: 0 <= k < i ==> slots[k].Live?
    ensures i < |slots| ==> slots[i].Free?
  {
    if slots == [] || slots[0].Free? then 0 else 1 + FirstFree(slots[1..])
  }

  /** The kernel hands out a descriptor no live connection has. */
  ghost predicate FreshDescriptor(slots: seq<Slot>, fd: int) {
    fd >= 0 && forall k :: 0 <= k < |slots| && slots[k].Live? ==> slots[k].fd != fd
  }

  /** A connection that finds no slot is greeted and forgotten. */
  function Connected(site: Site, st: State, fd: int): State {
    var i := FirstFree(st.slots);
    if i == |st.slots| then st
    else st.(
      slots := st.slots[i := Live(fd, st.born, NewSession(site))],
      born := st.born + 1,
      log := st.log + [Slotted(st.born)])
  }

  function Answers(id: nat, line: nat, response: Response): seq<Entry> {
    match response
    case Answer(code) => [Said(id, line, code)]
    case Launch(_, _) => []
  }

  /** `handle_connection` with the result of the command. */
  function Handled(st: State, i: nat, r: Result, script: seq<int>): State
    requires i < |st.slots| && st.slots[i].Live? && r.Done?
  {
    var Live(fd, id, _) := st.slots[i];
    var n := st.lines;
    State(
      st.slots[i := if r.status == Quit then Free else Live(fd, id, r.session)],
      r.world,
      if r.response.Launch? then st.children[n := Child(id, r.response.job, r.response.cwd, script)] else st.children,
      st.stopped,
      st.born,
      n + 1,
      st.log + ([Took(id, n)] + Answers(id, n, r.response) + (if r.status == Quit then [Destroyed(id)] else [])))
  }

  /** A STOR child opens its file before it says anything. A file that cannot be had turns a 226 into
      451; otherwise it is there now. */
  function Opened(site: Site, st: State, line: nat): State
    requires line in st.children
  {
    var child := st.children[line];
    if child.job.Store? && child.script == [150, 226] then
      match Target(st.world.tree, site.links, child.place, child.job.file)
      case None => st.(children := st.children[line := child.(script := [150, 451])])
      case Some(p) => st.(world := st.world.(tree := WithFile(st.world.tree, p)))
    else st
  }

  function Spoken(st: State, line: nat): State
    requires line in st.children && st.children[line].script != []
  {
    var Child(id, job, place, script) := st.children[line];
    st.(
      children := if |script| == 1 then st.children - {line}
                  else st.children[line := Child(id, job, place, script[1..])],
      log := st.log + [Said(id, line, script[0])])
  }

  /** A child that has said 150 and is sending: no handler for SIGPIPE is installed, so a write to a
      data connection that is closed at the other end kills it. STOR's child only reads. */
  predicate Sending(child: Child) {
    !child.job.Store? && child.script == [226]
  }

  function Killed(st: State, line: nat): State
    requires line in st.children
  {
    st.(children := st.children - {line}, log := st.log + [CutShort(st.children[line].id, line)])
  }

  /** `destroy_server` goes through the slots in order. */
  function Farewells(slots: seq<Slot>): seq<Entry> {
    if slots == [] then []
    else
      match slots[0]
      case Free => Farewells(slots[1..])
      case Live(_, id, _) => [Farewell(id), Destroyed(id)] + Farewells(slots[1..])
  }

  function Stopped(st: State): State {
    st.(slots := seq(|st.slots|, _ => Free), stopped := true, log := st.log + Farewells(st.slots))
  }

  ghost predicate Serves(st: State, i: nat) {
    !st.stopped && i < |st.slots| && st.slots[i].Live?
  }

  /** One step. `None`: the event cannot happen here, or the code's behaviour is undefined. What others
      do to the file system leaves it proper: the served directory persists and directories do not turn
      into links. */
  ghost function Next(site: Site, st: State, e: Event): Option<State> {
    match e
    case Connect(fd) =>
      if !st.stopped && FreshDescriptor(st.slots, fd) then Some(Connected(site, st, fd)) else None
    case Line(i, raw, o, script) =>
      if !Serves(st, i) || raw == "" then None
      else
        var r := Execute(site, st.slots[i].session, st.world, ParseLine(raw), o);
        if r.Done? && (r.response.Launch? ==> Script(r.response.job, script)) then Some(Handled(st, i, r, script))
        else None
    case Hangup(i) => if Serves(st, i) then Some(st) else None
    case Speak(line) =>
      if line in st.children && st.children[line].script != [] then Some(Spoken(Opened(site, st, line), line))
      else None
    case CutOff(line) =>
      if line in st.children && Sending(st.children[line]) then Some(Killed(st, line)) else None
    case Environment(tree) =>
      if Proper(site, tree) then Some(st.(world := st.world.(tree := tree))) else None
    case Stop => if st.stopped then None else Some(Stopped(st))
  }

  /** The state after a history of events, from the start of the server. */
  ghost function Run(site: Site, tree: Tree, es: seq<Event>): Option<State>
    decreases |es|
  {
    if es == [] then (if Proper(site, tree) then Some(Init(site, tree)) else None)
    else
      match Run(site, tree, es[..|es| - 1])
      case None => None
      case Some(st) => Next(site, st, es[|es| - 1])
  }

  /** Every reachable state is reached through reachable states. */
  lemma RunStep(site: Site, tree: Tree, es: seq<Event>, e: Event)
    ensures Run(site, tree, es + [e]) ==
      match Run(site, tree, es) { case None => None case Some(st) => Next(site, st, e) }
  {
    assert (es + [e])[..|es|] == es;
  }

  /** The state after more events. */
  ghost function RunFrom(site: Site, st: State, es: seq<Event>): Option<State>
    decreases |es|
  {
    if es == [] then Some(st)
    else
      match RunFrom(site, st, es[..|es| - 1])
      case None => None
      case Some(t) => Next(site, t, es[|es| - 1])
  }

  lemma RunFromStep(site: Site, st: State, es: seq<Event>, e: Event)
    ensures RunFrom(site, st, es + [e]) ==
      match RunFrom(site, st, es) { case None => None case Some(t) => Next(site, t, e) }
  {
    assert (es + [e])[..|es|] == es;
  }

  lemma {:induction false} RunFromOn(site: Site, st: State, es: seq<Event>, more: seq<Event>)
    requires RunFrom(site, st, es).Some?
    ensures RunFrom(site, st, es + more) == RunFrom(site, RunFrom(site, st, es).value, more)
    decreases |more|
  {
    hide Next;
    if more == [] {
      assert es + more == es;
    } else {
      var front, last := more[..|more| - 1], more[|more| - 1];
      RunFromOn(site, st, es, front);
      assert es + more == (es + front) + [last];
      RunFromStep(site, st, es + front, last);
    }
  }

  lemma {:induction false} RunOn(site: Site, tree: Tree, es: seq<Event>, more: seq<Event>)
    requires Run(site, tree, es).Some?
    ensures Run(site, tree, es + more) == RunFrom(site, Run(site, tree, es).value, more)
    decreases |more|
  {
    hide Next;
    if more == [] {
      assert es + more == es;
    } else {
      var front, last := more[..|more| - 1], more[|more| - 1];
      RunOn(site, tree, es, front);
      assert es + more == (es + front) + [last];
      RunStep(site, tree, es + front, last);
    }
  }

  lemma OpenedProper(site: Site, st: State, line: nat)
    requires Proper(site, st.world.tree) && line in st.children
    ensures Proper(site, Opened(site, st, line).world.tree)
  {
    hide Target;
  }

  /** The file system stays proper. */
  lemma ProperKept(site: Site, st: State, e: Event)
    requires Proper(site, st.world.tree) && Next(site, st, e).Some?
    ensures Proper(site, Next(site, st, e).value.world.tree)
  {
    hide Execute;
    hide Proper;
    hide ParseLine;
    hide NewSession;
    hide Script;
    if e.Line? {
      ProperStays(site, st.slots[e.slot].session, st.world, ParseLine(e.raw), e.outcome);
    } else if e.Speak? {
      OpenedProper(site, st, e.line);
      hide Opened;
    }
  }

  lemma {:induction false} FarewellsAppend(a: seq<Slot>, b: seq<Slot>)
    ensures Farewells(a + b) == Farewells(a) + Farewells(b)
  {
    if a == [] {
      assert a + b == b;
    } else {
      assert (a + b)[1..] == a[1..] + b;
      FarewellsAppend(a[1..], b);
    }
  }
}
