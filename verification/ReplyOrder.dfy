/** In which order the replies on one connection come. A client that waits for the final reply before it
    sends the next command gets them in the order of its lines; one that does not wait can be answered out
    of turn, because a child writes its last reply whenever it is done. */
module ReplyOrder {
  import opened LibC
  import opened CommandParser
  import opened FileTree
  import opened Commands
  import opened SessionLaws
  import opened EventLoop
  import opened Replies
  import opened SampleRuns

  /** The lines that were replied to on a connection, reply by reply. */
  function Replied(log: seq<Entry>, id: nat): seq<nat> {
    if log == [] then []
    else
      var last := log[|log| - 1];
      Replied(log[..|log| - 1], id) + (if last.Said? && last.id == id then [last.line] else [])
  }

  ghost predicate InOrder(lines: seq<nat>) {
    forall a, b :: 0 <= a < b < |lines| ==> lines[a] <= lines[b]
  }

  /** No line is taken from connection `id` while one of its children is running. */
  ghost predicate Waits(site: Site, tree: Tree, es: seq<Event>, id: nat)
    decreases |es|
  {
    es == [] ||
    (var before, e := es[..|es| - 1], es[|es| - 1];
     && Waits(site, tree, before, id)
     && (Run(site, tree, before).Some? && TakesFrom(Run(site, tree, before).value, e, id) ==>
           Unaccompanied(Run(site, tree, before).value, id)))
  }

  ghost predicate TakesFrom(st: State, e: Event, id: nat) {
    e.Line? && e.slot < |st.slots| && st.slots[e.slot].Live? && st.slots[e.slot].id == id
  }

  ghost predicate Unaccompanied(st: State, id: nat) {
    forall n :: n in st.children ==> st.children[n].id != id
  }

  /** At most one child, and it answers the last of the connection's lines. */
  ghost predicate OneByOne(st: State, id: nat) {
    var lines := Replied(st.log, id);
    && InOrder(lines)
    && (forall n :: n in lines ==> n < st.lines)
    && (forall n :: n in st.children ==> n < st.lines)
    && (forall n, m :: n in st.children && st.children[n].id == id && m in lines ==> m <= n)
    && (forall n, m :: n in st.children && m in st.children && st.children[n].id == st.children[m].id == id ==> n == m)
  }

  lemma RepliedOne(log: seq<Entry>, entry: Entry, id: nat)
    ensures Replied(log + [entry], id) ==
      Replied(log, id) + (if entry.Said? && entry.id == id then [entry.line] else [])
  {
    assert (log + [entry])[..|log|] == log;
  }

  lemma {:induction false} RepliedSilent(log: seq<Entry>, more: seq<Entry>, id: nat)
    requires forall k :: 0 <= k < |more| ==> !more[k].Said?
    ensures Replied(log + more, id) == Replied(log, id)
  {
    if more == [] {
      assert log + more == log;
    } else {
      var front, last := more[..|more| - 1], more[|more| - 1];
      assert log + more == (log + front) + [last];
      RepliedOne(log + front, last, id);
      RepliedSilent(log, front, id);
    }
  }

  lemma RepliedHandled(st: State, i: nat, r: Result, script: seq<int>, id: nat)
    requires i < |st.slots| && st.slots[i].Live? && r.Done?
    ensures Replied(Handled(st, i, r, script).log, id) ==
      Replied(st.log, id) + (if r.response.Answer? && st.slots[i].id == id then [st.lines] else [])
  {
    var owner, n := st.slots[i].id, st.lines;
    var took, answers := [Took(owner, n)], Answers(owner, n, r.response);
    var tail := if r.status == Quit then [Destroyed(owner)] else [];
    assert st.log + (took + answers + tail) == st.log + took + answers + tail;
    hide Replied;
    RepliedSilent(st.log, took, id);
    if r.response.Answer? {
      RepliedOne(st.log + took, Said(owner, n, r.response.code), id);
    } else {
      RepliedSilent(st.log + took, answers, id);
    }
    RepliedSilent(st.log + took + answers, tail, id);
  }

  lemma InOrderAppend(lines: seq<nat>, line: nat)
    requires InOrder(lines) && forall m :: m in lines ==> m <= line
    ensures InOrder(lines + [line])
  {
    var more := lines + [line];
    forall a, b | 0 <= a < b < |more|
      ensures more[a] <= more[b]
    {
      assert more[a] in lines;
    }
  }

  lemma HandledInOrder(st: State, i: nat, r: Result, script: seq<int>, id: nat)
    requires OneByOne(st, id) && i < |st.slots| && st.slots[i].Live? && r.Done?
    requires st.slots[i].id == id ==> Unaccompanied(st, id)
    ensures OneByOne(Handled(st, i, r, script), id)
  {
    RepliedHandled(st, i, r, script, id);
    InOrderAppend(Replied(st.log, id), st.lines);
    hide Replied;
    hide InOrder;
    hide Answers;
  }

  lemma OpenedInOrder(site: Site, st: State, line: nat, id: nat)
    requires OneByOne(st, id) && line in st.children
    ensures OneByOne(Opened(site, st, line), id)
    ensures var t := Opened(site, st, line);
      line in t.children && (st.children[line].script != [] ==> t.children[line].script != [])
  {
    hide Target;
    hide Replied;
    hide InOrder;
  }

  lemma SpokenInOrder(st: State, line: nat, id: nat)
    requires OneByOne(st, id) && line in st.children && st.children[line].script != []
    ensures OneByOne(Spoken(st, line), id)
  {
    var child := st.children[line];
    RepliedOne(st.log, Said(child.id, line, child.script[0]), id);
    if child.id == id {
      InOrderAppend(Replied(st.log, id), line);
    }
    hide Replied;
    hide InOrder;
    var t := Spoken(st, line);
    assert forall n :: n in t.children ==> n in st.children && t.children[n].id == st.children[n].id;
    assert forall m :: m in Replied(t.log, id) ==> m in Replied(st.log, id) || (m == line && child.id == id);
    hide Spoken;
    StillOneByOne(st, t, id);
  }

  /** No new child, and replies in order to lines a child of the connection answers. */
  lemma StillOneByOne(st: State, t: State, id: nat)
    requires OneByOne(st, id) && t.lines == st.lines && InOrder(Replied(t.log, id))
    requires forall n :: n in t.children ==> n in st.children && t.children[n].id == st.children[n].id
    requires forall m :: m in Replied(t.log, id) ==>
      m in Replied(st.log, id) || (m in st.children && st.children[m].id == id)
    ensures OneByOne(t, id)
  {
    hide Replied;
    hide InOrder;
  }

  /** Steps that write no reply and start no child. */
  lemma QuietInOrder(st: State, t: State, more: seq<Entry>, id: nat)
    requires OneByOne(st, id)
    requires t.log == st.log + more && t.lines == st.lines
    requires forall n :: n in t.children ==> n in st.children && t.children[n] == st.children[n]
    requires forall k :: 0 <= k < |more| ==> !more[k].Said?
    ensures OneByOne(t, id)
  {
    RepliedSilent(st.log, more, id);
  }

  lemma OneByOneKept(site: Site, st: State, e: Event, id: nat)
    requires OneByOne(st, id) && Next(site, st, e).Some?
    requires TakesFrom(st, e, id) ==> Unaccompanied(st, id)
    ensures OneByOne(Next(site, st, e).value, id)
  {
    hide OneByOne;
    hide Execute;
    hide Proper;
    hide ParseLine;
    hide Script;
    hide NewSession;
    hide Handled;
    hide Opened;
    hide Spoken;
    match e
    case Line(i, raw, o, script) =>
      HandledInOrder(st, i, Execute(site, st.slots[i].session, st.world, ParseLine(raw), o), script, id);
    case Speak(line) =>
      OpenedInOrder(site, st, line, id);
      SpokenInOrder(Opened(site, st, line), line, id);
    case CutOff(line) => QuietInOrder(st, Killed(st, line), [CutShort(st.children[line].id, line)], id);
    case Connect(fd) =>
      var more := if FirstFree(st.slots) == |st.slots| then [] else [Slotted(st.born)];
      QuietInOrder(st, Connected(site, st, fd), more, id);
    case Stop =>
      FarewellsSilent(st.slots);
      QuietInOrder(st, Stopped(st), Farewells(st.slots), id);
    case _ => QuietInOrder(st, Next(site, st, e).value, [], id);
  }

  /** A client that waits is answered in order, whatever everybody else does. */
  lemma {:induction false} WaitingIsInOrder(site: Site, tree: Tree, es: seq<Event>, id: nat)
    requires Run(site, tree, es).Some? && Waits(site, tree, es, id)
    ensures OneByOne(Run(site, tree, es).value, id)
    ensures InOrder(Replied(Run(site, tree, es).value.log, id))
    decreases |es|
  {
    hide Next;
    hide Proper;
    if es == [] {
    } else {
      WaitingIsInOrder(site, tree, es[..|es| - 1], id);
      OneByOneKept(site, Run(site, tree, es[..|es| - 1]).value, es[|es| - 1], id);
    }
  }

  lemma OutOfTurn(lines: seq<nat>, n: nat, m: nat)
    requires m < n
    ensures !InOrder((lines + [n]) + [m])
  {
    var all := (lines + [n]) + [m];
    assert all[|lines|] == n && all[|lines| + 1] == m;
  }

  /** One that does not wait may be answered out of turn: after any line that is taken from a connection
      while a child of it is running, there is a way to go on in which that line is answered before an
      earlier one is finished. */
  lemma ImpatienceMayBeOutOfTurn(site: Site, tree: Tree, es: seq<Event>, e: Event, id: nat) returns (more: seq<Event>)
    requires Run(site, tree, es).Some? && Run(site, tree, es + [e]).Some?
    requires TakesFrom(Run(site, tree, es).value, e, id) && !Unaccompanied(Run(site, tree, es).value, id)
    ensures Run(site, tree, (es + [e]) + more).Some?
    ensures !InOrder(Replied(Run(site, tree, (es + [e]) + more).value.log, id))
  {
    var st := Run(site, tree, es).value;
    hide Run;
    var m :| m in st.children && st.children[m].id == id;
    RepliesInRun(site, tree, es);
    assert LineSound(st, m) && LineSound(st, st.lines);
    var r := LineWasTaken(site, tree, es, e);
    more := Overtaking(site, tree, es + [e], st, e.slot, r, e.script, m);
  }

  lemma LineWasTaken(site: Site, tree: Tree, es: seq<Event>, e: Event) returns (r: Result)
    requires Run(site, tree, es).Some? && Run(site, tree, es + [e]).Some? && e.Line?
    ensures var st := Run(site, tree, es).value;
      && e.slot < |st.slots| && st.slots[e.slot].Live? && r.Done?
      && Run(site, tree, es + [e]) == Some(Handled(st, e.slot, r, e.script))
    ensures r.response.Launch? ==> Script(r.response.job, e.script)
  {
    var st := Run(site, tree, es).value;
    RunStep(site, tree, es, e);
    hide Run;
    hide Execute;
    hide Handled;
    hide ParseLine;
    hide Script;
    r := Execute(site, st.slots[e.slot].session, st.world, ParseLine(e.raw), e.outcome);
  }

  /** The new line's answer, or its child's first reply, and then the next reply of the older child. */
  lemma Overtaking(site: Site, tree: Tree, es: seq<Event>, st: State, i: nat, r: Result, script: seq<int>, m: nat)
    returns (more: seq<Event>)
    requires i < |st.slots| && st.slots[i].Live? && r.Done?
    requires Run(site, tree, es) == Some(Handled(st, i, r, script))
    requires r.response.Launch? ==> Script(r.response.job, script)
    requires m in st.children && m < st.lines && st.lines !in st.children
    requires st.children[m].id == st.slots[i].id && st.children[m].script != []
    ensures Run(site, tree, es + more).Some?
    ensures !InOrder(Replied(Run(site, tree, es + more).value.log, st.slots[i].id))
  {
    hide Run;
    hide Replied;
    hide InOrder;
    hide Answers;
    var id, n, t := st.slots[i].id, st.lines, Handled(st, i, r, script);
    RepliedHandled(st, i, r, script, id);
    OutOfTurn(Replied(st.log, id), n, m);
    if r.response.Answer? {
      more := [Speak(m)];
      SpeakNow(site, tree, es, t, m, id);
    } else {
      ScriptsComplete(r.response.job, script);
      SpeakNow(site, tree, es, t, n, id);
      var u := Spoken(Opened(site, t, n), n);
      assert u.children[m] == st.children[m];
      SpeakNow(site, tree, es + [Speak(n)], u, m, id);
      more := [Speak(n), Speak(m)];
      assert es + more == (es + [Speak(n)]) + [Speak(m)];
      assert Replied(st.log, id) + [] == Replied(st.log, id);
    }
  }

  lemma SpeakNow(site: Site, tree: Tree, es: seq<Event>, st: State, line: nat, id: nat)
    requires Run(site, tree, es) == Some(st)
    requires line in st.children && st.children[line].script != [] && st.children[line].id == id
    ensures line in Opened(site, st, line).children && Opened(site, st, line).children[line].script != []
    ensures var t := Spoken(Opened(site, st, line), line);
      && Run(site, tree, es + [Speak(line)]) == Some(t)
      && Replied(t.log, id) == Replied(st.log, id) + [line]
      && forall n :: n in st.children && n != line ==> n in t.children && t.children[n] == st.children[n]
  {
    hide Run;
    SpokenRun(site, tree, es, st, line);
    OpenedOne(site, st, line);
    SpokenOne(Opened(site, st, line), line);
    hide *;
    RepliedOne(st.log, Said(id, line, Opened(site, st, line).children[line].script[0]), id);
  }

  lemma OpenedOne(site: Site, st: State, line: nat)
    requires line in st.children
    ensures var t := Opened(site, st, line);
      && t.log == st.log && line in t.children && t.children[line].id == st.children[line].id
      && forall n :: n in st.children && n != line ==> n in t.children && t.children[n] == st.children[n]
  {
    hide Target;
  }

  lemma SpokenOne(st: State, line: nat)
    requires line in st.children && st.children[line].script != []
    ensures var t, child := Spoken(st, line), st.children[line];
      && t.log == st.log + [Said(child.id, line, child.script[0])]
      && forall n :: n in st.children && n != line ==> n in t.children && t.children[n] == st.children[n]
  {
  }

  /** It happens for every served directory: a NOOP is answered before a listing asked for earlier. */
  lemma AnsweredOutOfTurn(site: Site, tree: Tree) returns (es: seq<Event>)
    requires Proper(site, tree)
    ensures Run(site, tree, es).Some?
    ensures !InOrder(Replied(Run(site, tree, es).value.log, 0))
  {
    es := ListingUnderWay(site, tree);
    var st := Run(site, tree, es).value;
    var s, w := st.slots[0].session, st.world;
    hide Run;
    hide Replied;
    hide Handle;
    hide InOrder;
    hide Sendable;
    NoopIsFine(site, s, w);
    es := LineTaken(site, tree, es, NOOP_LINE, 10, []);
    var t := Handled(st, 0, Accept(s, w, 200), []);
    assert t.children == st.children;
    RepliedHandled(st, 0, Accept(s, w, 200), [], 0);
    hide Handled;
    SpeakNow(site, tree, es, t, 3, 0);
    es := es + [Speak(3)];
    OutOfTurn(Replied(st.log, 0), 4, 3);
  }

  const NOOP_LINE := ["NOOP"]

  lemma NoopIsFine(site: Site, s: Session, w: World)
    requires s.loggedIn
    ensures Sendable(NOOP_LINE) && NOOP_LINE[0] == HANDLERS[10].0 && NOOP_LINE[1..] == []
    ensures Handle(site, s, w, HANDLERS[10].1, [], GRANTED) == Accept(s, w, 200)
  {
  }
}
