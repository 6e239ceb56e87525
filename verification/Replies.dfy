/** Which replies each command line gets, while the main loop and the forked children interleave in
    every way. Section 5.4 of RFC 959: one final reply, or a preliminary one and then a final one. A
    child that is killed while it sends leaves its line with the preliminary one. */
module Replies {
  import opened LibC
  import opened CommandParser
  import opened FileTree
  import opened Commands
  import opened SessionLaws
  import opened EventLoop

  predicate Final(code: int) {
    200 <= code < 600
  }

  predicate Complete(codes: seq<int>) {
    || (|codes| == 1 && Final(codes[0]))
    || (|codes| == 2 && codes[0] == 150 && Final(codes[1]))
  }

  /** The replies to one line, in the order they were written. */
  function SaidTo(log: seq<Entry>, line: nat): seq<int> {
    if log == [] then []
    else
      var last := log[|log| - 1];
      SaidTo(log[..|log| - 1], line) + (if last.Said? && last.line == line then [last.code] else [])
  }

  /** The child that answered the line was killed. */
  predicate WasCut(log: seq<Entry>, line: nat) {
    && log != []
    && var last := log[|log| - 1];
       WasCut(log[..|log| - 1], line) || (last.CutShort? && last.line == line)
  }

  /** Final replies in the whole log. */
  function Finals(log: seq<Entry>): nat {
    if log == [] then 0
    else
      var last := log[|log| - 1];
      Finals(log[..|log| - 1]) + (if last.Said? && Final(last.code) then 1 else 0)
  }

  /** Children killed. */
  function Cuts(log: seq<Entry>): nat {
    if log == [] then 0
    else Cuts(log[..|log| - 1]) + (if log[|log| - 1].CutShort? then 1 else 0)
  }

  function ChildOf(st: State, line: nat): Option<Child> {
    if line in st.children then Some(st.children[line]) else None
  }

  function Pending(st: State, line: nat): seq<int> {
    if line in st.children then st.children[line].script else []
  }

  lemma LogOne(log: seq<Entry>, entry: Entry, line: nat)
    ensures SaidTo(log + [entry], line) ==
      SaidTo(log, line) + (if entry.Said? && entry.line == line then [entry.code] else [])
    ensures WasCut(log + [entry], line) <==> WasCut(log, line) || (entry.CutShort? && entry.line == line)
  {
    assert (log + [entry])[..|log|] == log;
  }

  lemma CountOne(log: seq<Entry>, entry: Entry)
    ensures Finals(log + [entry]) == Finals(log) + (if entry.Said? && Final(entry.code) then 1 else 0)
    ensures Cuts(log + [entry]) == Cuts(log) + (if entry.CutShort? then 1 else 0)
  {
    assert (log + [entry])[..|log|] == log;
  }

  /** Neither a reply to a line nor the end of a child. */
  predicate Silent(entry: Entry) {
    !entry.Said? && !entry.CutShort?
  }

  lemma {:induction false} SilentAppend(log: seq<Entry>, more: seq<Entry>, line: nat)
    requires forall k :: 0 <= k < |more| ==> Silent(more[k])
    ensures SaidTo(log + more, line) == SaidTo(log, line) && (WasCut(log + more, line) <==> WasCut(log, line))
    ensures Finals(log + more) == Finals(log) && Cuts(log + more) == Cuts(log)
  {
    if more == [] {
      assert log + more == log;
    } else {
      var front, last := more[..|more| - 1], more[|more| - 1];
      assert log + more == (log + front) + [last];
      LogOne(log + front, last, line);
      CountOne(log + front, last);
      SilentAppend(log, front, line);
    }
  }

  /** What was said to a line that was read and, if it has a child, what the child has still to say:
      nothing ends a line but a complete answer, or the death of its child after 150. */
  predicate Settled(said: seq<int>, cut: bool, child: Option<Child>) {
    match child
    case Some(c) => !cut && c.script != [] && Script(c.job, said + c.script)
    case None => if cut then said == [150] else Complete(said)
  }

  ghost predicate LineSound(st: State, line: nat) {
    if line < st.lines then Settled(SaidTo(st.log, line), WasCut(st.log, line), ChildOf(st, line))
    else SaidTo(st.log, line) == [] && !WasCut(st.log, line) && line !in st.children
  }

  /** A line that a step does not touch. */
  lemma LineCarries(st: State, t: State, line: nat)
    requires LineSound(st, line) && (line < st.lines <==> line < t.lines)
    requires SaidTo(t.log, line) == SaidTo(st.log, line) && WasCut(t.log, line) == WasCut(st.log, line)
    requires ChildOf(t, line) == ChildOf(st, line)
    ensures LineSound(t, line)
  {
    hide Settled;
  }

  /** A line's replies go to the connection it was read from. */
  ghost predicate Addressed(st: State) {
    && (forall e, f :: e in st.log && f in st.log && e.Took? && f.Took? && e.line == f.line ==> e.id == f.id)
    && (forall e :: e in st.log && !Silent(e) ==> Took(e.id, e.line) in st.log)
    && (forall n :: n in st.children ==> Took(st.children[n].id, n) in st.log)
    && (forall e :: e in st.log && (e.Took? || !Silent(e)) ==> e.line < st.lines)
  }

  /** Every line has its final reply, its child, or a child that was killed. */
  ghost predicate Counted(st: State) {
    Finals(st.log) + |st.children| + Cuts(st.log) == st.lines
  }

  ghost predicate RepliesSound(st: State) {
    && Addressed(st)
    && (forall n: nat :: LineSound(st, n))
    && Counted(st)
  }

  lemma ScriptsComplete(job: Job, script: seq<int>)
    requires Script(job, script)
    ensures Complete(script) && script != []
  {
  }

  // ---------------------------------------------------------------- a line is read

  lemma HandledLog(st: State, i: nat, r: Result, script: seq<int>, line: nat)
    requires i < |st.slots| && st.slots[i].Live? && r.Done?
    requires r.response.Answer? ==> Final(r.response.code)
    ensures var t := Handled(st, i, r, script);
      && SaidTo(t.log, line) == SaidTo(st.log, line) +
           (if r.response.Answer? && line == st.lines then [r.response.code] else [])
      && (WasCut(t.log, line) <==> WasCut(st.log, line))
      && Finals(t.log) == Finals(st.log) + (if r.response.Answer? then 1 else 0)
      && Cuts(t.log) == Cuts(st.log)
  {
    var id, n := st.slots[i].id, st.lines;
    var took, answers := [Took(id, n)], Answers(id, n, r.response);
    var tail := if r.status == Quit then [Destroyed(id)] else [];
    assert st.log + (took + answers + tail) == st.log + took + answers + tail;
    hide SaidTo;
    hide WasCut;
    hide Finals;
    hide Cuts;
    SilentAppend(st.log, took, line);
    if r.response.Answer? {
      LogOne(st.log + took, Said(id, n, r.response.code), line);
      CountOne(st.log + took, Said(id, n, r.response.code));
    } else {
      SilentAppend(st.log + took, answers, line);
    }
    SilentAppend(st.log + took + answers, tail, line);
  }

  lemma HandledReplies(st: State, i: nat, r: Result, script: seq<int>)
    requires RepliesSound(st) && i < |st.slots| && st.slots[i].Live? && r.Done?
    requires r.response.Answer? ==> Final(r.response.code)
    requires r.response.Launch? ==> Script(r.response.job, script)
    requires Addressed(Handled(st, i, r, script))
    ensures RepliesSound(Handled(st, i, r, script))
  {
    assert LineSound(st, st.lines);
    HandledCount(st, i, r, script);
    hide *;
    forall line: nat
      ensures LineSound(Handled(st, i, r, script), line)
    {
      HandledLine(st, i, r, script, line);
    }
  }

  lemma HandledCount(st: State, i: nat, r: Result, script: seq<int>)
    requires i < |st.slots| && st.slots[i].Live? && r.Done?
    requires r.response.Answer? ==> Final(r.response.code)
    requires Counted(st) && st.lines !in st.children
    ensures Counted(Handled(st, i, r, script))
  {
    HandledLog(st, i, r, script, st.lines);
    hide SaidTo;
    hide WasCut;
    hide Finals;
    hide Cuts;
    hide Answers;
  }

  /** A line that is answered at once is complete; one that starts a child awaits the child's script. */
  lemma HandledLine(st: State, i: nat, r: Result, script: seq<int>, line: nat)
    requires i < |st.slots| && st.slots[i].Live? && r.Done?
    requires r.response.Answer? ==> Final(r.response.code)
    requires r.response.Launch? ==> Script(r.response.job, script)
    requires LineSound(st, line)
    ensures LineSound(Handled(st, i, r, script), line)
  {
    HandledLog(st, i, r, script, line);
    hide SaidTo;
    hide WasCut;
    hide Finals;
    hide Cuts;
    hide Answers;
    var t := Handled(st, i, r, script);
    if line == st.lines {
      NewLine(st, i, r, script);
    } else {
      hide LineSound;
      LineCarries(st, t, line);
    }
  }

  lemma NewLine(st: State, i: nat, r: Result, script: seq<int>)
    requires i < |st.slots| && st.slots[i].Live? && r.Done?
    requires r.response.Answer? ==> Final(r.response.code)
    requires r.response.Launch? ==> Script(r.response.job, script)
    requires LineSound(st, st.lines)
    ensures LineSound(Handled(st, i, r, script), st.lines)
  {
    HandledLog(st, i, r, script, st.lines);
    if r.response.Launch? {
      ScriptsComplete(r.response.job, script);
    }
    hide SaidTo;
    hide WasCut;
    hide Script;
    hide Finals;
    hide Cuts;
    hide Answers;
    assert [] + script == script;
  }

  lemma HandledAddressed(st: State, i: nat, r: Result, script: seq<int>)
    requires Addressed(st) && i < |st.slots| && st.slots[i].Live? && r.Done?
    ensures Addressed(Handled(st, i, r, script))
  {
    var id, n := st.slots[i].id, st.lines;
    var t := Handled(st, i, r, script);
    var added := [Took(id, n)] + Answers(id, n, r.response) + (if r.status == Quit then [Destroyed(id)] else []);
    assert t.log == st.log + added;
    AddedEntries(id, n, r);
    hide Answers;
    assert forall e :: e in t.log <==> e in st.log || e in added;
  }

  lemma AddedEntries(id: nat, n: nat, r: Result)
    requires r.Done?
    ensures var added := [Took(id, n)] + Answers(id, n, r.response)
                         + (if r.status == Quit then [Destroyed(id)] else []);
      && Took(id, n) in added
      && forall e :: e in added ==> e == Took(id, n) || e.Destroyed? || (e.Said? && e.id == id && e.line == n)
  {
    var added := [Took(id, n)] + Answers(id, n, r.response) + (if r.status == Quit then [Destroyed(id)] else []);
    assert added[0] == Took(id, n);
  }

  // ---------------------------------------------------------------- a child speaks, or is killed

  /** A file that cannot be opened changes what is still to be said, and the answer is still complete. */
  lemma OpenedReplies(site: Site, st: State, line: nat)
    requires RepliesSound(st) && line in st.children
    ensures RepliesSound(Opened(site, st, line))
    ensures line in Opened(site, st, line).children && Opened(site, st, line).children[line].script != []
  {
    assert LineSound(st, line);
    OpenedLine(site, st, line, line);
    OpenedFrame(site, st, line);
    var t := Opened(site, st, line);
    hide Opened;
    forall n: nat
      ensures LineSound(t, n)
    {
      assert LineSound(st, n);
      OpenedLine(site, st, line, n);
    }
  }

  lemma OpenedFrame(site: Site, st: State, line: nat)
    requires line in st.children
    ensures var t := Opened(site, st, line);
      && t.log == st.log && t.lines == st.lines && t.children.Keys == st.children.Keys && |t.children| == |st.children|
      && (forall n :: n in t.children ==> t.children[n].id == st.children[n].id)
  {
    hide Target;
    var t := Opened(site, st, line);
    assert t.children.Keys == st.children.Keys;
    assert |t.children| == |t.children.Keys| && |st.children| == |st.children.Keys|;
  }

  lemma OpenedLine(site: Site, st: State, line: nat, n: nat)
    requires line in st.children && LineSound(st, line) && LineSound(st, n)
    ensures LineSound(Opened(site, st, line), n)
    ensures line in Opened(site, st, line).children && Opened(site, st, line).children[line].script != []
  {
    hide Target;
    hide SaidTo;
    hide WasCut;
    var t, child := Opened(site, st, line), st.children[line];
    if n == line && child.job.Store? && child.script == [150, 226] {
      var said := SaidTo(st.log, n);
      assert |said + [150, 226]| == 2 && said == [];
      assert said + [150, 451] == [150, 451];
    }
  }

  /** A child's next reply only moves from what is pending to what was said. */
  lemma SpokenLine(st: State, line: nat, n: nat)
    requires line in st.children && LineSound(st, line) && LineSound(st, n)
    ensures st.children[line].script != [] && LineSound(Spoken(st, line), n)
  {
    hide SaidTo;
    hide WasCut;
    hide Script;
    var t := Spoken(st, line);
    var Child(id, job, place, script) := st.children[line];
    LogOne(st.log, Said(id, line, script[0]), n);
    if n == line {
      hide Complete;
      var said := SaidTo(st.log, n);
      assert said + script == (said + [script[0]]) + script[1..];
      ScriptsComplete(job, said + script);
      if |script| == 1 {
        assert (said + [script[0]]) + script[1..] == said + [script[0]];
      }
    } else {
      assert ChildOf(t, n) == ChildOf(st, n);
      hide LineSound;
      LineCarries(st, t, n);
    }
  }

  /** Only the last reply of a script is final, and with it the child is gone. */
  lemma SpokenCount(st: State, line: nat)
    requires line in st.children && LineSound(st, line)
    ensures st.children[line].script != []
    ensures var t := Spoken(st, line);
      Finals(t.log) + |t.children| == Finals(st.log) + |st.children| && Cuts(t.log) == Cuts(st.log)
  {
    var t := Spoken(st, line);
    var Child(id, job, place, script) := st.children[line];
    var whole := SaidTo(st.log, line) + script;
    ScriptsComplete(job, whole);
    assert whole[|SaidTo(st.log, line)|] == script[0];
    CountOne(st.log, Said(id, line, script[0]));
    if |script| == 1 {
      Removed(st.children, line);
    } else {
      assert t.children.Keys == st.children.Keys;
      assert |t.children| == |t.children.Keys| && |st.children| == |st.children.Keys|;
    }
  }

  lemma SpokenCounted(st: State, line: nat)
    requires Counted(st) && line in st.children && LineSound(st, line) && st.children[line].script != []
    ensures Counted(Spoken(st, line))
  {
    SpokenCount(st, line);
    hide LineSound;
  }

  lemma SpokenReplies(st: State, line: nat)
    requires RepliesSound(st) && line in st.children && st.children[line].script != []
    requires Addressed(Spoken(st, line))
    ensures RepliesSound(Spoken(st, line))
  {
    assert LineSound(st, line);
    SpokenCounted(st, line);
    hide *;
    forall n: nat
      ensures LineSound(Spoken(st, line), n)
    {
      SpokenLine(st, line, n);
    }
  }

  lemma Removed(children: map<nat, Child>, line: nat)
    requires line in children
    ensures |children - {line}| == |children| - 1
  {
    assert (children - {line}).Keys == children.Keys - {line};
  }

  lemma SpokenAddressed(st: State, line: nat)
    requires Addressed(st) && line in st.children && st.children[line].script != []
    ensures Addressed(Spoken(st, line))
  {
    var t, child := Spoken(st, line), st.children[line];
    var entry := Said(child.id, line, child.script[0]);
    assert forall e :: e in t.log <==> e in st.log || e == entry;
  }

  /** A child that is killed has said 150 and nothing else. */
  lemma KilledLine(st: State, line: nat, n: nat)
    requires line in st.children && Sending(st.children[line]) && LineSound(st, line) && LineSound(st, n)
    ensures LineSound(Killed(st, line), n)
  {
    var t := Killed(st, line);
    LogOne(st.log, CutShort(st.children[line].id, line), n);
    hide SaidTo;
    hide WasCut;
    if n == line {
      var said := SaidTo(st.log, n);
      LastIs226(st.children[line].job, said);
    } else {
      assert ChildOf(t, n) == ChildOf(st, n);
      hide LineSound;
      LineCarries(st, t, n);
    }
  }

  lemma LastIs226(job: Job, said: seq<int>)
    requires Script(job, said + [226])
    ensures said == [150]
  {
    var script := said + [226];
    assert script[|said|] == 226;
    assert script == [150, 226];
    assert said == script[..|said|];
  }

  lemma KilledAddressed(st: State, line: nat)
    requires Addressed(st) && line in st.children
    ensures Addressed(Killed(st, line))
  {
    var t, entry := Killed(st, line), CutShort(st.children[line].id, line);
    assert forall e :: e in t.log <==> e in st.log || e == entry;
  }

  lemma KilledReplies(st: State, line: nat)
    requires RepliesSound(st) && line in st.children && Sending(st.children[line])
    ensures RepliesSound(Killed(st, line))
  {
    var t, entry := Killed(st, line), CutShort(st.children[line].id, line);
    KilledAddressed(st, line);
    CountOne(st.log, entry);
    Removed(st.children, line);
    hide Addressed;
    hide LineSound;
    hide Sending;
    hide Finals;
    hide Cuts;
    forall n: nat
      ensures LineSound(t, n)
    {
      KilledLine(st, line, n);
    }
  }

  // ---------------------------------------------------------------- everything else

  /** Steps that write no reply to a line and end no child. */
  lemma SilentStep(st: State, t: State, more: seq<Entry>)
    requires RepliesSound(st)
    requires t.log == st.log + more && t.children == st.children && t.lines == st.lines
    requires forall k :: 0 <= k < |more| ==> Silent(more[k]) && !more[k].Took?
    ensures RepliesSound(t)
  {
    assert forall e :: e in t.log && (!Silent(e) || e.Took?) ==> e in st.log;
    assert forall e :: e in st.log ==> e in t.log;
    assert Addressed(t);
    hide Addressed;
    forall n: nat
      ensures LineSound(t, n)
    {
      assert LineSound(st, n);
      SilentAppend(st.log, more, n);
      assert ChildOf(t, n) == ChildOf(st, n);
    }
    SilentAppend(st.log, more, 0);
  }

  lemma {:induction false} FarewellsSilent(slots: seq<Slot>)
    ensures forall k :: 0 <= k < |Farewells(slots)| ==> Silent(Farewells(slots)[k]) && !Farewells(slots)[k].Took?
  {
    if slots == [] {
    } else {
      FarewellsSilent(slots[1..]);
    }
  }

  lemma LineReplies(site: Site, st: State, e: Event)
    requires RepliesSound(st) && e.Line? && Next(site, st, e).Some?
    ensures RepliesSound(Next(site, st, e).value)
  {
    hide RepliesSound;
    hide Handled;
    hide Execute;
    hide Proper;
    hide ParseLine;
    hide Script;
    hide Complete;
    var Line(i, raw, o, script) := e;
    var s := st.slots[i].session;
    AnswersAreFinal(site, s, st.world, ParseLine(raw), o);
    var r := Execute(site, s, st.world, ParseLine(raw), o);
    assert Addressed(st) by { SoundIsAddressed(st); }
    HandledAddressed(st, i, r, script);
    HandledReplies(st, i, r, script);
  }

  lemma SoundIsAddressed(st: State)
    requires RepliesSound(st)
    ensures Addressed(st)
  {
  }

  lemma SpeakReplies(site: Site, st: State, line: nat)
    requires RepliesSound(st) && line in st.children
    ensures Opened(site, st, line).children[line].script != []
    ensures RepliesSound(Spoken(Opened(site, st, line), line))
  {
    hide RepliesSound;
    hide Opened;
    hide Spoken;
    OpenedReplies(site, st, line);
    var t := Opened(site, st, line);
    SoundIsAddressed(t);
    SpokenAddressed(t, line);
    SpokenReplies(t, line);
  }

  lemma ConnectReplies(site: Site, st: State, fd: int)
    requires RepliesSound(st)
    ensures RepliesSound(Connected(site, st, fd))
  {
    hide RepliesSound;
    hide NewSession;
    SilentStep(st, Connected(site, st, fd), if FirstFree(st.slots) == |st.slots| then [] else [Slotted(st.born)]);
  }

  lemma StopReplies(st: State)
    requires RepliesSound(st)
    ensures RepliesSound(Stopped(st))
  {
    hide RepliesSound;
    FarewellsSilent(st.slots);
    SilentStep(st, Stopped(st), Farewells(st.slots));
  }

  lemma RepliesKept(site: Site, st: State, e: Event)
    requires RepliesSound(st) && Next(site, st, e).Some?
    ensures RepliesSound(Next(site, st, e).value)
  {
    hide RepliesSound;
    hide Execute;
    hide Proper;
    hide Connected;
    hide Opened;
    hide Spoken;
    hide Killed;
    hide Stopped;
    hide Handled;
    match e
    case Line(_, _, _, _) => LineReplies(site, st, e);
    case Connect(fd) => ConnectReplies(site, st, fd);
    case Speak(line) => SpeakReplies(site, st, line);
    case CutOff(line) => KilledReplies(st, line);
    case Stop => StopReplies(st);
    case _ => SilentStep(st, Next(site, st, e).value, []);
  }

  lemma InitReplies(site: Site, tree: Tree)
    ensures RepliesSound(Init(site, tree))
  {
  }

  /** On every reachable state, in every interleaving. */
  lemma {:induction false} RepliesInRun(site: Site, tree: Tree, es: seq<Event>)
    requires Run(site, tree, es).Some?
    ensures RepliesSound(Run(site, tree, es).value)
    decreases |es|
  {
    hide RepliesSound;
    hide Next;
    if es == [] {
      InitReplies(site, tree);
    } else {
      RepliesInRun(site, tree, es[..|es| - 1]);
      RepliesKept(site, Run(site, tree, es[..|es| - 1]).value, es[|es| - 1]);
    }
  }

  /** What a line has been told, with what its child has still to tell, is a complete answer iff its
      child was not killed; and if it was, the line has been told 150. */
  lemma CompleteUnlessCut(site: Site, tree: Tree, es: seq<Event>, line: nat)
    requires Run(site, tree, es).Some? && line < Run(site, tree, es).value.lines
    ensures var st := Run(site, tree, es).value;
      && (Complete(SaidTo(st.log, line) + Pending(st, line)) <==> !WasCut(st.log, line))
      && (WasCut(st.log, line) ==> SaidTo(st.log, line) == [150] && line !in st.children)
  {
    RepliesInRun(site, tree, es);
    SettledMeans(Run(site, tree, es).value, line);
  }

  lemma SettledMeans(st: State, line: nat)
    requires LineSound(st, line) && line < st.lines
    ensures Complete(SaidTo(st.log, line) + Pending(st, line)) <==> !WasCut(st.log, line)
    ensures WasCut(st.log, line) ==> SaidTo(st.log, line) == [150] && line !in st.children
  {
    var said := SaidTo(st.log, line);
    assert said + [] == said;
    if line in st.children {
      ScriptsComplete(st.children[line].job, said + st.children[line].script);
    }
  }

  /** Once no child is running, a line has been answered completely iff its child was not killed, and the
      final replies are as many as the lines, less the children killed. */
  lemma AllAnswered(site: Site, tree: Tree, es: seq<Event>)
    requires Run(site, tree, es).Some? && Run(site, tree, es).value.children == map[]
    ensures var st := Run(site, tree, es).value;
      && (forall n: nat :: n < st.lines ==> (Complete(SaidTo(st.log, n)) <==> !WasCut(st.log, n)))
      && Finals(st.log) + Cuts(st.log) == st.lines
  {
    RepliesInRun(site, tree, es);
    var st := Run(site, tree, es).value;
    hide Run;
    forall n: nat | n < st.lines
      ensures Complete(SaidTo(st.log, n)) <==> !WasCut(st.log, n)
    {
      SettledMeans(st, n);
      assert SaidTo(st.log, n) + Pending(st, n) == SaidTo(st.log, n);
    }
  }

  /** Neither a busy loop nor a stopped one keeps a child from its next reply. Whether the data
      connection takes the bytes that come before 226 is another matter, see Download. */
  lemma ChildrenCanSpeak(site: Site, tree: Tree, es: seq<Event>, line: nat)
    requires Run(site, tree, es).Some? && line in Run(site, tree, es).value.children
    ensures Run(site, tree, es + [Speak(line)]).Some?
  {
    RepliesInRun(site, tree, es);
    assert LineSound(Run(site, tree, es).value, line);
    RunStep(site, tree, es, Speak(line));
  }
}
