/** The slot table and the life of a connection, on every reachable state. */
module SlotTable {
  import opened LibC
  import opened CommandParser
  import opened FileTree
  import opened Commands
  import opened SessionLaws
  import opened EventLoop

  function LiveCount(slots: seq<Slot>): nat {
    if slots == [] then 0 else (if slots[0].Live? then 1 else 0) + LiveCount(slots[1..])
  }

  lemma {:induction false} LiveCountUpdate(slots: seq<Slot>, i: nat, slot: Slot)
    requires i < |slots|
    ensures LiveCount(slots[i := slot]) ==
      LiveCount(slots) + (if slot.Live? then 1 else 0) - (if slots[i].Live? then 1 else 0)
  {
    if i > 0 {
      assert slots[i := slot][1..] == slots[1..][i - 1 := slot];
      LiveCountUpdate(slots[1..], i - 1, slot);
    } else {
      assert slots[i := slot][1..] == slots[1..];
    }
  }

  lemma {:induction false} NoneLive(slots: seq<Slot>)
    requires forall k :: 0 <= k < |slots| ==> slots[k].Free?
    ensures LiveCount(slots) == 0
  {
    if slots == [] {
    } else {
      NoneLive(slots[1..]);
    }
  }

  // ---------------------------------------------------------------- counting log entries

  datatype Kind = Arrivals | Byes | Ends

  predicate Is(entry: Entry, kind: Kind, id: nat) {
    match kind
    case Arrivals => entry == Slotted(id)
    case Byes => entry == Farewell(id) || (entry.Said? && entry.id == id && entry.code == 221)
    case Ends => entry == Destroyed(id)
  }

  function Tally(log: seq<Entry>, kind: Kind, id: nat): nat {
    if log == [] then 0 else (if Is(log[0], kind, id) then 1 else 0) + Tally(log[1..], kind, id)
  }

  lemma {:induction false} TallyAppend(a: seq<Entry>, b: seq<Entry>, kind: Kind, id: nat)
    ensures Tally(a + b, kind, id) == Tally(a, kind, id) + Tally(b, kind, id)
  {
    if a == [] {
      assert a + b == b;
    } else {
      assert (a + b)[1..] == a[1..] + b;
      TallyAppend(a[1..], b, kind, id);
    }
  }

  /** All connections destroyed so far. */
  function Ended(log: seq<Entry>): nat {
    if log == [] then 0 else (if log[0].Destroyed? then 1 else 0) + Ended(log[1..])
  }

  lemma {:induction false} EndedAppend(a: seq<Entry>, b: seq<Entry>)
    ensures Ended(a + b) == Ended(a) + Ended(b)
  {
    if a == [] {
      assert a + b == b;
    } else {
      assert (a + b)[1..] == a[1..] + b;
      EndedAppend(a[1..], b);
    }
  }

  // ---------------------------------------------------------------- the table

  ghost predicate DistinctLive(slots: seq<Slot>) {
    forall j, k :: 0 <= j < k < |slots| && slots[j].Live? && slots[k].Live? ==>
      slots[j].fd != slots[k].fd && slots[j].id != slots[k].id
  }

  ghost predicate HasLive(slots: seq<Slot>, id: nat) {
    exists k :: 0 <= k < |slots| && slots[k].Live? && slots[k].id == id
  }

  /** Live descriptors and identities are pairwise distinct, and the live connections are those
      that arrived and were not destroyed. */
  ghost predicate TableSound(st: State) {
    && |st.slots| == MAX_CLIENTS
    && (forall k :: 0 <= k < |st.slots| && st.slots[k].Live? ==> st.slots[k].fd >= 0 && st.slots[k].id < st.born)
    && DistinctLive(st.slots)
    && LiveCount(st.slots) + Ended(st.log) == st.born
    && (st.stopped ==> forall k :: 0 <= k < |st.slots| ==> st.slots[k].Free?)
  }

  lemma TableKept(site: Site, st: State, e: Event)
    requires TableSound(st) && Next(site, st, e).Some?
    ensures TableSound(Next(site, st, e).value)
  {
    hide Execute;
    hide Proper;
    hide ParseLine;
    hide Script;
    hide NewSession;
    hide Handled;
    hide Opened;
    hide Spoken;
    hide Farewells;
    hide LiveCount;
    var t := Next(site, st, e).value;
    match e
    case Connect(fd) =>
      var i := FirstFree(st.slots);
      if i < |st.slots| {
        LiveCountUpdate(st.slots, i, t.slots[i]);
        EndedAppend(st.log, [Slotted(st.born)]);
      }
    case Line(i, raw, o, script) =>
      var r := Execute(site, st.slots[i].session, st.world, ParseLine(raw), o);
      HandledTable(st, i, r, script);
    case Speak(line) =>
      OpenedTable(site, st, line);
      SpokenTable(Opened(site, st, line), line);
    case CutOff(line) => EndedAppend(st.log, [CutShort(st.children[line].id, line)]);
    case Stop =>
      FarewellsEnd(st.slots);
      EndedAppend(st.log, Farewells(st.slots));
      NoneLive(t.slots);
    case _ =>
  }

  lemma OpenedTable(site: Site, st: State, line: nat)
    requires TableSound(st) && line in st.children
    ensures TableSound(Opened(site, st, line))
    ensures line in Opened(site, st, line).children
    ensures st.children[line].script != [] ==> Opened(site, st, line).children[line].script != []
  {
    hide Target;
  }

  lemma SpokenTable(st: State, line: nat)
    requires TableSound(st) && line in st.children && st.children[line].script != []
    ensures TableSound(Spoken(st, line))
  {
    var child := st.children[line];
    EndedAppend(st.log, [Said(child.id, line, child.script[0])]);
  }

  lemma HandledTable(st: State, i: nat, r: Result, script: seq<int>)
    requires TableSound(st) && i < |st.slots| && st.slots[i].Live? && r.Done?
    ensures !st.stopped ==> TableSound(Handled(st, i, r, script))
  {
    var id, n := st.slots[i].id, st.lines;
    var t := Handled(st, i, r, script);
    LiveCountUpdate(st.slots, i, t.slots[i]);
    var answers, tail := Answers(id, n, r.response), if r.status == Quit then [Destroyed(id)] else [];
    EndedAppend(st.log, [Took(id, n)] + answers + tail);
    EndedAppend([Took(id, n)] + answers, tail);
    EndedAppend([Took(id, n)], answers);
  }

  lemma {:induction false} FarewellsEnd(slots: seq<Slot>)
    ensures Ended(Farewells(slots)) == LiveCount(slots)
  {
    if slots == [] {
    } else {
      FarewellsEnd(slots[1..]);
      if slots[0].Live? {
        var id := slots[0].id;
        EndedAppend([Farewell(id), Destroyed(id)], Farewells(slots[1..]));
        assert Ended([Farewell(id), Destroyed(id)]) == 1 + Ended([]) by {
          assert [Farewell(id), Destroyed(id)][1..] == [Destroyed(id)];
        }
      }
    }
  }

  /** On every reachable state. In particular there are never more live connections than slots. */
  lemma {:induction false} TableInRun(site: Site, tree: Tree, es: seq<Event>)
    requires Run(site, tree, es).Some?
    ensures TableSound(Run(site, tree, es).value)
    ensures LiveCount(Run(site, tree, es).value.slots) <= MAX_CLIENTS
    decreases |es|
  {
    hide Next;
    hide Proper;
    if es == [] {
      NoneLive(Init(site, tree).slots);
    } else {
      TableInRun(site, tree, es[..|es| - 1]);
      TableKept(site, Run(site, tree, es[..|es| - 1]).value, es[|es| - 1]);
    }
    LiveCountBound(Run(site, tree, es).value.slots);
  }

  lemma LiveCountBound(slots: seq<Slot>)
    ensures LiveCount(slots) <= |slots|
  {
    if slots != [] { LiveCountBound(slots[1..]); }
  }

  // ---------------------------------------------------------------- from arrival to destruction

  /** A live connection has been neither told goodbye nor destroyed. */
  ghost predicate StillAlive(st: State, id: nat) {
    HasLive(st.slots, id) && Tally(st.log, Byes, id) == 0 && Tally(st.log, Ends, id) == 0
  }

  /** A finished one has had each exactly once. */
  ghost predicate Gone(st: State, id: nat) {
    !HasLive(st.slots, id) && Tally(st.log, Byes, id) == 1 && Tally(st.log, Ends, id) == 1
  }

  /** Nothing is read from a connection after its destruction. */
  ghost predicate NoUseAfterEnd(log: seq<Entry>) {
    forall a, b :: 0 <= a < b < |log| && log[a].Destroyed? && log[b].Took? ==> log[b].id != log[a].id
  }

  ghost predicate ChildrenKnown(st: State) {
    forall n :: n in st.children ==> st.children[n].id < st.born && 221 !in st.children[n].script
  }

  ghost predicate IdsKnown(st: State) {
    forall k :: 0 <= k < |st.log| ==> st.log[k].id < st.born
  }

  ghost predicate LivesSound(st: State) {
    && TableSound(st)
    && (forall id :: 0 <= id < st.born ==> Tally(st.log, Arrivals, id) == 1 && (StillAlive(st, id) || Gone(st, id)))
    && NoUseAfterEnd(st.log)
    && ChildrenKnown(st)
    && IdsKnown(st)
  }

  lemma {:induction false} TallyNone(log: seq<Entry>, kind: Kind, id: nat)
    ensures Tally(log, kind, id) == 0 <==> forall k :: 0 <= k < |log| ==> !Is(log[k], kind, id)
  {
    if log == [] {
    } else {
      TallyNone(log[1..], kind, id);
      if forall k :: 0 <= k < |log| ==> !Is(log[k], kind, id) {
        assert forall k :: 0 <= k < |log[1..]| ==> log[1..][k] == log[k + 1];
      }
      if Tally(log, kind, id) == 0 {
        assert forall k :: 1 <= k < |log| ==> log[k] == log[1..][k - 1];
      }
    }
  }

  lemma TallyOfUnknown(st: State, kind: Kind)
    requires IdsKnown(st)
    ensures Tally(st.log, kind, st.born) == 0
  {
    TallyNone(st.log, kind, st.born);
  }

  /** Shutdown says goodbye to every live connection once and destroys it once. */
  lemma {:induction false} FarewellsTally(slots: seq<Slot>, id: nat)
    requires DistinctLive(slots)
    ensures var n := if HasLive(slots, id) then 1 else 0;
      && Tally(Farewells(slots), Byes, id) == n
      && Tally(Farewells(slots), Ends, id) == n
      && Tally(Farewells(slots), Arrivals, id) == 0
    ensures forall k :: 0 <= k < |Farewells(slots)| ==>
      var entry := Farewells(slots)[k];
      HasLive(slots, entry.id) && !entry.Took?
  {
    if slots == [] {
    } else {
      var rest := slots[1..];
      assert forall k :: 0 <= k < |rest| ==> rest[k] == slots[k + 1];
      FarewellsTally(rest, id);
      assert HasLive(slots, id) <==> (slots[0].Live? && slots[0].id == id) || HasLive(rest, id);
      assert forall i :: HasLive(rest, i) ==> HasLive(slots, i);
      if slots[0].Live? {
        var pair := [Farewell(slots[0].id), Destroyed(slots[0].id)];
        assert HasLive(slots, slots[0].id);
        TallyOfPair(slots[0].id, Byes, id);
        TallyOfPair(slots[0].id, Ends, id);
        TallyOfPair(slots[0].id, Arrivals, id);
        TallyAppend(pair, Farewells(rest), Byes, id);
        TallyAppend(pair, Farewells(rest), Ends, id);
        TallyAppend(pair, Farewells(rest), Arrivals, id);
      }
    }
  }

  lemma TallyOne(entry: Entry, kind: Kind, id: nat)
    ensures Tally([entry], kind, id) == if Is(entry, kind, id) then 1 else 0
  {
    assert [entry][1..] == [];
  }

  lemma TallyOfPair(owner: nat, kind: Kind, id: nat)
    ensures Tally([Farewell(owner), Destroyed(owner)], kind, id) == if kind != Arrivals && owner == id then 1 else 0
  {
    assert [Farewell(owner), Destroyed(owner)] == [Farewell(owner)] + [Destroyed(owner)];
    TallyAppend([Farewell(owner)], [Destroyed(owner)], kind, id);
    TallyOne(Farewell(owner), kind, id);
    TallyOne(Destroyed(owner), kind, id);
  }

  lemma ConnectLives(site: Site, st: State, fd: int)
    requires LivesSound(st) && TableSound(Connected(site, st, fd))
    ensures LivesSound(Connected(site, st, fd))
  {
    hide TableSound;
    hide NewSession;
    var t, i := Connected(site, st, fd), FirstFree(st.slots);
    if i < |st.slots| {
      forall id | 0 <= id < t.born
        ensures Tally(t.log, Arrivals, id) == 1 && (StillAlive(t, id) || Gone(t, id))
      {
        TallySlotted(st.log, st.born, Arrivals, id);
        TallySlotted(st.log, st.born, Byes, id);
        TallySlotted(st.log, st.born, Ends, id);
        if id == st.born {
          TallyOfUnknown(st, Arrivals);
          TallyOfUnknown(st, Byes);
          TallyOfUnknown(st, Ends);
          assert t.slots[i].Live? && t.slots[i].id == id;
        } else {
          LiveElsewhere(st.slots, i, t.slots[i], id);
        }
      }
    }
  }

  lemma TallySlotted(log: seq<Entry>, born: nat, kind: Kind, id: nat)
    ensures Tally(log + [Slotted(born)], kind, id) ==
      Tally(log, kind, id) + (if kind == Arrivals && id == born then 1 else 0)
  {
    TallyAppend(log, [Slotted(born)], kind, id);
    TallyOne(Slotted(born), kind, id);
  }

  /** Changing a slot that is not `id`'s, into one that is not, leaves `id` where it was. */
  lemma LiveElsewhere(slots: seq<Slot>, i: nat, slot: Slot, id: nat)
    requires i < |slots|
    requires (slots[i].Live? && slots[i].id == id) <==> (slot.Live? && slot.id == id)
    ensures HasLive(slots[i := slot], id) <==> HasLive(slots, id)
  {
    var t := slots[i := slot];
    if k :| 0 <= k < |slots| && slots[k].Live? && slots[k].id == id {
      assert t[k].Live? && t[k].id == id;
    }
    if k :| 0 <= k < |t| && t[k].Live? && t[k].id == id {
      assert slots[k].Live? && slots[k].id == id;
    }
  }

  lemma HandledLives(st: State, i: nat, r: Result, script: seq<int>)
    requires LivesSound(st) && i < |st.slots| && st.slots[i].Live? && r.Done?
    requires TableSound(Handled(st, i, r, script)) && 221 !in script
    requires r.response.Answer? ==> (r.response.code == 221 <==> r.status == Quit)
    requires r.status == Quit ==> r.response.Answer?
    ensures LivesSound(Handled(st, i, r, script))
  {
    var owner, n := st.slots[i].id, st.lines;
    var t := Handled(st, i, r, script);
    var added := [Took(owner, n)] + Answers(owner, n, r.response)
      + (if r.status == Quit then [Destroyed(owner)] else []);
    assert t.log == st.log + added;
    assert owner < st.born && HasLive(st.slots, owner);
    assert StillAlive(st, owner) || Gone(st, owner);
    forall id | 0 <= id < t.born
      ensures Tally(t.log, Arrivals, id) == 1 && (StillAlive(t, id) || Gone(t, id))
    {
      TallyAppend(st.log, added, Arrivals, id);
      TallyAppend(st.log, added, Byes, id);
      TallyAppend(st.log, added, Ends, id);
      HandledTally(owner, n, r, Arrivals, id);
      HandledTally(owner, n, r, Byes, id);
      HandledTally(owner, n, r, Ends, id);
      if r.status == Quit && id == owner {
        OnlyLiveThere(st.slots, i, id);
      } else {
        LiveElsewhere(st.slots, i, t.slots[i], id);
      }
    }
    NoUseAdded(st, owner, added);
  }

  lemma HandledTally(owner: nat, n: nat, r: Result, kind: Kind, id: nat)
    requires r.Done?
    requires r.response.Answer? ==> (r.response.code == 221 <==> r.status == Quit)
    requires r.status == Quit ==> r.response.Answer?
    ensures Tally([Took(owner, n)] + Answers(owner, n, r.response)
                    + (if r.status == Quit then [Destroyed(owner)] else []), kind, id)
      == if kind != Arrivals && r.status == Quit && id == owner then 1 else 0
  {
    var took, answers := [Took(owner, n)], Answers(owner, n, r.response);
    var tail := if r.status == Quit then [Destroyed(owner)] else [];
    TallyAppend(took + answers, tail, kind, id);
    TallyAppend(took, answers, kind, id);
    TallyOne(Took(owner, n), kind, id);
    TallyOne(Destroyed(owner), kind, id);
    if r.response.Answer? {
      TallyOne(Said(owner, n, r.response.code), kind, id);
    }
  }

  lemma OnlyLiveThere(slots: seq<Slot>, i: nat, id: nat)
    requires DistinctLive(slots) && i < |slots| && slots[i].Live? && slots[i].id == id
    ensures !HasLive(slots[i := Free], id)
  {
  }

  lemma NoUseAdded(st: State, owner: nat, added: seq<Entry>)
    requires NoUseAfterEnd(st.log) && Tally(st.log, Ends, owner) == 0
    requires forall k :: 0 <= k < |added| && added[k].Took? ==> k == 0 && added[k].id == owner
    ensures NoUseAfterEnd(st.log + added)
  {
    TallyNone(st.log, Ends, owner);
    var log := st.log + added;
    forall a, b | 0 <= a < b < |log| && log[a].Destroyed? && log[b].Took?
      ensures log[b].id != log[a].id
    {
      if b >= |st.log| {
        assert added[b - |st.log|] == log[b];
        assert st.log[a] == log[a] && !Is(st.log[a], Ends, owner);
      }
    }
  }

  lemma OpenedLives(site: Site, st: State, line: nat)
    requires LivesSound(st) && line in st.children && TableSound(Opened(site, st, line))
    ensures LivesSound(Opened(site, st, line))
  {
    hide TableSound;
    hide Target;
    var t := Opened(site, st, line);
    forall id | 0 <= id < t.born
      ensures Tally(t.log, Arrivals, id) == 1 && (StillAlive(t, id) || Gone(t, id))
    {
      assert StillAlive(st, id) || Gone(st, id);
    }
  }

  lemma SpokenLives(st: State, line: nat)
    requires LivesSound(st) && line in st.children && st.children[line].script != []
    requires TableSound(Spoken(st, line))
    ensures LivesSound(Spoken(st, line))
  {
    hide TableSound;
    var t, child := Spoken(st, line), st.children[line];
    var said := Said(child.id, line, child.script[0]);
    assert child.script[0] in child.script;
    forall id | 0 <= id < t.born
      ensures Tally(t.log, Arrivals, id) == 1 && (StillAlive(t, id) || Gone(t, id))
    {
      TallyAppend(st.log, [said], Arrivals, id);
      TallyAppend(st.log, [said], Byes, id);
      TallyAppend(st.log, [said], Ends, id);
      assert StillAlive(st, id) || Gone(st, id);
    }
    forall n | n in t.children
      ensures t.children[n].id < t.born && 221 !in t.children[n].script
    {
      assert n in st.children;
      assert n == line ==> forall c :: c in child.script[1..] ==> c in child.script;
    }
  }

  lemma KilledLives(st: State, line: nat)
    requires LivesSound(st) && line in st.children
    requires TableSound(Killed(st, line))
    ensures LivesSound(Killed(st, line))
  {
    hide TableSound;
    var t, id := Killed(st, line), st.children[line].id;
    forall k | 0 <= k < t.born
      ensures Tally(t.log, Arrivals, k) == 1 && (StillAlive(t, k) || Gone(t, k))
    {
      TallyAppend(st.log, [CutShort(id, line)], Arrivals, k);
      TallyAppend(st.log, [CutShort(id, line)], Byes, k);
      TallyAppend(st.log, [CutShort(id, line)], Ends, k);
      assert StillAlive(st, k) || Gone(st, k);
    }
  }

  lemma StoppedLives(st: State)
    requires LivesSound(st) && TableSound(Stopped(st))
    ensures LivesSound(Stopped(st))
  {
    var t, added := Stopped(st), Farewells(st.slots);
    forall id | 0 <= id < t.born
      ensures Tally(t.log, Arrivals, id) == 1 && Gone(t, id)
    {
      TallyAppend(st.log, added, Arrivals, id);
      TallyAppend(st.log, added, Byes, id);
      TallyAppend(st.log, added, Ends, id);
      FarewellsTally(st.slots, id);
      assert StillAlive(st, id) || Gone(st, id);
    }
    FarewellsTally(st.slots, 0);
    forall k | 0 <= k < |t.log|
      ensures t.log[k].id < t.born
    {
      if k >= |st.log| { assert t.log[k] == added[k - |st.log|]; }
    }
    assert forall k :: |st.log| <= k < |t.log| ==> t.log[k] == added[k - |st.log|] && !t.log[k].Took?;
  }

  lemma LivesKept(site: Site, st: State, e: Event)
    requires LivesSound(st) && Next(site, st, e).Some?
    ensures LivesSound(Next(site, st, e).value)
  {
    TableKept(site, st, e);
    if e.Line? {
      LineKept(site, st, e);
    } else {
      hide Execute;
      hide Proper;
      hide TableSound;
      hide NewSession;
      hide Opened;
      hide Spoken;
      hide Killed;
      hide Stopped;
      hide Connected;
      match e
      case Connect(fd) => ConnectLives(site, st, fd);
      case Speak(line) =>
        OpenedTable(site, st, line);
        OpenedLives(site, st, line);
        SpokenLives(Opened(site, st, line), line);
      case CutOff(line) => KilledLives(st, line);
      case Stop => StoppedLives(st);
      case Environment(tree) => LivesElsewhere(st, Next(site, st, e).value);
      case Hangup(_) =>
    }
  }

  /** The world has no part in it. */
  lemma LivesElsewhere(st: State, t: State)
    requires LivesSound(st) && TableSound(t)
    requires t == st.(world := t.world)
    ensures LivesSound(t)
  {
    hide TableSound;
    forall id | 0 <= id < t.born
      ensures Tally(t.log, Arrivals, id) == 1 && (StillAlive(t, id) || Gone(t, id))
    {
      assert StillAlive(st, id) || Gone(st, id);
    }
  }

  lemma LineKept(site: Site, st: State, e: Event)
    requires LivesSound(st) && e.Line? && Next(site, st, e).Some?
    requires TableSound(Next(site, st, e).value)
    ensures LivesSound(Next(site, st, e).value)
  {
    hide LivesSound;
    hide TableSound;
    hide Handled;
    hide Execute;
    hide Proper;
    hide ParseLine;
    var Line(i, raw, o, script) := e;
    var s := st.slots[i].session;
    AnswersAreFinal(site, s, st.world, ParseLine(raw), o);
    LineLives(st, i, Execute(site, s, st.world, ParseLine(raw), o), script);
  }

  /** A script that no child gets does not matter. */
  lemma LineLives(st: State, i: nat, r: Result, script: seq<int>)
    requires LivesSound(st) && i < |st.slots| && st.slots[i].Live? && r.Done?
    requires TableSound(Handled(st, i, r, script))
    requires r.response.Launch? ==> 221 !in script
    requires r.response.Answer? ==> (r.response.code == 221 <==> r.status == Quit)
    requires r.status == Quit ==> r.response.Answer?
    ensures LivesSound(Handled(st, i, r, script))
  {
    var used := if r.response.Launch? then script else [];
    assert Handled(st, i, r, used) == Handled(st, i, r, script);
    HandledLives(st, i, r, used);
  }

  /** On every reachable state each connection that got a slot is either live, untouched, or has been
      told goodbye once and destroyed once; and none is read from after its destruction. */
  lemma {:induction false} LivesInRun(site: Site, tree: Tree, es: seq<Event>)
    requires Run(site, tree, es).Some?
    ensures LivesSound(Run(site, tree, es).value)
    decreases |es|
  {
    TableInRun(site, tree, es);
    if es == [] {
    } else {
      LivesInRun(site, tree, es[..|es| - 1]);
      LivesKept(site, Run(site, tree, es[..|es| - 1]).value, es[|es| - 1]);
    }
  }

  /** Once the server has stopped, every connection that ever got a slot has received exactly one 221
      and has been destroyed exactly once. */
  lemma EndOfLife(site: Site, tree: Tree, es: seq<Event>, id: nat)
    requires Run(site, tree, es).Some? && Run(site, tree, es).value.stopped
    requires id < Run(site, tree, es).value.born
    ensures var log := Run(site, tree, es).value.log;
      Tally(log, Arrivals, id) == Tally(log, Byes, id) == Tally(log, Ends, id) == 1
  {
    LivesInRun(site, tree, es);
    var st := Run(site, tree, es).value;
    assert !HasLive(st.slots, id);
    assert StillAlive(st, id) || Gone(st, id);
  }
}
