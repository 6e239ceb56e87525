/** The main loop over `fds[]` and `connections[]`, proved to follow the transition system:
    src/connection.c, src/client_handler.c, src/destroyers.c. */
module ServerLoop {
  import opened LibC
  import opened CommandParser
  import opened FileTree
  import opened Commands
  import opened SessionLaws
  import opened Handlers
  import opened EventLoop
  import opened SlotTable

  /** What one turn of the loop meets outside the program. The three sequences are indexed like
      `fds[]`; `arrived` is what a connection's stream has to offer, nothing when it was lost. */
  datatype Round = Round(
    tree: Tree,                  // the file system as it is now
    pollFails: bool,
    connecting: Option<int>,     // a client is waiting; the descriptor it would get
    ready: seq<bool>,
    arrived: seq<string>,
    outcomes: seq<Outcome>)

  ghost predicate ProperRound(site: Site, round: Round) {
    Sized(round) && Proper(site, round.tree)
  }

  predicate Sized(round: Round) {
    |round.ready| == |round.arrived| == |round.outcomes| == MAX_CLIENTS + 1
  }

  /** How the transfer of each line's child will turn out, when nothing kills it. */
  ghost predicate Foretold(scripts: (nat, Job) -> seq<int>) {
    forall line: nat, job :: Script(job, scripts(line, job))
  }

  /** The event a ready slot causes. */
  ghost function EventAt(site: Site, st: State, i: nat, arrived: string, o: Outcome,
                         scripts: (nat, Job) -> seq<int>): Event
  {
    if arrived == "" then Hangup(i)
    else Line(i, FirstLine(arrived), o, ScriptFor(site, st, i, FirstLine(arrived), o, scripts))
  }

  /** The foretold script of the child the line will start, if it starts one. */
  ghost function ScriptFor(site: Site, st: State, i: nat, raw: string, o: Outcome,
                           scripts: (nat, Job) -> seq<int>): seq<int> {
    if i < |st.slots| && st.slots[i].Live? then
      var r := Execute(site, st.slots[i].session, st.world, ParseLine(raw), o);
      if r.Done? && r.response.Launch? then scripts(st.lines, r.response.job) else []
    else []
  }

  /** The ready slots whose array index is at most `n`, in order. */
  function ReadySlots(was: seq<Slot>, round: Round, n: nat): seq<nat>
    requires |was| == MAX_CLIENTS && Sized(round) && n <= MAX_CLIENTS
  {
    if n == 0 then [] else ReadySlots(was, round, n - 1) + (if was[n - 1].Live? && round.ready[n] then [n - 1] else [])
  }

  /** The ready slots, each once. */
  lemma {:induction false} ReadySlotsExact(was: seq<Slot>, round: Round, n: nat)
    requires |was| == MAX_CLIENTS && Sized(round) && n <= MAX_CLIENTS
    ensures forall k: nat :: k in ReadySlots(was, round, n) <==> k < n && was[k].Live? && round.ready[k + 1]
    ensures forall j, k :: 0 <= j < k < |ReadySlots(was, round, n)| ==>
      ReadySlots(was, round, n)[j] < ReadySlots(was, round, n)[k]
  {
    if n == 0 {
    } else {
      ReadySlotsExact(was, round, n - 1);
      var before := ReadySlots(was, round, n - 1);
      forall k | 0 <= k < |before|
        ensures before[k] < n - 1
      {
        assert before[k] in before;
      }
    }
  }

  /** What `poll` reports: negative descriptors never become ready. */
  function Polled(fds: seq<int>, ready: seq<bool>): seq<bool>
    requires |fds| == |ready|
  {
    seq(|fds|, i requires 0 <= i < |fds| => ready[i] && fds[i] >= 0)
  }

  /** The replies to a connection in the log; the main loop is the only one that adds to its log. */
  function Told(log: seq<Entry>, id: nat): seq<int> {
    if log == [] then []
    else
      var last := log[|log| - 1];
      Told(log[..|log| - 1], id) + (if last.Said? && last.id == id then [last.code] else [])
  }

  lemma ToldOne(log: seq<Entry>, entry: Entry, id: nat)
    ensures Told(log + [entry], id) == Told(log, id) + (if entry.Said? && entry.id == id then [entry.code] else [])
  {
    assert (log + [entry])[..|log|] == log;
  }

  lemma {:induction false} ToldNobody(log: seq<Entry>, id: nat)
    requires forall k :: 0 <= k < |log| ==> log[k].id != id
    ensures Told(log, id) == []
  {
    if log == [] {
    } else {
      ToldNobody(log[..|log| - 1], id);
    }
  }

  lemma ToldConnected(site: Site, st: State, fd: int, id: nat)
    requires IdsKnown(st)
    ensures Told(Connected(site, st, fd).log, id) == Told(st.log, id)
    ensures Told(st.log, st.born) == []
  {
    ToldOne(st.log, Slotted(st.born), id);
    ToldNobody(st.log, st.born);
  }

  lemma {:induction false} ToldAppend(a: seq<Entry>, b: seq<Entry>, id: nat)
    ensures Told(a + b, id) == Told(a, id) + Told(b, id)
  {
    if b == [] {
      assert a + b == a;
    } else {
      var front, last := b[..|b| - 1], b[|b| - 1];
      assert a + b == (a + front) + [last];
      ToldOne(a + front, last, id);
      ToldAppend(a, front, id);
    }
  }

  lemma ToldHandled(st: State, i: nat, r: Result, script: seq<int>, id: nat)
    requires i < |st.slots| && st.slots[i].Live? && r.Done?
    ensures Told(Handled(st, i, r, script).log, id) ==
      Told(st.log, id) + (if id == st.slots[i].id && r.response.Answer? then [r.response.code] else [])
  {
    var owner, n := st.slots[i].id, st.lines;
    var took, answers := [Took(owner, n)], Answers(owner, n, r.response);
    var tail := if r.status == Quit then [Destroyed(owner)] else [];
    ToldAppend(st.log, took + answers + tail, id);
    ToldAppend(took + answers, tail, id);
    ToldAppend(took, answers, id);
    ToldSmall(owner, n, r, id);
  }

  lemma ToldSmall(owner: nat, n: nat, r: Result, id: nat)
    requires r.Done?
    ensures Told([Took(owner, n)], id) == [] && Told([], id) == [] && Told([Destroyed(owner)], id) == []
    ensures Told(Answers(owner, n, r.response), id) ==
      if id == owner && r.response.Answer? then [r.response.code] else []
  {
    ToldOne([], Took(owner, n), id);
    ToldOne([], Destroyed(owner), id);
    if r.response.Answer? { ToldOne([], Said(owner, n, r.response.code), id); }
    assert [] + [Took(owner, n)] == [Took(owner, n)] && [] + [Destroyed(owner)] == [Destroyed(owner)];
    assert r.response.Answer? ==> [] + [Said(owner, n, r.response.code)] == [Said(owner, n, r.response.code)];
  }

  lemma HandledSlots(st: State, i: nat, r: Result, script: seq<int>)
    requires i < |st.slots| && st.slots[i].Live? && r.Done?
    ensures var t := Handled(st, i, r, script);
      && |t.slots| == |st.slots| && t.world == r.world
      && t.slots[i] == (if r.status == Quit then Free else st.slots[i].(session := r.session))
      && (forall k :: 0 <= k < |t.slots| && k != i ==> t.slots[k] == st.slots[k])
  {
    hide Answers;
  }

  /** The event is what has arrived at slot `k`: its line with the kernel's answers, or the loss of the
      connection. */
  predicate IsArrival(e: Event, k: nat, round: Round)
    requires Sized(round) && k < MAX_CLIENTS
  {
    if round.arrived[k + 1] == "" then e == Hangup(k)
    else
      && e.Line? && e.slot == k
      && e.raw == FirstLine(round.arrived[k + 1]) && e.outcome == round.outcomes[k + 1]
  }

  ghost predicate Serve(es: seq<Event>, slots: seq<nat>, round: Round)
    requires Sized(round)
  {
    && |es| == |slots|
    && forall k :: 0 <= k < |es| ==> slots[k] < MAX_CLIENTS && IsArrival(es[k], slots[k], round)
  }

  // ---------------------------------------------------------------- a turn, as events

  /** What serving the ready indices up to `n` amounts to: for each of them the event of what has arrived
      there, in the state the ones before it have led to. It ends with the first event the transition
      system has no step for. */
  ghost function Served(site: Site, st: State, was: seq<Slot>, round: Round, n: nat,
                        scripts: (nat, Job) -> seq<int>): seq<Event>
    requires |was| == MAX_CLIENTS && Sized(round) && n <= MAX_CLIENTS
  {
    if n == 0 then []
    else
      var before := Served(site, st, was, round, n - 1, scripts);
      if !(was[n - 1].Live? && round.ready[n]) then before
      else
        match RunFrom(site, st, before)
        case None => before
        case Some(t) => before + [EventAt(site, t, n - 1, round.arrived[n], round.outcomes[n], scripts)]
  }

  /** `accept` gives the waiting client a descriptor that is not in use, or fails. */
  ghost function Accepted(st: State, connecting: Option<int>): seq<Event> {
    if connecting.Some? && FreshDescriptor(st.slots, connecting.value) then [Connect(connecting.value)] else []
  }

  /** One turn: the file system is as the round says, then a waiting client is accepted, then the slots
      that were live and ready at the start of the turn are served. */
  ghost function Turn(site: Site, st: State, round: Round, scripts: (nat, Job) -> seq<int>): seq<Event>
    requires |st.slots| == MAX_CLIENTS && Sized(round)
  {
    var seen := [Environment(round.tree)];
    if round.pollFails then seen
    else
      match RunFrom(site, st, seen)
      case None => seen
      case Some(t) =>
        var accepted := Accepted(t, round.connecting);
        match RunFrom(site, t, accepted)
        case None => seen + accepted
        case Some(u) => seen + (accepted + Served(site, u, st.slots, round, MAX_CLIENTS, scripts))
  }

  /** Turn after turn, until `poll` fails or a command is undefined. */
  ghost function Turns(site: Site, st: State, rounds: seq<Round>, scripts: (nat, Job) -> seq<int>): seq<Event>
    requires |st.slots| == MAX_CLIENTS && forall round :: round in rounds ==> Sized(round)
    decreases |rounds|
  {
    if rounds == [] then []
    else
      var turn := Turn(site, st, rounds[0], scripts);
      if rounds[0].pollFails then turn
      else
        match RunFrom(site, st, turn)
        case None => turn
        case Some(t) => if |t.slots| == MAX_CLIENTS then turn + Turns(site, t, rounds[1..], scripts) else turn
  }

  lemma RoundIs(site: Site, round: Round)
    requires ProperRound(site, round)
    ensures Proper(site, round.tree)
  {
  }

  /** Seeing the file system as it is changes nothing else. */
  lemma Observed(site: Site, st: State, tree: Tree)
    requires RunFrom(site, st, [Environment(tree)]).Some?
    ensures RunFrom(site, st, [Environment(tree)]).value == st.(world := st.world.(tree := tree))
  {
    hide Proper;
    RunFromStep(site, st, [], Environment(tree));
    assert [] + [Environment(tree)] == [Environment(tree)];
  }

  lemma TurnIs(site: Site, st: State, round: Round, scripts: (nat, Job) -> seq<int>)
    requires |st.slots| == MAX_CLIENTS && Sized(round)
    requires RunFrom(site, st, [Environment(round.tree)]).Some?
    ensures var seen := [Environment(round.tree)];
      var t := RunFrom(site, st, seen).value;
      var accepted := Accepted(t, round.connecting);
      if round.pollFails then Turn(site, st, round, scripts) == seen
      else
        RunFrom(site, t, accepted).Some? ==>
          var u := RunFrom(site, t, accepted).value;
          Turn(site, st, round, scripts) == seen + (accepted + Served(site, u, st.slots, round, MAX_CLIENTS, scripts))
  {
    hide RunFrom;
    hide Served;
  }

  lemma TurnsStep(site: Site, st: State, rounds: seq<Round>, scripts: (nat, Job) -> seq<int>)
    requires |st.slots| == MAX_CLIENTS && rounds != [] && forall round :: round in rounds ==> Sized(round)
    ensures var turn := Turn(site, st, rounds[0], scripts);
      var after := RunFrom(site, st, turn);
      Turns(site, st, rounds, scripts) ==
        if rounds[0].pollFails || after.None? || |after.value.slots| != MAX_CLIENTS then turn
        else turn + Turns(site, after.value, rounds[1..], scripts)
  {
    hide Turn;
    hide RunFrom;
  }

  lemma TurnsEnd(site: Site, st: State, scripts: (nat, Job) -> seq<int>)
    requires |st.slots| == MAX_CLIENTS
    ensures Turns(site, st, [], scripts) == []
  {
  }

  lemma Regroup(es: seq<Event>, more: seq<Event>, rest: seq<Event>)
    ensures es + (more + rest) == (es + more) + rest
  {
  }

  lemma AcceptedNone(st: State)
    ensures Accepted(st, None) == []
  {
  }

  /** The slots served in a turn are the ready ones, each once, in order. */
  lemma {:induction false} ServedInOrder(site: Site, st: State, was: seq<Slot>, round: Round, n: nat,
                                         scripts: (nat, Job) -> seq<int>)
    requires |was| == MAX_CLIENTS && Sized(round) && n <= MAX_CLIENTS
    requires RunFrom(site, st, Served(site, st, was, round, n, scripts)).Some?
    ensures Serve(Served(site, st, was, round, n, scripts), ReadySlots(was, round, n), round)
  {
    hide *;
    if n == 0 {
      ServedNone(site, st, was, round, scripts);
      ReadyNone(was, round);
    } else {
      ServedBack(site, st, was, round, n, scripts);
      ServedNext(site, st, was, round, n, scripts);
      ServedInOrder(site, st, was, round, n - 1, scripts);
      ServeOne(site, st, was, round, n, scripts);
    }
  }

  lemma ReadyNone(was: seq<Slot>, round: Round)
    requires |was| == MAX_CLIENTS && Sized(round)
    ensures ReadySlots(was, round, 0) == [] && Serve([], ReadySlots(was, round, 0), round)
  {
  }

  lemma ServedBack(site: Site, st: State, was: seq<Slot>, round: Round, n: nat, scripts: (nat, Job) -> seq<int>)
    requires |was| == MAX_CLIENTS && Sized(round) && 0 < n <= MAX_CLIENTS
    requires RunFrom(site, st, Served(site, st, was, round, n, scripts)).Some?
    ensures RunFrom(site, st, Served(site, st, was, round, n - 1, scripts)).Some?
  {
    RunFromBack(site, st, Served(site, st, was, round, n - 1, scripts), Served(site, st, was, round, n, scripts));
    hide RunFrom;
  }

  lemma ServeOne(site: Site, st: State, was: seq<Slot>, round: Round, n: nat, scripts: (nat, Job) -> seq<int>)
    requires |was| == MAX_CLIENTS && Sized(round) && 0 < n <= MAX_CLIENTS
    requires RunFrom(site, st, Served(site, st, was, round, n - 1, scripts)).Some?
    requires Serve(Served(site, st, was, round, n - 1, scripts), ReadySlots(was, round, n - 1), round)
    ensures Serve(Served(site, st, was, round, n, scripts), ReadySlots(was, round, n), round)
  {
    hide *;
    Lengths(round);
    ServedNext(site, st, was, round, n, scripts);
    SlotsNext(was, round, n);
    if was[n - 1].Live? && round.ready[n] {
      var before := Served(site, st, was, round, n - 1, scripts);
      var t := RunFrom(site, st, before).value;
      ArrivalAt(site, t, n - 1, round, scripts);
      ServeAppend(before, ReadySlots(was, round, n - 1), round,
                  EventAt(site, t, n - 1, round.arrived[n], round.outcomes[n], scripts), n - 1);
    }
  }

  lemma Lengths(round: Round)
    requires Sized(round)
    ensures |round.ready| == |round.arrived| == |round.outcomes| == MAX_CLIENTS + 1
  {
  }

  lemma ArrivalAt(site: Site, st: State, k: nat, round: Round, scripts: (nat, Job) -> seq<int>)
    requires Sized(round) && k < MAX_CLIENTS
    ensures IsArrival(EventAt(site, st, k, round.arrived[k + 1], round.outcomes[k + 1], scripts), k, round)
  {
    hide FirstLine;
    hide ScriptFor;
  }

  lemma SlotsNext(was: seq<Slot>, round: Round, n: nat)
    requires |was| == MAX_CLIENTS && Sized(round) && 0 < n <= MAX_CLIENTS
    ensures ReadySlots(was, round, n) ==
      if was[n - 1].Live? && round.ready[n] then ReadySlots(was, round, n - 1) + [n - 1]
      else ReadySlots(was, round, n - 1)
  {
    hide Sized;
  }

  lemma ServeAppend(es: seq<Event>, slots: seq<nat>, round: Round, e: Event, k: nat)
    requires Sized(round) && k < MAX_CLIENTS && Serve(es, slots, round) && IsArrival(e, k, round)
    ensures Serve(es + [e], slots + [k], round)
  {
    hide IsArrival;
  }

  /** Every slot that was live and ready when `poll` returned has exactly one event in a turn, what has
      arrived there; nobody else has one. */
  ghost predicate EachServedOnce(es: seq<Event>, was: seq<Slot>, round: Round)
    requires |was| == MAX_CLIENTS && Sized(round)
  {
    && (forall k: nat :: k < MAX_CLIENTS ==> (was[k].Live? && round.ready[k + 1] <==> Arrives(es, k, round)))
    && (forall j :: 0 <= j < |es| ==> OfSomeSlot(es[j], round))
    && UpTheTable(es, round)
  }

  ghost predicate Arrives(es: seq<Event>, k: nat, round: Round)
    requires Sized(round) && k < MAX_CLIENTS
  {
    exists j :: 0 <= j < |es| && IsArrival(es[j], k, round)
  }

  ghost predicate OfSomeSlot(e: Event, round: Round)
    requires Sized(round)
  {
    exists k: nat :: k < MAX_CLIENTS && IsArrival(e, k, round)
  }

  /** Of two events the later one is further up the table. */
  ghost predicate UpTheTable(es: seq<Event>, round: Round)
    requires Sized(round)
  {
    forall i, j, k: nat, l: nat :: 0 <= i < j < |es| && k < MAX_CLIENTS && l < MAX_CLIENTS ==>
      IsArrival(es[i], k, round) && IsArrival(es[j], l, round) ==> k < l
  }

  lemma ServedOnce(site: Site, st: State, was: seq<Slot>, round: Round, scripts: (nat, Job) -> seq<int>)
    requires |was| == MAX_CLIENTS && Sized(round)
    requires RunFrom(site, st, Served(site, st, was, round, MAX_CLIENTS, scripts)).Some?
    ensures EachServedOnce(Served(site, st, was, round, MAX_CLIENTS, scripts), was, round)
  {
    ServedInOrder(site, st, was, round, MAX_CLIENTS, scripts);
    ReadySlotsExact(was, round, MAX_CLIENTS);
    var es, slots := Served(site, st, was, round, MAX_CLIENTS, scripts), ReadySlots(was, round, MAX_CLIENTS);
    hide Served;
    hide ReadySlots;
    hide RunFrom;
    hide FirstLine;
    OneArrivalEach(es, slots, was, round);
  }

  lemma OneArrivalEach(es: seq<Event>, slots: seq<nat>, was: seq<Slot>, round: Round)
    requires |was| == MAX_CLIENTS && Sized(round) && Serve(es, slots, round)
    requires forall k: nat :: k in slots <==> k < MAX_CLIENTS && was[k].Live? && round.ready[k + 1]
    requires forall j, k :: 0 <= j < k < |slots| ==> slots[j] < slots[k]
    ensures EachServedOnce(es, was, round)
  {
    forall k: nat | k < MAX_CLIENTS
      ensures was[k].Live? && round.ready[k + 1] <==> Arrives(es, k, round)
    {
      SlotArrives(es, slots, k, round);
    }
    forall j | 0 <= j < |es|
      ensures OfSomeSlot(es[j], round)
    {
      assert IsArrival(es[j], slots[j], round);
    }
    TableOrder(es, slots, round);
    hide Arrives;
    hide OfSomeSlot;
    hide UpTheTable;
  }

  lemma SlotArrives(es: seq<Event>, slots: seq<nat>, k: nat, round: Round)
    requires Sized(round) && Serve(es, slots, round) && k < MAX_CLIENTS
    ensures k in slots <==> Arrives(es, k, round)
  {
    if k in slots {
      var j :| 0 <= j < |slots| && slots[j] == k;
      assert IsArrival(es[j], k, round);
    }
    if Arrives(es, k, round) {
      var j :| 0 <= j < |es| && IsArrival(es[j], k, round);
      OneSlot(es[j], k, slots[j], round);
      assert slots[j] in slots;
    }
  }

  lemma TableOrder(es: seq<Event>, slots: seq<nat>, round: Round)
    requires Sized(round) && Serve(es, slots, round)
    requires forall j, k :: 0 <= j < k < |slots| ==> slots[j] < slots[k]
    ensures UpTheTable(es, round)
  {
    forall i, j, k: nat, l: nat | 0 <= i < j < |es| && k < MAX_CLIENTS && l < MAX_CLIENTS
      && IsArrival(es[i], k, round) && IsArrival(es[j], l, round)
      ensures k < l
    {
      OneSlot(es[i], k, slots[i], round);
      OneSlot(es[j], l, slots[j], round);
    }
  }

  lemma OneSlot(e: Event, k: nat, l: nat, round: Round)
    requires Sized(round) && k < MAX_CLIENTS && l < MAX_CLIENTS
    requires IsArrival(e, k, round) && IsArrival(e, l, round)
    ensures k == l
  {
  }

  /** A turn that the server gets through: the file system is seen, a waiting client is accepted if its
      descriptor is not in use, and then every slot that was live and ready before is served once. */
  lemma TurnReads(site: Site, st: State, round: Round, scripts: (nat, Job) -> seq<int>)
    returns (accepted: seq<Event>, served: seq<Event>)
    requires |st.slots| == MAX_CLIENTS && Sized(round) && !round.pollFails
    requires RunFrom(site, st, Turn(site, st, round, scripts)).Some?
    ensures Turn(site, st, round, scripts) == [Environment(round.tree)] + (accepted + served)
    ensures accepted ==
      if round.connecting.Some? && round.connecting.value >= 0
         && forall k :: 0 <= k < |st.slots| && st.slots[k].Live? ==> st.slots[k].fd != round.connecting.value
      then [Connect(round.connecting.value)] else []
    ensures EachServedOnce(served, st.slots, round)
  {
    var seen := [Environment(round.tree)];
    TurnBegins(site, st, round, scripts);
    Observed(site, st, round.tree);
    TurnIs(site, st, round, scripts);
    var t := RunFrom(site, st, seen).value;
    accepted := Accepted(t, round.connecting);
    RunFromOn(site, st, seen, accepted);
    var u := RunFrom(site, t, accepted).value;
    served := Served(site, u, st.slots, round, MAX_CLIENTS, scripts);
    hide Served;
    hide RunFrom;
    hide Turn;
    RunFromOn(site, st, seen, accepted + served);
    RunFromOn(site, t, accepted, served);
    ServedOnce(site, u, st.slots, round, scripts);
    hide EachServedOnce;
  }

  /** What one turn does, in the state it begins in. When `poll` fails nothing is accepted or served. */
  ghost predicate TakesTurn(st: State, round: Round, es: seq<Event>)
    requires |st.slots| == MAX_CLIENTS && Sized(round)
  {
    if round.pollFails then es == [Environment(round.tree)]
    else
      var accepted :=
        if round.connecting.Some? && round.connecting.value >= 0
           && forall k :: 0 <= k < |st.slots| && st.slots[k].Live? ==> st.slots[k].fd != round.connecting.value
        then [Connect(round.connecting.value)] else [];
      exists served ::
        es == [Environment(round.tree)] + (accepted + served) && EachServedOnce(served, st.slots, round)
  }

  function Together(parts: seq<seq<Event>>): seq<Event> {
    if parts == [] then [] else parts[0] + Together(parts[1..])
  }

  /** The server's turns are taken one after the other, each in the state the one before has led to, until
      the first in which `poll` fails; if there is none, for all rounds. */
  ghost predicate TakesTurns(site: Site, rounds: seq<Round>, parts: seq<seq<Event>>, states: seq<State>)
    requires forall round :: round in rounds ==> Sized(round)
  {
    && |parts| <= |rounds| && |states| == |parts| + 1
    && (forall k :: 0 <= k < |states| ==> |states[k].slots| == MAX_CLIENTS)
    && (forall k :: 0 <= k < |parts| ==>
          && RunFrom(site, states[k], parts[k]) == Some(states[k + 1])
          && TakesTurn(states[k], rounds[k], parts[k]))
    && (forall k :: 0 <= k < |parts| - 1 ==> !rounds[k].pollFails)
    && (|parts| < |rounds| ==> |parts| > 0 && rounds[|parts| - 1].pollFails)
  }

  lemma {:induction false} TurnsRead(site: Site, st: State, rounds: seq<Round>, scripts: (nat, Job) -> seq<int>)
    returns (parts: seq<seq<Event>>, states: seq<State>)
    requires |st.slots| == MAX_CLIENTS && forall round :: round in rounds ==> Sized(round)
    requires RunFrom(site, st, Turns(site, st, rounds, scripts)).Some?
    ensures TakesTurns(site, rounds, parts, states) && states[0] == st
    ensures Turns(site, st, rounds, scripts) == Together(parts)
    decreases |rounds|
  {
    hide Turn;
    hide TakesTurn;
    hide RunFrom;
    if rounds == [] {
      parts, states := [], [st];
    } else {
      var turn := Turn(site, st, rounds[0], scripts);
      TurnsStep(site, st, rounds, scripts);
      var t := RunFrom(site, st, turn).value;
      SlotsStay(site, st, turn);
      TurnTaken(site, st, rounds[0], scripts);
      if rounds[0].pollFails {
        parts, states := [turn], [st, t];
        assert turn + [] == turn && parts[1..] == [];
      } else {
        hide Turns;
        RunFromOn(site, st, turn, Turns(site, t, rounds[1..], scripts));
        var later, after := TurnsRead(site, t, rounds[1..], scripts);
        parts, states := [turn] + later, [st] + after;
        assert parts[1..] == later;
      }
    }
  }

  lemma TurnTaken(site: Site, st: State, round: Round, scripts: (nat, Job) -> seq<int>)
    requires |st.slots| == MAX_CLIENTS && Sized(round)
    requires RunFrom(site, st, Turn(site, st, round, scripts)).Some?
    ensures TakesTurn(st, round, Turn(site, st, round, scripts))
  {
    hide RunFrom;
    hide EachServedOnce;
    if !round.pollFails {
      var accepted, served := TurnReads(site, st, round, scripts);
      hide Turn;
    }
  }

  lemma {:induction false} SlotsStay(site: Site, st: State, es: seq<Event>)
    requires RunFrom(site, st, es).Some?
    ensures |RunFrom(site, st, es).value.slots| == |st.slots|
    decreases |es|
  {
    if es != [] {
      var front, e := es[..|es| - 1], es[|es| - 1];
      SlotsStay(site, st, front);
      var t := RunFrom(site, st, front).value;
      hide Execute;
      hide ParseLine;
      hide Proper;
      hide Script;
      hide NewSession;
      hide Target;
      hide Farewells;
    }
  }

  /** Its first two parts are runs themselves. */
  lemma TurnBegins(site: Site, st: State, round: Round, scripts: (nat, Job) -> seq<int>)
    requires |st.slots| == MAX_CLIENTS && Sized(round) && !round.pollFails
    requires RunFrom(site, st, Turn(site, st, round, scripts)).Some?
    ensures var seen := [Environment(round.tree)];
      && RunFrom(site, st, seen).Some?
      && RunFrom(site, RunFrom(site, st, seen).value,
                 Accepted(RunFrom(site, st, seen).value, round.connecting)).Some?
  {
    hide RunFrom;
    hide Served;
    var seen := [Environment(round.tree)];
    if RunFrom(site, st, seen).Some? {
      var t := RunFrom(site, st, seen).value;
      RunFromOn(site, st, seen, Accepted(t, round.connecting));
    }
  }

  /** A run's beginnings are runs. */
  lemma RunFromBack(site: Site, st: State, before: seq<Event>, es: seq<Event>)
    requires RunFrom(site, st, es).Some? && before <= es && |es| <= |before| + 1
    ensures RunFrom(site, st, before).Some?
  {
    hide Next;
    if |es| > |before| {
      assert es[..|es| - 1] == before;
    } else {
      assert es == before;
    }
  }

  /** Once an event is undefined, no more are added. */
  lemma {:induction false} ServedStops(site: Site, st: State, was: seq<Slot>, round: Round, n: nat, m: nat,
                                       scripts: (nat, Job) -> seq<int>)
    requires |was| == MAX_CLIENTS && Sized(round) && n <= m <= MAX_CLIENTS
    requires RunFrom(site, st, Served(site, st, was, round, n, scripts)).None?
    ensures Served(site, st, was, round, m, scripts) == Served(site, st, was, round, n, scripts)
  {
    hide RunFrom;
    if n < m {
      ServedStops(site, st, was, round, n, m - 1, scripts);
    }
  }

  lemma ServedNext(site: Site, st: State, was: seq<Slot>, round: Round, n: nat, scripts: (nat, Job) -> seq<int>)
    requires |was| == MAX_CLIENTS && Sized(round) && 0 < n <= MAX_CLIENTS
    requires RunFrom(site, st, Served(site, st, was, round, n - 1, scripts)).Some?
    ensures var before := Served(site, st, was, round, n - 1, scripts);
      Served(site, st, was, round, n, scripts) ==
        if !(was[n - 1].Live? && round.ready[n]) then before
        else
          var t := RunFrom(site, st, before).value;
          before + [EventAt(site, t, n - 1, round.arrived[n], round.outcomes[n], scripts)]
  {
  }

  lemma ServedNone(site: Site, st: State, was: seq<Slot>, round: Round, scripts: (nat, Job) -> seq<int>)
    requires |was| == MAX_CLIENTS && Sized(round)
    ensures Served(site, st, was, round, 0, scripts) == []
  {
  }

  lemma RunNothing(site: Site, st: State)
    ensures RunFrom(site, st, []) == Some(st)
  {
  }

  /** What a command itself writes: QUIT's 221 comes from the main loop. */
  function Written(r: Result): seq<int>
    requires r.Done?
  {
    if r.response.Answer? && r.status != Quit then [r.response.code] else []
  }

  lemma Seen(site: Site, st: State, tree: Tree)
    requires Proper(site, tree)
    ensures Next(site, st, Environment(tree)) == Some(st.(world := st.world.(tree := tree)))
  {
    hide Execute;
    hide Proper;
    hide ParseLine;
    hide Handled;
    hide NewSession;
    hide Script;
  }

  lemma Stopping(site: Site, st: State)
    requires !st.stopped
    ensures Next(site, st, Stop).Some? && Next(site, st, Stop).value.stopped
  {
  }

  lemma AcceptedIs(st: State, wanted: int)
    ensures Accepted(st, Some(wanted)) ==
      if wanted >= 0 && FreshDescriptor(st.slots, wanted) then [Connect(wanted)] else []
  {
  }

  /** Accepting is a step of the transition system. */
  lemma Welcomed(site: Site, st: State, fd: int)
    requires !st.stopped && FreshDescriptor(st.slots, fd)
    ensures Next(site, st, Connect(fd)) == Some(Connected(site, st, fd)) && !Connected(site, st, fd).stopped
  {
    hide NewSession;
  }

  class Server {
    const site: Site
    const process: Process
    const fds: array<int>
    const connections: array<Connection?>

    ghost predicate Shape() {
      && fds.Length == connections.Length == MAX_CLIENTS + 1
      && process.links == site.links
    }

    /** What index `k + 1` of the two arrays holds is slot `k`. */
    ghost predicate Shows(k: int, slot: Slot)
      requires Shape() && 0 <= k < MAX_CLIENTS
      reads fds, connections, connections[k + 1]
    {
      match slot
      case Free => fds[k + 1] < 0
      case Live(fd, _, session) =>
        && fds[k + 1] == fd >= 0
        && connections[k + 1] != null
        && connections[k + 1].site == site && connections[k + 1].process == process
        && connections[k + 1].Usable()
        && connections[k + 1].State() == session
    }

    lemma ShapeIs()
      requires Shape()
      ensures fds.Length == connections.Length == MAX_CLIENTS + 1
    {
    }

    /** No connection is in two places. */
    ghost predicate Separate()
      requires Shape()
      reads fds, connections
    {
      forall j, k :: 0 < j < k <= MAX_CLIENTS && fds[j] >= 0 && fds[k] >= 0 ==> connections[j] != connections[k]
    }

    /** The arrays and the process are in state `st`. Index 0 of `fds[]` is the listening socket. */
    ghost predicate Mirrors(st: State)
      reads fds, connections, connections[..], process
    {
      && Shape()
      && |st.slots| == MAX_CLIENTS
      && st.world == process.State()
      && (forall k :: 0 <= k < |st.slots| ==> Shows(k, st.slots[k]))
      && Separate()
    }

    /** Every live connection has been sent exactly the server's replies in the log. */
    ghost predicate Heard(st: State)
      requires Shape()
      reads connections, connections[..]
    {
      forall k :: 0 <= k < |st.slots| && k < MAX_CLIENTS && st.slots[k].Live? && connections[k + 1] != null ==>
        connections[k + 1].control == Told(st.log, st.slots[k].id)
    }

    /** `init_poll_fds`, after `setup_socket` has moved the process to the served directory. */
    constructor (site: Site, process: Process, listener: int)
      requires process.links == site.links && process.cwd == site.root
      ensures Mirrors(Init(site, process.tree)) && Heard(Init(site, process.tree))
      ensures fresh(fds) && fresh(connections) && forall k :: 0 <= k < connections.Length ==> connections[k] == null
      ensures this.site == site && this.process == process && fds[0] == listener
    {
      this.site, this.process := site, process;
      fds := new int[MAX_CLIENTS + 1];
      connections := new Connection?[MAX_CLIENTS + 1](_ => null);
      new;
      for i := 0 to MAX_CLIENTS + 1
        invariant forall k :: 0 <= k < i ==> fds[k] == -1
        modifies fds
      {
        fds[i] := -1;
      }
      fds[0] := listener;
    }

    /** `accept_new_connection`: the lowest free index gets the connection; a client that finds none
        is left with its greeting. */
    method AcceptNewConnection(fd: int, ghost st: State)
      requires Mirrors(st) && Heard(st) && IdsKnown(st) && fd >= 0
      modifies fds, connections
      ensures Mirrors(Connected(site, st, fd)) && Heard(Connected(site, st, fd))
      ensures forall k :: 0 <= k <= MAX_CLIENTS ==> connections[k] == old(connections[k]) || fresh(connections[k])
      ensures forall k :: 0 <= k <= MAX_CLIENTS && (k == 0 || old(fds[k]) >= 0) ==> fds[k] == old(fds[k])
    {
      var i := FirstFreeIndex(st);
      if i <= MAX_CLIENTS {
        Occupy(i, fd, st);
      }
    }

    /** The scan for a free index. */
    method FirstFreeIndex(ghost st: State) returns (i: nat)
      requires Mirrors(st)
      ensures i == FirstFree(st.slots) + 1
    {
      i := 1;
      while i <= MAX_CLIENTS && fds[i] >= 0
        invariant 1 <= i <= MAX_CLIENTS + 1
        invariant forall k :: 0 <= k < i - 1 ==> st.slots[k].Live?
      {
        assert Shows(i - 1, st.slots[i - 1]);
        i := i + 1;
      }
      assert i <= MAX_CLIENTS ==> Shows(i - 1, st.slots[i - 1]);
    }

    /** The body of that scan's hit: a new connection, its descriptor, and no further search. */
    method Occupy(i: nat, fd: int, ghost st: State)
      requires Mirrors(st) && Heard(st) && IdsKnown(st)
      requires fd >= 0 && 1 <= i == FirstFree(st.slots) + 1 <= MAX_CLIENTS
      modifies fds, connections
      ensures Mirrors(Connected(site, st, fd)) && Heard(Connected(site, st, fd))
      ensures forall k :: 0 <= k <= MAX_CLIENTS ==> connections[k] == old(connections[k]) || fresh(connections[k])
      ensures forall k :: 0 <= k <= MAX_CLIENTS && k != i ==> fds[k] == old(fds[k])
      ensures old(fds[i]) < 0
    {
      hide Told;
      hide IdsKnown;
      hide NewSession;
      assert Shows(i - 1, st.slots[i - 1]);
      forall j | 0 < j <= MAX_CLIENTS && fds[j] >= 0
        ensures connections[j] != null
      {
        assert Shows(j - 1, st.slots[j - 1]);
      }
      var connection := new Connection(site, process);
      connections[i] := connection;
      fds[i] := fd;
      Occupied(i, fd, st);
    }

    /** The arrays with the newcomer in its place. */
    lemma Occupied(i: nat, fd: int, st: State)
      requires Shape() && |st.slots| == MAX_CLIENTS && st.world == process.State() && IdsKnown(st)
      requires fd >= 0 && 1 <= i == FirstFree(st.slots) + 1 <= MAX_CLIENTS
      requires forall k :: 0 <= k < |st.slots| && k != i - 1 ==> Shows(k, st.slots[k])
      requires Shows(i - 1, Live(fd, st.born, NewSession(site))) && connections[i].control == [] && Separate()
      requires forall k :: 0 <= k < |st.slots| && k != i - 1 && st.slots[k].Live? && connections[k + 1] != null ==>
        connections[k + 1].control == Told(st.log, st.slots[k].id)
      ensures Mirrors(Connected(site, st, fd)) && Heard(Connected(site, st, fd))
    {
      hide Separate;
      hide Told;
      hide NewSession;
      hide IdsKnown;
      var t := Connected(site, st, fd);
      forall k | 0 <= k < |t.slots| && k < MAX_CLIENTS && t.slots[k].Live? && connections[k + 1] != null
        ensures connections[k + 1].control == Told(t.log, t.slots[k].id)
      {
        ToldConnected(site, st, fd, t.slots[k].id);
      }
    }

    /** `handle_connection`. `defined` is false exactly when the command's behaviour is undefined. */
    method HandleConnection(i: int, arrived: string, o: Outcome, ghost st: State, ghost script: seq<int>)
      returns (defined: bool)
      requires Mirrors(st) && Heard(st) && DistinctLive(st.slots) && 1 <= i <= MAX_CLIENTS && fds[i] >= 0
      modifies fds, connections[i], process
      ensures var slot := st.slots[i - 1];
        && slot.Live?
        && if arrived == "" then defined && Mirrors(st) && Heard(st)
           else
             var r := Execute(site, slot.session, st.world, ParseLine(FirstLine(arrived)), o);
             && (defined <==> r.Done?)
             && (defined ==> Mirrors(Handled(st, i - 1, r, script)) && Heard(Handled(st, i - 1, r, script)))
             && (defined && r.status == Quit ==> SentOff(old(connections[i]), st, i - 1))
      ensures forall k :: 0 <= k <= MAX_CLIENTS && k != i ==> fds[k] == old(fds[k])
    {
      hide Execute;
      assert Shows(i - 1, st.slots[i - 1]);
      forall j | 0 < j <= MAX_CLIENTS && fds[j] >= 0
        ensures connections[j] != null
      {
        assert Shows(j - 1, st.slots[j - 1]);
      }
      var connection := connections[i];
      var read, status;
      ghost var r;
      read, status, defined, r := HandleClientCommand(connection, arrived, o);
      if !read || !defined {
        return;
      }
      AnswersAreFinal(site, st.slots[i - 1].session, st.world, ParseLine(FirstLine(arrived)), o);
      hide ParseLine;
      Conclude(i, status, st, r, script);
    }

    /** The connection of slot `k` has been sent its replies, then 221, and was destroyed. */
    ghost predicate SentOff(connection: Connection?, st: State, k: int)
      requires 0 <= k < |st.slots| && st.slots[k].Live?
      reads connection
    {
      connection != null && connection.destroyed && connection.control == Told(st.log, st.slots[k].id) + [221]
    }

    /** QUIT is answered, the connection destroyed, and its index given up. */
    method Conclude(i: int, status: Status, ghost st: State, ghost r: Result, ghost script: seq<int>)
      requires Shape() && 1 <= i <= MAX_CLIENTS == |st.slots| && st.slots[i - 1].Live?
      requires r.Done? && status == r.status && process.State() == r.world
      requires forall k :: 0 <= k < |st.slots| && k != i - 1 ==> Shows(k, st.slots[k])
      requires Shows(i - 1, st.slots[i - 1].(session := r.session)) && Separate()
      requires DistinctLive(st.slots) && (status == Quit ==> r.response.Answer?)
      requires forall k :: 0 <= k < |st.slots| && k != i - 1 && st.slots[k].Live? && connections[k + 1] != null ==>
        connections[k + 1].control == Told(st.log, st.slots[k].id)
      requires connections[i].control == Told(st.log, st.slots[i - 1].id) + Written(r)
      modifies fds, connections[i]
      ensures Mirrors(Handled(st, i - 1, r, script)) && Heard(Handled(st, i - 1, r, script))
      ensures status == Quit ==> SentOff(old(connections[i]), st, i - 1)
      ensures forall k :: 0 <= k <= MAX_CLIENTS && k != i ==> fds[k] == old(fds[k])
    {
      hide Told;
      hide Heard;
      hide DistinctLive;
      hide Handled;
      ghost var t := Handled(st, i - 1, r, script);
      HandledSlots(st, i - 1, r, script);
      if status == Quit {
        connections[i].Say(221);
        connections[i].Destroy();
        fds[i] := -1;
      }
      HeardHandled(i, st, r, script);
    }

    /** The others have heard nothing, and the log has grown by what this one heard. */
    lemma HeardHandled(i: int, st: State, r: Result, script: seq<int>)
      requires Shape() && 1 <= i <= MAX_CLIENTS == |st.slots| && st.slots[i - 1].Live? && r.Done?
      requires DistinctLive(st.slots)
      requires forall k :: 0 <= k < |st.slots| && k != i - 1 && st.slots[k].Live? && connections[k + 1] != null ==>
        connections[k + 1].control == Told(st.log, st.slots[k].id)
      requires r.status != Quit && connections[i] != null ==>
        connections[i].control == Told(st.log, st.slots[i - 1].id) + Written(r)
      ensures Heard(Handled(st, i - 1, r, script))
    {
      var t := Handled(st, i - 1, r, script);
      forall k | 0 <= k < |t.slots| && k < MAX_CLIENTS && t.slots[k].Live? && connections[k + 1] != null
        ensures connections[k + 1].control == Told(t.log, t.slots[k].id)
      {
        ToldHandled(st, i - 1, r, script, t.slots[k].id);
        hide Told;
      }
    }

    /** One ready index: the step of the transition system it is. */
    method ServeIndex(i: int, arrived: string, o: Outcome, ghost st: State, ghost scripts: (nat, Job) -> seq<int>)
      returns (defined: bool, ghost e: Event)
      requires Mirrors(st) && Heard(st) && DistinctLive(st.slots) && 1 <= i <= MAX_CLIENTS && fds[i] >= 0
      requires !st.stopped && Foretold(scripts)
      modifies fds, connections[i], process
      ensures e == EventAt(site, st, i - 1, arrived, o, scripts)
      ensures defined <==> Next(site, st, e).Some?
      ensures defined ==> var t := Next(site, st, e).value; Mirrors(t) && Heard(t) && !t.stopped
      ensures forall k :: 0 <= k <= MAX_CLIENTS && k != i ==> fds[k] == old(fds[k])
    {
      hide Execute;
      hide ParseLine;
      hide FirstLine;
      hide Heard;
      hide Separate;
      hide DistinctLive;
      hide ScriptFor;
      assert Shows(i - 1, st.slots[i - 1]);
      e := EventAt(site, st, i - 1, arrived, o, scripts);
      if arrived != "" {
        Foreseen(site, st, i - 1, arrived, o, scripts);
      }
      defined := HandleConnection(i, arrived, o, st, if e.Line? then e.script else []);
    }

    /** The arrays show where the events `es` have led from `st`, and the server is running. */
    ghost predicate Follows(st: State, es: seq<Event>)
      reads fds, connections, connections[..], process
    {
      && RunFrom(site, st, es).Some?
      && var t := RunFrom(site, st, es).value;
         Mirrors(t) && Heard(t) && !t.stopped && Proper(site, t.world.tree) && LivesSound(t)
    }

    /** The same, as one more event. */
    method ServeOneMore(i: int, arrived: string, o: Outcome, ghost st: State, ghost es: seq<Event>,
                        ghost scripts: (nat, Job) -> seq<int>)
      returns (defined: bool, ghost e: Event)
      requires Follows(st, es) && 1 <= i <= MAX_CLIENTS < fds.Length && fds[i] >= 0
      requires Foretold(scripts) && Shape() && RunFrom(site, st, es).Some?
      modifies fds, connections[i], process
      ensures e == EventAt(site, RunFrom(site, st, es).value, i - 1, arrived, o, scripts)
      ensures defined <==> RunFrom(site, st, es + [e]).Some?
      ensures defined ==> Follows(st, es + [e])
      ensures forall k :: 0 <= k <= MAX_CLIENTS && k != i ==> fds[k] == old(fds[k])
    {
      hide *;
      Following(st, es);
      ghost var t := RunFrom(site, st, es).value;
      defined, e := ServeIndex(i, arrived, o, t, scripts);
      RunFromStep(site, st, es, e);
      if defined {
        FollowOne(st, es, e);
      }
    }

    /** What following some events amounts to. */
    lemma Following(st: State, es: seq<Event>)
      requires Follows(st, es)
      ensures Shape() && RunFrom(site, st, es).Some?
      ensures var t := RunFrom(site, st, es).value;
        && Mirrors(t) && Heard(t) && !t.stopped && Proper(site, t.world.tree)
        && DistinctLive(t.slots) && IdsKnown(t) && LivesSound(t)
    {
      hide Shows;
      hide Separate;
      hide Heard;
      hide DistinctLive;
    }

    /** One more event is followed when the arrays show where it leads. */
    lemma FollowOne(st: State, es: seq<Event>, e: Event)
      requires RunFrom(site, st, es).Some? && Next(site, RunFrom(site, st, es).value, e).Some?
      requires var t := RunFrom(site, st, es).value; Proper(site, t.world.tree) && LivesSound(t)
      requires var t := Next(site, RunFrom(site, st, es).value, e).value;
        Shape() && Mirrors(t) && Heard(t) && !t.stopped
      ensures Follows(st, es + [e])
    {
      hide Mirrors;
      hide Heard;
      hide Proper;
      hide Next;
      hide LivesSound;
      ProperKept(site, RunFrom(site, st, es).value, e);
      LivesKept(site, RunFrom(site, st, es).value, e);
      RunFromStep(site, st, es, e);
    }

    /** `process_client_events`: each ready index once, in order. When a command is undefined the last
        event is the one the transition system has no step for. `was` is the table at the time of `poll`. */
    method ProcessClientEvents(revents: seq<bool>, round: Round, ghost st: State, ghost was: seq<Slot>,
                               ghost scripts: (nat, Job) -> seq<int>)
      returns (defined: bool, ghost es: seq<Event>)
      requires Shape() && Follows(st, [])
      requires Sized(round) && Foretold(scripts) && |was| == MAX_CLIENTS && |revents| == MAX_CLIENTS + 1
      requires forall k :: 1 <= k <= MAX_CLIENTS ==> (revents[k] <==> was[k - 1].Live? && round.ready[k])
      requires forall k :: 1 <= k <= MAX_CLIENTS && revents[k] ==> fds[k] >= 0
      modifies fds, connections[..], process
      ensures es == Served(site, st, was, round, MAX_CLIENTS, scripts)
      ensures defined <==> RunFrom(site, st, es).Some?
      ensures defined ==> Follows(st, es) && EachServedOnce(es, was, round)
    {
      hide *;
      ShapeIs();
      ServedNone(site, st, was, round, scripts);
      RunNothing(site, st);
      es, defined := [], true;
      var i := 1;
      while i < MAX_CLIENTS + 1 && defined
        invariant 1 <= i <= MAX_CLIENTS + 1
        invariant es == Served(site, st, was, round, i - 1, scripts)
        invariant defined <==> RunFrom(site, st, es).Some?
        invariant defined ==> Follows(st, es)
        invariant defined ==> forall k :: i <= k <= MAX_CLIENTS && revents[k] ==> fds[k] >= 0
      {
        defined, es := ServeIfReady(i, revents, round, st, was, es, scripts);
        i := i + 1;
      }
      if defined {
        ServedOnce(site, st, was, round, scripts);
      } else {
        ServedStops(site, st, was, round, i - 1, MAX_CLIENTS, scripts);
      }
    }

    /** The body of that loop. */
    method ServeIfReady(i: int, revents: seq<bool>, round: Round, ghost st: State, ghost was: seq<Slot>,
                        ghost es: seq<Event>, ghost scripts: (nat, Job) -> seq<int>)
      returns (defined: bool, ghost more: seq<Event>)
      requires Shape() && Follows(st, es) && RunFrom(site, st, es).Some? && 1 <= i <= MAX_CLIENTS
      requires Sized(round) && Foretold(scripts) && |was| == MAX_CLIENTS && |revents| == MAX_CLIENTS + 1
      requires revents[i] <==> was[i - 1].Live? && round.ready[i]
      requires forall k :: i <= k <= MAX_CLIENTS && revents[k] ==> fds[k] >= 0
      requires es == Served(site, st, was, round, i - 1, scripts)
      modifies fds, connections[i], process
      ensures more == Served(site, st, was, round, i, scripts)
      ensures defined <==> RunFrom(site, st, more).Some?
      ensures defined ==> Follows(st, more)
      ensures forall k :: 0 <= k <= MAX_CLIENTS && k != i ==> fds[k] == old(fds[k])
    {
      ServedNext(site, st, was, round, i, scripts);
      defined, more := true, es;
      if fds[i] < 0 {
        return;
      }
      if revents[i] {
        ghost var e;
        defined, e := ServeOneMore(i, round.arrived[i], round.outcomes[i], st, es, scripts);
        more := es + [e];
      }
    }

    /** `poll`: negative descriptors never become ready. */
    method Poll(round: Round, ghost st: State) returns (revents: seq<bool>)
      requires Mirrors(st) && Sized(round)
      ensures |revents| == MAX_CLIENTS + 1
      ensures forall k :: 0 <= k <= MAX_CLIENTS ==> (revents[k] <==> round.ready[k] && fds[k] >= 0)
      ensures forall k :: 1 <= k <= MAX_CLIENTS ==> (revents[k] <==> st.slots[k - 1].Live? && round.ready[k])
    {
      revents := Polled(fds[..], round.ready);
      forall k | 1 <= k <= MAX_CLIENTS
        ensures revents[k] <==> st.slots[k - 1].Live? && round.ready[k]
      {
        assert Shows(k - 1, st.slots[k - 1]);
      }
    }

    ghost predicate Unused(fd: int)
      requires Shape()
      reads fds
    {
      forall k :: 1 <= k <= MAX_CLIENTS ==> fds[k] != fd
    }

    /** `accept`: fails, or gives a descriptor that is not in use. */
    method Accept(wanted: int) returns (fd: int)
      requires Shape()
      ensures fd == if wanted >= 0 && Unused(wanted) then wanted else -1
    {
      fd := if wanted >= 0 then wanted else -1;
      var i := 1;
      while i <= MAX_CLIENTS && fd != -1
        invariant 1 <= i <= MAX_CLIENTS + 1
        invariant fd == if wanted >= 0 && (forall k :: 1 <= k < i ==> fds[k] != wanted) then wanted else -1
      {
        if fds[i] == fd {
          fd := -1;
        }
        i := i + 1;
      }
    }

    /** What is unused in the array is fresh to the transition system. */
    lemma FreshHere(st: State, fd: int)
      requires Mirrors(st) && fd >= 0
      ensures FreshDescriptor(st.slots, fd) <==> Unused(fd)
    {
      forall k | 0 <= k < |st.slots|
        ensures if st.slots[k].Live? then st.slots[k].fd == fds[k + 1] else fds[k + 1] < 0
      {
        assert Shows(k, st.slots[k]);
      }
      assert forall k :: 1 <= k <= MAX_CLIENTS && fds[k] == fd ==> st.slots[k - 1].Live? && st.slots[k - 1].fd == fd;
    }

    /** The event of an accepted connection. */
    method AcceptClient(wanted: int, ghost st: State) returns (ghost es: seq<Event>)
      requires Shape() && Follows(st, [])
      modifies fds, connections
      ensures Follows(st, es) && es == Accepted(st, Some(wanted))
      ensures forall k :: 0 <= k <= MAX_CLIENTS ==> connections[k] == old(connections[k]) || fresh(connections[k])
      ensures forall k :: 1 <= k <= MAX_CLIENTS && old(fds[k]) >= 0 ==> fds[k] >= 0
    {
      AcceptedIs(st, wanted);
      hide *;
      RunNothing(site, st);
      Following(st, []);
      if wanted >= 0 {
        FreshHere(st, wanted);
      }
      var fd := Accept(wanted);
      es := [];
      if fd != -1 {
        AcceptNewConnection(fd, st);
        Welcomed(site, st, fd);
        FollowOne(st, [], Connect(fd));
        es := [Connect(fd)];
        assert [] + es == es;
      }
    }

    /** The file system around the server has changed since the last turn. */
    method Observe(tree: Tree, ghost st: State)
      requires Shape() && Follows(st, []) && Proper(site, tree)
      modifies process`tree
      ensures Follows(st, [Environment(tree)])
    {
      hide *;
      RunNothing(site, st);
      Following(st, []);
      See(tree, st);
      Seen(site, st, tree);
      FollowOne(st, [], Environment(tree));
      assert [] + [Environment(tree)] == [Environment(tree)];
    }

    method See(tree: Tree, ghost st: State)
      requires Mirrors(st) && Heard(st)
      modifies process`tree
      ensures var t := st.(world := st.world.(tree := tree)); Mirrors(t) && Heard(t)
    {
      hide Shows;
      hide Separate;
      hide Told;
      process.tree := tree;
    }

    /** Following some events, and then more. */
    lemma FollowsOn(st: State, es: seq<Event>, more: seq<Event>)
      requires RunFrom(site, st, es).Some?
      ensures Follows(st, es + more) <==> Follows(RunFrom(site, st, es).value, more)
      ensures RunFrom(site, st, es + more).Some? <==> RunFrom(site, RunFrom(site, st, es).value, more).Some?
    {
      hide Next;
      hide Mirrors;
      hide Proper;
      RunFromOn(site, st, es, more);
    }

    lemma FollowsRuns(st: State, es: seq<Event>)
      requires Follows(st, es)
      ensures RunFrom(site, st, es).Some? && Follows(RunFrom(site, st, es).value, [])
      ensures Shape()
    {
      hide Next;
      hide Proper;
    }

    /** `process_connection`: one turn. `result` is 1 when the loop has to end. */
    method ProcessConnection(round: Round, ghost st: State, ghost scripts: (nat, Job) -> seq<int>)
      returns (result: int, defined: bool, ghost es: seq<Event>)
      requires Shape() && Follows(st, []) && |st.slots| == MAX_CLIENTS
      requires ProperRound(site, round) && Sized(round) && Foretold(scripts)
      modifies fds, connections, connections[..], process
      ensures es == Turn(site, st, round, scripts)
      ensures defined <==> RunFrom(site, st, es).Some?
      ensures defined ==> Follows(st, es)
      ensures result == if round.pollFails then 1 else 0
      ensures forall k :: 0 <= k <= MAX_CLIENTS < connections.Length ==>
        connections[k] == old(connections[k]) || fresh(connections[k])
    {
      hide *;
      ShapeIs();
      RoundIs(site, round);
      Observe(round.tree, st);
      es, defined := [Environment(round.tree)], true;
      FollowsRuns(st, es);
      ghost var t := RunFrom(site, st, es).value;
      Observed(site, st, round.tree);
      TurnIs(site, st, round, scripts);
      if round.pollFails {
        result := 1;
        return;
      }
      RunNothing(site, t);
      Following(t, []);
      var revents := Poll(round, t);
      ghost var accepted := [];
      if round.connecting.Some? {
        accepted := AcceptClient(round.connecting.value, t);
      } else {
        AcceptedNone(t);
      }
      FollowsRuns(t, accepted);
      ghost var u, served := RunFrom(site, t, accepted).value, [];
      defined, served := ProcessClientEvents(revents, round, u, st.slots, scripts);
      FollowsOn(t, accepted, served);
      FollowsOn(st, es, accepted + served);
      es := es + (accepted + served);
      result := 0;
    }

    /** Every live connection has been sent its replies and then 221, and was destroyed. */
    ghost predicate Dismissed(st: State)
      reads connections, connections[..]
    {
      forall k :: 0 <= k < |st.slots| && st.slots[k].Live? ==>
        k + 1 < connections.Length && SentOff(connections[k + 1], st, k)
    }

    /** `destroy_server`: every live connection is told 221 and destroyed, in the order of the table. */
    method DestroyServer(ghost st: State) returns (ghost said: seq<Entry>)
      requires Mirrors(st) && Heard(st)
      modifies connections[..]
      ensures said == Farewells(st.slots)
      ensures Dismissed(st)
    {
      hide Told;
      hide Shows;
      hide SentOff;
      hide Waiting;
      assert Farewells(st.slots[..0]) == [];
      hide Farewells;
      AllWaiting(st);
      said := [];
      for i := 1 to MAX_CLIENTS + 1
        invariant said == Farewells(st.slots[..i - 1])
        invariant forall k :: 0 <= k < i - 1 && st.slots[k].Live? ==> SentOff(connections[k + 1], st, k)
        invariant forall k :: i - 1 <= k < |st.slots| && st.slots[k].Live? ==> Waiting(st, k)
      {
        assert st.slots[..i] == st.slots[..i - 1] + [st.slots[i - 1]];
        FarewellsAppend(st.slots[..i - 1], [st.slots[i - 1]]);
        FarewellsOne(st.slots[i - 1]);
        if fds[i] >= 0 {
          Dismiss(i, st);
          said := said + [Farewell(st.slots[i - 1].id), Destroyed(st.slots[i - 1].id)];
        }
      }
      assert st.slots[..MAX_CLIENTS] == st.slots;
    }

    lemma AllWaiting(st: State)
      requires Mirrors(st) && Heard(st)
      ensures forall k :: 0 <= k < |st.slots| ==>
        if st.slots[k].Live? then fds[k + 1] >= 0 && Waiting(st, k) else fds[k + 1] < 0
    {
      hide Told;
      forall k | 0 <= k < |st.slots|
        ensures if st.slots[k].Live? then fds[k + 1] >= 0 && Waiting(st, k) else fds[k + 1] < 0
      {
        assert Shows(k, st.slots[k]);
      }
    }

    /** One farewell. */
    method Dismiss(i: int, ghost st: State)
      requires Shape() && 1 <= i <= MAX_CLIENTS == |st.slots| && st.slots[i - 1].Live? && Waiting(st, i - 1)
      modifies connections[i]
      ensures SentOff(connections[i], st, i - 1)
    {
      connections[i].Say(221);
      connections[i].Destroy();
    }

    /** The connection of slot `k` can be used, and has been sent its replies. */
    ghost predicate Waiting(st: State, k: int)
      requires Shape() && 0 <= k < |st.slots| == MAX_CLIENTS && st.slots[k].Live?
      reads connections, connections[k + 1]
    {
      var connection := connections[k + 1];
      connection != null && connection.Usable() && connection.control == Told(st.log, st.slots[k].id)
    }

    lemma Beginning(tree: Tree)
      requires Mirrors(Init(site, tree)) && Proper(site, tree)
      ensures Shape() && Follows(Init(site, tree), [])
    {
      LivesInRun(site, tree, []);
    }

    lemma TableSize(st: State, es: seq<Event>)
      requires Follows(st, es)
      ensures RunFrom(site, st, es).Some? && |RunFrom(site, st, es).value.slots| == MAX_CLIENTS
    {
    }

    lemma Ending(tree: Tree, es: seq<Event>)
      requires Proper(site, tree) && Follows(Init(site, tree), es)
      ensures Run(site, tree, es + [Stop]).Some? && Run(site, tree, es + [Stop]).value.stopped
    {
      hide *;
      Following(Init(site, tree), es);
      RunFromInit(site, tree, es);
      RunStep(site, tree, es, Stop);
      Stopping(site, Run(site, tree, es).value);
    }

    /** `process_connections`: turns until a signal comes, which is when `rounds` is used up, or until
        `poll` fails; then the shutdown. What was done is the run of the transition system that the
        rounds prescribe, ended by the shutdown. So every connection that got a slot was told 221 once
        and destroyed once; and each one that was live at the end has been sent the replies of that run
        and 221, and nothing else. */
    method ProcessConnections(rounds: seq<Round>, ghost tree: Tree, ghost scripts: (nat, Job) -> seq<int>)
      returns (defined: bool, ghost es: seq<Event>)
      requires Mirrors(Init(site, tree)) && Proper(site, tree) && Foretold(scripts)
      requires forall round :: round in rounds ==> ProperRound(site, round) && Sized(round)
      modifies fds, connections, connections[..], process
      ensures var turns := Turns(site, Init(site, tree), rounds, scripts);
        && es == (if defined then turns + [Stop] else turns)
        && (defined <==> Run(site, tree, turns).Some?)
        && (defined ==> Dismissed(Run(site, tree, turns).value))
      ensures defined ==> Run(site, tree, es).Some?
      ensures defined ==>
        var st := Run(site, tree, es).value;
        st.stopped && forall id :: 0 <= id < st.born ==> Tally(st.log, Byes, id) == Tally(st.log, Ends, id) == 1
    {
      hide *;
      Beginning(tree);
      ShapeIs();
      ghost var st := Init(site, tree);
      RunNothing(site, st);
      TableSize(st, []);
      ghost var turns := Turns(site, st, rounds, scripts);
      es, defined := [], true;
      FollowsRuns(st, es);
      RunFromInit(site, tree, es);
      var n, result := 0, 0;
      assert rounds[0..] == rounds && [] + turns == turns;
      while n < |rounds| && result == 0
        invariant 0 <= n <= |rounds|
        invariant Follows(st, es) && defined && RunFrom(site, st, es).Some?
        invariant |RunFrom(site, st, es).value.slots| == MAX_CLIENTS
        invariant result == 0 ==> turns == es + Turns(site, RunFrom(site, st, es).value, rounds[n..], scripts)
        invariant result != 0 ==> turns == es
        invariant forall k :: 0 <= k < connections.Length ==>
          connections[k] == old(connections[k]) || fresh(connections[k])
        decreases |rounds| - n
      {
        ghost var t, more := RunFrom(site, st, es).value, [];
        FollowsRuns(st, es);
        TurnsStep(site, t, rounds[n..], scripts);
        assert rounds[n..][1..] == rounds[n + 1..];
        result, defined, more := ProcessConnection(rounds[n], t, scripts);
        FollowsOn(st, es, more);
        RunFromOn(site, st, es, more);
        if defined {
          FollowsRuns(t, more);
          Following(t, more);
          TableSize(t, more);
          if result == 0 {
            Regroup(es, more, Turns(site, RunFrom(site, t, more).value, rounds[n + 1..], scripts));
          }
        }
        es := es + more;
        RunFromInit(site, tree, es);
        if !defined {
          return;
        }
        n := n + 1;
      }
      if result == 0 {
        assert rounds[n..] == [];
        TurnsEnd(site, RunFrom(site, st, es).value, scripts);
        assert es + [] == es;
      }
      Following(st, es);
      RunFromInit(site, tree, es);
      Ending(tree, es);
      ghost var said := DestroyServer(RunFrom(site, st, es).value);
      es := turns + [Stop];
      AllEnded(site, tree, es);
    }
  }

  lemma RunFromInit(site: Site, tree: Tree, es: seq<Event>)
    requires Proper(site, tree)
    ensures Run(site, tree, es) == RunFrom(site, Init(site, tree), es)
  {
    hide Next;
    hide Proper;
    hide Init;
    RunOn(site, tree, [], es);
    assert [] + es == es;
  }

  lemma AllEnded(site: Site, tree: Tree, es: seq<Event>)
    requires Run(site, tree, es).Some? && Run(site, tree, es).value.stopped
    ensures var st := Run(site, tree, es).value;
      forall id :: 0 <= id < st.born ==> Tally(st.log, Byes, id) == Tally(st.log, Ends, id) == 1
  {
    var st := Run(site, tree, es).value;
    forall id | 0 <= id < st.born
      ensures Tally(st.log, Byes, id) == Tally(st.log, Ends, id) == 1
    {
      EndOfLife(site, tree, es, id);
    }
  }

  lemma FarewellsOne(slot: Slot)
    ensures Farewells([slot]) == if slot.Live? then [Farewell(slot.id), Destroyed(slot.id)] else []
  {
    assert [slot][1..] == [];
  }

  /** `handle_client_command`: one line is read, parsed and executed. `read` is false when the stream
      has ended. */
  method HandleClientCommand(connection: Connection, arrived: string, o: Outcome)
    returns (read: bool, status: Status, defined: bool, ghost r: Result)
    requires connection.Usable()
    modifies connection, connection.process
    ensures read <==> arrived != ""
    ensures !read ==> defined && status == Failure && unchanged(connection) && unchanged(connection.process)
    ensures read ==>
      && r == Execute(connection.site, old(connection.State()), old(connection.process.State()),
                      ParseLine(FirstLine(arrived)), o)
      && (defined <==> r.Done?)
      && (defined ==>
            && status == r.status && connection.State() == r.session && connection.process.State() == r.world
            && connection.Usable()
            && connection.control == old(connection.control) + Written(r))
  {
    hide Execute;
    hide ParseText;
    hide FirstLine;
    hide CutAtNul;
    status, defined, r := Failure, true, Crash;
    var stream := new Stream(arrived);
    var line;
    line, read := ReadSocket(stream);
    if !read {
      return;
    }
    ghost var text := LineText(FirstLine(arrived));
    var parse := ParseBuffer(line, text);
    ParsedClean(text);
    r := Execute(connection.site, connection.State(), connection.process.State(), parse, o);
    var launch;
    status, launch, defined := connection.ExecuteCommand(parse, o);
  }

  /** The transition system takes the line exactly when executing it is defined. */
  lemma Foreseen(site: Site, st: State, i: nat, arrived: string, o: Outcome, scripts: (nat, Job) -> seq<int>)
    requires Serves(st, i) && arrived != "" && Foretold(scripts)
    ensures var r := Execute(site, st.slots[i].session, st.world, ParseLine(FirstLine(arrived)), o);
      var e := EventAt(site, st, i, arrived, o, scripts);
      && (Next(site, st, e).Some? <==> r.Done?)
      && (r.Done? ==> Next(site, st, e) == Some(Handled(st, i, r, e.script)))
  {
    hide Execute;
    hide Proper;
    hide ParseLine;
    hide Script;
    hide Handled;
    hide FirstLine;
  }
}
