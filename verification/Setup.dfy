/** Setting up passive data connections for many clients at once: src/commands/pasv.c,
    src/passive_data_socket.c, src/data_socket_executor.c, bonus/src/data_socket.c. The one server loop
    takes a line at a time, and while it is in `accept` for one client it serves nobody else. The client
    program connects before it sends RETR, STOR or LIST; other clients may connect only after it, or never.
    Sockets can be made, and lines and replies arrive. */
module Setup {
  import opened LibC

  datatype Request = Pasv | Transfer

  /** When a client connects to the port it was given. */
  datatype Kind = Before | After | Never

  datatype Pc = Asking | AwaitAddress | Connecting | Commanding | Done

  /** `line` was sent and not yet read, `reply` is a 227 not yet read. `listening`: the server has a
      listening socket for this client. `pending`: a connection to it waits in its backlog. `started`: the
      server has accepted it and forked the child. */
  datatype Client = Client(
    pc: Pc,
    line: Option<Request>,
    reply: bool,
    listening: bool,
    connected: bool,
    pending: bool,
    started: bool)

  const FRESH := Client(Asking, None, false, false, false, false, false)

  /** `inAccept`: the client whose data connection the server loop waits for. */
  datatype State = State(clients: seq<Client>, inAccept: Option<nat>)

  datatype Action =
    | Ask(i: nat)
    | TakePasv(i: nat)
    | ReadAddress(i: nat)
    | Connect(i: nat)
    | Command(i: nat)
    | TakeTransfer(i: nat)
    | Accept(i: nat)

  /** `kinds[i]` says when client `i` connects: before it sends its command, after it, or never. */
  function Init(kinds: seq<Kind>): State {
    State(seq(|kinds|, _ => FRESH), None)
  }

  predicate Enabled(kinds: seq<Kind>, s: State, a: Action) {
    && a.i < |s.clients| == |kinds|
    && var c := s.clients[a.i];
       match a
       case Ask(_) => c.pc == Asking
       case TakePasv(_) => s.inAccept.None? && c.line == Some(Pasv)
       case ReadAddress(_) => c.pc == AwaitAddress && c.reply
       case Connect(_) =>
         c.listening && (c.pc == Connecting || (kinds[a.i] == After && c.pc == Done && !c.connected))
       case Command(_) => c.pc == Commanding
       case TakeTransfer(_) => s.inAccept.None? && c.line == Some(Transfer)
       case Accept(_) => s.inAccept == Some(a.i) && c.pending
  }

  function Next(kinds: seq<Kind>, s: State, a: Action): State
    requires Enabled(kinds, s, a)
  {
    var c := s.clients[a.i];
    match a
    case Ask(i) => With(s, i, c.(line := Some(Pasv), pc := AwaitAddress))
    case TakePasv(i) => With(s, i, c.(line := None, listening := true, reply := true))
    case ReadAddress(i) => With(s, i, c.(reply := false, pc := if kinds[i] == Before then Connecting else Commanding))
    case Connect(i) =>
      With(s, i, c.(connected := true, pending := true, pc := if c.pc == Connecting then Commanding else Done))
    case Command(i) => With(s, i, c.(line := Some(Transfer), pc := Done))
    case TakeTransfer(i) => With(s, i, c.(line := None)).(inAccept := Some(i))
    case Accept(i) => With(s, i, c.(pending := false, started := true)).(inAccept := None)
  }

  function With(s: State, i: nat, c: Client): State
    requires i < |s.clients|
  {
    s.(clients := s.clients[i := c])
  }

  /** The state after a run; `None` when an action was not enabled. */
  function Run(kinds: seq<Kind>, actions: seq<Action>): (r: Option<State>)
    ensures r.Some? ==> |r.value.clients| == |kinds|
    decreases |actions|
  {
    if actions == [] then Some(Init(kinds))
    else
      var last := actions[|actions| - 1];
      match Run(kinds, actions[..|actions| - 1])
      case None => None
      case Some(s) => if Enabled(kinds, s, last) then Some(Next(kinds, s, last)) else None
  }

  /** Where one client and the server are with each other. */
  predicate Sound(kind: Kind, c: Client, accepting: bool) {
    match c.pc
    case Asking => c == FRESH && !accepting
    case AwaitAddress =>
      && !c.connected && !c.pending && !c.started && !accepting
      && if c.reply then c.line.None? && c.listening else c.line == Some(Pasv)
    case Connecting =>
      kind == Before && c == FRESH.(pc := Connecting, listening := true) && !accepting
    case Commanding =>
      && c == FRESH.(pc := Commanding, listening := true, connected := kind == Before, pending := kind == Before)
      && !accepting
    case Done =>
      && !c.reply && c.listening && c.line != Some(Pasv)
      && (c.connected ==> kind != Never) && (kind == Before ==> c.connected)
      && (c.started ==> c.connected && !c.pending && c.line.None? && !accepting)
      && (!c.started ==> c.pending == c.connected && (accepting <==> c.line.None?))
  }

  ghost predicate Inv(kinds: seq<Kind>, s: State) {
    && |s.clients| == |kinds|
    && (s.inAccept.Some? ==> s.inAccept.value < |kinds|)
    && forall i: nat :: i < |kinds| ==> Sound(kinds[i], s.clients[i], s.inAccept == Some(i))
  }

  lemma InvKept(kinds: seq<Kind>, s: State, a: Action)
    requires Inv(kinds, s) && Enabled(kinds, s, a)
    ensures Inv(kinds, Next(kinds, s, a))
  {
    var t := Next(kinds, s, a);
    forall i: nat | i < |kinds|
      ensures Sound(kinds[i], t.clients[i], t.inAccept == Some(i))
    {
      assert Sound(kinds[i], s.clients[i], s.inAccept == Some(i));
    }
  }

  lemma {:induction false} InvInRun(kinds: seq<Kind>, actions: seq<Action>)
    requires Run(kinds, actions).Some?
    ensures Inv(kinds, Run(kinds, actions).value)
    decreases |actions|
  {
    if actions == [] {
    } else {
      var before := actions[..|actions| - 1];
      InvInRun(kinds, before);
      InvKept(kinds, Run(kinds, before).value, actions[|actions| - 1]);
    }
  }

  // ---------------------------------------------------------------- every run ends

  /** Steps a client and the server have still to make for it. */
  function ToGo(c: Client): nat {
    (match c.pc case Asking => 8 case AwaitAddress => 6 case Connecting => 5 case Commanding => 4 case Done => 0)
    + (if c.line == Some(Pasv) then 1 else if c.line == Some(Transfer) then 2 else 0)
    + (if c.pc == Done && !c.started then 1 else 0)
    + (if c.connected then 0 else 1)
  }

  function Measure(clients: seq<Client>): nat {
    if clients == [] then 0 else ToGo(clients[0]) + Measure(clients[1..])
  }

  lemma {:induction false} MeasureUpdate(clients: seq<Client>, i: nat, c: Client)
    requires i < |clients|
    ensures Measure(clients[i := c]) == Measure(clients) - ToGo(clients[i]) + ToGo(c)
  {
    if i == 0 {
      assert clients[i := c][1..] == clients[1..];
    } else {
      assert clients[i := c][1..] == clients[1..][i - 1 := c];
      MeasureUpdate(clients[1..], i - 1, c);
    }
  }

  lemma MeasureDrops(kinds: seq<Kind>, s: State, a: Action)
    requires Inv(kinds, s) && Enabled(kinds, s, a)
    ensures Measure(Next(kinds, s, a).clients) < Measure(s.clients)
  {
    var t := Next(kinds, s, a);
    assert Sound(kinds[a.i], s.clients[a.i], s.inAccept == Some(a.i));
    MeasureUpdate(s.clients, a.i, t.clients[a.i]);
    hide Measure;
  }

  lemma {:induction false} MeasureInit(clients: seq<Client>)
    requires forall k :: 0 <= k < |clients| ==> clients[k] == FRESH
    ensures Measure(clients) == 9 * |clients|
  {
    if clients == [] {
    } else {
      MeasureInit(clients[1..]);
    }
  }

  lemma {:induction false} RunsAreBounded(kinds: seq<Kind>, actions: seq<Action>)
    requires Run(kinds, actions).Some?
    ensures |actions| + Measure(Run(kinds, actions).value.clients) <= 9 * |kinds|
    decreases |actions|
  {
    hide Enabled;
    hide Next;
    hide Measure;
    if actions == [] {
      MeasureInit(Init(kinds).clients);
    } else {
      var before := actions[..|actions| - 1];
      RunsAreBounded(kinds, before);
      InvInRun(kinds, before);
      MeasureDrops(kinds, Run(kinds, before).value, actions[|actions| - 1]);
    }
  }

  // ---------------------------------------------------------------- how every run ends

  ghost predicate Maximal(kinds: seq<Kind>, s: State) {
    forall a :: !Enabled(kinds, s, a)
  }

  /** While the loop is in `accept`: a client that connects before its command is there already, so it
      returns at once; it can be left, now or when the client has connected, iff the client does connect. */
  lemma AcceptReturns(kinds: seq<Kind>, actions: seq<Action>, i: nat)
    requires Run(kinds, actions).Some? && Run(kinds, actions).value.inAccept == Some(i)
    ensures i < |kinds|
    ensures var s := Run(kinds, actions).value;
      && (kinds[i] == Before ==> Enabled(kinds, s, Accept(i)))
      && (kinds[i] != Never <==> Enabled(kinds, s, Accept(i)) || Enabled(kinds, s, Connect(i)))
  {
    InvInRun(kinds, actions);
    var s := Run(kinds, actions).value;
    assert Sound(kinds[i], s.clients[i], true);
  }

  /** A client the loop is not in `accept` for can go on, or the server can for it, until its child is
      running. */
  lemma ClientCanGo(kinds: seq<Kind>, s: State, i: nat) returns (a: Action)
    requires Inv(kinds, s) && s.inAccept.None? && i < |kinds| && !s.clients[i].started
    ensures Enabled(kinds, s, a)
  {
    var c := s.clients[i];
    assert Sound(kinds[i], c, false);
    match c.pc
    case Asking => a := Ask(i);
    case AwaitAddress => a := if c.reply then ReadAddress(i) else TakePasv(i);
    case Connecting => a := Connect(i);
    case Commanding => a := Command(i);
    case Done =>
      assert c.line.Some? && c.line.value == Transfer;
      a := TakeTransfer(i);
  }

  /** Every run ends in one of two ways, whatever the clients and the interleaving. Each of them connects,
      sooner or later: every transfer is started. One never does: the server loop is held up for good in
      `accept`, for a client that never connects, and serves nobody any more. */
  lemma SetupEnds(kinds: seq<Kind>, actions: seq<Action>)
    requires Run(kinds, actions).Some? && Maximal(kinds, Run(kinds, actions).value)
    ensures var s := Run(kinds, actions).value;
      if Never !in kinds then
        s.inAccept.None? && forall c :: c in s.clients ==> c.started
      else
        s.inAccept.Some? && s.inAccept.value < |kinds| && kinds[s.inAccept.value] == Never
  {
    InvInRun(kinds, actions);
    var s := Run(kinds, actions).value;
    if s.inAccept.Some? {
      var i := s.inAccept.value;
      AcceptReturns(kinds, actions, i);
      assert !Enabled(kinds, s, Accept(i)) && !Enabled(kinds, s, Connect(i));
    } else {
      AllStarted(kinds, s);
    }
  }

  lemma AllStarted(kinds: seq<Kind>, s: State)
    requires Inv(kinds, s) && s.inAccept.None? && Maximal(kinds, s)
    ensures forall i: nat :: i < |kinds| ==> kinds[i] != Never && s.clients[i].started
  {
    forall i: nat | i < |kinds|
      ensures kinds[i] != Never && s.clients[i].started
    {
      assert Sound(kinds[i], s.clients[i], false);
      if !s.clients[i].started {
        var a := ClientCanGo(kinds, s, i);
        assert false;
      }
    }
  }
}
