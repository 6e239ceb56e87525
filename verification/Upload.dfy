/** STOR against the client's `put`: two processes, a control connection, and a bounded data connection,
    interleaved in every way. src/commands/stor.c, bonus/src/commands/put.c. Opening files and setting
    up the connections have succeeded. */
module Upload {
  import opened LibC
  import opened Pipes

  datatype ClientPc = AwaitPreliminary | Copying | AwaitFinal | Succeeded | Failed

  datatype ServerPc = Starting | Receiving | Closing | Exited

  /** Client: `unread` of the local file, `held` in the stdio buffer, `out` in a `write` under way.
      Server: the `getline` reader, whose `taken` is what was passed to `fwrite`; `file` is what has
      reached the file. */
  datatype State = State(
    client: ClientPc,
    unread: string,
    held: string,
    out: string,
    replies: seq<int>,
    control: seq<int>,
    channel: string,
    closed: bool,
    server: ServerPc,
    reader: LineReader,
    file: string)

  datatype Action =
    | ReadReply
    | GetLine
    | Flush
    | Write(count: nat)
    | CloseData
    | Preliminary
    | Receive(count: nat)
    | TakeLine
    | Spill(count: nat)
    | Final
    | CloseFile

  function Init(content: string): State {
    State(AwaitPreliminary, content, "", "", [], [], "", false, Starting, LineReader("", ""), "")
  }

  predicate Enabled(cap: nat, s: State, a: Action) {
    match a
    case ReadReply => s.client in {AwaitPreliminary, AwaitFinal} && s.control != []
    case GetLine => s.client == Copying && s.out == "" && s.unread != ""
    case Flush => s.client == Copying && s.out == "" && s.held != ""
    case Write(k) => s.client == Copying && 0 < k <= |s.out| && |s.channel| + k <= cap
    case CloseData => s.client == Copying && s.out == "" && s.held == "" && s.unread == ""
    case Preliminary => s.server == Starting
    case Receive(k) => s.server == Receiving && s.reader.CanReceive(s.channel) && 0 < k <= |s.channel|
    case TakeLine => s.server == Receiving && s.reader.CanTake(s.channel, s.closed)
    case Spill(k) => s.server == Receiving && |s.file| < k <= |s.reader.taken|
    case Final => s.server == Receiving && s.reader.AtEnd(s.channel, s.closed)
    case CloseFile => s.server == Closing
  }

  function Next(cap: nat, s: State, a: Action): State
    requires Enabled(cap, s, a)
  {
    match a
    case ReadReply =>
      var reply := s.control[0];
      var read := s.(replies := s.replies + [reply], control := s.control[1..]);
      if s.client == AwaitPreliminary then read.(client := if reply == 150 then Copying else Failed)
      else read.(client := if reply == 226 then Succeeded else Failed)
    case GetLine =>
      var line := FirstLine(s.unread);
      s.(held := s.held + line, unread := s.unread[|line|..])
    case Flush => s.(out := s.held, held := "")
    case Write(k) => s.(channel := s.channel + s.out[..k], out := s.out[k..])
    case CloseData => s.(closed := true, client := AwaitFinal)
    case Preliminary => s.(control := s.control + [150], server := Receiving)
    case Receive(k) => s.(reader := s.reader.Receive(s.channel, k), channel := s.channel[k..])
    case TakeLine => s.(reader := s.reader.Take())
    case Spill(k) => s.(file := s.reader.taken[..k])
    case Final => s.(control := s.control + [226], server := Closing)
    case CloseFile => s.(file := s.reader.taken, server := Exited)
  }

  /** The state after a run; `None` when an action was not enabled. */
  function Run(cap: nat, content: string, actions: seq<Action>): Option<State>
    decreases |actions|
  {
    if actions == [] then Some(Init(content))
    else
      var last := actions[|actions| - 1];
      match Run(cap, content, actions[..|actions| - 1])
      case None => None
      case Some(s) => if Enabled(cap, s, last) then Some(Next(cap, s, last)) else None
  }

  /** Stored, in flight and unread: together always the client's file. */
  function Whole(s: State): string {
    s.reader.All() + (s.channel + (s.out + (s.held + s.unread)))
  }

  ghost predicate Inv(cap: nat, content: string, s: State) {
    && Whole(s) == content
    && RepliesInOrder(s)
    && Stations(cap, s)
  }

  /** A byte's stations on its way: every move is one step down. */
  function Measure(s: State): int {
    6 * |s.unread| + 5 * |s.held| + 4 * |s.out| + 3 * |s.channel| + 2 * |s.reader.buffer|
    + (|s.reader.taken| - |s.file|)
    + (match s.client case AwaitPreliminary => 3 case Copying => 2 case AwaitFinal => 1 case _ => 0)
    + (match s.server case Starting => 3 case Receiving => 2 case Closing => 1 case Exited => 0)
  }

  lemma WholeKept(cap: nat, s: State, a: Action)
    requires Enabled(cap, s, a)
    ensures Whole(Next(cap, s, a)) == Whole(s)
  {
    hide FirstLine;
    hide Whole;
    match a
    case GetLine => WholeGetLine(cap, s);
    case Flush => WholeFlush(cap, s);
    case Write(k) => WholeWrite(cap, s, k);
    case Receive(k) => WholeReceive(cap, s, k);
    case TakeLine => WholeTakeLine(cap, s);
    case _ => WholeSame(s, Next(cap, s, a));
  }

  lemma WholeSame(s: State, t: State)
    requires s.reader == t.reader && s.channel == t.channel
    requires s.out == t.out && s.held == t.held && s.unread == t.unread
    ensures Whole(s) == Whole(t)
  {
  }

  lemma WholeGetLine(cap: nat, s: State)
    requires Enabled(cap, s, GetLine)
    ensures Whole(Next(cap, s, GetLine)) == Whole(s)
  {
    var t := Next(cap, s, GetLine);
    LineAndRest(s.unread);
    hide FirstLine;
    assert t.held + t.unread == s.held + (FirstLine(s.unread) + s.unread[|FirstLine(s.unread)|..]);
  }

  lemma WholeFlush(cap: nat, s: State)
    requires Enabled(cap, s, Flush)
    ensures Whole(Next(cap, s, Flush)) == Whole(s)
  {
    var t := Next(cap, s, Flush);
    assert t.out + (t.held + t.unread) == s.out + (s.held + s.unread);
  }

  lemma WholeWrite(cap: nat, s: State, k: nat)
    requires Enabled(cap, s, Write(k))
    ensures Whole(Next(cap, s, Write(k))) == Whole(s)
  {
    s.reader.Moved(s.channel, s.out, k, s.held + s.unread);
  }

  lemma WholeReceive(cap: nat, s: State, k: nat)
    requires Enabled(cap, s, Receive(k))
    ensures Whole(Next(cap, s, Receive(k))) == Whole(s)
  {
    s.reader.ReceiveShift(s.channel, k, s.out + (s.held + s.unread));
  }

  lemma WholeTakeLine(cap: nat, s: State)
    requires Enabled(cap, s, TakeLine)
    ensures Whole(Next(cap, s, TakeLine)) == Whole(s)
  {
    s.reader.TakeKeepsAll();
  }

  lemma LineAndRest(s: string)
    ensures FirstLine(s) + s[|FirstLine(s)|..] == s
  {
  }

  /** Replies are read in the order they were written. */
  ghost predicate RepliesInOrder(s: State) {
    && s.replies + s.control ==
         (if s.server == Starting then [] else if s.server == Receiving then [150] else [150, 226])
    && s.replies == (match s.client
                     case AwaitPreliminary => []
                     case Copying => [150]
                     case AwaitFinal => [150]
                     case Succeeded => [150, 226]
                     case Failed => [0])
  }

  lemma ReadReplyKept(cap: nat, s: State)
    requires RepliesInOrder(s) && Enabled(cap, s, ReadReply)
    ensures RepliesInOrder(Next(cap, s, ReadReply))
  {
    NextReply(s.replies, s.control);
  }

  lemma RepliesKept(cap: nat, s: State, a: Action)
    requires RepliesInOrder(s) && Enabled(cap, s, a)
    ensures RepliesInOrder(Next(cap, s, a))
  {
    match a
    case ReadReply => ReadReplyKept(cap, s);
    case Preliminary => assert s.replies == [];
    case Final => assert s.replies + (s.control + [226]) == (s.replies + s.control) + [226];
    case _ =>
  }

  lemma TakenGrows(r: LineReader)
    ensures r.taken <= r.Take().taken
  {
  }

  lemma InvKept(cap: nat, content: string, s: State, a: Action)
    requires Inv(cap, content, s) && Enabled(cap, s, a)
    ensures Inv(cap, content, Next(cap, s, a))
  {
    WholeKept(cap, s, a);
    RepliesKept(cap, s, a);
    StationsKept(cap, s, a);
    hide Next;
    hide Whole;
    hide RepliesInOrder;
    hide Stations;
  }

  /** Who may still hold something, by how far the two processes are. */
  ghost predicate Stations(cap: nat, s: State) {
    && |s.channel| <= cap
    && s.file <= s.reader.taken
    && (s.client == AwaitPreliminary ==> s.out == "" && s.held == "" && s.channel == "")
    && (s.closed <==> s.client in {AwaitFinal, Succeeded})
    && (s.closed ==> s.out == "" && s.held == "" && s.unread == "")
    && (s.server in {Closing, Exited} ==> s.closed && s.channel == "" && s.reader.buffer == "")
    && (s.server == Exited ==> s.file == s.reader.taken)
  }

  predicate ClientMoves(a: Action) {
    a.ReadReply? || a.GetLine? || a.Flush? || a.Write? || a.CloseData?
  }

  lemma StationsKept(cap: nat, s: State, a: Action)
    requires Stations(cap, s) && RepliesInOrder(s) && Enabled(cap, s, a)
    ensures Stations(cap, Next(cap, s, a))
  {
    if a.ReadReply? {
      StationsReadReply(cap, s);
    } else if ClientMoves(a) {
      StationsClient(cap, s, a);
    } else if a.TakeLine? {
      StationsTakeLine(cap, s);
    } else {
      StationsServer(cap, s, a);
    }
  }

  lemma StationsReadReply(cap: nat, s: State)
    requires Stations(cap, s) && RepliesInOrder(s) && Enabled(cap, s, ReadReply)
    ensures Stations(cap, Next(cap, s, ReadReply))
  {
    assert s.control[0] == (s.replies + s.control)[|s.replies|];
  }

  lemma StationsClient(cap: nat, s: State, a: Action)
    requires Stations(cap, s) && Enabled(cap, s, a) && ClientMoves(a) && !a.ReadReply?
    ensures Stations(cap, Next(cap, s, a))
  {
    hide FirstLine;
  }

  lemma StationsTakeLine(cap: nat, s: State)
    requires Stations(cap, s) && Enabled(cap, s, TakeLine)
    ensures Stations(cap, Next(cap, s, TakeLine))
  {
    TakenGrows(s.reader);
    hide FirstLine;
  }

  lemma StationsServer(cap: nat, s: State, a: Action)
    requires Stations(cap, s) && Enabled(cap, s, a) && !ClientMoves(a) && !a.TakeLine?
    ensures Stations(cap, Next(cap, s, a))
  {
    hide FirstLine;
  }

  lemma {:induction false} InvInRun(cap: nat, content: string, actions: seq<Action>)
    requires Run(cap, content, actions).Some?
    ensures Inv(cap, content, Run(cap, content, actions).value)
    decreases |actions|
  {
    hide Enabled;
    hide Next;
    if actions == [] {
    } else {
      var before := actions[..|actions| - 1];
      InvInRun(cap, content, before);
      InvKept(cap, content, Run(cap, content, before).value, actions[|actions| - 1]);
    }
  }

  /** Every step brings the transfer closer to its end. */
  lemma MeasureDrops(cap: nat, content: string, s: State, a: Action)
    requires Inv(cap, content, s) && Enabled(cap, s, a)
    ensures 0 <= Measure(Next(cap, s, a)) < Measure(s)
  {
    hide Whole;
    hide RepliesInOrder;
    hide FirstLine;
    if a.GetLine? {
      GetLineMoves(s.unread);
    } else if a.TakeLine? {
      MeasureTakeLine(cap, s);
    } else {
      hide LineReader.Take;
    }
  }

  lemma MeasureTakeLine(cap: nat, s: State)
    requires Stations(cap, s) && Enabled(cap, s, TakeLine)
    ensures 0 <= Measure(Next(cap, s, TakeLine)) < Measure(s)
  {
    TakeMoves(s.reader);
    TakenGrows(s.reader);
    hide FirstLine;
  }

  lemma GetLineMoves(s: string)
    requires s != ""
    ensures 0 < |FirstLine(s)| <= |s|
  {
  }

  lemma TakeMoves(r: LineReader)
    requires r.buffer != ""
    ensures |r.Take().buffer| < |r.buffer|
    ensures |r.Take().buffer| + |r.Take().taken| == |r.buffer| + |r.taken|
  {
  }

  predicate Finished(s: State) {
    s.client == Succeeded && s.server == Exited
  }

  /** Until the client has its 226, somebody can go on without anything reaching the file. */
  lemma SomebodyCanServe(cap: nat, content: string, s: State) returns (a: Action)
    requires cap > 0 && Inv(cap, content, s) && s.client != Succeeded
    ensures Enabled(cap, s, a) && !a.Spill? && !a.CloseFile?
  {
    hide Whole;
    hide FirstLine;
    s.reader.ReaderProgress(s.channel, s.closed);
    assert |s.replies| + |s.control| == |s.replies + s.control|;
    assert s.replies != [] ==> s.replies[0] == (s.replies + s.control)[0];
    if s.server == Starting {
      a := Preliminary;
    } else if s.server == Receiving && s.reader.CanTake(s.channel, s.closed) {
      a := TakeLine;
    } else if s.server == Receiving && s.reader.CanReceive(s.channel) {
      a := Receive(1);
    } else if s.server == Receiving && s.reader.AtEnd(s.channel, s.closed) {
      a := Final;
    } else if s.client == Copying {
      a := if s.out != "" then Write(1)
           else if s.unread != "" then GetLine
           else if s.held != "" then Flush
           else CloseData;
    } else {
      a := ReadReply;
    }
  }

  /** No deadlock: until both processes have finished, one of them can go on. */
  lemma SomebodyCanGo(cap: nat, content: string, s: State) returns (a: Action)
    requires cap > 0 && Inv(cap, content, s) && !Finished(s)
    ensures Enabled(cap, s, a)
  {
    if s.client != Succeeded {
      a := SomebodyCanServe(cap, content, s);
    } else {
      a := CloseFile;
      assert |s.replies| + |s.control| == |s.replies + s.control|;
    }
  }

  /** A run can be no longer than the measure of its first state. */
  lemma {:induction false} RunsAreBounded(cap: nat, content: string, actions: seq<Action>)
    requires Run(cap, content, actions).Some?
    ensures |actions| + Measure(Run(cap, content, actions).value) <= 6 * |content| + 6
    decreases |actions|
  {
    hide Enabled;
    hide Next;
    if actions == [] {
    } else {
      var before := actions[..|actions| - 1];
      RunsAreBounded(cap, content, before);
      InvInRun(cap, content, before);
      MeasureDrops(cap, content, Run(cap, content, before).value, actions[|actions| - 1]);
    }
  }

  /** Nothing more can happen. */
  ghost predicate Maximal(cap: nat, s: State) {
    forall a :: !Enabled(cap, s, a)
  }

  /** Every maximal run, for every file and every capacity, ends with both processes finished, replies
      150 and then 226 read, and the server's file equal to the client's, byte for byte. */
  lemma UploadCompletes(cap: nat, content: string, actions: seq<Action>)
    requires cap > 0 && Run(cap, content, actions).Some?
    requires Maximal(cap, Run(cap, content, actions).value)
    ensures var s := Run(cap, content, actions).value;
      Finished(s) && s.replies == [150, 226] && s.control == [] && s.file == content
  {
    InvInRun(cap, content, actions);
    var s := Run(cap, content, actions).value;
    if !Finished(s) {
      var a := SomebodyCanGo(cap, content, s);
      assert false;
    }
    assert s.reader.taken + "" + "" + "" + "" + "" == s.reader.taken;
  }

  /** What 226 tells the client: every byte was received. */
  lemma FinalReplyMeansReceived(cap: nat, content: string, actions: seq<Action>)
    requires Run(cap, content, actions).Some?
    requires var s := Run(cap, content, actions).value; 226 in s.control || s.client == Succeeded
    ensures Run(cap, content, actions).value.reader.taken == content
  {
    InvInRun(cap, content, actions);
    var s := Run(cap, content, actions).value;
    assert s.server in {Closing, Exited} by {
      assert forall c :: c in s.control ==> c in s.replies + s.control;
    }
    assert s.reader.taken + "" + "" + "" + "" + "" == s.reader.taken;
  }

  /** What it does not tell: the reply goes out before the file is closed. For every file and capacity
      there is a run after which the client is done while the server's file is still empty. */
  lemma FinalReplyBeforeFile(cap: nat, content: string) returns (actions: seq<Action>)
    requires cap > 0
    ensures Run(cap, content, actions).Some?
    ensures var s := Run(cap, content, actions).value; s.client == Succeeded && s.file == ""
  {
    actions := ServeOn(cap, content, []);
  }

  lemma {:induction false} ServeOn(cap: nat, content: string, actions: seq<Action>) returns (all: seq<Action>)
    requires cap > 0 && Run(cap, content, actions).Some?
    requires Run(cap, content, actions).value.file == ""
    ensures Run(cap, content, all).Some?
    ensures var s := Run(cap, content, all).value; s.client == Succeeded && s.file == ""
    decreases 6 * |content| + 6 - |actions|
  {
    InvInRun(cap, content, actions);
    RunsAreBounded(cap, content, actions);
    var s := Run(cap, content, actions).value;
    if s.client == Succeeded {
      return actions;
    }
    var a := SomebodyCanServe(cap, content, s);
    RunSnoc(cap, content, actions, a, s);
    MeasureDrops(cap, content, s, a);
    hide Inv;
    hide Measure;
    all := ServeOn(cap, content, actions + [a]);
  }

  lemma RunSnoc(cap: nat, content: string, actions: seq<Action>, a: Action, s: State)
    requires Run(cap, content, actions) == Some(s) && Enabled(cap, s, a)
    ensures Run(cap, content, actions + [a]) == Some(Next(cap, s, a))
  {
    assert (actions + [a])[..|actions|] == actions;
  }
}
