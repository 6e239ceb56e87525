/** RETR against the client's `get`: the server, its forked child and the client, a control connection and
    a bounded data connection, interleaved in every way. src/commands/retr.c,
    src/data_socket_executor.c, bonus/src/commands/get.c. Opening files and setting up the connections have
    succeeded. The client reads both replies before it reads any data. */
module Download {
  import opened LibC
  import opened Pipes
  import opened CopyLoops

  datatype ChildPc = Starting | Sending | Leaving | Gone

  datatype ClientPc = AwaitPreliminary | AwaitFinal | Receiving | Succeeded | Failed

  /** `parentClosed`: the server has closed its copy of the data socket. `unread` and `out` are the
      child's: what it has not read of the file, and what a write under way has still to deliver. */
  datatype State = State(
    parentClosed: bool,
    child: ChildPc,
    unread: string,
    out: string,
    control: seq<int>,
    channel: string,
    client: ClientPc,
    replies: seq<int>,
    reader: LineReader,
    local: string)

  datatype Action =
    | ParentCloses
    | Preliminary
    | ReadChunk
    | Write(count: nat)
    | Final
    | Exit
    | ReadReply
    | Receive(count: nat)
    | TakeLine
    | Finish

  function Init(content: string): State {
    State(false, Starting, content, "", [], "", AwaitPreliminary, [], LineReader("", ""), "")
  }

  /** The data connection ends when the last process on the sending side has closed it. */
  predicate Ended(s: State) {
    s.parentClosed && s.child == Gone
  }

  predicate Enabled(cap: nat, s: State, a: Action) {
    match a
    case ParentCloses => !s.parentClosed
    case Preliminary => s.child == Starting
    case ReadChunk => s.child == Sending && s.out == "" && s.unread != ""
    case Write(k) => s.child == Sending && 0 < k <= |s.out| && |s.channel| + k <= cap
    case Final => s.child == Sending && s.out == "" && s.unread == ""
    case Exit => s.child == Leaving
    case ReadReply => s.client in {AwaitPreliminary, AwaitFinal} && s.control != []
    case Receive(k) => s.client == Receiving && s.reader.CanReceive(s.channel) && 0 < k <= |s.channel|
    case TakeLine => s.client == Receiving && s.reader.CanTake(s.channel, Ended(s))
    case Finish => s.client == Receiving && s.reader.AtEnd(s.channel, Ended(s))
  }

  function Next(cap: nat, s: State, a: Action): State
    requires Enabled(cap, s, a)
  {
    match a
    case ParentCloses => s.(parentClosed := true)
    case Preliminary => s.(control := s.control + [150], child := Sending)
    case ReadChunk =>
      var chunk := Chunk(s.unread);
      s.(out := CutAtNul(chunk), unread := s.unread[|chunk|..])
    case Write(k) => s.(channel := s.channel + s.out[..k], out := s.out[k..])
    case Final => s.(control := s.control + [226], child := Leaving)
    case Exit => s.(child := Gone)
    case ReadReply =>
      var reply := s.control[0];
      var read := s.(replies := s.replies + [reply], control := s.control[1..]);
      if s.client == AwaitPreliminary then read.(client := if reply == 150 then AwaitFinal else Failed)
      else read.(client := if reply == 226 then Receiving else Failed)
    case Receive(k) => s.(reader := s.reader.Receive(s.channel, k), channel := s.channel[k..])
    case TakeLine => s.(reader := s.reader.Take())
    case Finish => s.(local := s.reader.taken, client := Succeeded)
  }

  /** The state after a run; `None` when an action was not enabled. */
  function Run(cap: nat, content: string, actions: seq<Action>): Option<State>
    decreases |actions|
  {
    if actions == [] then Some(Init(content))
    else
      var last := actions[|actions| - 1];
      match Run(cap, content, actions[..|actions| - 1])
      case None => None
      case Some(s) => if Enabled(cap, s, last) then Some(Next(cap, s, last)) else None
  }

  /** Received, in flight, and what the rest of the file will still give. */
  function Whole(s: State): string {
    s.reader.All() + (s.channel + (s.out + Sent(s.unread)))
  }

  /** Replies are read in the order they were written. */
  ghost predicate RepliesInOrder(s: State) {
    && s.replies + s.control == (if s.child == Starting then [] else if s.child == Sending then [150] else [150, 226])
    && s.replies == (match s.client
                     case AwaitPreliminary => []
                     case AwaitFinal => [150]
                     case Receiving => [150, 226]
                     case Succeeded => [150, 226]
                     case Failed => [0])
  }

  /** The client takes no data before it has its 226, so a child that got that far has had room for
      everything. */
  ghost predicate Stations(cap: nat, content: string, s: State) {
    && |s.channel| <= cap
    && (s.client in {AwaitPreliminary, AwaitFinal} ==> s.reader == LineReader("", ""))
    && (s.child in {Leaving, Gone} ==> s.out == "" && s.unread == "" && |Sent(content)| <= cap)
    && (s.client == Succeeded ==> Ended(s) && s.channel == "" && s.reader.buffer == "" && s.local == s.reader.taken)
  }

  ghost predicate Inv(cap: nat, content: string, s: State) {
    Whole(s) == Sent(content) && RepliesInOrder(s) && Stations(cap, content, s)
  }

  // ---------------------------------------------------------------- every step keeps it

  lemma WholeKept(cap: nat, s: State, a: Action)
    requires Enabled(cap, s, a)
    ensures Whole(Next(cap, s, a)) == Whole(s)
  {
    hide Whole;
    hide Sent;
    hide Chunk;
    match a
    case ReadChunk => WholeReadChunk(cap, s);
    case Write(k) => WholeWrite(cap, s, k);
    case Receive(k) => WholeReceive(cap, s, k);
    case TakeLine => WholeTakeLine(cap, s);
    case _ => WholeSame(s, Next(cap, s, a));
  }

  lemma WholeSame(s: State, t: State)
    requires s.reader == t.reader && s.channel == t.channel && s.out == t.out && s.unread == t.unread
    ensures Whole(s) == Whole(t)
  {
  }

  lemma WholeReadChunk(cap: nat, s: State)
    requires Enabled(cap, s, ReadChunk)
    ensures Whole(Next(cap, s, ReadChunk)) == Whole(s)
  {
    SentStep(s.unread, "");
    var t := Next(cap, s, ReadChunk);
    var sent, out, rest := Sent(s.unread), t.out, Sent(t.unread);
    assert "" + sent == ("" + out) + rest;
    hide Sent;
    hide Chunk;
    assert out + rest == s.out + sent;
  }

  lemma WholeWrite(cap: nat, s: State, k: nat)
    requires Enabled(cap, s, Write(k))
    ensures Whole(Next(cap, s, Write(k))) == Whole(s)
  {
    hide Sent;
    s.reader.Moved(s.channel, s.out, k, Sent(s.unread));
  }

  lemma WholeReceive(cap: nat, s: State, k: nat)
    requires Enabled(cap, s, Receive(k))
    ensures Whole(Next(cap, s, Receive(k))) == Whole(s)
  {
    hide Sent;
    s.reader.ReceiveShift(s.channel, k, s.out + Sent(s.unread));
  }

  lemma WholeTakeLine(cap: nat, s: State)
    requires Enabled(cap, s, TakeLine)
    ensures Whole(Next(cap, s, TakeLine)) == Whole(s)
  {
    s.reader.TakeKeepsAll();
  }

  lemma RepliesKept(cap: nat, s: State, a: Action)
    requires RepliesInOrder(s) && Enabled(cap, s, a)
    ensures RepliesInOrder(Next(cap, s, a))
  {
    match a
    case ReadReply => ReadReplyKept(cap, s);
    case Preliminary => assert s.replies == [];
    case Final => assert s.replies + (s.control + [226]) == (s.replies + s.control) + [226];
    case _ =>
  }

  lemma ReadReplyKept(cap: nat, s: State)
    requires RepliesInOrder(s) && Enabled(cap, s, ReadReply)
    ensures RepliesInOrder(Next(cap, s, ReadReply))
  {
    NextReply(s.replies, s.control);
  }

  /** 226 is written only when everything has gone into the connection, and nobody has taken any of it. */
  lemma StationsFinal(cap: nat, content: string, s: State)
    requires Inv(cap, content, s) && Enabled(cap, s, Final)
    ensures Stations(cap, content, Next(cap, s, Final))
  {
    assert |s.replies| + |s.control| == |s.replies + s.control|;
    assert s.replies != [] ==> s.replies[0] == (s.replies + s.control)[0];
    assert s.client in {AwaitPreliminary, AwaitFinal};
    assert Sent("") == "";
    assert |Whole(s)| == |s.channel|;
  }

  lemma StationsKept(cap: nat, content: string, s: State, a: Action)
    requires Inv(cap, content, s) && Enabled(cap, s, a)
    ensures Stations(cap, content, Next(cap, s, a))
  {
    if a.Final? {
      StationsFinal(cap, content, s);
    } else if a.ReadReply? {
      StationsReadReply(cap, content, s);
    } else if a.Receive? || a.TakeLine? || a.Finish? {
      StationsClient(cap, content, s, a);
    } else {
      StationsServer(cap, content, s, a);
    }
  }

  lemma StationsReadReply(cap: nat, content: string, s: State)
    requires Stations(cap, content, s) && Enabled(cap, s, ReadReply)
    ensures Stations(cap, content, Next(cap, s, ReadReply))
  {
    hide Sent;
    hide FirstLine;
  }

  lemma StationsClient(cap: nat, content: string, s: State, a: Action)
    requires Stations(cap, content, s) && Enabled(cap, s, a) && (a.Receive? || a.TakeLine? || a.Finish?)
    ensures Stations(cap, content, Next(cap, s, a))
  {
    hide Sent;
    hide FirstLine;
  }

  lemma StationsServer(cap: nat, content: string, s: State, a: Action)
    requires Stations(cap, content, s) && Enabled(cap, s, a)
    requires a.ParentCloses? || a.Preliminary? || a.ReadChunk? || a.Write? || a.Exit?
    ensures Stations(cap, content, Next(cap, s, a))
  {
    hide Sent;
    hide Chunk;
    hide CutAtNul;
  }

  lemma InvKept(cap: nat, content: string, s: State, a: Action)
    requires Inv(cap, content, s) && Enabled(cap, s, a)
    ensures Inv(cap, content, Next(cap, s, a))
  {
    WholeKept(cap, s, a);
    RepliesKept(cap, s, a);
    StationsKept(cap, content, s, a);
    hide Next;
    hide Whole;
    hide RepliesInOrder;
    hide Stations;
  }

  lemma {:induction false} InvInRun(cap: nat, content: string, actions: seq<Action>)
    requires Run(cap, content, actions).Some?
    ensures Inv(cap, content, Run(cap, content, actions).value)
    decreases |actions|
  {
    if actions == [] {
      InvInit(cap, content);
    } else {
      hide Enabled;
      hide Next;
      hide Inv;
      var before := actions[..|actions| - 1];
      InvInRun(cap, content, before);
      InvKept(cap, content, Run(cap, content, before).value, actions[|actions| - 1]);
    }
  }

  lemma InvInit(cap: nat, content: string)
    ensures Inv(cap, content, Init(content))
  {
    hide Sent;
    assert "" + ("" + ("" + Sent(content))) == Sent(content);
  }

  // ---------------------------------------------------------------- every run ends

  function Measure(s: State): int {
    5 * |s.unread| + 4 * |s.out| + 3 * |s.channel| + 2 * |s.reader.buffer|
    + (if s.parentClosed then 0 else 1)
    + (match s.child case Starting => 3 case Sending => 2 case Leaving => 1 case Gone => 0)
    + (match s.client case AwaitPreliminary => 3 case AwaitFinal => 2 case Receiving => 1 case _ => 0)
  }

  lemma MeasureDrops(cap: nat, s: State, a: Action)
    requires Enabled(cap, s, a)
    ensures 0 <= Measure(Next(cap, s, a)) < Measure(s)
  {
    if a.TakeLine? {
      MeasureTakeLine(cap, s);
    } else if a.ReadChunk? {
      MeasureReadChunk(cap, s);
    } else {
      hide Chunk;
      hide CutAtNul;
      hide LineReader.Take;
    }
  }

  lemma MeasureTakeLine(cap: nat, s: State)
    requires Enabled(cap, s, TakeLine)
    ensures 0 <= Measure(Next(cap, s, TakeLine)) < Measure(s)
  {
    s.reader.TakeKeepsAll();
    hide FirstLine;
  }

  lemma MeasureReadChunk(cap: nat, s: State)
    requires Enabled(cap, s, ReadChunk)
    ensures 0 <= Measure(Next(cap, s, ReadChunk)) < Measure(s)
  {
    var chunk := Chunk(s.unread);
    assert 0 < |chunk| <= |s.unread| && |CutAtNul(chunk)| <= |chunk|;
    hide Chunk;
    hide CutAtNul;
  }

  lemma {:induction false} RunsAreBounded(cap: nat, content: string, actions: seq<Action>)
    requires Run(cap, content, actions).Some?
    ensures |actions| + Measure(Run(cap, content, actions).value) <= 5 * |content| + 7
    decreases |actions|
  {
    hide Enabled;
    hide Next;
    if actions == [] {
    } else {
      var before := actions[..|actions| - 1];
      RunsAreBounded(cap, content, before);
      MeasureDrops(cap, Run(cap, content, before).value, actions[|actions| - 1]);
    }
  }

  // ---------------------------------------------------------------- how every run ends

  ghost predicate Maximal(cap: nat, s: State) {
    forall a :: !Enabled(cap, s, a)
  }

  predicate Finished(s: State) {
    s.client == Succeeded && Ended(s)
  }

  /** The child cannot write any more, and the client waits for the reply that would come after. */
  predicate Stuck(cap: nat, s: State) {
    && s.child == Sending && s.out != "" && |s.channel| == cap
    && s.client == AwaitFinal && s.control == [] && s.replies == [150]
    && s.parentClosed && s.local == ""
  }

  lemma SomebodyCanGo(cap: nat, content: string, s: State) returns (a: Action)
    requires Inv(cap, content, s) && !Finished(s)
    requires !(s.child == Sending && s.out != "" && |s.channel| == cap && s.client == AwaitFinal && s.parentClosed)
    ensures Enabled(cap, s, a)
  {
    hide Whole;
    hide Sent;
    hide FirstLine;
    s.reader.ReaderProgress(s.channel, Ended(s));
    assert |s.replies| + |s.control| == |s.replies + s.control|;
    assert s.replies != [] ==> s.replies[0] == (s.replies + s.control)[0];
    if !s.parentClosed {
      a := ParentCloses;
    } else if s.child == Starting {
      a := Preliminary;
    } else if s.child == Sending {
      a := if s.out == "" then (if s.unread != "" then ReadChunk else Final)
           else if |s.channel| < cap then Write(1) else ReadReply;
    } else if s.child == Leaving {
      a := Exit;
    } else if s.client in {AwaitPreliminary, AwaitFinal} {
      a := ReadReply;
    } else if s.reader.CanTake(s.channel, Ended(s)) {
      a := TakeLine;
    } else if s.reader.CanReceive(s.channel) {
      a := Receive(1);
    } else {
      a := Finish;
    }
  }

  /** Nothing reaches the local file before the client is done. */
  lemma {:induction false} LocalUntouched(cap: nat, content: string, actions: seq<Action>)
    requires Run(cap, content, actions).Some?
    ensures var s := Run(cap, content, actions).value; s.client != Succeeded ==> s.local == ""
    decreases |actions|
  {
    hide Chunk;
    hide CutAtNul;
    hide LineReader.Take;
    if actions == [] {
    } else {
      LocalUntouched(cap, content, actions[..|actions| - 1]);
    }
  }

  /** A connection that is full while bytes wait holds more than fits. */
  lemma StuckMeansTooLong(cap: nat, content: string, s: State)
    requires Inv(cap, content, s) && s.out != "" && |s.channel| == cap
    ensures s.client == AwaitFinal ==> |Sent(content)| > cap
  {
    hide Sent;
    assert |Whole(s)| == |s.reader.All()| + |s.channel| + |s.out| + |Sent(s.unread)|;
  }

  /** The end of every maximal run, for every file and capacity. What RETR sends of the file fits the
      connection: the client has 150 and 226 and exactly that as its file. It does not fit: the child is
      held up in a full connection and the client waits for 226, for ever. */
  lemma DownloadEnds(cap: nat, content: string, actions: seq<Action>)
    requires Run(cap, content, actions).Some?
    requires Maximal(cap, Run(cap, content, actions).value)
    ensures var s := Run(cap, content, actions).value;
      if |Sent(content)| <= cap then Finished(s) && s.replies == [150, 226] && s.local == Sent(content)
      else Stuck(cap, s)
  {
    InvInRun(cap, content, actions);
    LocalUntouched(cap, content, actions);
    var s := Run(cap, content, actions).value;
    hide Run;
    if Finished(s) {
      FinishedHasAll(cap, content, s);
    } else if s.child == Sending && s.out != "" && |s.channel| == cap && s.client == AwaitFinal && s.parentClosed {
      StuckMeansTooLong(cap, content, s);
      NothingToRead(s);
    } else {
      var a := SomebodyCanGo(cap, content, s);
      assert false;
    }
  }

  lemma NothingToRead(s: State)
    requires RepliesInOrder(s) && s.child == Sending && s.client == AwaitFinal
    ensures s.control == [] && s.replies == [150]
  {
    assert |s.replies| + |s.control| == |s.replies + s.control|;
  }

  lemma FinishedHasAll(cap: nat, content: string, s: State)
    requires Inv(cap, content, s) && Finished(s)
    ensures |Sent(content)| <= cap && s.replies == [150, 226] && s.local == Sent(content)
  {
    assert Sent("") == "";
    assert Whole(s) == s.reader.taken + "" + ("" + ("" + ""));
  }

  /** So a download gives the client the server's file exactly when the file has no NUL byte and fits
      the data connection. */
  lemma DownloadFaithful(cap: nat, content: string, actions: seq<Action>)
    requires Run(cap, content, actions).Some?
    requires Maximal(cap, Run(cap, content, actions).value)
    ensures var s := Run(cap, content, actions).value;
      s.client == Succeeded && s.local == content <==> NUL !in content && |content| <= cap
  {
    DownloadEnds(cap, content, actions);
    SentExactly(content);
  }
}
