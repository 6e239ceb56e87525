/** Runs that exist for every served directory: what can happen, not only what cannot. */
module SampleRuns {
  import opened LibC
  import opened CommandParser
  import opened FileTree
  import opened Commands
  import opened SessionLaws
  import opened EventLoop
  import opened Replies

  /** A kernel that grants everything. */
  const GRANTED := Outcome(Some(2000), true, true, true, true)

  /** A command line as a client sends it. */
  function Sent(words: seq<string>): string {
    Join(words, ' ') + "\r\n"
  }

  predicate Sendable(words: seq<string>) {
    && words != []
    && forall w :: w in words ==> w != "" && forall c :: c in w ==> !IsSpace(c) && c != NUL
  }

  /** A sent line reaches the handler its first word names. */
  lemma SentReaches(words: seq<string>, k: nat)
    requires Sendable(words) && k < |HANDLERS| && words[0] == HANDLERS[k].0
    ensures Sent(words) != ""
    ensures ParseLine(Sent(words)) == Parsed(words[0], words[1..]) && Handler(words[0]) == Some(HANDLERS[k].1)
  {
    assert words[0] in words && words[|words| - 1] in words;
    CommandRoundTrip(words, "");
    DispatchExact(words[0], k);
  }

  /** One more line of the client in slot 0. */
  lemma LineTaken(site: Site, tree: Tree, es: seq<Event>, words: seq<string>, k: nat, script: seq<int>)
    returns (more: seq<Event>)
    requires Run(site, tree, es).Some? && Serves(Run(site, tree, es).value, 0)
    requires Sendable(words) && k < |HANDLERS| && words[0] == HANDLERS[k].0
    requires var st := Run(site, tree, es).value;
      var r := Handle(site, st.slots[0].session, st.world, HANDLERS[k].1, words[1..], GRANTED);
      r.Done? && (r.response.Launch? ==> Script(r.response.job, script))
    ensures var st := Run(site, tree, es).value;
      var r := Handle(site, st.slots[0].session, st.world, HANDLERS[k].1, words[1..], GRANTED);
      Run(site, tree, more) == Some(Handled(st, 0, r, script))
  {
    SentReaches(words, k);
    var e := Line(0, Sent(words), GRANTED, script);
    more := es + [e];
    RunStep(site, tree, es, e);
    LineIsTaken(site, Run(site, tree, es).value, words, k, script);
    hide *;
  }

  lemma LineIsTaken(site: Site, st: State, words: seq<string>, k: nat, script: seq<int>)
    requires Serves(st, 0) && words != [] && k < |HANDLERS| && Sent(words) != ""
    requires ParseLine(Sent(words)) == Parsed(words[0], words[1..]) && Handler(words[0]) == Some(HANDLERS[k].1)
    requires var r := Handle(site, st.slots[0].session, st.world, HANDLERS[k].1, words[1..], GRANTED);
      r.Done? && (r.response.Launch? ==> Script(r.response.job, script))
    ensures var r := Handle(site, st.slots[0].session, st.world, HANDLERS[k].1, words[1..], GRANTED);
      Next(site, st, Line(0, Sent(words), GRANTED, script)) == Some(Handled(st, 0, r, script))
  {
    hide Handle;
    hide Handled;
    hide Script;
    hide Sent;
    hide Handler;
    hide ParseLine;
  }

  lemma SpokenRun(site: Site, tree: Tree, es: seq<Event>, st: State, line: nat)
    requires Run(site, tree, es) == Some(st) && line in st.children && st.children[line].script != []
    ensures line in Opened(site, st, line).children && Opened(site, st, line).children[line].script != []
    ensures Run(site, tree, es + [Speak(line)]) == Some(Spoken(Opened(site, st, line), line))
  {
    hide Spoken;
    hide Target;
    RunStep(site, tree, es, Speak(line));
  }

  lemma KilledRun(site: Site, tree: Tree, es: seq<Event>, st: State, line: nat)
    requires Run(site, tree, es) == Some(st) && line in st.children && Sending(st.children[line])
    ensures Run(site, tree, es + [CutOff(line)]) == Some(Killed(st, line))
  {
    hide Killed;
    RunStep(site, tree, es, CutOff(line));
  }

  /** A client alone in slot 0: `n` lines were read, no child is running. */
  ghost predicate Alone(site: Site, tree: Tree, st: State, s: Session, n: nat) {
    && !st.stopped && |st.slots| == MAX_CLIENTS
    && st.slots[0].Live? && st.slots[0].id == 0 && st.slots[0].session == s
    && st.children == map[] && st.lines == n && st.world == World(site.root, tree)
  }

  lemma Arrived(site: Site, tree: Tree) returns (es: seq<Event>)
    requires Proper(site, tree)
    ensures Run(site, tree, es).Some? && Alone(site, tree, Run(site, tree, es).value, NewSession(site), 0)
  {
    es := [] + [Connect(5)];
    RunStep(site, tree, [], Connect(5));
    hide Proper;
    hide NewSession;
    assert FirstFree(Init(site, tree).slots) == 0;
  }

  /** A line that the server answers itself. */
  lemma Answered(site: Site, tree: Tree, es: seq<Event>, n: nat, s: Session,
                 words: seq<string>, k: nat, next: Session, code: int)
    returns (more: seq<Event>)
    requires Run(site, tree, es).Some? && Alone(site, tree, Run(site, tree, es).value, s, n)
    requires Sendable(words) && k < |HANDLERS| && words[0] == HANDLERS[k].0
    requires var w := World(site.root, tree);
      Handle(site, s, w, HANDLERS[k].1, words[1..], GRANTED) == Accept(next, w, code)
    ensures Run(site, tree, more).Some? && Alone(site, tree, Run(site, tree, more).value, next, n + 1)
  {
    hide Handle;
    hide Run;
    hide Sendable;
    more := LineTaken(site, tree, es, words, k, []);
  }

  const USER_LINE := ["USER", "anonymous"]
  const PASS_LINE := ["PASS"]
  const PASV_LINE := ["PASV"]
  const LIST_LINE := ["LIST"]

  lemma LinesAreFine()
    ensures |HANDLERS| == 15
    ensures Sendable(USER_LINE) && USER_LINE[0] == HANDLERS[0].0 && USER_LINE[1..] == ["anonymous"]
    ensures Sendable(PASS_LINE) && PASS_LINE[0] == HANDLERS[1].0 && PASS_LINE[1..] == []
    ensures Sendable(PASV_LINE) && PASV_LINE[0] == HANDLERS[7].0 && PASV_LINE[1..] == []
    ensures Sendable(LIST_LINE) && LIST_LINE[0] == HANDLERS[13].0 && LIST_LINE[1..] == []
  {
  }

  function Named(site: Site): Session {
    NewSession(site).(user := Some("anonymous"))
  }

  function LoggedIn(site: Site): Session {
    Named(site).(loggedIn := true)
  }

  function WithSocket(site: Site): Session {
    LoggedIn(site).(dataSocket := Some(Passive(2000)), acts := [Granted])
  }

  lemma LoginSteps(site: Site, w: World)
    ensures Handle(site, NewSession(site), w, HANDLERS[0].1, ["anonymous"], GRANTED) == Accept(Named(site), w, 331)
    ensures Handle(site, Named(site), w, HANDLERS[1].1, [], GRANTED) == Accept(LoggedIn(site), w, 230)
    ensures Handle(site, LoggedIn(site), w, HANDLERS[7].1, [], GRANTED) == Accept(WithSocket(site), w, 227)
  {
    hide ServerPath;
  }

  lemma UserGiven(site: Site, tree: Tree) returns (es: seq<Event>)
    requires Proper(site, tree)
    ensures Run(site, tree, es).Some? && Alone(site, tree, Run(site, tree, es).value, Named(site), 1)
  {
    hide *;
    LinesAreFine();
    LoginSteps(site, World(site.root, tree));
    es := Arrived(site, tree);
    es := Answered(site, tree, es, 0, NewSession(site), USER_LINE, 0, Named(site), 331);
  }

  lemma PasswordGiven(site: Site, tree: Tree) returns (es: seq<Event>)
    requires Proper(site, tree)
    ensures Run(site, tree, es).Some? && Alone(site, tree, Run(site, tree, es).value, LoggedIn(site), 2)
  {
    hide *;
    LinesAreFine();
    LoginSteps(site, World(site.root, tree));
    es := UserGiven(site, tree);
    es := Answered(site, tree, es, 1, Named(site), PASS_LINE, 1, LoggedIn(site), 230);
  }

  /** Logged in with a data socket at hand. */
  lemma Prepared(site: Site, tree: Tree) returns (es: seq<Event>)
    requires Proper(site, tree)
    ensures Run(site, tree, es).Some? && Alone(site, tree, Run(site, tree, es).value, WithSocket(site), 3)
  {
    hide *;
    LinesAreFine();
    LoginSteps(site, World(site.root, tree));
    es := PasswordGiven(site, tree);
    es := Answered(site, tree, es, 2, LoggedIn(site), PASV_LINE, 7, WithSocket(site), 227);
  }

  /** A child lists the served directory for the client in slot 0, and has still to write `script`. */
  ghost predicate ListingRuns(st: State, script: seq<int>) {
    && !st.stopped && |st.slots| == MAX_CLIENTS && st.slots[0].Live? && st.slots[0].id == 0
    && st.slots[0].session.loggedIn && st.lines == 4
    && 3 in st.children && st.children == map[3 := Child(0, ListDirectory, st.children[3].place, script)]
  }

  lemma ListStarts(site: Site, w: World)
    ensures var r := Handle(site, WithSocket(site), w, HANDLERS[13].1, [], GRANTED);
      r.Done? && r.session.loggedIn && r.status == Success && r.response == Launch(ListDirectory, w.cwd)
  {
  }

  lemma ListingBegun(site: Site, tree: Tree) returns (es: seq<Event>)
    requires Proper(site, tree)
    ensures Run(site, tree, es).Some? && ListingRuns(Run(site, tree, es).value, [150, 226])
  {
    hide Run;
    hide Handle;
    hide Sendable;
    hide WithSocket;
    hide Proper;
    LinesAreFine();
    es := Prepared(site, tree);
    ListStarts(site, World(site.root, tree));
    es := LineTaken(site, tree, es, LIST_LINE, 13, [150, 226]);
  }

  /** The child has announced the listing. */
  lemma ListingUnderWay(site: Site, tree: Tree) returns (es: seq<Event>)
    requires Proper(site, tree)
    ensures Run(site, tree, es).Some? && ListingRuns(Run(site, tree, es).value, [226])
  {
    hide Run;
    es := ListingBegun(site, tree);
    SpokenRun(site, tree, es, Run(site, tree, es).value, 3);
    es := es + [Speak(3)];
    assert [150, 226][1..] == [226];
  }

  /** So a client may be left with its 150: for every served directory there is a run in which no child
      is left and a line that was read never gets its final reply. */
  lemma LineLeftAt150(site: Site, tree: Tree) returns (es: seq<Event>)
    requires Proper(site, tree)
    ensures Run(site, tree, es).Some?
    ensures var st := Run(site, tree, es).value;
      && st.children == map[] && st.lines == 4
      && WasCut(st.log, 3) && SaidTo(st.log, 3) == [150] && Finals(st.log) < st.lines
  {
    hide Run;
    hide WasCut;
    es := ListingUnderWay(site, tree);
    var st := Run(site, tree, es).value;
    KilledRun(site, tree, es, st, 3);
    es := es + [CutOff(3)];
    hide SaidTo;
    hide Finals;
    LogOne(st.log, CutShort(0, 3), 3);
    CountOne(st.log, CutShort(0, 3));
    CompleteUnlessCut(site, tree, es, 3);
    AllAnswered(site, tree, es);
  }
}
