/** What interleaving cannot do to a session: login, user and transfer mode are those of a client that
    is alone; directories stay inside; a data socket serves one transfer. */
module Sessions {
  import opened LibC
  import opened CommandParser
  import opened FileTree
  import opened Commands
  import opened SessionLaws
  import opened EventLoop

  // ---------------------------------------------------------------- projection

  /** A client on its own. */
  function Solo(history: seq<Parse>): Auth {
    if history == [] then FRESH
    else AuthStep(Solo(history[..|history| - 1]), history[|history| - 1])
  }

  /** The lines slot `i` has been given since the connection in it was accepted. */
  ghost function LinesOf(site: Site, tree: Tree, es: seq<Event>, i: nat): seq<Parse>
    decreases |es|
  {
    if es == [] then []
    else
      var before, e := es[..|es| - 1], es[|es| - 1];
      var lines := LinesOf(site, tree, before, i);
      match e
      case Line(j, raw, _, _) => if j == i then lines + [ParseLine(raw)] else lines
      case Connect(_) =>
        if Run(site, tree, before).Some? && FirstFree(Run(site, tree, before).value.slots) == i then [] else lines
      case _ => lines
  }

  /** A step on one slot, seen from slot `i`. */
  lemma SlotStep(site: Site, st: State, e: Event, i: nat)
    requires Next(site, st, e).Some? && i < |st.slots|
    ensures |Next(site, st, e).value.slots| == |st.slots|
    ensures var slot := Next(site, st, e).value.slots[i];
      slot.Live? ==>
        match e {
          case Line(j, raw, o, _) =>
            && st.slots[i].Live?
            && if j == i then
                 var r := Execute(site, st.slots[i].session, st.world, ParseLine(raw), o);
                 r.Done? && slot.session == r.session
               else slot == st.slots[i]
          case Connect(_) =>
            if FirstFree(st.slots) == i then slot.session == NewSession(site) else slot == st.slots[i]
          case _ => slot == st.slots[i]
        }
  {
    hide Execute;
    hide Proper;
    hide NewSession;
    hide ParseLine;
    hide Script;
  }

  /** In every reachable state, every live session's login, user and transfer mode are what its own
      lines alone make of a fresh session, whatever the other clients did in between. */
  lemma {:induction false} AuthProjects(site: Site, tree: Tree, es: seq<Event>, i: nat)
    requires Run(site, tree, es).Some?
    requires i < |Run(site, tree, es).value.slots| && Run(site, tree, es).value.slots[i].Live?
    ensures AuthOf(Run(site, tree, es).value.slots[i].session) == Solo(LinesOf(site, tree, es, i))
    decreases |es|
  {
    hide Next;
    if es == [] {
    } else {
      var before, e := es[..|es| - 1], es[|es| - 1];
      var st := Run(site, tree, before).value;
      SlotsKeepLength(site, st, e);
      SlotStep(site, st, e, i);
      var lines := LinesOf(site, tree, before, i);
      if e.Connect? && FirstFree(st.slots) == i {
        FreshAuth(site);
      } else {
        AuthProjects(site, tree, before, i);
        if e.Line? && e.slot == i {
          AuthIsLocal(site, st.slots[i].session, st.world, ParseLine(e.raw), e.outcome);
          SoloStep(lines, ParseLine(e.raw));
        }
      }
    }
  }

  lemma SlotsKeepLength(site: Site, st: State, e: Event)
    requires Next(site, st, e).Some?
    ensures |Next(site, st, e).value.slots| == |st.slots|
  {
    hide Execute;
    hide Proper;
    hide NewSession;
    hide ParseLine;
    hide Script;
  }

  lemma FreshAuth(site: Site)
    ensures AuthOf(NewSession(site)) == Solo([])
  {
  }

  lemma SoloStep(history: seq<Parse>, parse: Parse)
    ensures Solo(history + [parse]) == AuthStep(Solo(history), parse)
  {
    assert (history + [parse])[..|history|] == history;
  }

  /** The same lines with their labels. */
  ghost function MarksOf(site: Site, tree: Tree, es: seq<Event>, i: nat): seq<Mark>
    decreases |es|
  {
    if es == [] || Run(site, tree, es[..|es| - 1]).None? then []
    else
      var before, e := es[..|es| - 1], es[|es| - 1];
      var st, marks := Run(site, tree, before).value, MarksOf(site, tree, before, i);
      match e
      case Line(j, raw, o, _) =>
        if j == i && i < |st.slots| && st.slots[i].Live? then
          marks + [Mark(ParseLine(raw), o, Found(site, st.slots[i].session, st.world, ParseLine(raw)))]
        else marks
      case Connect(_) => if FirstFree(st.slots) == i then [] else marks
      case _ => marks
  }

  /** Login and data socket of a client on its own. */
  function SoloClient(history: seq<Mark>): (Auth, Option<DataSocket>) {
    if history == [] then (FRESH, None)
    else
      var last := history[|history| - 1];
      var (auth, socket) := SoloClient(history[..|history| - 1]);
      (AuthStep(auth, last.parse), SocketStep(auth.loggedIn, socket, last))
  }

  lemma SoloClientStep(history: seq<Mark>, m: Mark)
    ensures var (auth, socket) := SoloClient(history);
      SoloClient(history + [m]) == (AuthStep(auth, m.parse), SocketStep(auth.loggedIn, socket, m))
  {
    assert (history + [m])[..|history|] == history;
  }

  /** With the outcomes as labels, the data socket, too, is what its own lines alone make of it. */
  lemma {:induction false} SocketProjects(site: Site, tree: Tree, es: seq<Event>, i: nat)
    requires Run(site, tree, es).Some?
    requires i < |Run(site, tree, es).value.slots| && Run(site, tree, es).value.slots[i].Live?
    ensures var s := Run(site, tree, es).value.slots[i].session;
      SoloClient(MarksOf(site, tree, es, i)) == (AuthOf(s), s.dataSocket)
    decreases |es|
  {
    hide Next;
    hide Found;
    hide SocketStep;
    hide AuthStep;
    if es == [] {
    } else {
      var before, e := es[..|es| - 1], es[|es| - 1];
      var st := Run(site, tree, before).value;
      SlotsKeepLength(site, st, e);
      SlotStep(site, st, e, i);
      if !(e.Connect? && FirstFree(st.slots) == i) {
        SocketProjects(site, tree, before, i);
        if e.Line? && e.slot == i {
          var s, parse := st.slots[i].session, ParseLine(e.raw);
          AuthIsLocal(site, s, st.world, parse, e.outcome);
          SocketIsLocal(site, s, st.world, parse, e.outcome);
          SoloClientStep(MarksOf(site, tree, before, i), Mark(parse, e.outcome, Found(site, s, st.world, parse)));
        }
      }
    }
  }

  // ---------------------------------------------------------------- login

  predicate NamesAnonymous(parse: Parse) {
    Says(parse, USER) && FirstArgument(parse) in {Some("Anonymous"), Some("anonymous")}
  }

  predicate EmptyPassword(parse: Parse) {
    Says(parse, PASS) && FirstArgument(parse) in {None, Some("")}
  }

  predicate AboutLogin(parse: Parse) {
    Says(parse, USER) || Says(parse, PASS)
  }

  /** USER with an anonymous name at `i`, PASS with an empty password at `j`, nothing about login in
      between. */
  ghost predicate LoginAt(history: seq<Parse>, i: int, j: int) {
    && 0 <= i < j < |history|
    && NamesAnonymous(history[i]) && EmptyPassword(history[j])
    && forall k :: i < k < j ==> !AboutLogin(history[k])
  }

  ghost predicate HasLogin(history: seq<Parse>) {
    exists i, j :: LoginAt(history, i, j)
  }

  /** While nobody is logged in, the user is whom the latest USER named, with nothing about login since. */
  ghost predicate NamedAt(history: seq<Parse>, i: int, user: string) {
    && 0 <= i < |history|
    && Says(history[i], USER) && FirstArgument(history[i]) == Some(user)
    && forall k :: i < k < |history| ==> !AboutLogin(history[k])
  }

  lemma {:induction false} NamedByUser(history: seq<Parse>) returns (i: int)
    requires !Solo(history).loggedIn && Solo(history).user.Some?
    ensures NamedAt(history, i, Solo(history).user.value)
  {
    hide Handler;
    var n := |history| - 1;
    if Says(history[n], USER) {
      i := n;
    } else {
      i := NamedByUser(history[..n]);
    }
  }

  /** The other way: a USER with nothing about login since is the user, unless somebody is logged in. */
  lemma {:induction false} UserStays(history: seq<Parse>, i: int, user: string)
    requires NamedAt(history, i, user)
    ensures Solo(history).loggedIn || Solo(history).user == Some(user)
  {
    hide Handler;
    var n := |history| - 1;
    if i < n {
      assert forall k :: 0 <= k < n ==> history[..n][k] == history[k];
      UserStays(history[..n], i, user);
    }
  }

  /** Exactly which histories log a client in. Once logged in, a client stays so. */
  lemma {:induction false} LoginExactly(history: seq<Parse>)
    ensures Solo(history).loggedIn <==> HasLogin(history)
  {
    hide Handler;
    if history == [] {
    } else {
      var n := |history| - 1;
      var before, last := history[..n], history[n];
      LoginExactly(before);
      LoginExtends(history);
      if EmptyPassword(last) && !Solo(before).loggedIn && Solo(before).user.Some? {
        var i := NamedByUser(before);
        assert NamedAt(before, i, Solo(before).user.value);
        assert forall k :: 0 <= k < n ==> before[k] == history[k];
        if Anonymous(Solo(before).user.value) {
          assert LoginAt(history, i, n);
        }
      }
      if i, j :| LoginAt(history, i, j) && j == n {
        LoginNow(history, i);
      }
    }
  }

  /** The login completed by the last line. */
  lemma LoginNow(history: seq<Parse>, i: int)
    requires history != [] && LoginAt(history, i, |history| - 1)
    ensures Solo(history).loggedIn
  {
    hide Handler;
    var n := |history| - 1;
    assert forall k :: 0 <= k < n ==> history[..n][k] == history[k];
    UserStays(history[..n], i, FirstArgument(history[i]).value);
  }

  /** A history has a login iff it had one before its last line, or the last line completes one. */
  lemma LoginExtends(history: seq<Parse>)
    requires history != []
    ensures HasLogin(history) <==>
      HasLogin(history[..|history| - 1]) || exists i, j :: LoginAt(history, i, j) && j == |history| - 1
  {
    hide Handler;
    hide NamesAnonymous;
    hide EmptyPassword;
    hide AboutLogin;
    var n := |history| - 1;
    var before := history[..n];
    assert forall k :: 0 <= k < n ==> before[k] == history[k];
    if i, j :| LoginAt(before, i, j) {
      assert LoginAt(history, i, j);
    }
    if i, j :| LoginAt(history, i, j) && j < n {
      assert LoginAt(before, i, j);
    }
  }

  /** Parsed arguments are never empty, so a password is empty iff PASS came without an argument. */
  lemma EmptyMeansNoArgument(raw: string)
    ensures var parse := ParseLine(raw);
      EmptyPassword(parse) <==> Says(parse, PASS) && parse.args == []
  {
    hide Handler;
    ParseExact(LineText(raw));
    var parse := ParseLine(raw);
    if parse.Parsed? && parse.args != [] {
      assert parse.args[0] in [parse.name] + parse.args;
    }
  }

  /** In every reachable state a live session is logged in iff its own lines since the accept hold a
      complete anonymous login. */
  lemma LoggedInExactly(site: Site, tree: Tree, es: seq<Event>, i: nat)
    requires Run(site, tree, es).Some?
    requires i < |Run(site, tree, es).value.slots| && Run(site, tree, es).value.slots[i].Live?
    ensures Run(site, tree, es).value.slots[i].session.loggedIn <==> HasLogin(LinesOf(site, tree, es, i))
  {
    AuthProjects(site, tree, es, i);
    LoginExactly(LinesOf(site, tree, es, i));
  }

  // ---------------------------------------------------------------- directories and data sockets

  /** The process directory and every live session's directory are inside, and no data socket is used
      twice. */
  ghost predicate SessionsSound(site: Site, st: State) {
    && WorldConfined(site, st.world)
    && forall i :: 0 <= i < |st.slots| && st.slots[i].Live? ==>
         SessionConfined(site, st.slots[i].session) && SocketSound(st.slots[i].session)
  }

  lemma FreshSound(site: Site, tree: Tree)
    requires Proper(site, tree)
    ensures WorldConfined(site, World(site.root, tree))
    ensures SessionConfined(site, NewSession(site)) && SocketSound(NewSession(site))
  {
    RootInside(site, tree);
  }

  lemma SessionsKept(site: Site, st: State, e: Event)
    requires SessionsSound(site, st) && Next(site, st, e).Some?
    ensures SessionsSound(site, Next(site, st, e).value)
  {
    var t := Next(site, st, e).value;
    WorldKept(site, st, e);
    SlotsKeepLength(site, st, e);
    forall i | 0 <= i < |t.slots| && t.slots[i].Live?
      ensures SessionConfined(site, t.slots[i].session) && SocketSound(t.slots[i].session)
    {
      SessionKept(site, st, e, i);
    }
  }

  lemma WorldKept(site: Site, st: State, e: Event)
    requires SessionsSound(site, st) && Next(site, st, e).Some?
    ensures WorldConfined(site, Next(site, st, e).value.world)
  {
    hide Execute;
    hide Inside;
    hide NewSession;
    hide Script;
    if e.Line? {
      var s := st.slots[e.slot].session;
      assert SessionConfined(site, s);
      ConfinementKept(site, s, st.world, ParseLine(e.raw), e.outcome);
    }
  }

  lemma SessionKept(site: Site, st: State, e: Event, i: nat)
    requires SessionsSound(site, st) && Next(site, st, e).Some?
    requires i < |st.slots| == |Next(site, st, e).value.slots| && Next(site, st, e).value.slots[i].Live?
    ensures var s := Next(site, st, e).value.slots[i].session; SessionConfined(site, s) && SocketSound(s)
  {
    SlotStep(site, st, e, i);
    if e.Line? && e.slot == i {
      LineSession(site, st, e, i);
    } else if e.Connect? && FirstFree(st.slots) == i {
      hide *;
      FreshSoundIn(site, st);
    }
  }

  lemma FreshSoundIn(site: Site, st: State)
    requires SessionsSound(site, st)
    ensures SessionConfined(site, NewSession(site)) && SocketSound(NewSession(site))
  {
    FreshSound(site, st.world.tree);
  }

  lemma LineSession(site: Site, st: State, e: Event, i: nat)
    requires SessionsSound(site, st) && Next(site, st, e).Some? && e.Line? && e.slot == i
    requires i < |st.slots| && st.slots[i].Live?
    ensures var r := Execute(site, st.slots[i].session, st.world, ParseLine(e.raw), e.outcome);
      r.Done? && SessionConfined(site, r.session) && SocketSound(r.session)
  {
    hide Execute;
    hide Script;
    var s := st.slots[i].session;
    assert SessionConfined(site, s) && SocketSound(s);
    hide SessionConfined;
    hide SocketSound;
    hide WorldConfined;
    hide Proper;
    ConfinementKept(site, s, st.world, ParseLine(e.raw), e.outcome);
    SocketSoundKept(site, s, st.world, ParseLine(e.raw), e.outcome);
  }

  /** On every reachable state of every interleaving, although DELE and a failing LIST leave the
      process directory moved. */
  lemma {:induction false} SoundInRun(site: Site, tree: Tree, es: seq<Event>)
    requires Run(site, tree, es).Some?
    ensures SessionsSound(site, Run(site, tree, es).value)
    decreases |es|
  {
    hide Next;
    if es == [] {
      FreshSound(site, tree);
    } else {
      SoundInRun(site, tree, es[..|es| - 1]);
      SessionsKept(site, Run(site, tree, es[..|es| - 1]).value, es[|es| - 1]);
    }
  }

  /** Read off: printed paths start with the server's path, and transfers are covered by PASV and PORT. */
  lemma ConfinedInRun(site: Site, tree: Tree, es: seq<Event>, i: nat)
    requires Run(site, tree, es).Some?
    requires i < |Run(site, tree, es).value.slots| && Run(site, tree, es).value.slots[i].Live?
    ensures var st := Run(site, tree, es).value;
      && Print(site.root) <= Print(st.world.cwd)
      && Print(site.root) <= st.slots[i].session.workingDirectory
    ensures var s := Run(site, tree, es).value.slots[i].session;
      Count(s.acts, Used) + (if s.dataSocket.Some? then 1 else 0) <= Count(s.acts, Granted)
  {
    SoundInRun(site, tree, es);
    var s := Run(site, tree, es).value.slots[i].session;
    assert SessionConfined(site, s) && SocketSound(s);
    TransfersCovered(s);
  }
}
