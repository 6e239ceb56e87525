/** Directories as the kernel resolves them, and the printed paths `getcwd` gives and `strncmp`
    compares: src/commands/cwd.c, src/commands/list.c, src/socket.c. */
module FileTree {
  import opened LibC

  /** A place in the tree: the names on the way down from the root. */
  type Path = seq<string>

  /** A symbolic link stands at the key and leads to the value. */
  type Links = map<Path, Path>

  datatype Tree = Tree(dirs: set<Path>, files: set<Path>)

  datatype Node = Dir(path: Path) | File(path: Path)

  predicate ValidName(name: string) {
    name != "" && name != "." && name != ".." && '/' !in name
  }

  function Parent(p: Path): Path {
    if p == [] then [] else p[..|p| - 1]
  }

  /** Directories hang together, have real names, and are not links at the same time. */
  ghost predicate WellFormed(tree: Tree, links: Links) {
    && [] in tree.dirs
    && (forall d :: d in tree.dirs && d != [] ==> Parent(d) in tree.dirs && ValidName(d[|d| - 1]))
    && (forall d :: d in tree.dirs ==> d !in links)
  }

  /** A path that `getcwd` can have printed: real names, and no link on the way. */
  ghost predicate Canonical(links: Links, d: Path) {
    && (forall i :: 0 <= i < |d| ==> ValidName(d[i]))
    && (forall k :: 0 <= k <= |d| ==> d[..k] !in links)
  }

  lemma {:induction false} DirIsCanonical(tree: Tree, links: Links, d: Path)
    requires WellFormed(tree, links) && d in tree.dirs
    ensures Canonical(links, d)
    decreases |d|
  {
    if d != [] {
      var p := Parent(d);
      DirIsCanonical(tree, links, p);
      forall i | 0 <= i < |d|
        ensures ValidName(d[i])
      {
        assert i < |p| ==> d[i] == p[i];
      }
      forall k | 0 <= k <= |d|
        ensures d[..k] !in links
      {
        if k < |d| { assert d[..k] == p[..k]; } else { assert d[..k] == d; }
      }
    } else {
      assert forall k :: 0 <= k <= |d| ==> d[..k] == d;
    }
  }

  // ---------------------------------------------------------------- printing and splitting

  function Slashed(d: Path): string {
    if d == [] then "" else "/" + d[0] + Slashed(d[1..])
  }

  /** The text of `getcwd`. */
  function Print(d: Path): string {
    if d == [] then "/" else Slashed(d)
  }

  /** A path in full: every name behind a slash. */
  lemma PrintReads(d: Path, name: string)
    ensures Print([]) == "/"
    ensures Print(d + [name]) == (if d == [] then "" else Print(d)) + "/" + name
  {
    SlashedBehind(d, name);
  }

  lemma {:induction false} SlashedBehind(d: Path, name: string)
    ensures Slashed(d + [name]) == Slashed(d) + ("/" + name)
  {
    if d == [] {
      assert ([] + [name])[1..] == [];
      assert "/" + name + "" == "/" + name;
    } else {
      assert (d + [name])[1..] == d[1..] + [name];
      SlashedBehind(d[1..], name);
      assert "/" + d[0] + (Slashed(d[1..]) + ("/" + name)) == ("/" + d[0] + Slashed(d[1..])) + ("/" + name);
    }
  }

  /** The pieces between slashes, empty ones included. */
  function Split(s: string): (parts: seq<string>)
    ensures parts != []
  {
    if s == "" then [""]
    else if s[0] == '/' then [""] + Split(s[1..])
    else
      var rest := Split(s[1..]);
      [[s[0]] + rest[0]] + rest[1..]
  }

  lemma {:induction false} SplitName(name: string, s: string)
    requires '/' !in name && (s == "" || s[0] == '/')
    ensures Split(name + s) == if s == "" then [name] else [name] + Split(s)[1..]
  {
    if name == "" {
      assert name + s == s;
    } else {
      var t := name + s;
      assert t[1..] == name[1..] + s;
      SplitName(name[1..], s);
      assert name == [name[0]] + name[1..];
    }
  }

  lemma {:induction false} SplitSlashed(d: Path)
    requires forall i :: 0 <= i < |d| ==> ValidName(d[i])
    ensures Split(Slashed(d)) == [""] + d
  {
    if d == [] {
    } else {
      var tail := Slashed(d[1..]);
      assert Slashed(d) == "/" + (d[0] + tail);
      assert Slashed(d)[1..] == d[0] + tail;
      SplitName(d[0], tail);
      SplitSlashed(d[1..]);
      assert d == [d[0]] + d[1..];
    }
  }

  /** Different places print differently. */
  lemma PrintInjective(a: Path, b: Path)
    requires forall i :: 0 <= i < |a| ==> ValidName(a[i])
    requires forall i :: 0 <= i < |b| ==> ValidName(b[i])
    requires Print(a) == Print(b)
    ensures a == b
  {
    SplitSlashed(a);
    SplitSlashed(b);
    assert Split("/") == ["", ""];
    assert ([""] + a)[1..] == a && ([""] + b)[1..] == b;
    assert a != [] ==> a[0] != "" && ([""] + a)[1] == a[0];
    assert b != [] ==> b[0] != "" && ([""] + b)[1] == b[0];
  }

  // ---------------------------------------------------------------- resolving

  /** One step of path resolution. A directory that was removed still knows itself and its parent,
      which may be gone too; nothing else is found in it. */
  function Enter(tree: Tree, links: Links, cur: Path, name: string): Option<Node> {
    if name == "" || name == "." then Some(Dir(cur))
    else if name == ".." then Some(Dir(Parent(cur)))
    else if cur !in tree.dirs then None
    else
      var child := cur + [name];
      var target := if child in links then links[child] else child;
      if target in tree.dirs then Some(Dir(target))
      else if target in tree.files then Some(File(target))
      else None
  }

  function Walk(tree: Tree, links: Links, cur: Path, names: seq<string>): Option<Node>
    decreases |names|
  {
    if names == [] then Some(Dir(cur))
    else
      match Enter(tree, links, cur, names[0])
      case None => None
      case Some(Dir(d)) => Walk(tree, links, d, names[1..])
      case Some(File(f)) => if |names| == 1 then Some(File(f)) else None
  }

  function Lookup(tree: Tree, links: Links, cwd: Path, path: string): Option<Node> {
    if path == "" then None
    else Walk(tree, links, if path[0] == '/' then [] else cwd, Split(path))
  }

  /** Where `chdir` leads; `None` when it fails. */
  function ChDir(tree: Tree, links: Links, cwd: Path, path: string): Option<Path> {
    match Lookup(tree, links, cwd, path)
    case Some(Dir(d)) => Some(d)
    case _ => None
  }

  /** A `chdir` whose result nobody looks at. */
  function Moved(tree: Tree, links: Links, cwd: Path, path: string): Path {
    match ChDir(tree, links, cwd, path)
    case Some(d) => d
    case None => cwd
  }

  /** How paths are read, name by name. A plain name is looked up in the directory, and a link in place of
      it is followed; in a directory that is gone nothing is found. */
  lemma NameReads(tree: Tree, links: Links, cwd: Path, name: string)
    requires ValidName(name)
    ensures var p := if cwd + [name] in links then links[cwd + [name]] else cwd + [name];
      Lookup(tree, links, cwd, name) ==
        if cwd !in tree.dirs then None
        else if p in tree.dirs then Some(Dir(p))
        else if p in tree.files then Some(File(p))
        else None
  {
    OnlyName(name);
    OneStep(tree, links, cwd, name);
  }

  /** `.` stays, `..` goes up, in every directory. */
  lemma DotsRead(tree: Tree, links: Links, cwd: Path)
    ensures Lookup(tree, links, cwd, ".") == Some(Dir(cwd))
    ensures Lookup(tree, links, cwd, "..") == Some(Dir(if cwd == [] then [] else cwd[..|cwd| - 1]))
  {
    OnlyName(".");
    OnlyName("..");
    OneStep(tree, links, cwd, ".");
    OneStep(tree, links, cwd, "..");
  }

  /** What is behind a slash is read where what is before it leads; a slash in front starts at the top. */
  lemma SlashReads(tree: Tree, links: Links, cwd: Path, name: string, rest: string)
    requires name != "" && '/' !in name && rest != "" && rest[0] != '/'
    ensures var found := Lookup(tree, links, cwd, name);
      Lookup(tree, links, cwd, name + "/" + rest) ==
        if found.Some? && found.value.Dir? then Lookup(tree, links, found.value.path, rest) else None
    ensures Lookup(tree, links, cwd, "/" + rest) == Lookup(tree, links, [], rest)
  {
    var path := name + "/" + rest;
    assert path == name + ("/" + rest) && path[0] == name[0];
    SplitName(name, "/" + rest);
    assert ("/" + rest)[1..] == rest;
    assert ([""] + Split(rest))[1..] == Split(rest);
    OnlyName(name);
    OneStep(tree, links, cwd, name);
    WalkFirst(tree, links, cwd, name, Split(rest));
    WalkFirst(tree, links, [], "", Split(rest));
  }

  lemma {:induction false} SplitLast(a: string, name: string)
    requires '/' !in name
    ensures Split(a + "/" + name) == Split(a) + [name]
  {
    if a == "" {
      OnlyName(name);
      assert a + "/" + name == "/" + name;
    } else {
      SplitLast(a[1..], name);
      assert (a + "/" + name)[1..] == a[1..] + "/" + name;
    }
  }

  lemma OnlyName(name: string)
    requires '/' !in name
    ensures Split(name) == [name]
  {
    SplitName(name, "");
    assert name + "" == name;
  }

  lemma OneStep(tree: Tree, links: Links, cwd: Path, name: string)
    ensures Walk(tree, links, cwd, [name]) == Enter(tree, links, cwd, name)
  {
    assert [name][1..] == [];
    var found := Enter(tree, links, cwd, name);
    if found.Some? && found.value.Dir? {
      assert Walk(tree, links, found.value.path, []) == found;
    }
  }

  lemma WalkFirst(tree: Tree, links: Links, cur: Path, name: string, rest: seq<string>)
    requires rest != []
    ensures var found := Enter(tree, links, cur, name);
      Walk(tree, links, cur, [name] + rest) ==
        if found.Some? && found.value.Dir? then Walk(tree, links, found.value.path, rest) else None
  {
    assert ([name] + rest)[1..] == rest;
  }

  lemma {:induction false} WalkDown(tree: Tree, links: Links, d: Path, k: nat)
    requires WellFormed(tree, links) && Canonical(links, d) && k <= |d|
    requires d[..k] in tree.dirs
    ensures Walk(tree, links, d[..k], d[k..]) == Some(Dir(d)) || d !in tree.dirs
    ensures d !in tree.dirs ==>
      !(Walk(tree, links, d[..k], d[k..]).Some? && Walk(tree, links, d[..k], d[k..]).value.Dir?)
    decreases |d| - k
  {
    assert d[..|d|] == d;
    if k < |d| {
      var child := d[..k] + [d[k]];
      assert child == d[..k + 1] && ValidName(d[k]);
      assert d[k..][0] == d[k] && d[k..][1..] == d[k + 1..];
      if child in tree.dirs {
        WalkDown(tree, links, d, k + 1);
      } else {
        PrefixExists(tree, links, d, k + 1);
      }
    }
  }

  lemma {:induction false} PrefixExists(tree: Tree, links: Links, d: Path, k: nat)
    requires WellFormed(tree, links) && k <= |d|
    ensures d in tree.dirs ==> d[..k] in tree.dirs
    decreases |d|
  {
    if d in tree.dirs && k < |d| {
      assert Parent(d)[..k] == d[..k];
      PrefixExists(tree, links, Parent(d), k);
    } else {
      assert k == |d| ==> d[..k] == d;
    }
  }

  /** `chdir` to a path printed earlier leads back to the very same directory, or fails because
      it is gone; where the process stands does not matter. */
  lemma ChDirBack(tree: Tree, links: Links, cwd: Path, d: Path)
    requires WellFormed(tree, links) && Canonical(links, d)
    ensures ChDir(tree, links, cwd, Print(d)) == if d in tree.dirs then Some(d) else None
  {
    if d == [] {
      assert Split("/") == ["", ""];
      assert ["", ""][1..] == [""];
      assert Walk(tree, links, [], [""]) == Walk(tree, links, [], [""][1..]);
      assert Lookup(tree, links, cwd, "/") == Some(Dir([]));
    } else {
      SplitSlashed(d);
      assert ([""] + d)[1..] == d;
      WalkDown(tree, links, d, 0);
      assert d[0..] == d && d[..0] == [];
      assert Print(d)[0] == '/';
    }
  }

  /** From a directory that is there, resolution leads only to what is there. */
  lemma {:induction false} WalkStays(tree: Tree, links: Links, cur: Path, names: seq<string>)
    requires WellFormed(tree, links) && cur in tree.dirs
    requires Walk(tree, links, cur, names).Some? && Walk(tree, links, cur, names).value.Dir?
    ensures Walk(tree, links, cur, names).value.path in tree.dirs
    decreases |names|
  {
    if names == [] {
    } else {
      var next := Enter(tree, links, cur, names[0]).value.path;
      WalkStays(tree, links, next, names[1..]);
    }
  }

  lemma MovedStays(tree: Tree, links: Links, cwd: Path, path: string)
    requires WellFormed(tree, links) && cwd in tree.dirs
    ensures Moved(tree, links, cwd, path) in tree.dirs
  {
    if ChDir(tree, links, cwd, path).Some? {
      WalkStays(tree, links, if path[0] == '/' then [] else cwd, Split(path));
    }
  }

  // ---------------------------------------------------------------- removing

  /** A path without the slashes at its end. */
  function Unslashed(names: seq<string>): (r: seq<string>)
    ensures |r| <= |names|
    ensures r == [] || r[|r| - 1] != ""
  {
    if names != [] && names[|names| - 1] == "" then Unslashed(names[..|names| - 1]) else names
  }

  /** No entry is left in the directory. */
  predicate Vacant(tree: Tree, links: Links, d: Path) {
    && (forall p :: p in tree.dirs && p != [] ==> Parent(p) != d)
    && (forall p :: p in tree.files && p != [] ==> Parent(p) != d)
    && (forall p :: p in links && p != [] ==> Parent(p) != d)
  }

  /** The entry a path names, its last component taken as it stands: `None` when there is no such entry
      or it cannot be removed by that name. A path that ends in a slash must name a directory. */
  function EntryNamed(tree: Tree, links: Links, cwd: Path, path: string): Option<Path> {
    if path == "" then None
    else
      var names := Split(path);
      var core := Unslashed(names);
      if core == [] || core[|core| - 1] in {".", ".."} then None
      else
        match Walk(tree, links, if path[0] == '/' then [] else cwd, core[..|core| - 1])
        case Some(Dir(d)) =>
          var p := d + [core[|core| - 1]];
          if d !in tree.dirs || p in links then None
          else if p in tree.dirs then Some(p)
          else if p in tree.files && core == names then Some(p)
          else None
        case _ => None
  }

  /** What `remove` can do: a directory goes if it is vacant, a file always. */
  predicate Removable(tree: Tree, links: Links, p: Path) {
    if p in tree.dirs then Vacant(tree, links, p) else p in tree.files
  }

  function Without(tree: Tree, p: Path): Tree {
    Tree(tree.dirs - {p}, tree.files - {p})
  }

  /** A removal leaves every other entry, and the directories still hang together. */
  lemma RemovalKeeps(tree: Tree, links: Links, cwd: Path, path: string)
    requires WellFormed(tree, links)
    requires EntryNamed(tree, links, cwd, path).Some?
    requires Removable(tree, links, EntryNamed(tree, links, cwd, path).value)
    ensures WellFormed(Without(tree, EntryNamed(tree, links, cwd, path).value), links)
    ensures EntryNamed(tree, links, cwd, path).value != []
  {
  }

  // ---------------------------------------------------------------- creating

  /** The file that `fopen(path, "w")` opens, made if need be; a link at the end is followed. `None`: a
      directory has that name, or there is no directory for it. */
  function Target(tree: Tree, links: Links, cwd: Path, path: string): Option<Path> {
    if path == "" then None
    else
      var names := Split(path);
      var last := names[|names| - 1];
      if last in {"", ".", ".."} then None
      else
        match Walk(tree, links, if path[0] == '/' then [] else cwd, names[..|names| - 1])
        case Some(Dir(d)) =>
          var p := if d + [last] in links then links[d + [last]] else d + [last];
          if d !in tree.dirs || p in tree.dirs then None
          else if p in tree.files || Parent(p) in tree.dirs then Some(p)
          else None
        case _ => None
  }

  /** What a path names is what its last component names in the directory the rest leads to, whether it is
      to be removed or to be made. */
  lemma LastNameReads(tree: Tree, links: Links, cwd: Path, path: string, name: string)
    requires path != "" && ValidName(name)
    ensures var there := ChDir(tree, links, cwd, path);
      if there.Some? then
        && EntryNamed(tree, links, cwd, path + "/" + name) == EntryNamed(tree, links, there.value, name)
        && Target(tree, links, cwd, path + "/" + name) == Target(tree, links, there.value, name)
      else
        && EntryNamed(tree, links, cwd, path + "/" + name).None?
        && Target(tree, links, cwd, path + "/" + name).None?
  {
    hide Split;
    hide Walk;
    hide Unslashed;
    SplitEnds(path, name);
    OnlyName(name);
    assert [name][..0] == [] && (path + "/" + name)[0] == path[0];
    EmptyWalk(tree, links);
  }

  lemma EmptyWalk(tree: Tree, links: Links)
    ensures forall d :: Walk(tree, links, d, []) == Some(Dir(d))
  {
  }

  lemma SplitEnds(path: string, name: string)
    requires ValidName(name)
    ensures var names := Split(path + "/" + name);
      |names| > 0 && names[..|names| - 1] == Split(path) && names[|names| - 1] == name && Unslashed(names) == names
    ensures Unslashed([name]) == [name]
  {
    SplitLast(path, name);
  }

  /** A plain name is an entry of the directory that is no link; with a slash behind it, a directory's only;
      `.` and `..` are nobody's. */
  lemma EntryReads(tree: Tree, links: Links, cwd: Path, name: string)
    requires ValidName(name)
    ensures var p := cwd + [name];
      var there := cwd in tree.dirs && p !in links;
      && EntryNamed(tree, links, cwd, name) ==
          (if there && (p in tree.dirs || p in tree.files) then Some(p) else None)
      && EntryNamed(tree, links, cwd, name + "/") == (if there && p in tree.dirs then Some(p) else None)
    ensures EntryNamed(tree, links, cwd, ".").None? && EntryNamed(tree, links, cwd, "..").None?
  {
    OnlyName(name);
    OnlyName(".");
    OnlyName("..");
    SplitLast(name, "");
    assert name + "/" + "" == name + "/" && (name + "/")[0] == name[0];
    assert [name][..0] == [] && ([name] + [""])[..1] == [name];
    assert Unslashed([name]) == [name] && Unslashed([name] + [""]) == Unslashed([name]);
    assert Unslashed(["."]) == ["."] && Unslashed([".."]) == [".."];
    hide Split;
  }

  /** A plain name is made in the directory, unless it is a directory's. */
  lemma NewFileReads(tree: Tree, links: Links, cwd: Path, name: string)
    requires ValidName(name) && cwd + [name] !in links
    ensures Target(tree, links, cwd, name) ==
      if cwd in tree.dirs && cwd + [name] !in tree.dirs then Some(cwd + [name]) else None
  {
    OnlyName(name);
    assert [name][..0] == [];
    assert Parent(cwd + [name]) == cwd;
  }

  function WithFile(tree: Tree, p: Path): Tree {
    Tree(tree.dirs, tree.files + {p})
  }

  /** A new file changes nothing on the way to a directory. */
  lemma {:induction false} WalkWithFile(tree: Tree, links: Links, p: Path, cur: Path, names: seq<string>)
    requires Walk(tree, links, cur, names).Some? && Walk(tree, links, cur, names).value.Dir?
    ensures Walk(WithFile(tree, p), links, cur, names) == Walk(tree, links, cur, names)
    decreases |names|
  {
    if names == [] {
    } else {
      var next := Enter(tree, links, cur, names[0]).value;
      assert Enter(WithFile(tree, p), links, cur, names[0]) == Some(next);
      WalkWithFile(tree, links, p, next.path, names[1..]);
    }
  }

  /** The last name is looked for where the others lead. */
  lemma {:induction false} WalkLast(tree: Tree, links: Links, cur: Path, front: seq<string>, last: string)
    requires Walk(tree, links, cur, front).Some? && Walk(tree, links, cur, front).value.Dir?
    ensures Walk(tree, links, cur, front + [last]) == Enter(tree, links, Walk(tree, links, cur, front).value.path, last)
    decreases |front|
  {
    var names := front + [last];
    if front == [] {
      assert names[0] == last && names[1..] == [];
    } else {
      assert names[0] == front[0] && names[1..] == front[1..] + [last];
      WalkLast(tree, links, Enter(tree, links, cur, front[0]).value.path, front[1..], last);
    }
  }

  /** Once it is made, the path finds it. */
  lemma TargetIsFound(tree: Tree, links: Links, cwd: Path, path: string)
    requires Target(tree, links, cwd, path).Some?
    ensures var p := Target(tree, links, cwd, path).value;
      Lookup(WithFile(tree, p), links, cwd, path) == Some(File(p))
  {
    hide Split;
    hide Walk;
    hide Enter;
    var p := Target(tree, links, cwd, path).value;
    var names, start := Split(path), if path[0] == '/' then [] else cwd;
    var front, last := names[..|names| - 1], names[|names| - 1];
    var d := Walk(tree, links, start, front).value.path;
    assert names == front + [last];
    WalkWithFile(tree, links, p, start, front);
    WalkLast(WithFile(tree, p), links, start, front, last);
    EnterFinds(tree, links, d, last, p);
  }

  lemma EnterFinds(tree: Tree, links: Links, d: Path, name: string, p: Path)
    requires name !in {"", ".", ".."} && d in tree.dirs && p !in tree.dirs
    requires p == if d + [name] in links then links[d + [name]] else d + [name]
    ensures Enter(WithFile(tree, p), links, d, name) == Some(File(p))
  {
  }

  // ---------------------------------------------------------------- the prefix check

  /** `strncmp(path, root, strlen(root)) == 0`. */
  predicate StartsWith(path: string, root: string) {
    root <= path
  }

  /** `d` lies at or below `r`. */
  predicate Below(d: Path, r: Path) {
    r <= d
  }

  lemma {:induction false} SlashedPrefix(d: Path, r: Path)
    requires r != []
    requires forall i :: 0 <= i < |d| ==> ValidName(d[i])
    requires forall i :: 0 <= i < |r| ==> ValidName(r[i])
    ensures Slashed(r) <= Slashed(d) <==>
      |r| <= |d| && r[..|r| - 1] == d[..|r| - 1] && r[|r| - 1] <= d[|r| - 1]
  {
    var sr, sd := Slashed(r), Slashed(d);
    if d == [] {
      assert |sr| > 0;
    } else {
      var tr, td := Slashed(r[1..]), Slashed(d[1..]);
      assert sr == "/" + (r[0] + tr) && sd == "/" + (d[0] + td);
      assert sr <= sd <==> r[0] + tr <= d[0] + td by {
        assert sr[1..] == r[0] + tr && sd[1..] == d[0] + td;
        if r[0] + tr <= d[0] + td { assert sd[..|sr|] == "/" + (d[0] + td)[..|sr| - 1]; }
        if sr <= sd { assert (d[0] + td)[..|sr| - 1] == sd[1..|sr|] == sr[1..]; }
      }
      if |r| == 1 {
        assert r[0] + tr == r[0];
        WordPrefix(r[0], d[0], td);
      } else {
        NameThenSlash(r[0], tr, d[0], td);
        SlashedPrefix(d[1..], r[1..]);
        PrefixTails(d, r);
      }
    }
  }

  lemma PrefixTails(d: Path, r: Path)
    requires |r| > 1 && d != []
    ensures (&& r[0] == d[0] && |r[1..]| <= |d[1..]|
             && r[1..][..|r| - 2] == d[1..][..|r| - 2] && r[1..][|r| - 2] <= d[1..][|r| - 2])
      <==> (|r| <= |d| && r[..|r| - 1] == d[..|r| - 1] && r[|r| - 1] <= d[|r| - 1])
  {
    if |r| <= |d| {
      assert r[..|r| - 1] == [r[0]] + r[1..][..|r| - 2];
      assert d[..|r| - 1] == [d[0]] + d[1..][..|r| - 2];
    }
  }

  lemma WordPrefix(a: string, b: string, t: string)
    requires '/' !in a && (t == "" || t[0] == '/')
    ensures a <= b + t <==> a <= b
  {
    if a <= b + t {
      assert forall i :: 0 <= i < |a| ==> a[i] == (b + t)[i] != '/';
      assert t != "" ==> (b + t)[|b|] == '/';
      assert |a| <= |b|;
    }
  }

  lemma NameThenSlash(a: string, s: string, b: string, t: string)
    requires '/' !in a && '/' !in b
    requires s != "" && s[0] == '/' && (t == "" || t[0] == '/')
    ensures a + s <= b + t <==> a == b && s <= t
  {
    if a + s <= b + t {
      assert forall i :: 0 <= i < |a| ==> (a + s)[i] == a[i] == (b + t)[i] != '/';
      assert (a + s)[|a|] == '/' == (b + t)[|a|];
      assert forall i :: 0 <= i < |b| ==> b[i] == (b + t)[i] != '/';
      assert t != "" ==> (b + t)[|b|] == '/';
      assert |a| == |b|;
      assert a == b;
      assert (b + t)[|a|..] == t && (b + t)[..|a + s|][|a|..] == s;
    }
    if a == b && s <= t {
      assert (b + t)[..|a + s|] == a + s;
    }
  }

  /** All of the root's names but the last match, and the last is a prefix of the name at its level. */
  ghost predicate NamePrefix(r: Path, d: Path)
    requires r != []
  {
    |r| <= |d| && r[..|r| - 1] == d[..|r| - 1] && r[|r| - 1] <= d[|r| - 1]
  }

  /** What the string prefix test decides about places: all of the root's names but the last match,
      and the last one is a prefix of the name at its level. */
  lemma PrefixTest(d: Path, r: Path)
    requires r != []
    requires forall i :: 0 <= i < |d| ==> ValidName(d[i])
    requires forall i :: 0 <= i < |r| ==> ValidName(r[i])
    ensures StartsWith(Print(d), Print(r)) <==> NamePrefix(r, d)
  {
    SlashedPrefix(d, r);
    if d == [] {
      assert |r[0]| > 0 && |Slashed(r)| > 1;
    }
  }

  /** Another directory beside the root whose name extends the root's. */
  ghost predicate ExtendsRoot(sibling: Path, r: Path)
    requires r != []
  {
    |sibling| == |r| && Parent(sibling) == Parent(r) && r[|r| - 1] < sibling[|r| - 1]
  }

  /** The prefix test is true containment for every directory of the tree iff no sibling directory's
      name extends the root's name. */
  lemma PrefixTestIsContainment(tree: Tree, links: Links, r: Path)
    requires WellFormed(tree, links) && r in tree.dirs && r != []
    ensures (forall d :: d in tree.dirs ==> (StartsWith(Print(d), Print(r)) <==> Below(d, r)))
      <==> !(exists sibling :: sibling in tree.dirs && ExtendsRoot(sibling, r))
  {
    if sibling :| sibling in tree.dirs && ExtendsRoot(sibling, r) {
      PrefixTestOn(tree, links, sibling, r);
      assert sibling[..|r|] == sibling;
      assert !Below(sibling, r);
    } else {
      forall d | d in tree.dirs
        ensures StartsWith(Print(d), Print(r)) <==> Below(d, r)
      {
        PrefixTestOn(tree, links, d, r);
      }
    }
  }

  lemma PrefixTestOn(tree: Tree, links: Links, d: Path, r: Path)
    requires WellFormed(tree, links) && r in tree.dirs && r != [] && d in tree.dirs
    ensures StartsWith(Print(d), Print(r)) <==> Below(d, r) || (|r| <= |d| && ExtendsRoot(d[..|r|], r))
    ensures |r| <= |d| ==> d[..|r|] in tree.dirs
  {
    DirIsCanonical(tree, links, r);
    DirIsCanonical(tree, links, d);
    PrefixTest(d, r);
    if |r| <= |d| {
      PrefixExists(tree, links, d, |r|);
      SiblingOrBelow(d, r);
    }
  }

  lemma SiblingOrBelow(d: Path, r: Path)
    requires 0 < |r| <= |d|
    ensures NamePrefix(r, d) <==> Below(d, r) || ExtendsRoot(d[..|r|], r)
  {
    var n := |r| - 1;
    assert Parent(d[..n + 1]) == d[..n];
    assert Below(d, r) <==> r == d[..n + 1];
    assert d[..n + 1][n] == d[n] && Parent(r) == r[..n];
    assert r[n] <= d[n] <==> r[n] == d[n] || r[n] < d[n] by {
      if r[n] <= d[n] && |r[n]| == |d[n]| { assert r[n] == d[n]; }
    }
    assert r == r[..n] + [r[n]] && d[..n + 1] == d[..n] + [d[n]];
  }
}
