/** src/utils.c: the in-place string loops and the port arithmetic. */
module Utils {
  import opened LibC

  // ---------------------------------------------------------------- trim

  ghost predicate AllSpace(s: string) {
    forall i :: 0 <= i < |s| ==> IsSpace(s[i])
  }

  /** No whitespace at either end. */
  predicate Tight(s: string) {
    s != "" ==> !IsSpace(s[0]) && !IsSpace(s[|s| - 1])
  }

  function TrimLeft(s: string): string {
    if s != "" && IsSpace(s[0]) then TrimLeft(s[1..]) else s
  }

  function TrimRight(s: string): string {
    if s != "" && IsSpace(s[|s| - 1]) then TrimRight(s[..|s| - 1]) else s
  }

  function Trimmed(s: string): string {
    TrimRight(TrimLeft(s))
  }

  lemma {:induction false} TrimLeftSplits(s: string) returns (pre: string)
    ensures s == pre + TrimLeft(s) && AllSpace(pre)
    ensures TrimLeft(s) == "" || !IsSpace(TrimLeft(s)[0])
  {
    pre := "";
    if s != "" && IsSpace(s[0]) {
      var rest := TrimLeftSplits(s[1..]);
      pre := [s[0]] + rest;
      assert s == [s[0]] + s[1..];
    }
  }

  lemma {:induction false} TrimRightSplits(s: string) returns (post: string)
    ensures s == TrimRight(s) + post && AllSpace(post)
    ensures TrimRight(s) == "" || !IsSpace(TrimRight(s)[|TrimRight(s)| - 1])
  {
    post := "";
    if s != "" && IsSpace(s[|s| - 1]) {
      var rest := TrimRightSplits(s[..|s| - 1]);
      post := rest + [s[|s| - 1]];
      assert s == s[..|s| - 1] + [s[|s| - 1]];
    }
  }

  /** `Trimmed` removes whitespace from the two ends, nothing else, and all of it. */
  lemma TrimmedSplits(s: string) returns (pre: string, post: string)
    ensures s == pre + Trimmed(s) + post
    ensures AllSpace(pre) && AllSpace(post) && Tight(Trimmed(s))
  {
    pre := TrimLeftSplits(s);
    post := TrimRightSplits(TrimLeft(s));
    if Trimmed(s) != "" {
      assert TrimLeft(s)[0] == Trimmed(s)[0];
    }
  }

  lemma {:induction false} TrimLeftOf(pre: string, s: string)
    requires AllSpace(pre) && (s == "" || !IsSpace(s[0]))
    ensures TrimLeft(pre + s) == s
  {
    if pre == "" {
      assert pre + s == s;
    } else {
      assert (pre + s)[1..] == pre[1..] + s;
      TrimLeftOf(pre[1..], s);
    }
  }

  lemma {:induction false} TrimRightOf(s: string, post: string)
    requires AllSpace(post) && (s == "" || !IsSpace(s[|s| - 1]))
    ensures TrimRight(s + post) == s
  {
    if post == "" {
      assert s + post == s;
    } else {
      var all := s + post;
      assert all[..|all| - 1] == s + post[..|post| - 1];
      TrimRightOf(s, post[..|post| - 1]);
    }
  }

  /** The converse: a tight middle between two runs of whitespace is the trimmed text. */
  lemma TrimmedIs(pre: string, middle: string, post: string)
    requires AllSpace(pre) && AllSpace(post) && Tight(middle)
    ensures Trimmed(pre + middle + post) == middle
  {
    if middle == "" {
      assert pre + middle + post == (pre + post) + "";
      TrimLeftOf(pre + post, "");
    } else {
      assert pre + middle + post == pre + (middle + post);
      TrimLeftOf(pre, middle + post);
      TrimRightOf(middle, post);
    }
  }

  lemma TrimIdempotent(s: string)
    ensures Trimmed(Trimmed(s)) == Trimmed(s)
  {
    var pre, post := TrimmedSplits(s);
    TrimmedIs("", Trimmed(s), "");
    assert "" + Trimmed(s) + "" == Trimmed(s);
  }

  /** `trim`: the overlapping `memmove` is the simultaneous assignment at the end. */
  method Trim(str: array<char>, ghost s: string)
    requires Holds(str, s)
    modifies str
    ensures Holds(str, Trimmed(s))
    ensures forall i :: |s| < i < str.Length ==> str[i] == old(str[i])
  {
    var length: int := StrLen(str, s);
    var start := 0;
    var end: int := length - 1;
    if str[0] == NUL {
      assert s == "";
      return;
    }
    while str[start] != NUL && IsSpace(str[start])
      invariant 0 <= start <= |s|
      invariant AllSpace(s[..start])
      decreases |s| - start
    {
      start := start + 1;
    }
    if str[start] == NUL {
      assert start == |s| && s[..start] == s;
      TrimmedIs(s, "", "");
      assert s + "" + "" == s;
      str[0] := NUL;
      return;
    }
    ghost var middle;
    end, middle := CutTrailing(str, start, end, s);
    if start != 0 {
      var n := StrLenFrom(str, start, middle);
      forall i | 0 <= i <= n {
        str[i] := str[start + i];
      }
    }
  }

  /** The second loop of `trim`: NULs go over the trailing whitespace, from `end` down to `start`. */
  method CutTrailing(str: array<char>, start: nat, last: nat, ghost s: string)
    returns (end: nat, ghost middle: string)
    requires Holds(str, s)
    requires start <= last == |s| - 1 && AllSpace(s[..start]) && !IsSpace(s[start])
    modifies str
    ensures middle == Trimmed(s) && start <= end <= last && start + |middle| == end + 1
    ensures forall i :: 0 <= i < |middle| ==> str[start + i] == middle[i] != NUL
    ensures str[end + 1] == NUL
    ensures forall i :: |s| < i < str.Length ==> str[i] == old(str[i])
  {
    end := last;
    while end > start && IsSpace(str[end])
      invariant start <= end <= last
      invariant forall i :: end < i < |s| ==> IsSpace(s[i])
      invariant forall i :: 0 <= i <= end ==> str[i] == s[i] != NUL
      invariant str[end + 1] == NUL
      invariant forall i :: |s| < i < str.Length ==> str[i] == old(str[i])
    {
      str[end] := NUL;
      end := end - 1;
    }
    middle := s[start..end + 1];
    assert s == s[..start] + middle + s[end + 1..];
    TrimmedIs(s[..start], middle, s[end + 1..]);
  }

  /** `strlen(str + start)`. */
  method StrLenFrom(str: array<char>, start: nat, ghost s: string) returns (n: nat)
    requires start + |s| < str.Length
    requires forall i :: 0 <= i < |s| ==> str[start + i] == s[i] != NUL
    requires str[start + |s|] == NUL
    ensures n == |s|
  {
    n := 0;
    while str[start + n] != NUL
      invariant n <= |s|
      invariant n < |s| ==> str[start + n] == s[n] != NUL
      decreases |s| - n
    {
      n := n + 1;
    }
  }

  // ---------------------------------------------------------------- touppercase

  function Upper(c: char): char {
    if 'a' <= c <= 'z' then (c as int - 32) as char else c
  }

  function ToUpper(s: string): (r: string)
    ensures |r| == |s| && forall i :: 0 <= i < |s| ==> r[i] == Upper(s[i])
  {
    seq(|s|, i requires 0 <= i < |s| => Upper(s[i]))
  }

  /** A lower-case ASCII letter and its capital, which is 32 places before it. */
  predicate Capital(lower: char, upper: char) {
    'a' <= lower <= 'z' && lower as int == upper as int + 32
  }

  /** Equal up to the case of the ASCII letters. */
  ghost predicate SameLetters(a: string, b: string) {
    |a| == |b| && forall i :: 0 <= i < |a| ==> a[i] == b[i] || Capital(a[i], b[i]) || Capital(b[i], a[i])
  }

  lemma UpperIsCaseless(a: string, b: string)
    ensures ToUpper(a) == ToUpper(b) <==> SameLetters(a, b)
  {
    if ToUpper(a) == ToUpper(b) {
      forall i | 0 <= i < |a|
        ensures a[i] == b[i] || Capital(a[i], b[i]) || Capital(b[i], a[i])
      {
        assert Upper(a[i]) == ToUpper(a)[i] == ToUpper(b)[i] == Upper(b[i]);
      }
    }
    if SameLetters(a, b) {
      assert forall i :: 0 <= i < |a| ==> ToUpper(a)[i] == ToUpper(b)[i];
    }
  }

  method ToUpperCase(str: array<char>, ghost s: string)
    requires Holds(str, s)
    modifies str
    ensures Holds(str, ToUpper(s))
  {
    var i := 0;
    while str[i] != NUL
      invariant 0 <= i <= |s|
      invariant forall k :: 0 <= k < i ==> str[k] == Upper(s[k]) != NUL
      invariant forall k :: i <= k < |s| ==> str[k] == s[k]
      invariant str[|s|] == NUL
      decreases |s| - i
    {
      if 'a' <= str[i] <= 'z' {
        str[i] := (str[i] as int - 32) as char;
      }
      i := i + 1;
    }
  }

  // ---------------------------------------------------------------- dots and commas

  function DotsToCommas(s: string): (r: string)
    ensures |r| == |s|
    ensures forall i :: 0 <= i < |s| ==> r[i] == if s[i] == '.' then ',' else s[i]
  {
    seq(|s|, i requires 0 <= i < |s| => if s[i] == '.' then ',' else s[i])
  }

  method ReplaceDotsWithCommas(str: array<char>, ghost s: string)
    requires Holds(str, s)
    modifies str
    ensures Holds(str, DotsToCommas(s))
  {
    var i := 0;
    while str[i] != NUL
      invariant 0 <= i <= |s|
      invariant forall k :: 0 <= k < i ==> str[k] == DotsToCommas(s)[k] != NUL
      invariant forall k :: i <= k < |s| ==> str[k] == s[k]
      invariant str[|s|] == NUL
      decreases |s| - i
    {
      if str[i] == '.' {
        str[i] := ',';
      }
      i := i + 1;
    }
  }

  // ---------------------------------------------------------------- ports

  /** -1 when a half is not an octet. */
  function MergePort(high: int, low: int): int {
    if high < 0 || high > 255 || low < 0 || low > 255 then -1 else high * 256 + low
  }

  function SplitPort(port: int): Option<(int, int)> {
    if port < 0 || port > 65535 then None else Some((port / 256, port % 256))
  }

  /** The two are inverse on ports and on octet pairs, and each rejects everything else. */
  lemma PortRoundTrip(port: int, high: int, low: int)
    ensures SplitPort(port).Some? <==> 0 <= port < 65536
    ensures SplitPort(port).Some? ==>
      MergePort(SplitPort(port).value.0, SplitPort(port).value.1) == port
    ensures MergePort(high, low) != -1 <==> 0 <= high < 256 && 0 <= low < 256
    ensures MergePort(high, low) != -1 ==> SplitPort(MergePort(high, low)) == Some((high, low))
  {
  }
}
