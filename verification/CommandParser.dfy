/** src/command_parser.c and `read_socket` of src/client_handler.c: from a line to a command. */
module CommandParser {
  import opened LibC
  import opened Utils

  /** `Undefined`: the parser reads a cell of `tokens[]` it never wrote, or a byte before a string. */
  datatype Parse =
    | Blank
    | Undefined
    | Parsed(name: string, args: seq<string>)

  /** One cell of the `malloc`ed array `tokens[]`. */
  datatype Cell = Uninitialised | Text(text: string) | Null

  // ---------------------------------------------------------------- counting

  function Spaces(s: string): nat {
    if s == "" then 0 else (if s[0] == ' ' then 1 else 0) + Spaces(s[1..])
  }

  ghost predicate AdjacentSpaces(s: string) {
    exists i :: 0 <= i < |s| - 1 && s[i] == s[i + 1] == ' '
  }

  lemma {:induction false} SpacesSplit(a: string, b: string)
    ensures Spaces(a + b) == Spaces(a) + Spaces(b)
  {
    if a == "" {
      assert a + b == b;
    } else {
      assert (a + b)[1..] == a[1..] + b;
      SpacesSplit(a[1..], b);
    }
  }

  method CountArgs(buffer: array<char>, ghost s: string) returns (count: nat)
    requires Holds(buffer, s)
    ensures count == Spaces(s) + 1
  {
    count := 0;
    var i := 0;
    while buffer[i] != NUL
      invariant 0 <= i <= |s|
      invariant i < |s| ==> buffer[i] == s[i] != NUL
      invariant count == Spaces(s[..i])
      decreases |s| - i
    {
      assert s[..i + 1] == s[..i] + [s[i]];
      SpacesSplit(s[..i], [s[i]]);
      if buffer[i] == ' ' {
        count := count + 1;
      }
      i := i + 1;
    }
    assert s[..i] == s;
    count := count + 1;
  }

  lemma NoSpaces(s: string)
    requires ' ' !in s
    ensures Spaces(s) == 0
  {
    if s != "" {
      NoSpaces(s[1..]);
    }
  }

  /** `count_args` never falls short of the number of tokens, so every write to `tokens[]` is
      in bounds. A space in front only widens the gap. */
  lemma {:induction false} TokensFit(s: string)
    ensures |Tokens(s, ' ')| <= Spaces(s) + 1
    ensures s != "" && s[0] == ' ' ==> |Tokens(s, ' ')| <= Spaces(s)
    decreases |s|
  {
    if s == "" {
    } else if s[0] == ' ' {
      TokensFit(s[1..]);
    } else {
      var n := TokenLength(s, ' ');
      assert s == s[..n] + s[n..];
      SpacesSplit(s[..n], s[n..]);
      NoSpaces(s[..n]);
      TokensFit(s[n..]);
      assert s[n..] != "" ==> s[n..][0] == ' ';
    }
  }

  lemma AdjacentSpacesBehind(word: string, tail: string)
    requires ' ' !in word && tail != "" && tail[0] != ' '
    ensures AdjacentSpaces(word + [' '] + tail) <==> AdjacentSpaces(tail)
  {
    var s, n := word + [' '] + tail, |word| + 1;
    assert forall i :: 0 <= i < |tail| ==> s[n + i] == tail[i];
    assert forall i :: 0 <= i < |word| ==> s[i] == word[i];
    if i :| 0 <= i < |s| - 1 && s[i] == s[i + 1] == ' ' {
      assert i >= n;
      assert tail[i - n] == s[n + (i - n)] && tail[i - n + 1] == s[n + (i - n + 1)];
    }
  }

  /** On text that does not start with a space: the count is exact iff no two spaces are adjacent
      and none ends the text, and then the tokens joined by single spaces are the text. */
  lemma {:induction false} CountExact(s: string)
    requires s != "" && s[0] != ' '
    ensures |Tokens(s, ' ')| == Spaces(s) + 1 <==> !AdjacentSpaces(s) && s[|s| - 1] != ' '
    ensures |Tokens(s, ' ')| == Spaces(s) + 1 ==> Join(Tokens(s, ' '), ' ') == s
    decreases |s|
  {
    var n := TokenLength(s, ' ');
    var word, rest := s[..n], s[n..];
    assert s == word + rest;
    if rest == "" {
      TokensStep(word, ' ', rest);
      NoSpaces(word);
      assert s == word && forall i :: 0 <= i < |s| ==> s[i] != ' ';
    } else {
      var tail := rest[1..];
      assert s[n] == ' ' && tail == s[n + 1..] && s == word + [' '] + tail;
      if tail == "" || tail[0] == ' ' {
        WordThenGap(word, tail);
        assert tail != "" ==> s[n] == s[n + 1] == ' ';
      } else {
        CountExact(tail);
        WordInFront(word, tail);
      }
    }
  }

  lemma WordThenGap(word: string, tail: string)
    requires word != "" && ' ' !in word && (tail == "" || tail[0] == ' ')
    ensures var s := word + [' '] + tail; |Tokens(s, ' ')| <= Spaces(s)
  {
    var rest := [' '] + tail;
    assert word + [' '] + tail == word + rest && rest[1..] == tail;
    TokensStep(word, ' ', rest);
    SpacesSplit(word, rest);
    NoSpaces(word);
    TokensFit(tail);
  }

  /** A word and a space in front of text that starts with neither change nothing about exactness. */
  lemma WordInFront(word: string, tail: string)
    requires word != "" && ' ' !in word && tail != "" && tail[0] != ' '
    requires |Tokens(tail, ' ')| == Spaces(tail) + 1 ==> Join(Tokens(tail, ' '), ' ') == tail
    ensures var s := word + [' '] + tail;
      && (AdjacentSpaces(s) <==> AdjacentSpaces(tail))
      && s[|s| - 1] == tail[|tail| - 1]
      && (|Tokens(s, ' ')| == Spaces(s) + 1 <==> |Tokens(tail, ' ')| == Spaces(tail) + 1)
      && (|Tokens(s, ' ')| == Spaces(s) + 1 ==> Join(Tokens(s, ' '), ' ') == s)
  {
    var rest := [' '] + tail;
    AdjacentSpacesBehind(word, tail);
    assert word + [' '] + tail == word + rest && rest[1..] == tail;
    TokensStep(word, ' ', rest);
    SpacesSplit(word, rest);
    NoSpaces(word);
    hide AdjacentSpaces;
    WordThenRest(word, Tokens(tail, ' '));
  }

  lemma WordThenRest(word: string, ts: seq<string>)
    ensures ts != [] ==> Join([word] + ts, ' ') == word + [' '] + Join(ts, ' ')
  {
    assert ([word] + ts)[1..] == ts;
  }

  // ---------------------------------------------------------------- tokenising

  /** The two branches that cut a CR and then a LF off the last token. A token that is only a CR
      makes the second test look at the byte before the string. */
  function StripLineEnd(t: string): Option<string>
    requires t != ""
  {
    var u := if t[|t| - 1] == '\r' then t[..|t| - 1] else t;
    if u == "" then None
    else if u[|u| - 1] == '\n' then Some(u[..|u| - 1])
    else Some(u)
  }

  /** `None` when tokenising is undefined. */
  function Tokenized(s: string): Option<seq<string>> {
    var ts := Tokens(s, ' ');
    if |ts| != Spaces(s) + 1 then None
    else
      assert ts[|ts| - 1] in ts;
      match StripLineEnd(ts[|ts| - 1])
      case None => None
      case Some(last) => Some(ts[|ts| - 1 := last])
  }

  /** The `strtok` loop. */
  method FillTokens(buffer: array<char>, tokenCount: nat, ghost s: string) returns (tokens: array<Cell>)
    requires Holds(buffer, s)
    requires tokenCount == Spaces(s) + 1
    modifies buffer
    ensures fresh(tokens) && tokens.Length == tokenCount + 1
    ensures |Tokens(s, ' ')| <= tokenCount
    ensures forall k :: 0 <= k < |Tokens(s, ' ')| ==> tokens[k] == Text(Tokens(s, ' ')[k])
    ensures forall k :: |Tokens(s, ' ')| <= k <= tokenCount ==> tokens[k] == Uninitialised
  {
    TokensFit(s);
    hide Tokens;
    ghost var all := Tokens(s, ' ');
    tokens := new Cell[tokenCount + 1](_ => Uninitialised);
    var strtok := new StrTok(buffer, s);
    var token := strtok.Next(' ');
    var i := 0;
    while token.Some?
      invariant strtok.Valid() && strtok.buffer == buffer && fresh(strtok)
      invariant 0 <= i <= |all|
      invariant token == if i < |all| then Some(all[i]) else None
      invariant token.Some? ==> Tokens(strtok.left, ' ') == all[i + 1..]
      invariant forall k :: 0 <= k < i ==> tokens[k] == Text(all[k])
      invariant forall k :: i <= k <= tokenCount ==> tokens[k] == Uninitialised
      decreases |all| - i
    {
      tokens[i] := Text(token.value);
      token := strtok.Next(' ');
      i := i + 1;
    }
  }

  method TokenizeBuffer(buffer: array<char>, tokenCount: nat, ghost s: string)
    returns (tokens: array<Cell>, defined: bool)
    requires Holds(buffer, s)
    requires tokenCount == Spaces(s) + 1
    modifies buffer
    ensures fresh(tokens) && tokens.Length == tokenCount + 1
    ensures defined <==> Tokenized(s).Some?
    ensures defined ==> forall i :: 0 <= i < tokenCount ==> tokens[i] == Text(Tokenized(s).value[i])
    ensures defined ==> tokens[tokenCount] == Null
  {
    ghost var all := Tokens(s, ' ');
    tokens := FillTokens(buffer, tokenCount, s);
    if tokens[tokenCount - 1].Uninitialised? {
      return tokens, false;
    }
    assert tokens[tokenCount - 1] == Text(all[tokenCount - 1]);
    assert all[tokenCount - 1] in all;
    var last := tokens[tokenCount - 1].text;
    if last[|last| - 1] == '\r' {
      last := last[..|last| - 1];
    }
    if last == "" {
      return tokens, false;
    }
    if last[|last| - 1] == '\n' {
      last := last[..|last| - 1];
    }
    tokens[tokenCount - 1] := Text(last);
    tokens[tokenCount] := Null;
    defined := true;
  }

  // ---------------------------------------------------------------- parse_buffer

  function ParseText(s: string): Parse {
    var text := Trimmed(s);
    if text == "" then Blank else
      match Tokenized(text)
      case None => Undefined
      case Some(ts) => if ts == [] then Undefined else Parsed(ts[0], ts[1..])
  }

  method ParseBuffer(buffer: array<char>, ghost s: string) returns (parse: Parse)
    requires Holds(buffer, s)
    modifies buffer
    ensures parse == ParseText(s)
  {
    ghost var text := Trimmed(s);
    Trim(buffer, s);
    var length := StrLen(buffer, text);
    if length == 0 {
      return Blank;
    }
    var count := CountArgs(buffer, text);
    var tokens, defined := TokenizeBuffer(buffer, count, text);
    if !defined {
      return Undefined;
    }
    var args := [];
    for i := 1 to count
      invariant |args| == i - 1
      invariant forall k :: 0 <= k < i - 1 ==> args[k] == Tokenized(text).value[k + 1]
    {
      args := args + [tokens[i].text];
    }
    assert args == Tokenized(text).value[1..];
    parse := Parsed(tokens[0].text, args);
  }

  /** The last token of trimmed text ends in the text's own last character, so neither the CR
      nor the LF branch ever fires. */
  lemma StripNeverFires(text: string)
    requires text != "" && Tight(text)
    requires |Tokens(text, ' ')| == Spaces(text) + 1
    ensures Tokenized(text) == Some(Tokens(text, ' '))
  {
    var ts := Tokens(text, ' ');
    CountExact(text);
    LastOfJoin(ts);
    assert ts[|ts| - 1 := ts[|ts| - 1]] == ts;
  }

  lemma {:induction false} LastOfJoin(ts: seq<string>)
    requires ts != [] && forall t :: t in ts ==> t != ""
    ensures Join(ts, ' ') != ""
    ensures var last, text := ts[|ts| - 1], Join(ts, ' '); last != "" && last[|last| - 1] == text[|text| - 1]
  {
    assert ts[0] in ts && ts[|ts| - 1] in ts;
    if |ts| > 1 {
      var rest := ts[1..];
      assert forall t :: t in rest ==> t in ts;
      assert rest[|rest| - 1] == ts[|ts| - 1];
      LastOfJoin(rest);
      var tail := Join(rest, ' ');
      assert Join(ts, ' ') == (ts[0] + [' ']) + tail;
    }
  }

  /** What parsing does, for every buffer: blank iff there is only whitespace; undefined iff two
      spaces are adjacent in the trimmed text; otherwise the command's words, which hold no space
      and are not empty, are the trimmed text when joined by single spaces. */
  lemma ParseExact(s: string)
    ensures ParseText(s).Blank? <==> AllSpace(s)
    ensures ParseText(s).Undefined? <==> AdjacentSpaces(Trimmed(s))
    ensures ParseText(s).Parsed? ==>
      var words := [ParseText(s).name] + ParseText(s).args;
      && Join(words, ' ') == Trimmed(s)
      && forall w :: w in words ==> w != "" && ' ' !in w
  {
    var text := Trimmed(s);
    var pre, post := TrimmedSplits(s);
    if AllSpace(s) {
      TrimmedIs(s, "", "");
      assert s + "" + "" == s;
    }
    if text == "" {
      assert AllSpace(s);
    } else {
      assert s[|pre|] == text[0];
      CountExact(text);
      if |Tokens(text, ' ')| == Spaces(text) + 1 {
        StripNeverFires(text);
        var ts := Tokens(text, ' ');
        assert [ts[0]] + ts[1..] == ts;
      }
    }
  }

  /** No NUL comes out of a C string. */
  lemma ParsedClean(s: string)
    requires NUL !in s
    ensures var parse := ParseText(s);
      parse.Parsed? ==> NUL !in parse.name && forall a :: a in parse.args ==> NUL !in a
  {
    ParseExact(s);
    var parse := ParseText(s);
    if parse.Parsed? {
      var words := [parse.name] + parse.args;
      var pre, post := TrimmedSplits(s);
      assert forall i :: 0 <= i < |Trimmed(s)| ==> Trimmed(s)[i] == s[|pre| + i];
      forall w | w in words
        ensures NUL !in w
      {
        JoinHolds(words, w);
      }
      assert words[0] == parse.name && forall a :: a in parse.args ==> a in words;
    }
  }

  lemma {:induction false} JoinHolds(words: seq<string>, w: string)
    requires w in words
    ensures forall c :: c in w ==> c in Join(words, ' ')
  {
    if |words| > 1 && w != words[0] {
      JoinHolds(words[1..], w);
    }
  }

  // ---------------------------------------------------------------- read_socket

  /** The C string `read_socket` leaves of a line: the newline becomes a NUL. */
  function LineText(line: string): string {
    CutAtNul(if line != "" && line[|line| - 1] == '\n' then line[..|line| - 1] else line)
  }

  function ParseLine(line: string): Parse {
    ParseText(LineText(line))
  }

  method ReadSocket(stream: Stream) returns (line: array<char>, ok: bool)
    modifies stream
    ensures fresh(line)
    ensures ok <==> old(stream.rest) != ""
    ensures ok ==> Holds(line, LineText(FirstLine(old(stream.rest))))
    ensures ok ==> old(stream.rest) == FirstLine(old(stream.rest)) + stream.rest
    ensures !ok ==> stream.rest == ""
  {
    var read;
    line, read := stream.GetLine();
    if read == -1 {
      return line, false;
    }
    ok := true;
    CutNewline(line, FirstLine(old(stream.rest)));
  }

  /** The newline `getline` kept is overwritten. */
  method CutNewline(line: array<char>, ghost raw: string)
    requires raw != "" && line.Length == |raw| + 1 && line[..|raw|] == raw && line[|raw|] == NUL
    modifies line
    ensures Holds(line, LineText(raw))
  {
    hide IsSpace;
    var read := line.Length - 1;
    assert forall i :: 0 <= i < |raw| ==> line[i] == line[..|raw|][i] == raw[i];
    if line[read - 1] == '\n' {
      line[read - 1] := NUL;
    }
    ghost var kept := if raw[read - 1] == '\n' then raw[..read - 1] else raw;
    assert forall i :: 0 <= i < |kept| ==> line[i] == kept[i];
    CutHolds(line, kept);
  }

  /** A buffer that holds some bytes and a NUL behind them holds, as a string, what precedes the first NUL. */
  lemma CutHolds(line: array<char>, kept: string)
    requires |kept| < line.Length && line[|kept|] == NUL
    requires forall i :: 0 <= i < |kept| ==> line[i] == kept[i]
    ensures Holds(line, CutAtNul(kept))
  {
    var text := CutAtNul(kept);
    assert forall i :: 0 <= i < |text| ==> text[i] == kept[i] == line[i] && text[i] in text;
  }

  /** A command written as words joined by single spaces and ended by CR LF comes back as exactly
      those words, and what follows it on the stream is untouched. */
  lemma CommandRoundTrip(words: seq<string>, rest: string)
    requires words != []
    requires forall w :: w in words ==> w != "" && ' ' !in w && NUL !in w && '\n' !in w
    requires var first, last := words[0], words[|words| - 1];
      first != "" && !IsSpace(first[0]) && last != "" && !IsSpace(last[|last| - 1])
    ensures var sent := Join(words, ' ') + "\r\n";
      && FirstLine(sent + rest) == sent
      && ParseLine(sent) == Parsed(words[0], words[1..])
  {
    var text := Join(words, ' ');
    JoinClean(words, NUL);
    JoinClean(words, '\n');
    SentLine(text, rest);
    SentText(words);
  }

  lemma SentText(words: seq<string>)
    requires words != []
    requires forall w :: w in words ==> w != "" && ' ' !in w
    requires var first, last := words[0], words[|words| - 1];
      first != "" && !IsSpace(first[0]) && last != "" && !IsSpace(last[|last| - 1])
    ensures ParseText(Join(words, ' ') + "\r") == Parsed(words[0], words[1..])
  {
    var text := Join(words, ' ');
    LastOfJoin(words);
    JoinStart(words);
    TrimmedIs("", text, "\r");
    assert "" + text + "\r" == text + "\r";
    TokensOfJoin(words, ' ');
    SpacesOfJoin(words);
    StripNeverFires(text);
  }

  /** Reading one line back: CR stays, LF goes. */
  lemma SentLine(text: string, rest: string)
    requires NUL !in text && '\n' !in text
    ensures var sent := text + "\r\n"; FirstLine(sent + rest) == sent && LineText(sent) == text + "\r"
  {
    var line := text + "\r";
    assert text + "\r\n" == line + "\n" && text + "\r\n" + rest == line + "\n" + rest;
    FirstLineAppend(line, rest);
    assert (line + "\n")[..|line|] == line;
  }

  lemma {:induction false} JoinClean(words: seq<string>, c: char)
    requires c != ' ' && forall w :: w in words ==> c !in w
    ensures c !in Join(words, ' ')
  {
    if |words| == 1 {
      assert words[0] in words;
    } else if |words| > 1 {
      assert words[0] in words;
      JoinClean(words[1..], c);
    }
  }

  lemma JoinStart(words: seq<string>)
    requires words != [] && words[0] != ""
    ensures Join(words, ' ') != "" && Join(words, ' ')[0] == words[0][0]
  {
  }

  lemma {:induction false} SpacesOfJoin(words: seq<string>)
    requires words != [] && forall w :: w in words ==> ' ' !in w
    ensures Spaces(Join(words, ' ')) == |words| - 1
  {
    assert words[0] in words;
    NoSpaces(words[0]);
    if |words| > 1 {
      SpacesSplit(words[0] + [' '], Join(words[1..], ' '));
      SpacesSplit(words[0], [' ']);
      SpacesOfJoin(words[1..]);
    }
  }
}
