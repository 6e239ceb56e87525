/** The loops that move file contents: src/commands/stor.c, src/commands/retr.c, src/commands/list.c,
    bonus/src/commands/put.c, bonus/src/commands/get.c. */
module CopyLoops {
  import opened LibC

  /** A `FILE *` open for writing. */
  class Sink {
    var content: string

    constructor ()
      ensures content == ""
    {
      content := "";
    }

    /** `fwrite(data, 1, count, sink)`. */
    method Write(data: array<char>, count: nat)
      requires count <= data.Length
      modifies this
      ensures content == old(content) + data[..count]
    {
      content := content + data[..count];
    }
  }

  /** The `getline` loop of `transfer_file_data`, `put_result` and `get_result`: every byte is copied,
      NULs included, whatever the lines are. */
  method CopyLines(source: Stream, sink: Sink)
    modifies source, sink
    ensures sink.content == old(sink.content) + old(source.rest)
    ensures source.rest == ""
  {
    var line, read := source.GetLine();
    ghost var taken := if read > 0 then line[..read] else "";
    assert taken + source.rest == old(source.rest);
    while read > 0
      invariant read > 0 ==> read <= line.Length && line[..read] == taken
      invariant read <= 0 ==> taken == "" && source.rest == ""
      invariant sink.content + taken + source.rest == old(sink.content) + old(source.rest)
      decreases |taken| + |source.rest|, read > 0
    {
      ghost var before := source.rest;
      sink.Write(line, read);
      assert sink.content + before == old(sink.content) + old(source.rest);
      line, read := source.GetLine();
      taken := if read > 0 then line[..read] else "";
      assert taken + source.rest == before;
      assert sink.content + taken + source.rest == sink.content + (taken + source.rest);
    }
  }

  // ---------------------------------------------------------------- fgets and %s

  const BUFFER_SIZE: nat := 1024

  /** What one `fgets` takes: through the first newline, but no more than fits with a NUL behind it. */
  function Chunk(s: string): (chunk: string)
    ensures chunk <= s
    ensures s != "" ==> 0 < |chunk| < BUFFER_SIZE
  {
    var line := FirstLine(s);
    if |line| < BUFFER_SIZE then line else line[..BUFFER_SIZE - 1]
  }

  function AfterChunk(content: string): string {
    content[|Chunk(content)|..]
  }

  /** What the loop sends of a file: `%s` stops at the first NUL of each chunk. */
  function Sent(content: string): string
    decreases |content|
  {
    if content == "" then ""
    else CutAtNul(Chunk(content)) + Sent(content[|Chunk(content)|..])
  }

  /** `fgets` into a buffer of that size. */
  method Fgets(source: Stream, buffer: array<char>) returns (ok: bool)
    requires buffer.Length == BUFFER_SIZE
    modifies source, buffer
    ensures ok <==> old(source.rest) != ""
    ensures ok ==>
      var chunk := Chunk(old(source.rest));
      && buffer[..|chunk|] == chunk && buffer[|chunk|] == NUL
      && source.rest == old(source.rest)[|chunk|..]
    ensures !ok ==> source.rest == ""
  {
    if source.rest == "" {
      return false;
    }
    ok := true;
    ghost var all := source.rest;
    var n, newline := 0, false;
    while n < buffer.Length - 1 && source.rest != "" && !newline
      invariant 0 <= n <= |all| && n < buffer.Length
      invariant buffer[..n] == all[..n] && source.rest == all[n..]
      invariant forall i :: 0 <= i < n - 1 ==> all[i] != '\n'
      invariant newline <==> n > 0 && all[n - 1] == '\n'
    {
      buffer[n], newline := source.rest[0], source.rest[0] == '\n';
      source.rest := source.rest[1..];
      n := n + 1;
    }
    buffer[n] := NUL;
    ChunkIs(all, n);
    assert buffer[..n] == all[..n];
  }

  /** Where `fgets` stops. */
  lemma ChunkIs(s: string, n: nat)
    requires 0 < n <= |s| && n < BUFFER_SIZE
    requires forall i :: 0 <= i < n - 1 ==> s[i] != '\n'
    requires n == BUFFER_SIZE - 1 || n == |s| || s[n - 1] == '\n'
    ensures Chunk(s) == s[..n]
  {
    var line := FirstLine(s);
    assert forall i :: 0 <= i < |line| ==> line[i] == s[i];
  }

  /** What `%s` prints of a buffer with a NUL at `end`. */
  method StringIn(buffer: array<char>, ghost end: nat) returns (text: string)
    requires end < buffer.Length && buffer[end] == NUL
    ensures text == CutAtNul(buffer[..end])
  {
    var n := 0;
    while buffer[n] != NUL
      invariant 0 <= n <= end
      invariant forall i :: 0 <= i < n ==> buffer[i] != NUL
      decreases end - n
    {
      n := n + 1;
    }
    text := buffer[..n];
    CutIs(buffer[..end], n);
    assert buffer[..end][..n] == buffer[..n];
  }

  lemma CutIs(s: string, n: nat)
    requires n <= |s| && (forall i :: 0 <= i < n ==> s[i] != NUL) && (n < |s| ==> s[n] == NUL)
    ensures CutAtNul(s) == s[..n]
  {
    var r := CutAtNul(s);
    assert forall i :: 0 <= i < |r| ==> s[i] == r[i] != NUL;
  }

  /** What reaches a data connection that takes `lasts` more writes before a write kills the sender, and
      whether it comes to that. Printing an empty string writes nothing. */
  function SentUntil(content: string, lasts: nat): (string, bool)
    decreases |content|
  {
    if content == "" then ("", false)
    else
      var text := CutAtNul(Chunk(content));
      var rest := content[|Chunk(content)|..];
      if text == "" then SentUntil(rest, lasts)
      else if lasts == 0 then ("", true)
      else
        var (sent, killed) := SentUntil(rest, lasts - 1);
        (text + sent, killed)
  }

  /** The number of writes the whole content takes. */
  function Writes(content: string): nat
    decreases |content|
  {
    if content == "" then 0
    else (if CutAtNul(Chunk(content)) == "" then 0 else 1) + Writes(content[|Chunk(content)|..])
  }

  /** The sender is killed iff the content takes more writes than the connection lasts; it gets all of
      the content's strings across otherwise, and the first of them in any case. */
  lemma {:induction false} SentUntilExactly(content: string, lasts: nat)
    ensures SentUntil(content, lasts).1 <==> Writes(content) > lasts
    ensures SentUntil(content, lasts).0 <= Sent(content)
    ensures !SentUntil(content, lasts).1 ==> SentUntil(content, lasts).0 == Sent(content)
    decreases |content|
  {
    hide *;
    if content == "" {
      NoWrites(lasts);
    } else {
      var text, rest := CutAtNul(Chunk(content)), AfterChunk(content);
      OneWrite(content, lasts);
      if text == "" {
        SentUntilExactly(rest, lasts);
      } else if lasts > 0 {
        SentUntilExactly(rest, lasts - 1);
        PrefixBehind(text, SentUntil(rest, lasts - 1).0, Sent(rest));
      }
    }
  }

  lemma NoWrites(lasts: nat)
    ensures SentUntil("", lasts) == ("", false) && Writes("") == 0 && Sent("") == ""
  {
  }

  lemma OneWrite(content: string, lasts: nat)
    requires content != ""
    ensures var chunk := Chunk(content);
      var text, rest := CutAtNul(chunk), AfterChunk(content);
      && |rest| < |content|
      && Sent(content) == (if text == "" then Sent(rest) else text + Sent(rest))
      && Writes(content) == (if text == "" then 0 else 1) + Writes(rest)
      && SentUntil(content, lasts) ==
           if text == "" then SentUntil(rest, lasts)
           else if lasts == 0 then ("", true)
           else (text + SentUntil(rest, lasts - 1).0, SentUntil(rest, lasts - 1).1)
  {
    hide CutAtNul;
    assert "" + Sent(content[|Chunk(content)|..]) == Sent(content[|Chunk(content)|..]);
  }

  lemma PrefixBehind(text: string, a: string, b: string)
    ensures a <= b ==> text + a <= text + b
  {
    assert a <= b ==> (text + b)[..|text + a|] == text + a;
  }

  /** A sender that is killed has got across what the first `lasts` writes carry, no less: the content up to
      some place `n`. One that is not killed sends all of it. */
  lemma {:induction false} KilledAfter(content: string, lasts: nat) returns (n: nat)
    ensures n <= |content| && SentUntil(content, lasts).0 == Sent(content[..n])
    ensures if SentUntil(content, lasts).1 then Writes(content[..n]) == lasts else n == |content|
    decreases |content|
  {
    hide *;
    if content == "" {
      n := 0;
      NoWrites(lasts);
    } else {
      var chunk, rest := Chunk(content), AfterChunk(content);
      OneWrite(content, lasts);
      if CutAtNul(chunk) != "" && lasts == 0 {
        n := 0;
        NoWrites(lasts);
      } else {
        var k := KilledAfter(rest, if CutAtNul(chunk) == "" then lasts else lasts - 1);
        n := |chunk| + k;
        FirstChunk(content, k);
        OneWrite(content[..n], lasts);
      }
    }
  }

  /** The first chunk is that of every beginning that reaches beyond it, too. */
  lemma FirstChunk(content: string, k: nat)
    requires content != "" && k <= |AfterChunk(content)|
    ensures var n := |Chunk(content)| + k;
      && 0 < n <= |content|
      && Chunk(content[..n]) == Chunk(content) && AfterChunk(content[..n]) == AfterChunk(content)[..k]
      && (k == |AfterChunk(content)| <==> n == |content|)
  {
    var chunk := Chunk(content);
    var n := |chunk| + k;
    assert content[..n][..|chunk|] == chunk;
    ChunkIs(content[..n], |chunk|);
  }

  lemma SentUntilStep(sent: string, pending: string, left: nat)
    requires pending != ""
    ensures var chunk := Chunk(pending);
      var text, all := CutAtNul(chunk), SentUntil(pending, left);
      if text != "" && left == 0 then sent + all.0 == sent && all.1
      else
        var rest := SentUntil(pending[|chunk|..], if text == "" then left else left - 1);
        sent + all.0 == (sent + text) + rest.0 && all.1 == rest.1
  {
    hide Chunk;
    hide CutAtNul;
  }

  /** The loop of `execute_retr_command` and of `list_directory`. `killed`: the client has closed the
      connection, and a write to it ended the process. */
  method SendChunks(source: Stream, lasts: nat) returns (sent: string, killed: bool)
    modifies source
    ensures (sent, killed) == SentUntil(old(source.rest), lasts)
    ensures !killed ==> source.rest == ""
  {
    var buffer, left := new char[BUFFER_SIZE], lasts;
    sent, killed := "", false;
    ghost var all := source.rest;
    var ok := Fgets(source, buffer);
    ghost var chunk := Chunk(all);
    ghost var pending := all;
    assert "" + SentUntil(all, lasts).0 == SentUntil(all, lasts).0;
    hide *;
    while ok
      invariant ok ==> pending != "" && chunk == Chunk(pending) && buffer[..|chunk|] == chunk && buffer[|chunk|] == NUL
      invariant ok ==> source.rest == pending[|chunk|..]
      invariant !ok ==> pending == "" && source.rest == ""
      invariant |chunk| < buffer.Length && |chunk| <= |pending|
      invariant SentUntil(all, lasts) == (sent + SentUntil(pending, left).0, SentUntil(pending, left).1)
      decreases |pending|
    {
      var text := StringIn(buffer, |chunk|);
      SentUntilStep(sent, pending, left);
      if text != "" && left == 0 {
        killed := true;
        return;
      }
      sent, left := sent + text, if text == "" then left else left - 1;
      pending := source.rest;
      ok := Fgets(source, buffer);
      chunk := Chunk(pending);
    }
    NoWrites(left);
    assert sent + "" == sent;
  }

  lemma SentStep(content: string, sent: string)
    requires content != ""
    ensures var chunk := Chunk(content);
      sent + Sent(content) == (sent + CutAtNul(chunk)) + Sent(content[|chunk|..])
  {
  }

  lemma {:induction false} SentShortens(content: string)
    ensures |Sent(content)| <= |content|
    decreases |content|
  {
    if content == "" {
    } else {
      SentShortens(content[|Chunk(content)|..]);
    }
  }

  lemma {:induction false} SentLoses(content: string)
    requires NUL in content
    ensures |Sent(content)| < |content|
    decreases |content|
  {
    var chunk := Chunk(content);
    var rest := content[|chunk|..];
    assert content == chunk + rest;
    hide Chunk;
    SentShortens(rest);
    if NUL in chunk {
      assert CutAtNul(chunk) != chunk && |CutAtNul(chunk)| < |chunk|;
    } else {
      SentLoses(rest);
    }
  }

  lemma {:induction false} SentWhole(content: string)
    requires NUL !in content
    ensures Sent(content) == content
    decreases |content|
  {
    if content == "" {
    } else {
      var chunk := Chunk(content);
      assert content == chunk + content[|chunk|..];
      SentWhole(content[|chunk|..]);
    }
  }

  /** RETR delivers the file iff the file has no NUL byte, whatever its line lengths. */
  lemma SentExactly(content: string)
    ensures Sent(content) == content <==> NUL !in content
  {
    if NUL in content {
      SentLoses(content);
    } else {
      SentWhole(content);
    }
  }
}
