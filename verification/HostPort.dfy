/** The host-port text of PORT and of the 227 reply, printed and read on both sides:
    src/commands/port.c, src/commands/pasv.c, src/active_data_socket.c, bonus/src/data_socket.c. */
module HostPort {
  import opened LibC
  import opened Utils

  /** A `sockaddr_in`: the address as a host-order word, and the port. */
  datatype Endpoint = Endpoint(word: int, port: int)

  const WORD: int := 0x1_0000_0000

  // ---------------------------------------------------------------- addresses

  /** The shift-and-add of `init_sockin`, on 32 bits. */
  function AddressWord(a: seq<int>): (word: int)
    requires |a| == 4
    ensures 0 <= word < WORD
  {
    (a[0] * 0x100_0000 + a[1] * 0x1_0000 + a[2] * 0x100 + a[3]) % WORD
  }

  /** `htons` takes 16 bits. */
  function SockIn(address: seq<int>, port: int): Endpoint
    requires |address| == 4
  {
    Endpoint(AddressWord(address), port % 0x1_0000)
  }

  function Octets(word: int): (a: seq<int>)
    requires 0 <= word < WORD
    ensures |a| == 4 && forall i :: 0 <= i < 4 ==> 0 <= a[i] < 256
  {
    var high, low := word / 0x1_0000, word % 0x1_0000;
    [high / 256, high % 256, low / 256, low % 256]
  }

  predicate IsOctet(n: int) {
    0 <= n < 256
  }

  lemma WordOfOctets(word: int)
    requires 0 <= word < WORD
    ensures AddressWord(Octets(word)) == word
  {
  }

  /** The four numbers can be read back from the address word iff each of them is an octet. */
  lemma OctetsRecoverable(a: seq<int>)
    requires |a| == 4
    ensures Octets(AddressWord(a)) == a <==> forall i :: 0 <= i < 4 ==> IsOctet(a[i])
  {
    var o := Octets(AddressWord(a));
    if forall i :: 0 <= i < 4 ==> IsOctet(a[i]) {
      var word := a[0] * 0x100_0000 + a[1] * 0x1_0000 + a[2] * 0x100 + a[3];
      assert word / 0x1_0000 == a[0] * 256 + a[1] && word % 0x1_0000 == a[2] * 256 + a[3];
      assert 0 <= word < WORD && AddressWord(a) == word;
      assert o == a;
    } else {
      assert forall i :: 0 <= i < 4 ==> IsOctet(o[i]);
    }
  }

  // ---------------------------------------------------------------- printing

  /** Decimal numbers with `d` between them. */
  function Numbers(a: seq<int>, d: char): string
    requires forall i :: 0 <= i < |a| ==> 0 <= a[i]
  {
    if a == [] then ""
    else if |a| == 1 then Decimal(a[0])
    else Decimal(a[0]) + [d] + Numbers(a[1..], d)
  }

  /** `inet_ntoa`. */
  function DottedQuad(word: int): string
    requires 0 <= word < WORD
  {
    Numbers(Octets(word), '.')
  }

  lemma {:induction false} CommasForDots(a: seq<int>)
    requires forall i :: 0 <= i < |a| ==> 0 <= a[i]
    ensures DotsToCommas(Numbers(a, '.')) == Numbers(a, ',')
    ensures NUL !in Numbers(a, '.')
  {
    if |a| == 1 {
      assert '.' !in Decimal(a[0]) && NUL !in Decimal(a[0]);
    } else if |a| > 1 {
      assert '.' !in Decimal(a[0]) && NUL !in Decimal(a[0]);
      CommasForDots(a[1..]);
      var tail := Numbers(a[1..], '.');
      assert Numbers(a, '.') == Decimal(a[0]) + "." + tail;
      assert DotsToCommas(Decimal(a[0]) + "." + tail) == Decimal(a[0]) + "," + DotsToCommas(tail);
    }
  }

  const PREFIX := "227 Entering Passive Mode ("

  /** What the 227 reply says: the six numbers, comma separated. */
  function PassiveText(word: int, port: int): string
    requires 0 <= word < WORD && 0 <= port < 65536
  {
    PREFIX + Numbers(Octets(word) + [port / 256, port % 256], ',') + ").\r\n"
  }

  /** h1,h2,h3,h4,p1,p2 */
  function SixText(h1: nat, h2: nat, h3: nat, h4: nat, p1: nat, p2: nat): string {
    Decimal(h1) + ("," + (Decimal(h2) + ("," + (Decimal(h3) + (","
    + (Decimal(h4) + ("," + (Decimal(p1) + ("," + Decimal(p2))))))))))
  }

  /** The text in full, for every six octets. */
  lemma PassiveTextReads(h1: nat, h2: nat, h3: nat, h4: nat, p1: nat, p2: nat)
    requires IsOctet(h1) && IsOctet(h2) && IsOctet(h3) && IsOctet(h4) && IsOctet(p1) && IsOctet(p2)
    ensures var word := 0x100_0000 * h1 + 0x1_0000 * h2 + 0x100 * h3 + h4;
      && 0 <= word < WORD
      && PassiveText(word, 256 * p1 + p2) ==
           "227 Entering Passive Mode (" + SixText(h1, h2, h3, h4, p1, p2) + ").\r\n"
  {
    hide PassiveText;
    hide SixText;
    hide Numbers;
    hide Octets;
    WordOf(h1, h2, h3, h4);
    PassiveTextOf(h1, h2, h3, h4, p1, p2);
    SixNumbers(h1, h2, h3, h4, p1, p2);
  }

  lemma WordOf(h1: int, h2: int, h3: int, h4: int)
    requires IsOctet(h1) && IsOctet(h2) && IsOctet(h3) && IsOctet(h4)
    ensures var word := 0x100_0000 * h1 + 0x1_0000 * h2 + 0x100 * h3 + h4;
      0 <= word < WORD && Octets(word) == [h1, h2, h3, h4]
  {
    var a := [h1, h2, h3, h4];
    OctetsRecoverable(a);
    hide Octets;
  }

  lemma PassiveTextOf(h1: int, h2: int, h3: int, h4: int, p1: int, p2: int)
    requires IsOctet(h1) && IsOctet(h2) && IsOctet(h3) && IsOctet(h4) && IsOctet(p1) && IsOctet(p2)
    requires var word := 0x100_0000 * h1 + 0x1_0000 * h2 + 0x100 * h3 + h4;
      0 <= word < WORD && Octets(word) == [h1, h2, h3, h4]
    ensures PassiveText(0x100_0000 * h1 + 0x1_0000 * h2 + 0x100 * h3 + h4, 256 * p1 + p2) ==
      "227 Entering Passive Mode (" + Numbers([h1, h2, h3, h4, p1, p2], ',') + ").\r\n"
  {
    hide Octets;
    hide Numbers;
    var port := 256 * p1 + p2;
    assert port / 256 == p1 && port % 256 == p2;
    assert [h1, h2, h3, h4] + [p1, p2] == [h1, h2, h3, h4, p1, p2];
  }

  lemma SixNumbers(h1: nat, h2: nat, h3: nat, h4: nat, p1: nat, p2: nat)
    ensures Numbers([h1, h2, h3, h4, p1, p2], ',') == SixText(h1, h2, h3, h4, p1, p2)
  {
    hide Decimal;
    assert [h1, h2, h3, h4, p1, p2] == [h1] + [h2, h3, h4, p1, p2] && [h2, h3, h4, p1, p2] == [h2] + [h3, h4, p1, p2];
    assert [h3, h4, p1, p2] == [h3] + [h4, p1, p2] && [h4, p1, p2] == [h4] + [p1, p2] && [p1, p2] == [p1] + [p2];
    NumbersStep(h1, [h2, h3, h4, p1, p2]);
    NumbersStep(h2, [h3, h4, p1, p2]);
    NumbersStep(h3, [h4, p1, p2]);
    NumbersStep(h4, [p1, p2]);
    NumbersStep(p1, [p2]);
    assert Numbers([p2], ',') == Decimal(p2);
    hide Numbers;
  }

  lemma NumbersStep(n: nat, rest: seq<int>)
    requires rest != [] && forall i :: 0 <= i < |rest| ==> 0 <= rest[i]
    ensures Numbers([n] + rest, ',') == Decimal(n) + ("," + Numbers(rest, ','))
  {
    assert ([n] + rest)[1..] == rest;
    assert Decimal(n) + [','] + Numbers(rest, ',') == Decimal(n) + ("," + Numbers(rest, ','));
  }

  /** The reply `create_passive_data_socket` composes: the dotted address is rewritten in place. */
  method PassiveReply(word: int, port: int) returns (reply: string)
    requires 0 <= word < WORD && 0 <= port < 65536
    ensures reply == PassiveText(word, port)
  {
    var a := Octets(word);
    CommasForDots(a);
    var address := StrDup(DottedQuad(word));
    ReplaceDotsWithCommas(address, DottedQuad(word));
    var ports := SplitPort(port);
    var text := address[..address.Length - 1];
    assert text == Numbers(a, ',');
    reply := PREFIX + text + "," + Decimal(ports.value.0) + "," + Decimal(ports.value.1) + ").\r\n";
    var p := [port / 256, port % 256];
    NumbersAppend(a, p);
    assert p[1..] == [port % 256];
    assert Numbers(p, ',') == Decimal(port / 256) + "," + Decimal(port % 256);
    assert reply == PREFIX + (text + "," + (Decimal(port / 256) + "," + Decimal(port % 256))) + ").\r\n";
  }

  lemma {:induction false} NumbersAppend(a: seq<int>, b: seq<int>)
    requires a != [] && b != []
    requires forall i :: 0 <= i < |a| ==> 0 <= a[i]
    requires forall i :: 0 <= i < |b| ==> 0 <= b[i]
    ensures Numbers(a + b, ',') == Numbers(a, ',') + "," + Numbers(b, ',')
  {
    if |a| == 1 {
      assert (a + b)[1..] == b;
    } else {
      assert (a + b)[1..] == a[1..] + b;
      NumbersAppend(a[1..], b);
      assert Numbers(a + b, ',') == Decimal(a[0]) + "," + (Numbers(a[1..], ',') + "," + Numbers(b, ','));
    }
  }

  // ---------------------------------------------------------------- the client's scan

  const SIX := "%d,%d,%d,%d,%d,%d)"

  /** The values `sscanf` stores into `host_port[]`, in order. */
  function ScanPassive(response: string): seq<int> {
    SScanF(response, Directives(PREFIX + SIX))
  }

  /** The client's data socket address; `None` when `host_port[]` is read beyond what was scanned. */
  function ClientEndpoint(response: string): Option<Endpoint> {
    var h := ScanPassive(response);
    if |h| < 6 then None else Some(SockIn(h[..4], MergePort(h[4], h[5])))
  }

  /** Whatever address and port the server announces, the client connects to that address and port. */
  lemma PassiveRoundTrip(word: int, port: int)
    requires 0 <= word < WORD && 0 <= port < 65536
    ensures ClientEndpoint(PassiveText(word, port)) == Some(Endpoint(word, port))
  {
    var a := Octets(word) + [port / 256, port % 256];
    ScanReply(word, port);
    assert a[..4] == Octets(word);
    WordOfOctets(word);
  }

  /** The scan gives back the six printed numbers. */
  lemma ScanReply(word: int, port: int)
    requires 0 <= word < WORD && 0 <= port < 65536
    ensures ScanPassive(PassiveText(word, port)) == Octets(word) + [port / 256, port % 256]
  {
    var a, tail := Octets(word) + [port / 256, port % 256], ").\r\n";
    ScanPrefix(Numbers(a, ',') + tail);
    assert PREFIX + (Numbers(a, ',') + tail) == PassiveText(word, port);
    ScanSix(a, tail);
  }

  lemma ScanPrefix(s: string)
    ensures ScanPassive(PREFIX + s) == SScanF(s, Directives(SIX))
  {
    assert PREFIX[3] == PREFIX[12] == PREFIX[20] == PREFIX[25] == ' ';
    SScanFLiteral(PREFIX, s, SIX);
  }

  /** The directives for `n` numbers with commas between them. */
  function NumbersFormat(n: nat): seq<Directive>
    requires n > 0
  {
    if n == 1 then [Int] + [Literal(')')] else [Int] + ([Literal(',')] + NumbersFormat(n - 1))
  }

  lemma {:induction false} ScanNumbers(a: seq<int>, tail: string)
    requires a != [] && forall i :: 0 <= i < |a| ==> 0 <= a[i]
    requires tail == "" || !IsDigit(tail[0])
    ensures SScanF(Numbers(a, ',') + tail, NumbersFormat(|a|)) == a
  {
    if |a| == 1 {
      ScanLast(a[0], tail);
      assert a == [a[0]];
    } else {
      ScanNumbers(a[1..], tail);
      ScanMore(a, tail);
    }
  }

  lemma ScanLast(n: int, tail: string)
    requires 0 <= n && (tail == "" || !IsDigit(tail[0]))
    ensures SScanF(Decimal(n) + tail, NumbersFormat(1)) == [n]
  {
    SScanFInt(n, tail, [Literal(')')]);
  }

  lemma ScanMore(a: seq<int>, tail: string)
    requires |a| > 1 && forall i :: 0 <= i < |a| ==> 0 <= a[i]
    requires SScanF(Numbers(a[1..], ',') + tail, NumbersFormat(|a| - 1)) == a[1..]
    ensures SScanF(Numbers(a, ',') + tail, NumbersFormat(|a|)) == a
  {
    NumbersHead(a, tail);
    ScanOneMore(a[0], Numbers(a[1..], ',') + tail, NumbersFormat(|a| - 1));
    assert a == [a[0]] + a[1..];
  }

  lemma NumbersHead(a: seq<int>, tail: string)
    requires |a| > 1 && forall i :: 0 <= i < |a| ==> 0 <= a[i]
    ensures Numbers(a, ',') + tail == Decimal(a[0]) + ([','] + (Numbers(a[1..], ',') + tail))
  {
    var d, rest := Decimal(a[0]), Numbers(a[1..], ',');
    hide *;
    assert d + [','] + rest + tail == d + ([','] + (rest + tail));
  }

  lemma ScanOneMore(n: int, rest: string, format: seq<Directive>)
    requires 0 <= n
    ensures SScanF(Decimal(n) + ([','] + rest), [Int] + ([Literal(',')] + format)) == [n] + SScanF(rest, format)
  {
    var s, f := [','] + rest, [Literal(',')] + format;
    assert s[1..] == rest && f[1..] == format;
    SScanFInt(n, s, f);
  }

  function FormatText(n: nat): string
    requires n > 0
  {
    if n == 1 then "%d)" else "%d," + FormatText(n - 1)
  }

  lemma {:induction false} FormatDirectives(n: nat)
    requires n > 0
    ensures Directives(FormatText(n)) == NumbersFormat(n)
  {
    if n == 1 {
      assert "%d)"[2..] == ")";
      assert Directives(")") == [Literal(')')];
    } else {
      FormatDirectives(n - 1);
      DirectivesStep(FormatText(n - 1));
    }
  }

  lemma SixIsTheFormat()
    ensures FormatText(6) == SIX
  {
    assert FormatText(2) == "%d,%d)";
    assert FormatText(4) == "%d,%d,%d,%d)";
  }

  lemma DirectivesStep(format: string)
    ensures Directives("%d," + format) == [Int] + ([Literal(',')] + Directives(format))
  {
    var f := "%d," + format;
    assert f[2..] == "," + format;
    assert ("," + format)[1..] == format;
  }

  lemma ScanSix(a: seq<int>, tail: string)
    requires |a| == 6 && forall i :: 0 <= i < 6 ==> 0 <= a[i]
    requires tail == "" || !IsDigit(tail[0])
    ensures SScanF(Numbers(a, ',') + tail, Directives(SIX)) == a
  {
    ScanNumbers(a, tail);
    FormatDirectives(6);
    SixIsTheFormat();
  }

  // ---------------------------------------------------------------- PORT

  /** The six numbers of a PORT argument; more fields than six are ignored. */
  function HostPortOf(arg: string): Option<seq<int>> {
    var ts := Tokens(arg, ',');
    if |ts| < 6 then None else Some(seq(6, i requires 0 <= i < 6 => Atoi(ts[i])))
  }

  method ParseHostPortValues(arg: array<char>, hostPort: array<int>, ghost s: string) returns (status: int)
    requires Holds(arg, s) && hostPort.Length == 6
    modifies arg, hostPort
    ensures status == if HostPortOf(s).Some? then 0 else -1
    ensures status == 0 ==> hostPort[..] == HostPortOf(s).value
  {
    hide Tokens;
    hide Atoi;
    ghost var ts := Tokens(s, ',');
    var strtok := new StrTok(arg, s);
    var token := strtok.Next(',');
    if token.None? {
      return -1;
    }
    hostPort[0] := Atoi(token.value);
    for i := 1 to 6
      invariant strtok.Valid() && strtok.buffer == arg && fresh(strtok)
      invariant |ts| >= i && Tokens(strtok.left, ',') == ts[i..]
      invariant forall k :: 0 <= k < i ==> hostPort[k] == Atoi(ts[k])
    {
      token := strtok.Next(',');
      if token.None? {
        return -1;
      }
      hostPort[i] := Atoi(token.value);
    }
    status := 0;
  }

  /** A field starts at a character that is not a comma and does not follow one that is not. */
  function Fields(arg: string, inside: bool): nat {
    if arg == "" then 0
    else if arg[0] == ',' then Fields(arg[1..], false)
    else (if inside then 0 else 1) + Fields(arg[1..], true)
  }

  lemma {:induction false} TokensAreFields(arg: string)
    ensures |Tokens(arg, ',')| == Fields(arg, false)
    decreases |arg|
  {
    if arg == "" {
    } else if arg[0] == ',' {
      TokensAreFields(arg[1..]);
    } else {
      var n := TokenLength(arg, ',');
      FieldsSkip(arg, n);
      TokensAreFields(arg[n..]);
      assert arg[n..] != "" ==> arg[n..][0] == ',';
    }
  }

  lemma {:induction false} FieldsSkip(arg: string, n: nat)
    requires 0 < n <= |arg| && forall i :: 0 <= i < n ==> arg[i] != ','
    ensures Fields(arg, true) == Fields(arg[n..], true)
    ensures Fields(arg, false) == 1 + Fields(arg[n..], true)
  {
    if n > 1 {
      FieldsSkip(arg[1..], n - 1);
      assert arg[1..][n - 1..] == arg[n..];
    }
  }

  /** PORT rejects exactly the arguments with fewer than six non-empty fields, and reads six printed
      numbers as themselves. */
  lemma PortArgument(arg: string, a: seq<int>)
    requires |a| == 6 && forall i :: 0 <= i < 6 ==> 0 <= a[i]
    ensures HostPortOf(arg).Some? <==> Fields(arg, false) >= 6
    ensures HostPortOf(Numbers(a, ',')) == Some(a)
  {
    TokensAreFields(arg);
    var text := Numbers(a, ',');
    var ts := NumberTokens(a);
    forall i | 0 <= i < 6
      ensures Atoi(ts[i]) == a[i]
    {
      ReadNumberOfDecimal(a[i], "");
      assert ts[i] + "" == ts[i];
    }
    assert |Tokens(text, ',')| == 6 && HostPortOf(text).Some?;
    assert HostPortOf(text).value == a;
  }

  lemma {:induction false} NumberTokens(a: seq<int>) returns (ts: seq<string>)
    requires forall i :: 0 <= i < |a| ==> 0 <= a[i]
    ensures |ts| == |a| && forall i :: 0 <= i < |a| ==> ts[i] == Decimal(a[i])
    ensures Tokens(Numbers(a, ','), ',') == ts
  {
    hide Decimal;
    hide Tokens;
    ts := [];
    TokensOfNothing(',');
    if a == [] {
    } else {
      var d := Decimal(a[0]);
      assert ',' !in d;
      var rest := NumberTokens(a[1..]);
      ts := [d] + rest;
      if |a| == 1 {
        TokensStep(d, ',', "");
        assert d + "" == d;
      } else {
        var tail := "," + Numbers(a[1..], ',');
        TokensStep(d, ',', tail);
        TokensSkip(tail, ',');
        assert d + tail == Numbers(a, ',');
        assert tail[1..] == Numbers(a[1..], ',');
      }
    }
  }

  /** `setup_active_data_socket`: the address is copied out, the port merged unchecked. */
  method SetupActiveDataSocket(hostPort: array<int>)
    returns (address: array<int>, port: int, endpoint: Endpoint)
    requires hostPort.Length == 6
    ensures fresh(address) && address[..] == hostPort[..4]
    ensures port == MergePort(hostPort[4], hostPort[5])
    ensures endpoint == SockIn(hostPort[..4], port)
  {
    address := new int[4];
    port := MergePort(hostPort[4], hostPort[5]);
    for i := 0 to 4
      invariant forall k :: 0 <= k < i ==> address[k] == hostPort[k]
    {
      address[i] := hostPort[i];
    }
    assert address[..] == hostPort[..4];
    endpoint := SockIn(address[..], port);
  }

  /** Six octets reach the socket intact: port 256*p1+p2, and an address word that gives them back. */
  lemma PortEndpoint(a: seq<int>)
    requires |a| == 6 && forall i :: 0 <= i < 6 ==> IsOctet(a[i])
    ensures var e := SockIn(a[..4], MergePort(a[4], a[5]));
      && e.port == 256 * a[4] + a[5] && Octets(e.word) == a[..4]
      && e.word == 0x100_0000 * a[0] + 0x1_0000 * a[1] + 0x100 * a[2] + a[3]
  {
    OctetsRecoverable(a[..4]);
  }

  /** A half that is not an octet is not reported: `merge_port` yields -1 and the socket is aimed at
      port 65535. */
  lemma BadPortHalf(a: seq<int>)
    requires |a| == 6
    ensures MergePort(a[4], a[5]) == -1 <==> !(IsOctet(a[4]) && IsOctet(a[5]))
    ensures MergePort(a[4], a[5]) == -1 ==> SockIn(a[..4], -1).port == 65535
  {
  }
}
