/** The C library the server and its client lean on: NUL-terminated buffers, line input,
    `strtok`, decimal text, `atoi` and `sscanf`. */
module LibC {

  datatype Option<+T> = None | Some(value: T)

  const NUL: char := '\0'

  /** `isspace` in the C locale. */
  predicate IsSpace(c: char) {
    c == ' ' || '\t' <= c <= '\r'
  }

  predicate IsDigit(c: char) {
    '0' <= c <= '9'
  }

  // ---------------------------------------------------------------- C strings

  /** `buffer` holds the C string `s`: its characters, then a NUL. */
  ghost predicate Holds(buffer: array<char>, s: string)
    reads buffer
  {
    && |s| < buffer.Length
    && (forall i :: 0 <= i < |s| ==> buffer[i] == s[i] != NUL)
    && buffer[|s|] == NUL
  }

  method StrLen(buffer: array<char>, ghost s: string) returns (n: nat)
    requires Holds(buffer, s)
    ensures n == |s|
  {
    n := 0;
    while buffer[n] != NUL
      invariant n <= |s|
      decreases |s| - n
    {
      n := n + 1;
    }
  }

  method StrDup(s: string) returns (buffer: array<char>)
    requires NUL !in s
    ensures fresh(buffer) && Holds(buffer, s) && buffer.Length == |s| + 1
  {
    buffer := new char[|s| + 1](i => if 0 <= i < |s| then s[i] else NUL);
  }

  /** What a C string function sees of a byte sequence: everything before its first NUL. */
  function CutAtNul(s: string): (r: string)
    ensures NUL !in r && r <= s
    ensures r == s <==> NUL !in s
    ensures |r| < |s| ==> s[|r|] == NUL
  {
    if s == "" || s[0] == NUL then "" else
      var r := CutAtNul(s[1..]);
      assert s == [s[0]] + s[1..];
      [s[0]] + r
  }

  // ---------------------------------------------------------------- line input

  /** The bytes the next `getline` returns: through the first newline, or all that is left. */
  function FirstLine(s: string): (line: string)
    ensures line <= s
    ensures s != "" ==> line != ""
    ensures forall i :: 0 <= i < |line| - 1 ==> line[i] != '\n'
    ensures line == s || (line != "" && line[|line| - 1] == '\n')
  {
    if s == "" then ""
    else if s[0] == '\n' then [s[0]]
    else
      assert s == [s[0]] + s[1..];
      [s[0]] + FirstLine(s[1..])
  }

  lemma {:induction false} FirstLineAppend(s: string, rest: string)
    requires '\n' !in s
    ensures FirstLine(s + "\n" + rest) == s + "\n"
  {
    var all := s + "\n" + rest;
    if s == "" {
      assert all[0] == '\n';
    } else {
      assert all[1..] == s[1..] + "\n" + rest;
      FirstLineAppend(s[1..], rest);
      assert s == [s[0]] + s[1..];
    }
  }

  /** A `FILE *` open for reading, with `rest` the bytes not yet consumed. */
  class Stream {
    var rest: string

    constructor (content: string)
      ensures rest == content
    {
      rest := content;
    }

    /** `getline`: the line with a terminating NUL behind it, and its length, or -1 at end of file. */
    method GetLine() returns (line: array<char>, read: int)
      modifies this
      ensures fresh(line)
      ensures read == if old(rest) == "" then -1 else |FirstLine(old(rest))|
      ensures old(rest) == "" ==> rest == ""
      ensures old(rest) != "" ==>
        && line.Length == read + 1
        && line[..read] == FirstLine(old(rest))
        && line[read] == NUL
        && old(rest) == FirstLine(old(rest)) + rest
    {
      if rest == "" {
        line := new char[0];
        return line, -1;
      }
      var text := FirstLine(rest);
      line := new char[|text| + 1](i => if 0 <= i < |text| then text[i] else NUL);
      assert line[..|text|] == text;
      read := |text|;
      rest := rest[read..];
    }
  }

  // ---------------------------------------------------------------- strtok

  /** Length of the leading run of characters other than `d`. */
  function TokenLength(s: string, d: char): (n: nat)
    ensures n <= |s|
    ensures forall i :: 0 <= i < n ==> s[i] != d
    ensures n < |s| ==> s[n] == d
  {
    if s == "" || s[0] == d then 0 else 1 + TokenLength(s[1..], d)
  }

  /** All tokens `strtok` delivers: the maximal runs of characters other than `d`. */
  function Tokens(s: string, d: char): (ts: seq<string>)
    ensures forall t :: t in ts ==> t != "" && d !in t
    decreases |s|
  {
    if s == "" then []
    else if s[0] == d then Tokens(s[1..], d)
    else
      var n := TokenLength(s, d);
      [s[..n]] + Tokens(s[n..], d)
  }

  function Join(ts: seq<string>, d: char): string {
    if ts == [] then ""
    else if |ts| == 1 then ts[0]
    else ts[0] + [d] + Join(ts[1..], d)
  }

  lemma TokenLengthIs(t: string, d: char, rest: string)
    requires d !in t
    requires rest == "" || rest[0] == d
    ensures TokenLength(t + rest, d) == |t|
  {
    var s := t + rest;
    var n := TokenLength(s, d);
    assert forall i :: 0 <= i < |t| ==> s[i] == t[i];
    assert rest != "" ==> s[|t|] == d;
  }

  /** One token peels off the front. */
  lemma TokensStep(t: string, d: char, rest: string)
    requires t != "" && d !in t
    requires rest == "" || rest[0] == d
    ensures Tokens(t + rest, d) == [t] + Tokens(rest, d)
  {
    var s := t + rest;
    TokenLengthIs(t, d, rest);
    assert s[0] == t[0];
    assert s[..|t|] == t && s[|t|..] == rest;
  }

  lemma TokensSkip(s: string, d: char)
    requires s != "" && s[0] == d
    ensures Tokens(s, d) == Tokens(s[1..], d)
  {
  }

  lemma TokensOfNothing(d: char)
    ensures Tokens("", d) == []
  {
  }

  /** Splitting undoes joining, for tokens that are not empty and hold no delimiter. */
  lemma {:induction false} TokensOfJoin(ts: seq<string>, d: char)
    requires forall t :: t in ts ==> t != "" && d !in t
    ensures Tokens(Join(ts, d), d) == ts
  {
    if |ts| == 1 {
      assert ts[0] in ts;
      TokensStep(ts[0], d, "");
      assert ts[0] + "" == ts[0];
    } else if |ts| > 1 {
      assert ts[0] in ts && forall t :: t in ts[1..] ==> t in ts;
      var rest := [d] + Join(ts[1..], d);
      assert Join(ts, d) == ts[0] + rest;
      TokensStep(ts[0], d, rest);
      assert rest[1..] == Join(ts[1..], d);
      TokensOfJoin(ts[1..], d);
    }
  }

  /** Tokens with gaps before, between and behind them. */
  function Weave(gaps: seq<string>, ts: seq<string>): string
    requires |gaps| == |ts| + 1
  {
    if ts == [] then gaps[0] else gaps[0] + (ts[0] + Weave(gaps[1..], ts[1..]))
  }

  /** Gaps hold delimiters only, and at least one between two tokens; tokens are not empty and hold none. */
  ghost predicate Woven(gaps: seq<string>, ts: seq<string>, d: char) {
    && |gaps| == |ts| + 1
    && (forall k :: 0 <= k < |gaps| ==> forall i :: 0 <= i < |gaps[k]| ==> gaps[k][i] == d)
    && (forall k :: 0 < k < |ts| ==> gaps[k] != "")
    && (forall k :: 0 <= k < |ts| ==> ts[k] != "" && d !in ts[k])
  }

  lemma {:induction false} TokensBehindGap(gap: string, s: string, d: char)
    requires forall i :: 0 <= i < |gap| ==> gap[i] == d
    ensures Tokens(gap + s, d) == Tokens(s, d)
  {
    if gap == "" {
      assert gap + s == s;
    } else {
      assert (gap + s)[1..] == gap[1..] + s;
      TokensSkip(gap + s, d);
      TokensBehindGap(gap[1..], s, d);
    }
  }

  /** Whatever the gaps are, the tokens of a text are what stands between them. */
  lemma {:induction false} TokensOfWeave(gaps: seq<string>, ts: seq<string>, d: char)
    requires Woven(gaps, ts, d)
    ensures Tokens(Weave(gaps, ts), d) == ts
    decreases |ts|
  {
    if ts == [] {
      TokensBehindGap(gaps[0], "", d);
      assert gaps[0] + "" == gaps[0];
    } else {
      var rest := Weave(gaps[1..], ts[1..]);
      assert Woven(gaps[1..], ts[1..], d);
      TokensOfWeave(gaps[1..], ts[1..], d);
      if |ts| > 1 {
        assert rest[0] == gaps[1][0] == d;
      } else {
        assert rest == gaps[1];
      }
      TokensBehindGap(gaps[0], ts[0] + rest, d);
      TokensStep(ts[0], d, rest);
    }
  }

  /** And every text is tokens and gaps. */
  lemma {:induction false} EveryTextIsWoven(s: string, d: char) returns (gaps: seq<string>, ts: seq<string>)
    ensures Woven(gaps, ts, d) && Weave(gaps, ts) == s
    ensures s != "" && s[0] == d ==> gaps[0] != ""
    ensures s == "" ==> ts == []
    decreases |s|
  {
    if s == "" {
      gaps, ts := [""], [];
    } else if s[0] == d {
      var g, t := EveryTextIsWoven(s[1..], d);
      gaps, ts := [[d] + g[0]] + g[1..], t;
      assert gaps[1..] == g[1..];
      assert s == [d] + s[1..];
    } else {
      var n := TokenLength(s, d);
      var g, t := EveryTextIsWoven(s[n..], d);
      gaps, ts := [""] + g, [s[..n]] + t;
      assert gaps[1..] == g && ts[1..] == t;
      assert s == "" + (s[..n] + s[n..]);
      assert s[n..] != "" ==> s[n..][0] == d;
    }
  }

  /** The hidden state of `strtok`: it cuts `buffer` in place and remembers where to go on.
      `left` is the text not yet handed out. */
  class StrTok {
    const buffer: array<char>
    var position: nat
    ghost var left: string

    ghost predicate Valid()
      reads this, buffer
    {
      && position + |left| < buffer.Length
      && (forall i :: 0 <= i < |left| ==> buffer[position + i] == left[i] != NUL)
      && buffer[position + |left|] == NUL
    }

    constructor (buffer: array<char>, ghost s: string)
      requires Holds(buffer, s)
      ensures Valid() && left == s && this.buffer == buffer
    {
      this.buffer := buffer;
      position := 0;
      left := s;
    }

    method Next(d: char) returns (token: Option<string>)
      requires Valid() && d != NUL
      modifies this, buffer
      ensures Valid()
      ensures token == if Tokens(old(left), d) == [] then None else Some(Tokens(old(left), d)[0])
      ensures token.Some? ==> Tokens(left, d) == Tokens(old(left), d)[1..]
      ensures token.None? ==> Tokens(left, d) == []
    {
      hide Tokens;
      hide TokenLength;
      TokensOfNothing(d);
      var begin, end: nat;
      ghost var text;
      begin, text := SkipDelimiters(d);
      if buffer[begin] == NUL {
        position, left := begin, "";
        return None;
      }
      end := EndOfToken(d, begin, text);
      ghost var n := end - begin;
      assert text == text[..n] + text[n..];
      TokensStep(text[..n], d, text[n..]);
      token := Some(buffer[begin..end]);
      assert token.value == text[..n];
      if buffer[end] != NUL {
        buffer[end] := NUL;
        TokensSkip(text[n..], d);
        assert text[n..][1..] == text[n + 1..];
        position, left := end + 1, text[n + 1..];
      } else {
        position, left := end, "";
      }
    }

    /** `strspn`: passes over delimiters. */
    method SkipDelimiters(d: char) returns (begin: nat, ghost text: string)
      requires Valid() && d != NUL
      ensures begin + |text| < buffer.Length && buffer[begin + |text|] == NUL
      ensures forall i :: 0 <= i < |text| ==> buffer[begin + i] == text[i] != NUL
      ensures Tokens(text, d) == Tokens(left, d)
      ensures text == "" || text[0] != d
    {
      begin, text := position, left;
      while buffer[begin] == d
        invariant begin + |text| < buffer.Length && buffer[begin + |text|] == NUL
        invariant forall i :: 0 <= i < |text| ==> buffer[begin + i] == text[i] != NUL
        invariant Tokens(text, d) == Tokens(left, d)
        decreases |text|
      {
        assert text != "" && text[0] == buffer[begin + 0];
        begin, text := begin + 1, text[1..];
      }
      assert text == "" || text[0] == buffer[begin + 0];
    }

    /** `strcspn`: the first delimiter or NUL at or after `begin`. */
    method EndOfToken(d: char, begin: nat, ghost text: string) returns (end: nat)
      requires begin + |text| < buffer.Length && buffer[begin + |text|] == NUL
      requires forall i :: 0 <= i < |text| ==> buffer[begin + i] == text[i] != NUL
      requires text != "" && text[0] != d
      ensures begin < end <= begin + |text|
      ensures d !in text[..end - begin]
      ensures end < begin + |text| ==> text[end - begin] == d == buffer[end]
    {
      end := begin;
      while buffer[end] != NUL && buffer[end] != d
        invariant begin <= end <= begin + |text|
        invariant forall i :: 0 <= i < end - begin ==> text[i] != d
        invariant end < begin + |text| ==> buffer[end] == text[end - begin]
        decreases begin + |text| - end
      {
        end := end + 1;
        assert end < begin + |text| ==> buffer[begin + (end - begin)] == text[end - begin];
      }
    }
  }

  // ---------------------------------------------------------------- numbers

  function Digit(n: nat): (c: char)
    requires n < 10
    ensures IsDigit(c) && c as int - '0' as int == n
  {
    ('0' as int + n) as char
  }

  /** `%d` of a number that is not negative. */
  function Decimal(n: nat): (s: string)
    ensures s != "" && forall c :: c in s ==> IsDigit(c)
  {
    if n < 10 then [Digit(n)] else Decimal(n / 10) + [Digit(n % 10)]
  }

  function DigitsValue(s: string): nat
    requires forall c :: c in s ==> IsDigit(c)
  {
    if s == "" then 0
    else
      assert IsDigit(s[|s| - 1]);
      10 * DigitsValue(s[..|s| - 1]) + (s[|s| - 1] as int - '0' as int)
  }

  function DigitRun(s: string): (n: nat)
    ensures n <= |s|
    ensures forall i :: 0 <= i < n ==> IsDigit(s[i])
    ensures n < |s| ==> !IsDigit(s[n])
  {
    if s == "" || !IsDigit(s[0]) then 0 else 1 + DigitRun(s[1..])
  }

  function SkipSpaces(s: string): (r: string)
    ensures |r| <= |s|
    ensures r == "" || !IsSpace(r[0])
  {
    if s == "" || !IsSpace(s[0]) then s else SkipSpaces(s[1..])
  }

  /** A number as `atoi` and `%d` accept it: blanks, an optional sign, digits. The text behind
      the digits is handed back; `None` when there is no digit. */
  function ReadNumber(s: string): (r: Option<(int, string)>)
    ensures r.Some? ==> |r.value.1| < |s|
  {
    var t := SkipSpaces(s);
    var signed := t != "" && (t[0] == '-' || t[0] == '+');
    var u := if signed then t[1..] else t;
    var n := DigitRun(u);
    if n == 0 then None else
      var v: int := DigitsValue(u[..n]);
      Some((if signed && t[0] == '-' then -v else v, u[n..]))
  }

  /** `atoi`: 0 when there is no number. */
  function Atoi(s: string): int {
    match ReadNumber(s)
    case None => 0
    case Some(r) => r.0
  }

  lemma {:induction false} DecimalValue(n: nat)
    ensures DigitsValue(Decimal(n)) == n
  {
    if n >= 10 {
      var s := Decimal(n);
      assert s[..|s| - 1] == Decimal(n / 10);
      DecimalValue(n / 10);
    }
  }

  /** Scanning reads back what printing wrote, whatever follows that is not a digit. */
  lemma ReadNumberOfDecimal(n: nat, rest: string)
    requires rest == "" || !IsDigit(rest[0])
    ensures ReadNumber(Decimal(n) + rest) == Some((n, rest))
  {
    var d := Decimal(n);
    var s := d + rest;
    assert s[0] == d[0] && d[0] in d && IsDigit(d[0]);
    assert SkipSpaces(s) == s;
    var k := DigitRun(s);
    assert forall i :: 0 <= i < |d| ==> s[i] == d[i] && IsDigit(s[i]);
    assert rest != "" ==> s[|d|] == rest[0];
    assert s[..k] == d && s[k..] == rest;
    DecimalValue(n);
  }

  function Power(n: nat): nat {
    if n == 0 then 1 else 10 * Power(n - 1)
  }

  /** Each digit counts ten times what it would one place to the right. */
  lemma {:induction false} LeadingDigit(c: char, s: string)
    requires IsDigit(c) && forall k :: k in s ==> IsDigit(k)
    ensures DigitsValue([c] + s) == (c as int - '0' as int) * Power(|s|) + DigitsValue(s)
  {
    var all := [c] + s;
    if s == "" {
      assert all[..|all| - 1] == "";
    } else {
      var front := s[..|s| - 1];
      assert all[..|all| - 1] == [c] + front && all[|all| - 1] == s[|s| - 1];
      LeadingDigit(c, front);
      TenTimes(c as int - '0' as int, Power(|front|));
    }
  }

  lemma TenTimes(v: int, p: int)
    ensures v * (10 * p) == 10 * (v * p)
  {
  }

  lemma {:induction false} BlanksSkipped(blanks: string, s: string)
    requires (forall i :: 0 <= i < |blanks| ==> IsSpace(blanks[i])) && (s == "" || !IsSpace(s[0]))
    ensures SkipSpaces(blanks + s) == s
  {
    if blanks == "" {
      assert blanks + s == s;
    } else {
      assert (blanks + s)[1..] == blanks[1..] + s;
      BlanksSkipped(blanks[1..], s);
    }
  }

  /** What `atoi` makes of blanks, a sign, digits and anything behind them. */
  lemma AtoiReads(blanks: string, sign: string, digits: string, rest: string)
    requires forall i :: 0 <= i < |blanks| ==> IsSpace(blanks[i])
    requires sign in {"", "-", "+"}
    requires digits != "" && forall c :: c in digits ==> IsDigit(c)
    requires rest == "" || !IsDigit(rest[0])
    ensures var value: int := DigitsValue(digits);
      Atoi(blanks + (sign + (digits + rest))) == if sign == "-" then 0 - value else value
  {
    var number := digits + rest;
    assert digits[0] in digits && number[0] == digits[0];
    assert (sign + number)[0] == (if sign == "" then digits[0] else sign[0]);
    BlanksSkipped(blanks, sign + number);
    RunOfDigits(digits, rest);
    assert (sign + number)[|sign|..] == number;
    hide SkipSpaces;
    hide DigitRun;
    hide DigitsValue;
  }

  lemma RunOfDigits(digits: string, rest: string)
    requires (forall c :: c in digits ==> IsDigit(c)) && (rest == "" || !IsDigit(rest[0]))
    ensures DigitRun(digits + rest) == |digits| && (digits + rest)[..|digits|] == digits
  {
    var number := digits + rest;
    assert forall i :: 0 <= i < |digits| ==> number[i] == digits[i] && number[i] in digits;
    assert rest != "" ==> number[|digits|] == rest[0];
  }

  /** And 0 of text that does not start with a number. */
  lemma AtoiOfOther(s: string)
    requires s == "" || !(IsSpace(s[0]) || IsDigit(s[0]) || s[0] in {'+', '-'})
    ensures Atoi(s) == 0
  {
  }

  /** The six blanks of the C locale: tab, line feed, vertical tab, form feed, carriage return, space. */
  lemma BlanksAre(c: char)
    ensures IsSpace(c) <==> c as int in {9, 10, 11, 12, 13, 32}
  {
  }

  /** One directive of a `scanf` format. */
  datatype Directive = Literal(c: char) | AnySpace | Int

  function Directives(format: string): seq<Directive> {
    if format == "" then []
    else if |format| >= 2 && format[0] == '%' && format[1] == 'd' then [Int] + Directives(format[2..])
    else if IsSpace(format[0]) then [AnySpace] + Directives(format[1..])
    else [Literal(format[0])] + Directives(format[1..])
  }

  /** The integers `sscanf` assigns, in order; it stops at the first mismatch. */
  function SScanF(s: string, format: seq<Directive>): seq<int>
    decreases format
  {
    if format == [] then []
    else
      match format[0]
      case AnySpace => SScanF(SkipSpaces(s), format[1..])
      case Literal(c) => if s != "" && s[0] == c then SScanF(s[1..], format[1..]) else []
      case Int =>
        match ReadNumber(s)
        case None => []
        case Some(r) => [r.0] + SScanF(r.1, format[1..])
  }

  /** Literal text in a format consumes the same text in the input. */
  lemma {:induction false} SScanFLiteral(text: string, s: string, format: string)
    requires '%' !in text
    requires forall i :: 0 <= i < |text| && IsSpace(text[i]) ==>
      i + 1 < |text| && !IsSpace(text[i + 1])
    ensures SScanF(text + s, Directives(text + format)) == SScanF(s, Directives(format))
  {
    var input, all := text + s, text + format;
    if text == "" {
      assert input == s && all == format;
    } else {
      assert text[0] in text && all[0] == text[0] == input[0];
      assert all[1..] == text[1..] + format && input[1..] == text[1..] + s;
      forall i | 0 <= i < |text[1..]| && IsSpace(text[1..][i])
        ensures i + 1 < |text[1..]| && !IsSpace(text[1..][i + 1])
      {
        assert text[1..][i] == text[i + 1];
      }
      SScanFLiteral(text[1..], s, format);
      if IsSpace(text[0]) {
        assert input[1..][0] == text[1];
        assert SkipSpaces(input) == input[1..];
      }
      var head := Directives(all)[0];
      assert Directives(all) == [head] + Directives(all[1..]);
    }
  }

  /** A `%d` reads back a printed number. */
  lemma SScanFInt(n: nat, s: string, format: seq<Directive>)
    requires s == "" || !IsDigit(s[0])
    ensures SScanF(Decimal(n) + s, [Int] + format) == [n] + SScanF(s, format)
  {
    assert ([Int] + format)[1..] == format;
    ReadNumberOfDecimal(n, s);
  }
}
