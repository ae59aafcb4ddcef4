/** Windows argument quoting, against the argument rules of Microsoft's "Parsing C
    command-line arguments". */
module Quoting {

  predicate Blank(c: char) {
    c == ' ' || c == '\t'
  }

  predicate Special(c: char) {
    Blank(c) || c == '"'
  }

  function Slashes(n: nat): (s: string)
    ensures |s| == n && forall i | 0 <= i < n :: s[i] == '\\'
  {
    seq(n, _ => '\\')
  }

  // ---------------------------------------------------------------- the printer

  /** What is printed for the rest of an argument after `k` backslashes were held back. */
  function Escape(arg: string, k: nat): string {
    if arg == "" then Slashes(2 * k)
    else if arg[0] == '\\' then Escape(arg[1..], k + 1)
    else if arg[0] == '"' then Slashes(2 * k + 1) + ['"'] + Escape(arg[1..], 0)
    else Slashes(k) + [arg[0]] + Escape(arg[1..], 0)
  }

  predicate Plain(arg: string) {
    arg != "" && forall i | 0 <= i < |arg| :: !Special(arg[i])
  }

  function Quote(arg: string): string {
    if Plain(arg) then arg else ['"'] + Escape(arg, 0) + ['"']
  }

  /** `quote_arg`: one pass with a counter of backslashes not yet written. */
  method QuoteArg(arg: string) returns (out: string)
    ensures out == Quote(arg)
  {
    if Plain(arg) {
      return arg;
    }
    out := ['"'];
    var backslashes: nat := 0;
    for i := 0 to |arg|
      invariant out + Escape(arg[i..], backslashes) == ['"'] + Escape(arg, 0)
    {
      assert arg[i..][0] == arg[i] && arg[i..][1..] == arg[i + 1..];
      match arg[i]
      case '\\' => backslashes := backslashes + 1;
      case '"' =>
        assert out + (Slashes(2 * backslashes + 1) + ['"'] + Escape(arg[i + 1..], 0))
            == (out + Slashes(2 * backslashes + 1) + ['"']) + Escape(arg[i + 1..], 0);
        out := out + Slashes(2 * backslashes + 1) + ['"'];
        backslashes := 0;
      case c =>
        assert out + (Slashes(backslashes) + [c] + Escape(arg[i + 1..], 0))
            == (out + Slashes(backslashes) + [c]) + Escape(arg[i + 1..], 0);
        out := out + Slashes(backslashes) + [c];
        backslashes := 0;
    }
    assert arg[|arg|..] == "";
    out := out + Slashes(2 * backslashes);
    out := out + ['"'];
  }

  /** The tail of the command line: a blank and the quoted argument, for each. */
  function Line(args: seq<string>): string {
    if args == [] then "" else Line(args[..|args| - 1]) + [' '] + Quote(args[|args| - 1])
  }

  /** The whole command line: the quoted program name, then the arguments. */
  function CommandLine(command: string, args: seq<string>): string {
    Quote(command) + Line(args)
  }

  method JoinArgs(command: string, args: seq<string>) returns (line: string)
    ensures line == CommandLine(command, args)
  {
    line := QuoteArg(command);
    for i := 0 to |args|
      invariant line == CommandLine(command, args[..i])
    {
      assert args[..i + 1][..i] == args[..i];
      var quoted := QuoteArg(args[i]);
      line := line + [' '];
      line := line + quoted;
    }
    assert args[..|args|] == args;
  }

  // ---------------------------------------------------------------- the parser

  /** How many backslashes the line starts with. */
  function Leading(s: string): (n: nat)
    ensures n <= |s| && (forall i | 0 <= i < n :: s[i] == '\\') && (n < |s| ==> s[n] != '\\')
  {
    if s == "" || s[0] != '\\' then 0 else 1 + Leading(s[1..])
  }

  /** One argument: its value so far, and what follows it.  The command line ends at a NUL. */
  function ParseOne(s: string, quoted: bool, acc: string): (string, string)
    decreases |s|
  {
    if s == "" || s[0] == '\0' then (acc, "")
    else if s[0] == '\\' then
      var n := Leading(s);
      if n < |s| && s[n] == '"' then
        if n % 2 == 1 then ParseOne(s[n + 1..], quoted, acc + Slashes(n / 2) + ['"'])
        else ParseOne(s[n..], quoted, acc + Slashes(n / 2))
      else ParseOne(s[n..], quoted, acc + Slashes(n))
    else if s[0] == '"' then
      if quoted && |s| > 1 && s[1] == '"' then ParseOne(s[2..], true, acc + ['"'])
      else ParseOne(s[1..], !quoted, acc)
    else if !quoted && Blank(s[0]) then (acc, s)
    else ParseOne(s[1..], quoted, acc + [s[0]])
  }

  lemma {:induction false} ParseOneShrinks(s: string, quoted: bool, acc: string)
    ensures |ParseOne(s, quoted, acc).1| <= |s|
    decreases |s|
  {
    if s != "" && s[0] != '\0' {
      if s[0] == '\\' {
        var n := Leading(s);
        if n < |s| && s[n] == '"' {
          if n % 2 == 1 {
            ParseOneShrinks(s[n + 1..], quoted, acc + Slashes(n / 2) + ['"']);
          } else {
            ParseOneShrinks(s[n..], quoted, acc + Slashes(n / 2));
          }
        } else {
          ParseOneShrinks(s[n..], quoted, acc + Slashes(n));
        }
      } else if s[0] == '"' {
        if quoted && |s| > 1 && s[1] == '"' {
          ParseOneShrinks(s[2..], true, acc + ['"']);
        } else {
          ParseOneShrinks(s[1..], !quoted, acc);
        }
      } else if quoted || !Blank(s[0]) {
        ParseOneShrinks(s[1..], quoted, acc + [s[0]]);
      }
    }
  }

  function Parse(s: string): seq<string>
    decreases |s|
  {
    if s == "" || s[0] == '\0' then []
    else if Blank(s[0]) then Parse(s[1..])
    else
      var (arg, rest) := ParseOne(s, false, "");
      ParseOneShrinks(s, false, "");
      if |rest| < |s| then [arg] + Parse(rest) else [arg]
  }

  // ---------------------------------------------------------------- the round trip

  /** What may follow a printed argument. */
  predicate Ends(rest: string) {
    rest == "" || Blank(rest[0])
  }

  predicate NulFree(s: string) {
    forall i | 0 <= i < |s| :: s[i] != '\0'
  }

  lemma {:induction false} LeadingOf(n: nat, rest: string)
    requires rest == "" || rest[0] != '\\'
    ensures Leading(Slashes(n) + rest) == n
  {
    var s := Slashes(n) + rest;
    assert rest != "" ==> s[n] == rest[0];
    assert forall i | 0 <= i < n :: s[i] == '\\';
  }

  /** Backslashes not followed by a quote are literal. */
  lemma ParseLiteral(n: nat, rest: string, quoted: bool, acc: string)
    requires rest == "" || (rest[0] != '\\' && rest[0] != '"')
    ensures ParseOne(Slashes(n) + rest, quoted, acc) == ParseOne(rest, quoted, acc + Slashes(n))
  {
    var s := Slashes(n) + rest;
    if n == 0 {
      assert s == rest && acc + Slashes(n) == acc;
    } else {
      LeadingOf(n, rest);
      assert s[n..] == rest;
      assert s[0] == '\\';
    }
  }

  /** An odd run before a quote: half the backslashes and a literal quote. */
  lemma ParseOdd(n: nat, rest: string, quoted: bool, acc: string)
    ensures ParseOne(Slashes(2 * n + 1) + ['"'] + rest, quoted, acc) == ParseOne(rest, quoted, acc + Slashes(n) + ['"'])
  {
    var s := Slashes(2 * n + 1) + ['"'] + rest;
    assert s == Slashes(2 * n + 1) + (['"'] + rest);
    LeadingOf(2 * n + 1, ['"'] + rest);
    assert s[2 * n + 1] == '"' && s[2 * n + 2..] == rest && s[0] == '\\';
  }

  /** An even run before a closing quote: half the backslashes, and the quoted part ends. */
  lemma ParseClose(n: nat, rest: string, acc: string)
    requires Ends(rest)
    ensures ParseOne(Slashes(2 * n) + ['"'] + rest, true, acc) == ParseOne(rest, false, acc + Slashes(n))
  {
    var close := ['"'] + rest;
    var s := Slashes(2 * n) + ['"'] + rest;
    assert s == Slashes(2 * n) + close;
    assert ParseOne(close, true, acc + Slashes(n)) == ParseOne(rest, false, acc + Slashes(n)) by {
      assert close[1..] == rest;
    }
    if n == 0 {
      assert s == close && acc + Slashes(n) == acc;
    } else {
      LeadingOf(2 * n, close);
      assert s[2 * n..] == close && s[0] == '\\';
    }
  }

  /** What follows the first character of an escaped argument. */
  function After(arg: string, rest: string): string
    requires arg != ""
  {
    Escape(arg[1..], 0) + ['"'] + rest
  }

  lemma EscapedQuote(arg: string, k: nat, rest: string)
    requires arg != "" && arg[0] == '"'
    ensures Escape(arg, k) + ['"'] + rest == Slashes(2 * k + 1) + ['"'] + After(arg, rest)
  {
  }

  lemma EscapedOther(arg: string, k: nat, rest: string)
    requires arg != "" && arg[0] != '"' && arg[0] != '\\'
    ensures Escape(arg, k) + ['"'] + rest == Slashes(k) + ([arg[0]] + After(arg, rest))
  {
  }

  lemma ParseOther(c: char, k: nat, tail: string, acc: string)
    requires c != '"' && c != '\\' && c != '\0'
    ensures ParseOne(Slashes(k) + ([c] + tail), true, acc) == ParseOne(tail, true, acc + Slashes(k) + [c])
  {
    ParseLiteral(k, [c] + tail, true, acc);
    assert ([c] + tail)[1..] == tail;
  }

  lemma Rejoin(acc: string, k: nat, arg: string)
    requires arg != ""
    ensures acc + Slashes(k) + [arg[0]] + Slashes(0) + arg[1..] == acc + Slashes(k) + arg
  {
    assert arg == [arg[0]] + arg[1..];
  }

  /** Reading back an escaped argument inside its quotes. */
  lemma {:induction false} ParseEscaped(arg: string, k: nat, rest: string, acc: string)
    requires NulFree(arg) && Ends(rest)
    ensures ParseOne(Escape(arg, k) + ['"'] + rest, true, acc) == ParseOne(rest, false, acc + Slashes(k) + arg)
    decreases |arg|
  {
    if arg == "" {
      ParseClose(k, rest, acc);
      assert acc + Slashes(k) + arg == acc + Slashes(k);
    } else if arg[0] == '\\' {
      ParseEscaped(arg[1..], k + 1, rest, acc);
      assert acc + Slashes(k + 1) + arg[1..] == acc + Slashes(k) + arg;
    } else if arg[0] == '"' {
      EscapedQuote(arg, k, rest);
      ParseOdd(k, After(arg, rest), true, acc);
      ParseEscaped(arg[1..], 0, rest, acc + Slashes(k) + ['"']);
      Rejoin(acc, k, arg);
    } else {
      EscapedOther(arg, k, rest);
      ParseOther(arg[0], k, After(arg, rest), acc);
      ParseEscaped(arg[1..], 0, rest, acc + Slashes(k) + [arg[0]]);
      Rejoin(acc, k, arg);
    }
  }

  /** Reading back an argument that needed no quotes. */
  lemma {:induction false} ParsePlain(arg: string, rest: string, acc: string)
    requires NulFree(arg) && Ends(rest) && forall i | 0 <= i < |arg| :: !Special(arg[i])
    ensures ParseOne(arg + rest, false, acc) == ParseOne(rest, false, acc + arg)
    decreases |arg|
  {
    if arg == "" {
      assert arg + rest == rest && acc + arg == acc;
    } else if arg[0] == '\\' {
      var n := Leading(arg);
      assert arg == Slashes(n) + arg[n..];
      assert arg + rest == Slashes(n) + (arg[n..] + rest);
      ParseLiteral(n, arg[n..] + rest, false, acc);
      ParsePlain(arg[n..], rest, acc + Slashes(n));
      assert acc + Slashes(n) + arg[n..] == acc + arg;
    } else {
      assert (arg + rest)[1..] == arg[1..] + rest;
      ParsePlain(arg[1..], rest, acc + [arg[0]]);
      assert acc + [arg[0]] + arg[1..] == acc + arg;
    }
  }

  lemma ParseOpen(tail: string)
    ensures ParseOne(['"'] + tail, false, "") == ParseOne(tail, true, "")
  {
    assert (['"'] + tail)[1..] == tail;
  }

  lemma ParseQuoted(arg: string, rest: string)
    requires NulFree(arg) && Ends(rest)
    ensures ParseOne(Quote(arg) + rest, false, "") == (arg, rest)
  {
    assert ParseOne(rest, false, arg) == (arg, rest);
    if Plain(arg) {
      ParsePlain(arg, rest, "");
      assert "" + arg == arg;
    } else {
      var tail := Escape(arg, 0) + ['"'] + rest;
      assert Quote(arg) + rest == ['"'] + tail;
      ParseOpen(tail);
      ParseEscaped(arg, 0, rest, "");
      assert "" + Slashes(0) + arg == arg;
    }
  }

  lemma QuoteStarts(arg: string)
    requires NulFree(arg)
    ensures Quote(arg) != "" && !Blank(Quote(arg)[0]) && Quote(arg)[0] != '\0'
  {
    assert Plain(arg) ==> !Special(arg[0]);
  }

  /** One blank and one printed argument at the front of the line. */
  lemma ParseFirst(arg: string, rest: string)
    requires NulFree(arg) && Ends(rest)
    ensures Parse([' '] + Quote(arg) + rest) == [arg] + Parse(rest)
  {
    var s := Quote(arg) + rest;
    QuoteStarts(arg);
    ParseQuoted(arg, rest);
    assert s[0] == Quote(arg)[0];
    assert Parse(s) == [arg] + Parse(rest);
    assert ([' '] + Quote(arg) + rest)[1..] == s;
  }

  lemma {:induction false} LineEnds(args: seq<string>)
    ensures Ends(Line(args)) && (Line(args) == "" <==> args == [])
  {
    if args != [] {
      LineEnds(args[..|args| - 1]);
    }
  }

  lemma Regroup(a: string, b: string, c: string, d: string)
    ensures (a + b + c) + [' '] + d == a + b + (c + [' '] + d)
  {
  }

  lemma LineOne(arg: string)
    ensures Line([arg]) == [' '] + Quote(arg) + Line([])
  {
    assert [arg][..0] == [];
    assert Line([arg]) == "" + [' '] + Quote(arg);
    assert "" + [' '] + Quote(arg) == [' '] + Quote(arg) + "";
  }

  /** The same line, built from the front. */
  lemma {:induction false} LineFront(args: seq<string>)
    requires args != []
    ensures Line(args) == [' '] + Quote(args[0]) + Line(args[1..])
  {
    var n := |args| - 1;
    if n > 0 {
      LineFront(args[..n]);
      var rest := args[1..];
      assert rest[..n - 1] == args[..n][1..] && rest[n - 1] == args[n] && args[..n][0] == args[0];
      Regroup([' '], Quote(args[0]), Line(rest[..n - 1]), Quote(args[n]));
    } else {
      LineOne(args[0]);
      assert args == [args[0]] && args[1..] == [];
    }
  }

  predicate AllNulFree(args: seq<string>) {
    forall i | 0 <= i < |args| :: NulFree(args[i])
  }

  lemma {:induction false} RoundTrip(args: seq<string>)
    requires AllNulFree(args)
    ensures Parse(Line(args)) == args
  {
    if args != [] {
      LineFront(args);
      LineEnds(args[1..]);
      ParseFirst(args[0], Line(args[1..]));
      RoundTrip(args[1..]);
    }
  }

  // ---------------------------------------------------------------- exactly the NUL-free arguments survive

  lemma {:induction false} ParseOneNulFree(s: string, quoted: bool, acc: string)
    requires NulFree(acc)
    ensures NulFree(ParseOne(s, quoted, acc).0)
    decreases |s|
  {
    if s != "" && s[0] != '\0' {
      if s[0] == '\\' {
        var n := Leading(s);
        if n < |s| && s[n] == '"' {
          if n % 2 == 1 {
            ParseOneNulFree(s[n + 1..], quoted, acc + Slashes(n / 2) + ['"']);
          } else {
            ParseOneNulFree(s[n..], quoted, acc + Slashes(n / 2));
          }
        } else {
          ParseOneNulFree(s[n..], quoted, acc + Slashes(n));
        }
      } else if s[0] == '"' {
        if quoted && |s| > 1 && s[1] == '"' {
          ParseOneNulFree(s[2..], true, acc + ['"']);
        } else {
          ParseOneNulFree(s[1..], !quoted, acc);
        }
      } else if quoted || !Blank(s[0]) {
        ParseOneNulFree(s[1..], quoted, acc + [s[0]]);
      }
    }
  }

  lemma {:induction false} ParseNulFree(s: string)
    ensures AllNulFree(Parse(s))
    decreases |s|
  {
    if s != "" && s[0] != '\0' {
      if Blank(s[0]) {
        ParseNulFree(s[1..]);
      } else {
        ParseOneNulFree(s, false, "");
        var (arg, rest) := ParseOne(s, false, "");
        if |rest| < |s| {
          ParseNulFree(rest);
        }
      }
    }
  }

  /** A list comes back unchanged if and only if no argument contains a NUL. */
  lemma RoundTripExactly(args: seq<string>)
    ensures Parse(Line(args)) == args <==> AllNulFree(args)
  {
    ParseNulFree(Line(args));
    if AllNulFree(args) {
      RoundTrip(args);
    }
  }

  // ---------------------------------------------------------------- the program name

  /** What follows the program name: quotes only switch blanks on and off, and backslashes
      escape nothing. */
  function AfterProgram(s: string, quoted: bool): string {
    if s == "" || s[0] == '\0' then ""
    else if s[0] == '"' then AfterProgram(s[1..], !quoted)
    else if !quoted && Blank(s[0]) then s
    else AfterProgram(s[1..], quoted)
  }

  /** argv[1] onward. */
  function Arguments(line: string): seq<string> {
    Parse(AfterProgram(line, false))
  }

  /** The quoted name ends where it should: no blank of it before a NUL comes after an odd
      number of its quotes, and neither an odd number of quotes nor a NUL comes before arguments. */
  predicate Survives(command: string, quoted: bool, alone: bool) {
    if command == "" then quoted || alone
    else if command[0] == '\0' then alone
    else if command[0] == '"' then Survives(command[1..], !quoted, alone)
    else (quoted || !Blank(command[0])) && Survives(command[1..], quoted, alone)
  }

  lemma {:induction false} AfterShrinks(s: string, quoted: bool)
    ensures |AfterProgram(s, quoted)| <= |s|
  {
    if s != "" {
      AfterShrinks(s[1..], quoted);
      AfterShrinks(s[1..], !quoted);
    }
  }

  lemma {:induction false} SkipSlashes(n: nat, rest: string, quoted: bool)
    ensures AfterProgram(Slashes(n) + rest, quoted) == AfterProgram(rest, quoted)
  {
    if n == 0 {
      assert Slashes(0) + rest == rest;
    } else {
      assert (Slashes(n) + rest)[1..] == Slashes(n - 1) + rest && (Slashes(n) + rest)[0] == '\\';
      SkipSlashes(n - 1, rest, quoted);
    }
  }

  /** After the closing quote. */
  lemma ClosedName(rest: string, quoted: bool)
    requires Ends(rest)
    ensures AfterProgram(['"'] + rest, quoted) == rest <==> quoted || rest == ""
  {
    assert (['"'] + rest)[1..] == rest;
    if !quoted && rest != "" {
      AfterShrinks(rest[1..], true);
    }
  }

  lemma {:induction false} EscapedName(command: string, k: nat, rest: string, quoted: bool)
    requires Ends(rest)
    ensures AfterProgram(Escape(command, k) + ['"'] + rest, quoted) == rest <==> Survives(command, quoted, rest == "")
    decreases |command|
  {
    if command == "" {
      assert Escape(command, k) + ['"'] + rest == Slashes(2 * k) + (['"'] + rest);
      SkipSlashes(2 * k, ['"'] + rest, quoted);
      ClosedName(rest, quoted);
    } else if command[0] == '\\' {
      EscapedName(command[1..], k + 1, rest, quoted);
    } else if command[0] == '"' {
      EscapedQuote(command, k, rest);
      NameQuote(command, k, rest, quoted);
      EscapedName(command[1..], 0, rest, !quoted);
    } else {
      EscapedOther(command, k, rest);
      NameOther(command, k, rest, quoted);
      EscapedName(command[1..], 0, rest, quoted);
    }
  }

  lemma NameQuote(command: string, k: nat, rest: string, quoted: bool)
    requires command != "" && command[0] == '"'
    ensures AfterProgram(Slashes(2 * k + 1) + ['"'] + After(command, rest), quoted)
      == AfterProgram(After(command, rest), !quoted)
  {
    var tail := ['"'] + After(command, rest);
    assert Slashes(2 * k + 1) + ['"'] + After(command, rest) == Slashes(2 * k + 1) + tail;
    SkipSlashes(2 * k + 1, tail, quoted);
    assert tail[1..] == After(command, rest);
  }

  lemma NameOther(command: string, k: nat, rest: string, quoted: bool)
    requires command != "" && command[0] != '"' && command[0] != '\\'
    ensures var tail := [command[0]] + After(command, rest);
      AfterProgram(Slashes(k) + tail, quoted)
        == if command[0] == '\0' then ""
           else if !quoted && Blank(command[0]) then tail
           else AfterProgram(After(command, rest), quoted)
  {
    var tail := [command[0]] + After(command, rest);
    SkipSlashes(k, tail, quoted);
    assert tail[1..] == After(command, rest);
  }

  /** A name without blanks and quotes is not wrapped. */
  lemma {:induction false} PlainName(command: string, rest: string)
    requires Ends(rest) && forall i | 0 <= i < |command| :: !Special(command[i])
    ensures AfterProgram(command + rest, false) == rest <==> Survives(command, true, rest == "")
  {
    if command == "" {
      assert command + rest == rest;
    } else {
      assert (command + rest)[1..] == command[1..] + rest && !Special(command[0]);
      PlainName(command[1..], rest);
    }
  }

  /** The program name is taken off the line exactly when it survives its quoting. */
  lemma ProgramSplits(command: string, args: seq<string>)
    ensures AfterProgram(CommandLine(command, args), false) == Line(args) <==> Survives(command, true, args == [])
  {
    LineEnds(args);
    if Plain(command) {
      PlainName(command, Line(args));
    } else {
      var tail := Escape(command, 0) + ['"'] + Line(args);
      assert CommandLine(command, args) == ['"'] + tail;
      assert (['"'] + tail)[1..] == tail;
      EscapedName(command, 0, Line(args), true);
    }
  }

  lemma {:induction false} NameSurvives(command: string, alone: bool)
    requires forall i | 0 <= i < |command| :: command[i] != '"' && command[i] != '\0'
    ensures Survives(command, true, alone)
  {
    if command != "" {
      NameSurvives(command[1..], alone);
    }
  }

  /** Behind a name that survives, the arguments come back exactly when none contains NUL. */
  lemma WholeLine(command: string, args: seq<string>)
    requires Survives(command, true, args == [])
    ensures Arguments(CommandLine(command, args)) == args <==> AllNulFree(args)
  {
    ProgramSplits(command, args);
    RoundTripExactly(args);
  }
}
