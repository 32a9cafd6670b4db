/** Text that another program reads back: shellQuote and OpenTerminalWithCommand of
    core/daemon_manager_darwin.go, and parseCSVLine of core/process_service.go. */
module Quoting {
  import opened Basics

  /** strings.ReplaceAll for a pattern of one character. */
  function ReplaceAll(s: string, c: char, with: string): string {
    if s == "" then "" else (if s[0] == c then with else [s[0]]) + ReplaceAll(s[1..], c, with)
  }

  // ------------------------------------------------------------------- shell

  function ShellQuote(s: string): string {
    "'" + ReplaceAll(s, '\'', "'\\''") + "'"
  }

  datatype Quote = Plain | Escaped | Single
  /** `word` is None between words. Outside: a character whose meaning is not settled by sections 2.2.1
      and 2.2.2 of the POSIX Shell Command Language (operators, expansions, double quotes, patterns). */
  datatype Shell = Shell(words: seq<string>, word: Option<string>, quote: Quote) | Outside

  function Text(word: Option<string>): string {
    if word.Some? then word.value else ""
  }

  predicate Settled(c: char, first: bool) {
    c !in "|&;<>()$`\"\n*?[#~%" && (first ==> c != '=')
  }

  function ShellStep(st: Shell, c: char): Shell {
    if st.Outside? then Outside
    else match st.quote
      case Single =>
        if c == '\'' then st.(quote := Plain) else st.(word := Some(Text(st.word) + [c]))
      case Escaped =>
        if c == '\n' then st.(quote := Plain)
        else st.(word := Some(Text(st.word) + [c]), quote := Plain)
      case Plain =>
        if c == '\'' then st.(word := Some(Text(st.word)), quote := Single)
        else if c == '\\' then st.(quote := Escaped)
        else if c == ' ' || c == '\t' then Shell(Words(st), None, Plain)
        else if Settled(c, st.words == []) then st.(word := Some(Text(st.word) + [c]))
        else Outside
  }

  function Words(st: Shell): seq<string>
    requires st.Shell?
  {
    if st.word.Some? then st.words + [st.word.value] else st.words
  }

  function ShellRun(st: Shell, input: string): Shell
    decreases |input|
  {
    if input == "" then st else ShellRun(ShellStep(st, input[0]), input[1..])
  }

  /** The words of a command line; None when it is unterminated or needs other rules. */
  function SplitWords(input: string): Option<seq<string>> {
    var st := ShellRun(Shell([], None, Plain), input);
    if st.Outside? || st.quote != Plain then None else Some(Words(st))
  }

  lemma {:induction false} ShellRunConcat(st: Shell, a: string, b: string)
    ensures ShellRun(st, a + b) == ShellRun(ShellRun(st, a), b)
    decreases |a|
  {
    if a == "" {
      assert a + b == b;
    } else {
      assert (a + b)[0] == a[0] && (a + b)[1..] == a[1..] + b;
      ShellRunConcat(ShellStep(st, a[0]), a[1..], b);
    }
  }

  lemma {:induction false} OutsideStays(input: string)
    ensures ShellRun(Outside, input) == Outside
    decreases |input|
  {
    if input != "" { OutsideStays(input[1..]); }
  }

  lemma OneChar(st: Shell, c: char)
    ensures ShellRun(st, [c]) == ShellStep(st, c)
  {
    assert [c][1..] == "";
  }

  /** The rules of the two sections for one unquoted character: blanks separate words, a backslash keeps the
      next character as it is, and with a line feed both vanish; operators and expansions need other
      rules. */
  lemma UnquotedRules(words: seq<string>, word: Option<string>, c: char, rest: string)
    ensures var st, text := Shell(words, word, Plain), Text(word);
            && (c == ' ' || c == '\t' ==>
                  ShellRun(st, [c]) == Shell(if word.Some? then words + [word.value] else words, None, Plain))
            && ShellRun(st, "\\" + [c])
               == (if c == '\n' then st else Shell(words, Some(text + [c]), Plain))
            && (c in "|&;<>()$`\"\n*?[#~%" || (c == '=' && words == []) ==> ShellRun(st, [c] + rest) == Outside)
  {
    var st := Shell(words, word, Plain);
    OneChar(st, c);
    ShellRunConcat(st, "\\", [c]);
    OneChar(st, '\\');
    OneChar(Shell(words, word, Escaped), c);
    if c in "|&;<>()$`\"\n*?[#~%" || (c == '=' && words == []) { SpecialIsOutside(words, word, c, rest); }
  }

  lemma SpecialIsOutside(words: seq<string>, word: Option<string>, c: char, rest: string)
    requires c in "|&;<>()$`\"\n*?[#~%" || (c == '=' && words == [])
    ensures ShellRun(Shell(words, word, Plain), [c] + rest) == Outside
  {
    var st := Shell(words, word, Plain);
    assert !Settled(c, words == []) && ShellStep(st, c) == Outside;
    OneChar(st, c);
    ShellRunConcat(st, [c], rest);
    OutsideStays(rest);
  }

  lemma {:induction false} SingleReads(words: seq<string>, t: string, s: string)
    ensures ShellRun(Shell(words, Some(t), Single), ReplaceAll(s, '\'', "'\\''"))
            == Shell(words, Some(t + s), Single)
    decreases |s|
  {
    if s == "" {
      assert t + s == t;
    } else {
      var st := Shell(words, Some(t), Single);
      var head := if s[0] == '\'' then "'\\''" else [s[0]];
      ShellRunConcat(st, head, ReplaceAll(s[1..], '\'', "'\\''"));
      assert ShellRun(st, head) == Shell(words, Some(t + [s[0]]), Single) by {
        if s[0] == '\'' {
          var p := Shell(words, Some(t), Plain);
          assert head[1..] == "\\''" && head[1..][1..] == "''" && head[1..][1..][1..] == "'";
          assert ShellStep(st, '\'') == p;
          assert ShellStep(ShellStep(p, '\\'), '\'') == Shell(words, Some(t + ['\'']), Plain);
        }
      }
      SingleReads(words, t + [s[0]], s[1..]);
      assert t + [s[0]] + s[1..] == t + s;
    }
  }

  /** A quoted argument adds exactly its text to the word being read, whatever came before. */
  lemma QuoteReads(words: seq<string>, word: Option<string>, s: string)
    ensures ShellRun(Shell(words, word, Plain), ShellQuote(s)) == Shell(words, Some(Text(word) + s), Plain)
  {
    var st, body := Shell(words, word, Plain), ReplaceAll(s, '\'', "'\\''");
    assert ShellQuote(s) == "'" + (body + "'");
    ShellRunConcat(st, "'", body + "'");
    assert ShellRun(st, "'") == Shell(words, Some(Text(word)), Single);
    ShellRunConcat(Shell(words, Some(Text(word)), Single), body, "'");
    SingleReads(words, Text(word), s);
  }

  lemma {:induction false} PlainReads(words: seq<string>, word: Option<string>, s: string)
    requires s != "" && forall c <- s :: c !in "'\\ \t" && Settled(c, words == [])
    ensures ShellRun(Shell(words, word, Plain), s) == Shell(words, Some(Text(word) + s), Plain)
    decreases |s|
  {
    var st := Shell(words, Some(Text(word) + [s[0]]), Plain);
    assert s[0] in s;
    assert ShellStep(Shell(words, word, Plain), s[0]) == st;
    if |s| == 1 {
      assert s == [s[0]];
    } else {
      PlainReads(words, st.word, s[1..]);
      assert Text(word) + [s[0]] + s[1..] == Text(word) + s;
    }
  }

  /** One word equal to s. */
  lemma QuotedIsOneWord(s: string)
    ensures SplitWords(ShellQuote(s)) == Some([s])
  {
    QuoteReads([], None, s);
    assert Text(None) + s == s && [] + [s] == [s];
  }

  lemma QuoteInjective(s: string, t: string)
    requires ShellQuote(s) == ShellQuote(t)
    ensures s == t
  {
    QuotedIsOneWord(s);
    QuotedIsOneWord(t);
  }

  /** An argument of a command line: written as it is, or quoted. */
  datatype Arg = Bare(text: string) | Quoted(text: string)

  predicate Writable(a: Arg, first: bool) {
    a.Bare? ==> a.text != "" && forall c <- a.text :: c !in "'\\ \t" && Settled(c, first)
  }

  ghost predicate AllWritable(args: seq<Arg>) {
    forall i | 0 <= i < |args| :: Writable(args[i], i == 0)
  }

  function Written(a: Arg): string { if a.Bare? then a.text else ShellQuote(a.text) }

  function CommandLine(args: seq<Arg>): string {
    if args == [] then ""
    else if |args| == 1 then Written(args[0])
    else CommandLine(args[..|args| - 1]) + " " + Written(args[|args| - 1])
  }

  function Texts(args: seq<Arg>): seq<string> {
    if args == [] then [] else Texts(args[..|args| - 1]) + [args[|args| - 1].text]
  }

  lemma ArgReads(words: seq<string>, a: Arg)
    requires Writable(a, words == [])
    ensures ShellRun(Shell(words, None, Plain), Written(a)) == Shell(words, Some(a.text), Plain)
  {
    if a.Bare? { PlainReads(words, None, a.text); } else { QuoteReads(words, None, a.text); }
    assert "" + a.text == a.text;
  }

  lemma {:induction false} CommandReads(args: seq<Arg>)
    requires args != [] && AllWritable(args)
    ensures ShellRun(Shell([], None, Plain), CommandLine(args))
            == Shell(Texts(args[..|args| - 1]), Some(args[|args| - 1].text), Plain)
  {
    var front, last := args[..|args| - 1], args[|args| - 1];
    if front == [] {
      ArgReads([], last);
    } else {
      var init, line := Shell([], None, Plain), CommandLine(front);
      CommandReads(front);
      ShellRunConcat(init, line + " ", Written(last));
      ShellRunConcat(init, line, " ");
      ArgReads(Texts(front), last);
    }
  }

  /** Every command line splits into the texts of its arguments. */
  lemma CommandSplits(args: seq<Arg>)
    requires args != [] && AllWritable(args)
    ensures SplitWords(CommandLine(args)) == Some(Texts(args))
  {
    CommandReads(args);
  }

  function InstallCommand(path: string): string {
    "sudo " + ShellQuote(path) + " lxd --service=install"
  }

  function UninstallCommand(path: string, purge: bool): string {
    var cmd := "sudo " + ShellQuote(path) + " lxd --service=uninstall";
    if purge then cmd + " --purge" else cmd
  }

  lemma {:induction false} CommandSnoc(args: seq<Arg>, a: Arg)
    requires args != []
    ensures CommandLine(args + [a]) == CommandLine(args) + " " + Written(a)
    ensures Texts(args + [a]) == Texts(args) + [a.text]
  {
    assert (args + [a])[..|args + [a]| - 1] == args;
  }

  lemma CommandLineOfFour(args: seq<Arg>)
    requires |args| == 4
    ensures CommandLine(args) == Written(args[0]) + " " + Written(args[1]) + " " + Written(args[2])
                                 + " " + Written(args[3])
    ensures Texts(args) == [args[0].text, args[1].text, args[2].text, args[3].text]
  {
    var base := [args[0]];
    assert Texts(base) == Texts([]) + [args[0].text];
    CommandSnoc(base, args[1]);
    CommandSnoc(base + [args[1]], args[2]);
    CommandSnoc(base + [args[1]] + [args[2]], args[3]);
    assert args == base + [args[1]] + [args[2]] + [args[3]];
  }

  function ServiceArgs(path: string, service: string): seq<Arg> {
    [Bare("sudo"), Quoted(path), Bare("lxd"), Bare(service)]
  }

  predicate Letter(c: char) { 'a' <= c <= 'z' || c == '-' }

  predicate Ordinary(s: string) {
    s != "" && forall i | 0 <= i < |s| :: Letter(s[i]) || s[i] == '='
  }

  lemma LetterIsSettled(c: char)
    requires Letter(c) || c == '='
    ensures c !in "'\\ \t" && Settled(c, c != '=')
  {}

  lemma OrdinaryIsWritable(s: string, first: bool)
    requires Ordinary(s) && (first ==> '=' !in s)
    ensures Writable(Bare(s), first)
  {
    forall c <- s ensures c !in "'\\ \t" && Settled(c, first) { LetterIsSettled(c); }
  }

  lemma ServiceSplits(path: string, service: string, more: seq<string>)
    requires Ordinary(service) && |more| <= 1 && (more != [] ==> Ordinary(more[0]))
    ensures var args := ServiceArgs(path, service);
            && (more == [] ==> SplitWords(CommandLine(args)) == Some(["sudo", path, "lxd", service]))
            && (more != [] ==> SplitWords(CommandLine(args) + " " + more[0])
                               == Some(["sudo", path, "lxd", service, more[0]]))
  {
    var args := ServiceArgs(path, service);
    CommandLineOfFour(args);
    FixedWords();
    OrdinaryIsWritable("sudo", true);
    OrdinaryIsWritable("lxd", false);
    OrdinaryIsWritable(service, false);
    if more == [] {
      CommandSplits(args);
    } else {
      OrdinaryIsWritable(more[0], false);
      CommandSnoc(args, Bare(more[0]));
      assert AllWritable(args + [Bare(more[0])]);
      CommandSplits(args + [Bare(more[0])]);
      assert Texts(args) + [more[0]] == ["sudo", path, "lxd", service, more[0]];
    }
  }

  lemma FixedWords()
    ensures Ordinary("sudo") && Ordinary("lxd") && '=' !in "sudo" && '=' !in "lxd"
  {}

  lemma ServiceOrdinary()
    ensures Ordinary("--service=install")
    ensures Ordinary("--service=uninstall")
    ensures Ordinary("--purge")
  {}

  lemma ServiceLine(path: string, service: string)
    ensures CommandLine(ServiceArgs(path, service)) == "sudo " + ShellQuote(path) + (" lxd " + service)
  {
    CommandLineOfFour(ServiceArgs(path, service));
    Glue(ShellQuote(path), service);
  }

  lemma Glue(q: string, service: string)
    ensures "sudo" + " " + q + " " + "lxd" + " " + service == "sudo " + q + (" lxd " + service)
  {}

  lemma Tails()
    ensures " lxd " + "--service=install" == " lxd --service=install"
    ensures " lxd " + "--service=uninstall" == " lxd --service=uninstall"
    ensures " " + "--purge" == " --purge"
  {}

  /** Whatever the path of the core, the commands offered to the operator split into these words. */
  lemma InstallWords(path: string)
    ensures SplitWords(InstallCommand(path)) == Some(["sudo", path, "lxd", "--service=install"])
  {
    ServiceLine(path, "--service=install");
    Tails();
    ServiceOrdinary();
    ServiceSplits(path, "--service=install", []);
  }

  lemma UninstallWords(path: string, purge: bool)
    ensures SplitWords(UninstallCommand(path, purge)) == Some(UninstallArgs(path, purge))
  {
    ServiceLine(path, "--service=uninstall");
    Tails();
    ServiceOrdinary();
    ServiceSplits(path, "--service=uninstall", if purge then ["--purge"] else []);
    Regroup(CommandLine(ServiceArgs(path, "--service=uninstall")));
  }

  lemma Regroup(line: string)
    ensures line + " " + "--purge" == line + " --purge"
  {}

  function UninstallArgs(path: string, purge: bool): seq<string> {
    if purge then ["sudo", path, "lxd", "--service=uninstall", "--purge"]
    else ["sudo", path, "lxd", "--service=uninstall"]
  }

  // ------------------------------------------------------------- AppleScript

  function AppleEscape(command: string): string {
    ReplaceAll(ReplaceAll(command, '\\', "\\\\"), '"', "\\\"")
  }

  /** Reads a string literal after its opening quote: its text and what follows the closing quote. */
  function ReadLiteral(input: string): Option<(string, string)> {
    if input == "" then None
    else if input[0] == '"' then Some(("", input[1..]))
    else
      var taken := if input[0] == '\\' then 2 else 1;
      if |input| < taken then None
      else
        var c := if taken == 1 then Some(input[0]) else Unescaped(input[1]);
        var rest := ReadLiteral(input[taken..]);
        if c.None? || rest.None? then None else Some(([c.value] + rest.value.0, rest.value.1))
  }

  function Unescaped(c: char): Option<char> {
    if c == '\\' || c == '"' then Some(c)
    else if c == 'n' then Some('\n')
    else if c == 't' then Some('\t')
    else if c == 'r' then Some('\r')
    else None
  }

  lemma UnescapedIs(c: char)
    ensures Unescaped('n') == Some('\n') && Unescaped('t') == Some('\t') && Unescaped('r') == Some('\r')
    ensures c !in "ntr" ==> Unescaped(c) == if c in "\\\"" then Some(c) else None
  {}

  function EscapeOne(c: char): string {
    if c == '\\' then "\\\\" else if c == '"' then "\\\"" else [c]
  }

  lemma {:induction false} ReplaceConcat(a: string, b: string, c: char, with: string)
    ensures ReplaceAll(a + b, c, with) == ReplaceAll(a, c, with) + ReplaceAll(b, c, with)
  {
    if a == "" {
      assert a + b == b;
    } else {
      assert (a + b)[0] == a[0] && (a + b)[1..] == a[1..] + b;
      ReplaceConcat(a[1..], b, c, with);
    }
  }

  lemma EscapeHead(s: string)
    requires s != ""
    ensures AppleEscape(s) == EscapeOne(s[0]) + AppleEscape(s[1..])
  {
    var head := if s[0] == '\\' then "\\\\" else [s[0]];
    ReplaceConcat(head, ReplaceAll(s[1..], '\\', "\\\\"), '"', "\\\"");
    assert head[1..] == (if s[0] == '\\' then "\\" else "");
  }

  /** The two passes, backslashes first, are inverted by reading the literal, whatever follows it. */
  lemma {:induction false} LiteralReads(s: string, rest: string)
    ensures ReadLiteral(AppleEscape(s) + "\"" + rest) == Some((s, rest))
  {
    var input := AppleEscape(s) + "\"" + rest;
    if s == "" {
      assert input[0] == '"' && input[1..] == rest;
    } else {
      EscapeHead(s);
      var next := AppleEscape(s[1..]) + "\"" + rest;
      assert input == EscapeOne(s[0]) + next;
      LiteralReads(s[1..], rest);
      assert input[|EscapeOne(s[0])|..] == next;
      assert s == [s[0]] + s[1..];
    }
  }

  /** Quotes first, backslashes second would not be inverted. */
  lemma OrderOfPassesMatters()
    ensures ReadLiteral(ReplaceAll(ReplaceAll("\"", '"', "\\\""), '\\', "\\\\") + "\"") == Some(("\\", "\""))
  {
    var q := ReplaceAll("\"", '"', "\\\"");
    assert "\""[1..] == "" && q == "\\\"" + "" && q == "\\" + "\"";
    ReplaceConcat("\\", "\"", '\\', "\\\\");
    assert "\\"[1..] == "";
    assert ReplaceAll("\\", '\\', "\\\\") == "\\\\" + "";
    assert ReplaceAll("\"", '\\', "\\\\") == "\"" + "";
    var input := ReplaceAll(q, '\\', "\\\\") + "\"";
    assert input == "\\\\\"\"";
    assert input[2..] == "\"\"" && "\"\""[1..] == "\"";
    assert ReadLiteral("\"\"") == Some(("", "\""));
    assert ['\\'] + "" == "\\";
  }

  const SCRIPT_HEAD := "tell application \"Terminal\"\n\tdo script \""
  const SCRIPT_TAIL := "\n\tactivate\nend tell"

  function TerminalScript(command: string): string {
    SCRIPT_HEAD + AppleEscape(command) + "\"" + SCRIPT_TAIL
  }

  /** From the path of the core to the words the shell in Terminal.app sees, over both quotings. */
  lemma UninstallEndToEnd(path: string, purge: bool)
    ensures var read := ReadLiteral(TerminalScript(UninstallCommand(path, purge))[|SCRIPT_HEAD|..]);
            && read.Some? && read.value.1 == SCRIPT_TAIL
            && SplitWords(read.value.0) == Some(UninstallArgs(path, purge))
  {
    var command := UninstallCommand(path, purge);
    LiteralReads(command, SCRIPT_TAIL);
    assert TerminalScript(command)[|SCRIPT_HEAD|..] == AppleEscape(command) + "\"" + SCRIPT_TAIL;
    UninstallWords(path, purge);
  }

  // --------------------------------------------------------------------- CSV

  datatype Csv = Csv(parts: seq<string>, current: string, inQuotes: bool)

  function CsvStep(st: Csv, c: char): Csv {
    if c == '"' then st.(inQuotes := !st.inQuotes)
    else if c == ',' && !st.inQuotes then Csv(st.parts + [st.current], "", false)
    else st.(current := st.current + [c])
  }

  function CsvRun(st: Csv, line: string): Csv
    decreases |line|
  {
    if line == "" then st else CsvRun(CsvStep(st, line[0]), line[1..])
  }

  function CsvParts(st: Csv): seq<string> {
    if st.current != "" || st.parts != [] then st.parts + [st.current] else st.parts
  }

  function FieldsOf(line: string): seq<string> {
    CsvParts(CsvRun(Csv([], "", false), line))
  }

  method ParseCSVLine(line: string) returns (parts: seq<string>)
    ensures parts == FieldsOf(line)
  {
    parts := [];
    var current, inQuotes := "", false;
    for i := 0 to |line|
      invariant CsvRun(Csv(parts, current, inQuotes), line[i..]) == CsvRun(Csv([], "", false), line)
    {
      var r := line[i];
      assert line[i..][1..] == line[i + 1..];
      match r {
        case '"' => inQuotes := !inQuotes;
        case ',' =>
          if !inQuotes {
            parts := parts + [current];
            current := "";
          } else {
            current := current + [r];
          }
        case _ => current := current + [r];
      }
    }
    if |current| > 0 || |parts| > 0 { parts := parts + [current]; }
  }

  /** Fields printed quoted and separated by commas. */
  function Print(fields: seq<string>): string {
    if fields == [] then ""
    else if |fields| == 1 then "\"" + fields[0] + "\""
    else "\"" + fields[0] + "\"," + Print(fields[1..])
  }

  predicate QuoteFree(s: string) { '"' !in s }

  lemma {:induction false} CsvRunConcat(st: Csv, a: string, b: string)
    ensures CsvRun(st, a + b) == CsvRun(CsvRun(st, a), b)
    decreases |a|
  {
    if a == "" {
      assert a + b == b;
    } else {
      assert (a + b)[0] == a[0] && (a + b)[1..] == a[1..] + b;
      CsvRunConcat(CsvStep(st, a[0]), a[1..], b);
    }
  }

  lemma {:induction false} InQuotesReads(parts: seq<string>, t: string, s: string)
    requires QuoteFree(s)
    ensures CsvRun(Csv(parts, t, true), s) == Csv(parts, t + s, true)
    decreases |s|
  {
    if s == "" {
      assert t + s == t;
    } else {
      InQuotesReads(parts, t + [s[0]], s[1..]);
      assert t + [s[0]] + s[1..] == t + s;
    }
  }

  lemma FieldReads(parts: seq<string>, f: string)
    requires QuoteFree(f)
    ensures CsvRun(Csv(parts, "", false), "\"" + f + "\"") == Csv(parts, f, false)
  {
    var st := Csv(parts, "", false);
    CsvRunConcat(st, "\"" + f, "\"");
    CsvRunConcat(st, "\"", f);
    InQuotesReads(parts, "", f);
    assert "" + f == f;
  }

  lemma {:induction false} PrintReads(parts: seq<string>, fields: seq<string>)
    requires fields != [] && forall f <- fields :: QuoteFree(f)
    ensures CsvRun(Csv(parts, "", false), Print(fields))
            == Csv(parts + fields[..|fields| - 1], fields[|fields| - 1], false)
    decreases |fields|
  {
    if |fields| == 1 {
      FieldReads(parts, fields[0]);
      assert parts + fields[..0] == parts;
    } else {
      var rest := fields[1..];
      ConsReads(parts, fields);
      PrintReads(parts + [fields[0]], rest);
      Shifted(parts, fields);
    }
  }

  lemma Shifted(parts: seq<string>, fields: seq<string>)
    requires |fields| > 1
    ensures parts + [fields[0]] + fields[1..][..|fields| - 2] == parts + fields[..|fields| - 1]
    ensures fields[1..][|fields| - 2] == fields[|fields| - 1]
  {}

  lemma ConsReads(parts: seq<string>, fields: seq<string>)
    requires |fields| > 1 && QuoteFree(fields[0])
    ensures CsvRun(Csv(parts, "", false), Print(fields))
            == CsvRun(Csv(parts + [fields[0]], "", false), Print(fields[1..]))
  {
    var head, tail := "\"" + fields[0] + "\"", Print(fields[1..]);
    assert Print(fields) == head + ("," + tail);
    CsvRunConcat(Csv(parts, "", false), head, "," + tail);
    FieldReads(parts, fields[0]);
    assert ("," + tail)[1..] == tail;
  }

  lemma {:induction false} NoQuoteComesOut(st: Csv, line: string)
    requires QuoteFree(st.current) && forall p <- st.parts :: QuoteFree(p)
    ensures QuoteFree(CsvRun(st, line).current) && forall p <- CsvRun(st, line).parts :: QuoteFree(p)
    decreases |line|
  {
    if line != "" { NoQuoteComesOut(CsvStep(st, line[0]), line[1..]); }
  }

  /** Printed fields come back exactly when no field holds a quote and the list is not one empty field. */
  lemma CsvRoundTripIff(fields: seq<string>)
    ensures FieldsOf(Print(fields)) == fields
            <==> (forall f <- fields :: QuoteFree(f)) && fields != [""]
  {
    NoQuoteComesOut(Csv([], "", false), Print(fields));
    if fields != [] && forall f <- fields :: QuoteFree(f) {
      PrintReads([], fields);
      var st := CsvRun(Csv([], "", false), Print(fields));
      assert st.parts == fields[..|fields| - 1];
      assert fields == fields[..|fields| - 1] + [fields[|fields| - 1]];
    }
  }

  function Joined(parts: seq<string>): string {
    if parts == [] then ""
    else if |parts| == 1 then parts[0]
    else Joined(parts[..|parts| - 1]) + "," + parts[|parts| - 1]
  }

  lemma JoinedSnoc(parts: seq<string>, p: string)
    requires parts != []
    ensures Joined(parts + [p]) == Joined(parts) + "," + p
  {
    assert (parts + [p])[..|parts + [p]| - 1] == parts;
  }

  lemma {:induction false} RunKeeps(st: Csv, line: string)
    ensures Joined(CsvRun(st, line).parts + [CsvRun(st, line).current])
            == Joined(st.parts + [st.current]) + ReplaceAll(line, '"', "")
    decreases |line|
  {
    if line != "" {
      var next := CsvStep(st, line[0]);
      RunKeeps(next, line[1..]);
      StepKeeps(st, line[0]);
    }
  }

  lemma StepKeeps(st: Csv, c: char)
    ensures var next := CsvStep(st, c);
            Joined(next.parts + [next.current]) == Joined(st.parts + [st.current]) + (if c == '"' then "" else [c])
  {
    var next := CsvStep(st, c);
    if c == ',' && !st.inQuotes {
      JoinedSnoc(st.parts + [st.current], "");
    } else if c != '"' && st.parts != [] {
      JoinedSnoc(st.parts, st.current);
      JoinedSnoc(st.parts, next.current);
    }
  }

  /** On every line the fields, joined by commas, are the line without its quotes: nothing else is lost. */
  lemma FieldsKeepText(line: string)
    ensures Joined(FieldsOf(line)) == ReplaceAll(line, '"', "")
  {
    RunKeeps(Csv([], "", false), line);
  }
}
