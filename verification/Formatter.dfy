/** format_value of scripts/format_wizard_template.py: the pretty-printer of the wizard template, and
    exactly when it changes nothing but white space. */
module Formatter {
  import opened Basics

  predicate NumberChar(c: char) { '0' <= c <= '9' || c in "+-.eE" }

  /** What json.dumps prints for a number. */
  type Numeral = s: string | s != "" && forall c <- s :: NumberChar(c) witness "0"

  datatype Field = Field(key: string, value: Json)
  /** Objects keep their insertion order; keys do not repeat. */
  datatype Json = Null | Bool(b: bool) | Num(text: Numeral) | Str(s: string)
                | Arr(items: seq<Json>) | Obj(fields: seq<Field>)

  // --------------------------------------------------------- json.dumps

  function Hex(n: nat): (c: char)
    requires n < 16
    ensures c != '"' && c != '\\' && c != ':'
  {
    "0123456789abcdef"[n]
  }

  /** A character inside a string literal, other characters than these being written as they are. */
  function EscapeChar(c: char): string {
    if c == '"' then "\\\"" else if c == '\\' then "\\\\"
    else if c == '\n' then "\\n" else if c == '\r' then "\\r" else if c == '\t' then "\\t"
    else if c as int == 8 then "\\b" else if c as int == 12 then "\\f"
    else if c as int < 32 then "\\u00" + [Hex(c as int / 16), Hex(c as int % 16)]
    else [c]
  }

  function Escape(s: string): string {
    if s == "" then "" else EscapeChar(s[0]) + Escape(s[1..])
  }

  function Dumps(s: string): string { "\"" + Escape(s) + "\"" }

  function Compact(v: Json): string {
    match v
    case Null => "null"
    case Bool(b) => if b then "true" else "false"
    case Num(text) => text
    case Str(s) => Dumps(s)
    case Arr(items) => "[" + CompactItems(items) + "]"
    case Obj(fields) => "{" + CompactFields(fields) + "}"
  }

  function CompactItems(items: seq<Json>): string {
    if items == [] then ""
    else Compact(items[0]) + (if |items| > 1 then ", " else "") + CompactItems(items[1..])
  }

  function CompactFields(fields: seq<Field>): string {
    if fields == [] then ""
    else Dumps(fields[0].key) + ": " + Compact(fields[0].value) + (if |fields| > 1 then ", " else "")
         + CompactFields(fields[1..])
  }

  /** The short escapes, the numeric ones, and everything else as it is. */
  lemma EscapeCharIs(c: char)
    ensures EscapeChar('"') == "\\\"" && EscapeChar('\\') == "\\\\"
    ensures EscapeChar('\n') == "\\n" && EscapeChar('\r') == "\\r" && EscapeChar('\t') == "\\t"
    ensures EscapeChar(8 as char) == "\\b" && EscapeChar(12 as char) == "\\f"
    ensures c as int < 32 && c as int !in {8, 9, 10, 12, 13} ==>
              EscapeChar(c) == "\\u00" + [Hex(c as int / 16), Hex(c as int % 16)]
    ensures c as int >= 32 && c !in "\"\\" ==> EscapeChar(c) == [c]
  {}

  // ------------------------------------------------------- format_value

  predicate StartsWith(s: string, c: char) { s != "" && s[0] == c }

  predicate HasExpr(v: Json) {
    match v
    case Str(s) => StartsWith(s, '@')
    case Obj(fields) => (exists f <- fields :: StartsWith(f.key, '#')) || (exists f <- fields :: HasExpr(f.value))
    case Arr(items) => exists x <- items :: HasExpr(x)
    case _ => false
  }

  function Pad(level: nat): string {
    if level == 0 then "" else "  " + Pad(level - 1)
  }

  function Comma(trailing: bool): string { if trailing then "," else "" }

  /** Written as it is, and not at all when empty. */
  function Prefix(key: Option<string>): string {
    if key.Some? && key.value != "" then "\"" + key.value + "\": " else ""
  }

  function Line(v: Json, level: nat, trailing: bool, key: Option<string>): string {
    Pad(level) + Prefix(key) + Compact(v) + Comma(trailing)
  }

  predicate Container(v: Json) { v.Arr? || v.Obj? }

  predicate Short(v: Json) { !HasExpr(v) && |Compact(v)| <= 100 }

  predicate LoneIf(v: Json) { v.Obj? && |v.fields| == 1 && v.fields[0].key == "#if" }

  predicate ValueIsContainer(fields: seq<Field>) {
    exists f <- fields :: f.key == "value" && Container(f.value)
  }

  /** `.get` on something that is not an object raises. */
  predicate Raises(v: Json) { !Short(v) && LoneIf(v) && !v.fields[0].value.Obj? }

  predicate OneLine(v: Json) {
    !Container(v) || Short(v)
    || (LoneIf(v) && v.fields[0].value.Obj? && !ValueIsContainer(v.fields[0].value.fields))
  }

  function Opening(v: Json): string { if v.Obj? then "{" else "[" }

  function Closing(v: Json): string { if v.Obj? then "}" else "]" }

  function Inner(v: Json): string
    requires Container(v)
  {
    if v.Obj? then CompactFields(v.fields) else CompactItems(v.items)
  }

  /** The lines of a value; None where the script raises. */
  function Format(v: Json, level: nat, trailing: bool, key: Option<string>): Option<seq<string>>
    decreases v, 1
  {
    if Raises(v) then None
    else if OneLine(v) then Some([Line(v, level, trailing, key)])
    else
      var inner := FormatInner(v, level + 1);
      if inner.None? then None
      else
        Some([Pad(level) + Prefix(key) + Opening(v)] + inner.value + [Pad(level) + Closing(v) + Comma(trailing)])
  }

  function FormatInner(v: Json, level: nat): Option<seq<string>>
    requires Container(v)
    decreases v, 0
  {
    if v.Obj? then FormatFields(v.fields, level) else FormatItems(v.items, level)
  }

  function FormatFields(fields: seq<Field>, level: nat): Option<seq<string>>
    decreases fields
  {
    if fields == [] then Some([])
    else
      var head := Format(fields[0].value, level, |fields| > 1, Some(fields[0].key));
      var tail := FormatFields(fields[1..], level);
      if head.None? || tail.None? then None else Some(head.value + tail.value)
  }

  function FormatItems(items: seq<Json>, level: nat): Option<seq<string>>
    decreases items
  {
    if items == [] then Some([])
    else
      var head := Format(items[0], level, |items| > 1, None);
      var tail := FormatItems(items[1..], level);
      if head.None? || tail.None? then None else Some(head.value + tail.value)
  }

  method FormatValue(v: Json, level: nat, trailing: bool, key: Option<string>) returns (r: Option<seq<string>>)
    ensures r == Format(v, level, trailing, key)
    decreases v
  {
    var prefix := Prefix(key);
    if !HasExpr(v) && |Compact(v)| <= 100 {
      return Some([Pad(level) + prefix + Compact(v) + Comma(trailing)]);
    }
    if v.Obj? {
      if |v.fields| == 1 && v.fields[0].key == "#if" {
        if !v.fields[0].value.Obj? { return None; }
        if !ValueIsContainer(v.fields[0].value.fields) {
          return Some([Pad(level) + prefix + Compact(v) + Comma(trailing)]);
        }
      }
      var inner := FieldLines(v.fields, level + 1);
      if inner.None? { return None; }
      return Some([Pad(level) + prefix + "{"] + inner.value + [Pad(level) + "}" + Comma(trailing)]);
    }
    if v.Arr? {
      var inner := ItemLines(v.items, level + 1);
      if inner.None? { return None; }
      return Some([Pad(level) + prefix + "["] + inner.value + [Pad(level) + "]" + Comma(trailing)]);
    }
    return Some([Pad(level) + prefix + Compact(v) + Comma(trailing)]);
  }

  method FieldLines(fields: seq<Field>, level: nat) returns (r: Option<seq<string>>)
    ensures r == FormatFields(fields, level)
    decreases fields
  {
    var lines := [];
    assert fields[0..] == fields;
    PrependNothing(FormatFields(fields, level));
    for i := 0 to |fields|
      invariant FormatFields(fields, level) == Prepend(lines, FormatFields(fields[i..], level))
    {
      assert fields[i..][1..] == fields[i + 1..];
      var inner := FormatValue(fields[i].value, level, i < |fields| - 1, Some(fields[i].key));
      if inner.None? { return None; }
      ghost var rest := FormatFields(fields[i + 1..], level);
      if rest.Some? { AppendAssociates(lines, inner.value, rest.value); }
      lines := lines + inner.value;
    }
    assert lines + [] == lines;
    return Some(lines);
  }

  method ItemLines(items: seq<Json>, level: nat) returns (r: Option<seq<string>>)
    ensures r == FormatItems(items, level)
    decreases items
  {
    var lines := [];
    assert items[0..] == items;
    PrependNothing(FormatItems(items, level));
    for i := 0 to |items|
      invariant FormatItems(items, level) == Prepend(lines, FormatItems(items[i..], level))
    {
      assert items[i..][1..] == items[i + 1..];
      var inner := FormatValue(items[i], level, i < |items| - 1, None);
      if inner.None? { return None; }
      ghost var rest := FormatItems(items[i + 1..], level);
      if rest.Some? { AppendAssociates(lines, inner.value, rest.value); }
      lines := lines + inner.value;
    }
    assert lines + [] == lines;
    return Some(lines);
  }

  lemma PrependNothing(r: Option<seq<string>>)
    ensures Prepend([], r) == r
  {
    assert r.Some? ==> [] + r.value == r.value;
  }

  lemma AppendAssociates(a: seq<string>, b: seq<string>, c: seq<string>)
    ensures a + b + c == a + (b + c)
  {}

  function Prepend(lines: seq<string>, rest: Option<seq<string>>): Option<seq<string>> {
    if rest.None? then None else Some(lines + rest.value)
  }

  // ------------------------------------------------- text without white space

  /** Outside a string literal, inside one, or after a backslash inside one. */
  datatype Mode = Out | In | Esc

  function After(m: Mode, c: char): Mode {
    match m
    case Out => if c == '"' then In else Out
    case In => if c == '"' then Out else if c == '\\' then Esc else In
    case Esc => In
  }

  function End(m: Mode, s: string): Mode
    decreases |s|
  {
    if s == "" then m else End(After(m, s[0]), s[1..])
  }

  /** The text without the white space outside its string literals. */
  function Squeeze(m: Mode, s: string): string
    decreases |s|
  {
    if s == "" then ""
    else (if m == Out && (s[0] == ' ' || s[0] == '\n') then "" else [s[0]]) + Squeeze(After(m, s[0]), s[1..])
  }

  lemma {:induction false} ScanConcat(m: Mode, a: string, b: string)
    ensures End(m, a + b) == End(End(m, a), b)
    ensures Squeeze(m, a + b) == Squeeze(m, a) + Squeeze(End(m, a), b)
    decreases |a|
  {
    if a == "" {
      assert a + b == b;
    } else {
      assert (a + b)[0] == a[0] && (a + b)[1..] == a[1..] + b;
      ScanConcat(After(m, a[0]), a[1..], b);
    }
  }

  predicate Closed(s: string) { End(Out, s) == Out }

  function Tokens(s: string): string { Squeeze(Out, s) }

  lemma TokensConcat(a: string, b: string)
    requires Closed(a)
    ensures Closed(a + b) == Closed(b)
    ensures Tokens(a + b) == Tokens(a) + Tokens(b)
  {
    ScanConcat(Out, a, b);
  }

  lemma EscapeCharStays(c: char)
    ensures End(In, EscapeChar(c)) == In && Squeeze(In, EscapeChar(c)) == EscapeChar(c)
  {
    var e := EscapeChar(c);
    if |e| == 1 {
      assert e[1..] == "";
    } else if |e| == 2 {
      assert e == ['\\', e[1]];
      assert e[1..] == [e[1]] && e[1..][1..] == "";
      assert End(Esc, e[1..]) == In && Squeeze(Esc, e[1..]) == [e[1]] + "";
    } else {
      var a, b := Hex(c as int / 16), Hex(c as int % 16);
      assert e == "\\u00" + [a, b];
      ScanConcat(In, "\\u00", [a, b]);
      assert "\\u00"[1..] == "u00" && "u00"[1..] == "00" && "00"[1..] == "0" && "0"[1..] == "";
      assert [a, b][1..] == [b] && [b][1..] == "";
      assert End(In, "\\u00") == In && Squeeze(In, "\\u00") == "\\u00";
    }
  }

  lemma {:induction false} EscapeStays(s: string)
    ensures End(In, Escape(s)) == In && Squeeze(In, Escape(s)) == Escape(s)
  {
    if s != "" {
      EscapeCharStays(s[0]);
      EscapeStays(s[1..]);
      ScanConcat(In, EscapeChar(s[0]), Escape(s[1..]));
    }
  }

  lemma DumpsTokens(s: string)
    ensures Closed(Dumps(s)) && Tokens(Dumps(s)) == Dumps(s)
  {
    assert Dumps(s) == "\"" + (Escape(s) + "\"");
    ScanConcat(Out, "\"", Escape(s) + "\"");
    ScanConcat(In, Escape(s), "\"");
    EscapeStays(s);
  }

  // ------------------------------------------------------------ the exact condition

  predicate PlainChar(c: char) { c != '"' && c != '\\' && c as int >= 32 }

  predicate PlainKey(k: string) { k != "" && forall c <- k :: PlainChar(c) }

  /** Every key that gets a line of its own is non-empty and needs no escape. */
  predicate Plain(v: Json) {
    OneLine(v) || (v.Obj? && forall f <- v.fields :: PlainKey(f.key) && Plain(f.value))
    || (v.Arr? && forall x <- v.items :: Plain(x))
  }

  function KeyTokens(key: Option<string>): string {
    if key.Some? then Dumps(key.value) + ":" else ""
  }

  function Expected(v: Json, trailing: bool, key: Option<string>): string {
    KeyTokens(key) + Tokens(Compact(v)) + Comma(trailing)
  }

  function Join(lines: seq<string>): string {
    if lines == [] then "" else if |lines| == 1 then lines[0] else lines[0] + "\n" + Join(lines[1..])
  }

  function LineTokens(lines: seq<string>): string {
    if lines == [] then "" else Tokens(lines[0]) + LineTokens(lines[1..])
  }

  predicate AllClosed(lines: seq<string>) { forall l <- lines :: Closed(l) }

  lemma {:induction false} JoinTokens(lines: seq<string>)
    requires AllClosed(lines)
    ensures Tokens(Join(lines)) == LineTokens(lines)
  {
    if |lines| > 1 {
      JoinTokens(lines[1..]);
      TokensConcat(lines[0], "\n");
      assert Closed("\n") && Tokens("\n") == "";
      TokensConcat(lines[0] + "\n", Join(lines[1..]));
      assert Tokens(lines[0]) + "" == Tokens(lines[0]);
    } else if lines != [] {
      assert lines[1..] == [] && Tokens(lines[0]) + "" == Tokens(lines[0]);
    }
  }

  lemma {:induction false} LineTokensConcat(a: seq<string>, b: seq<string>)
    ensures LineTokens(a + b) == LineTokens(a) + LineTokens(b)
  {
    if a == [] {
      assert a + b == b;
    } else {
      assert (a + b)[0] == a[0] && (a + b)[1..] == a[1..] + b;
      LineTokensConcat(a[1..], b);
    }
  }

  lemma {:induction false} PlainEscape(k: string)
    requires forall c <- k :: PlainChar(c)
    ensures Escape(k) == k
  {
    if k != "" {
      assert k[0] in k;
      PlainEscape(k[1..]);
      assert [k[0]] + k[1..] == k;
    }
  }

  lemma {:induction false} PadTokens(level: nat)
    ensures Closed(Pad(level)) && Tokens(Pad(level)) == ""
  {
    if level > 0 {
      PadTokens(level - 1);
      TokensConcat("  ", Pad(level - 1));
      assert "  "[1..] == " " && " "[1..] == "";
    }
  }

  predicate KeyPlain(key: Option<string>) { key.Some? ==> PlainKey(key.value) }

  lemma PrefixTokens(key: Option<string>)
    requires KeyPlain(key)
    ensures Closed(Prefix(key)) && Tokens(Prefix(key)) == KeyTokens(key)
  {
    if key.Some? {
      PlainEscape(key.value);
      DumpsTokens(key.value);
      TokensConcat(Dumps(key.value), ": ");
      assert Prefix(key) == Dumps(key.value) + ": ";
      assert ": "[1..] == " " && " "[1..] == "" && Tokens(": ") == ":";
    }
  }

  /** White space, key and text on one line. */
  lemma LineIs(level: nat, key: Option<string>, text: string, trailing: bool)
    requires KeyPlain(key) && Closed(text)
    ensures var line := Pad(level) + Prefix(key) + text + Comma(trailing);
            Closed(line) && Tokens(line) == KeyTokens(key) + Tokens(text) + Comma(trailing)
  {
    PadTokens(level);
    PrefixTokens(key);
    TokensConcat(Pad(level), Prefix(key));
    TokensConcat(Pad(level) + Prefix(key), text);
    TokensConcat(Pad(level) + Prefix(key) + text, Comma(trailing));
    assert Tokens(Comma(trailing)) == Comma(trailing) && Closed(Comma(trailing)) by { assert ","[1..] == ""; }
    assert "" + KeyTokens(key) == KeyTokens(key);
  }

  lemma {:induction false} NumeralTokens(s: string)
    requires forall c <- s :: c !in "\"\\: \n"
    ensures Closed(s) && Tokens(s) == s
    decreases |s|
  {
    if s != "" {
      assert s[0] in s;
      NumeralTokens(s[1..]);
    }
  }

  lemma NumberTokens(text: Numeral)
    ensures Closed(text) && Tokens(text) == text
  {
    assert forall c <- text :: NumberChar(c);
    NumeralTokens(text);
  }

  lemma {:induction false} CompactClosed(v: Json)
    ensures Closed(Compact(v))
    decreases v
  {
    match v {
      case Null => NumeralTokens("null");
      case Bool(b) => NumeralTokens("true"); NumeralTokens("false");
      case Num(text) =>
        NumberTokens(text);
      case Str(s) => DumpsTokens(s);
      case Arr(items) =>
        ItemsClosed(items);
        BracketsClosed("[", CompactItems(items), "]");
      case Obj(fields) =>
        FieldsClosed(fields);
        BracketsClosed("{", CompactFields(fields), "}");
    }
  }

  lemma BracketsClosed(open: string, inner: string, close: string)
    requires Closed(inner) && (open, close) in {("[", "]"), ("{", "}")}
    ensures Closed(open + inner + close)
    ensures Tokens(open + inner + close) == open + Tokens(inner) + close
  {
    assert Closed(open) && Tokens(open) == open && Closed(close) && Tokens(close) == close by {
      assert open[1..] == "" && close[1..] == "";
    }
    TokensConcat(open, inner);
    TokensConcat(open + inner, close);
  }

  function Sep(more: bool): string { if more then ", " else "" }

  lemma SepTokens(more: bool)
    ensures Closed(Sep(more)) && Tokens(Sep(more)) == Comma(more)
  {
    assert ", "[1..] == " " && " "[1..] == "";
  }

  lemma {:induction false} ItemsClosed(items: seq<Json>)
    ensures Closed(CompactItems(items))
    ensures items != [] ==>
              Tokens(CompactItems(items))
              == Tokens(Compact(items[0])) + Comma(|items| > 1) + Tokens(CompactItems(items[1..]))
    decreases items
  {
    if items != [] {
      var head := Compact(items[0]);
      CompactClosed(items[0]);
      ItemsClosed(items[1..]);
      SepTokens(|items| > 1);
      TokensConcat(head, Sep(|items| > 1));
      TokensConcat(head + Sep(|items| > 1), CompactItems(items[1..]));
    }
  }

  lemma {:induction false} FieldsClosed(fields: seq<Field>)
    ensures Closed(CompactFields(fields))
    ensures fields != [] ==>
              Tokens(CompactFields(fields))
              == Expected(fields[0].value, |fields| > 1, Some(fields[0].key)) + Tokens(CompactFields(fields[1..]))
    decreases fields
  {
    if fields != [] {
      var key, head, sep := Dumps(fields[0].key), Compact(fields[0].value), Sep(|fields| > 1);
      CompactClosed(fields[0].value);
      FieldsClosed(fields[1..]);
      SepTokens(|fields| > 1);
      DumpsTokens(fields[0].key);
      TokensConcat(key, ": ");
      assert Closed(": ") && Tokens(": ") == ":" by { assert ": "[1..] == " " && " "[1..] == ""; }
      TokensConcat(key + ": ", head);
      TokensConcat(key + ": " + head, sep);
      TokensConcat(key + ": " + head + sep, CompactFields(fields[1..]));
    }
  }

  lemma {:induction false} PlainKeeps(v: Json, level: nat, trailing: bool, key: Option<string>)
    requires Format(v, level, trailing, key).Some? && KeyPlain(key) && Plain(v)
    ensures var lines := Format(v, level, trailing, key).value;
            AllClosed(lines) && LineTokens(lines) == Expected(v, trailing, key)
    decreases v, 1
  {
    var lines := Format(v, level, trailing, key).value;
    if OneLine(v) {
      CompactClosed(v);
      LineIs(level, key, Compact(v), trailing);
      assert lines == [Line(v, level, trailing, key)] && lines[1..] == [];
      assert LineTokens(lines) == Tokens(lines[0]) + "";
    } else {
      var inner := FormatInner(v, level + 1).value;
      PlainInner(v, level + 1);
      Wrapped(v, level, trailing, key, inner);
    }
  }

  lemma PlainInner(v: Json, level: nat)
    requires Container(v) && !OneLine(v) && Plain(v) && FormatInner(v, level).Some?
    ensures var lines := FormatInner(v, level).value;
            AllClosed(lines) && Tokens(Compact(v)) == Opening(v) + LineTokens(lines) + Closing(v)
    decreases v, 0
  {
    if v.Obj? {
      PlainFields(v.fields, level);
      FieldsClosed(v.fields);
    } else {
      PlainItems(v.items, level);
      ItemsClosed(v.items);
    }
    BracketsClosed(Opening(v), Inner(v), Closing(v));
  }

  lemma Wrapped(v: Json, level: nat, trailing: bool, key: Option<string>, inner: seq<string>)
    requires Container(v) && KeyPlain(key) && AllClosed(inner)
    requires Tokens(Compact(v)) == Opening(v) + LineTokens(inner) + Closing(v)
    ensures var first := Pad(level) + Prefix(key) + Opening(v);
            var last := Pad(level) + Closing(v) + Comma(trailing);
            && AllClosed([first] + inner + [last])
            && LineTokens([first] + inner + [last]) == Expected(v, trailing, key)
  {
    OpeningLine(v, level, key);
    ClosingLine(v, level, trailing);
    var first, last := Pad(level) + Prefix(key) + Opening(v), Pad(level) + Closing(v) + Comma(trailing);
    LineTokensConcat([first] + inner, [last]);
    LineTokensConcat([first], inner);
    LineTokensOne(first);
    LineTokensOne(last);
    Regroup(KeyTokens(key), Opening(v), LineTokens(inner), Closing(v), Comma(trailing));
  }

  lemma Regroup(a: string, b: string, c: string, d: string, e: string)
    ensures (a + b) + c + (d + e) == a + (b + c + d) + e
  {}

  lemma LineTokensOne(line: string)
    ensures LineTokens([line]) == Tokens(line)
  {
    assert [line][1..] == [] && Tokens(line) + "" == Tokens(line);
  }

  lemma Bracket(c: char)
    requires c != '"' && c != ' ' && c != '\n'
    ensures Closed([c]) && Tokens([c]) == [c]
  {
    assert [c][1..] == "";
    assert Tokens([c]) == [c] + Squeeze(Out, [c][1..]);
  }

  lemma OpeningLine(v: Json, level: nat, key: Option<string>)
    requires Container(v) && KeyPlain(key)
    ensures var first := Pad(level) + Prefix(key) + Opening(v);
            Closed(first) && Tokens(first) == KeyTokens(key) + Opening(v)
  {
    Bracket(Opening(v)[0]);
    assert Opening(v) == [Opening(v)[0]];
    LineIs(level, key, Opening(v), false);
    var first := Pad(level) + Prefix(key) + Opening(v);
    assert first + Comma(false) == first;
    assert KeyTokens(key) + Opening(v) + Comma(false) == KeyTokens(key) + Opening(v);
  }

  lemma ClosingLine(v: Json, level: nat, trailing: bool)
    requires Container(v)
    ensures var last := Pad(level) + Closing(v) + Comma(trailing);
            Closed(last) && Tokens(last) == Closing(v) + Comma(trailing)
  {
    Bracket(Closing(v)[0]);
    assert Closing(v) == [Closing(v)[0]];
    LineIs(level, None, Closing(v), trailing);
    assert Pad(level) + Prefix(None) == Pad(level);
    assert KeyTokens(None) + Closing(v) == Closing(v);
  }

  lemma {:induction false} PlainFields(fields: seq<Field>, level: nat)
    requires FormatFields(fields, level).Some? && forall f <- fields :: PlainKey(f.key) && Plain(f.value)
    ensures var lines := FormatFields(fields, level).value;
            AllClosed(lines) && LineTokens(lines) == Tokens(CompactFields(fields))
    decreases fields
  {
    if fields != [] {
      PlainKeeps(fields[0].value, level, |fields| > 1, Some(fields[0].key));
      PlainFields(fields[1..], level);
      FieldsClosed(fields);
      LineTokensConcat(Format(fields[0].value, level, |fields| > 1, Some(fields[0].key)).value,
                       FormatFields(fields[1..], level).value);
    }
  }

  lemma {:induction false} PlainItems(items: seq<Json>, level: nat)
    requires FormatItems(items, level).Some? && forall x <- items :: Plain(x)
    ensures var lines := FormatItems(items, level).value;
            AllClosed(lines) && LineTokens(lines) == Tokens(CompactItems(items))
    decreases items
  {
    if items != [] {
      PlainKeeps(items[0], level, |items| > 1, None);
      PlainItems(items[1..], level);
      ItemsClosed(items);
      LineTokensConcat(Format(items[0], level, |items| > 1, None).value, FormatItems(items[1..], level).value);
      var t := Tokens(Compact(items[0]));
      assert "" + t == t;
    }
  }

  // ------------------------------------------------------------------- layout

  /** v, or something inside it. */
  predicate Inside(v: Json, x: Json)
    decreases v
  {
    || v == x
    || (v.Obj? && exists f <- v.fields :: Inside(f.value, x))
    || (v.Arr? && exists y <- v.items :: Inside(y, x))
  }

  predicate Expression(x: Json) {
    || (x.Str? && x.s != "" && x.s[0] == '@')
    || (x.Obj? && exists f <- x.fields :: f.key != "" && f.key[0] == '#')
  }

  /** A value has an expression exactly when a string that begins with @ or an object with a key that begins
      with # is somewhere inside. */
  lemma {:induction false} HasExprIff(v: Json)
    ensures HasExpr(v) <==> exists x :: Inside(v, x) && Expression(x)
    decreases v
  {
    if v.Obj? {
      forall f <- v.fields ensures HasExpr(f.value) <==> exists x :: Inside(f.value, x) && Expression(x) {
        HasExprIff(f.value);
      }
      assert Expression(v) ==> Inside(v, v);
    } else if v.Arr? {
      forall y <- v.items ensures HasExpr(y) <==> exists x :: Inside(y, x) && Expression(x) { HasExprIff(y); }
    } else {
      assert Inside(v, v);
    }
  }

  /** One line exactly for scalars, for short values without an expression, and for a lone `#if` whose value
      is no container. */
  lemma OneLineIff(v: Json, level: nat, trailing: bool, key: Option<string>)
    requires Format(v, level, trailing, key).Some?
    ensures |Format(v, level, trailing, key).value| == 1 <==>
              || (!v.Arr? && !v.Obj?)
              || (!HasExpr(v) && |Compact(v)| <= 100)
              || (v.Obj? && |v.fields| == 1 && v.fields[0].key == "#if"
                  && forall f <- v.fields[0].value.fields :: f.key == "value" ==> !f.value.Arr? && !f.value.Obj?)
  {}

  /** The script raises on a lone `#if` that holds no object. */
  lemma LoneIfRaises(x: Json, level: nat, trailing: bool, key: Option<string>)
    ensures !x.Obj? ==> Format(Obj([Field("#if", x)]), level, trailing, key).None?
  {
    var v := Obj([Field("#if", x)]);
    assert v.fields[0] in v.fields && StartsWith("#if", '#');
    assert HasExpr(v);
  }

  // Backslashes and colons survive squeezing; a key that is not plain loses at least one of them.

  function Weight(s: string): nat {
    if s == "" then 0 else (if s[0] == '\\' || s[0] == ':' then 1 else 0) + Weight(s[1..])
  }

  lemma {:induction false} WeightConcat(a: string, b: string)
    ensures Weight(a + b) == Weight(a) + Weight(b)
  {
    if a == "" {
      assert a + b == b;
    } else {
      assert (a + b)[0] == a[0] && (a + b)[1..] == a[1..] + b;
      WeightConcat(a[1..], b);
    }
  }

  lemma {:induction false} WeightSqueeze(m: Mode, s: string)
    ensures Weight(Squeeze(m, s)) == Weight(s)
    decreases |s|
  {
    if s != "" {
      var rest := Squeeze(After(m, s[0]), s[1..]);
      WeightSqueeze(After(m, s[0]), s[1..]);
      assert ([s[0]] + rest)[1..] == rest && "" + rest == rest;
    }
  }

  function LinesWeight(lines: seq<string>): nat {
    if lines == [] then 0 else Weight(lines[0]) + LinesWeight(lines[1..])
  }

  lemma {:induction false} LinesWeightConcat(a: seq<string>, b: seq<string>)
    ensures LinesWeight(a + b) == LinesWeight(a) + LinesWeight(b)
  {
    if a == [] {
      assert a + b == b;
    } else {
      assert (a + b)[0] == a[0] && (a + b)[1..] == a[1..] + b;
      LinesWeightConcat(a[1..], b);
    }
  }

  lemma {:induction false} WeightJoin(lines: seq<string>)
    ensures Weight(Join(lines)) == LinesWeight(lines)
  {
    if |lines| > 1 {
      WeightJoin(lines[1..]);
      WeightConcat(lines[0], "\n");
      WeightConcat(lines[0] + "\n", Join(lines[1..]));
      assert "\n"[1..] == "";
    } else if lines != [] {
      assert lines[1..] == [];
    }
  }

  lemma WeightEscapeChar(c: char)
    ensures Weight(EscapeChar(c)) >= Weight([c])
    ensures Weight(EscapeChar(c)) == Weight([c]) <==> PlainChar(c)
  {
    var e := EscapeChar(c);
    assert [c][1..] == "";
    if e == [c] {
    } else {
      assert e[0] == '\\' && Weight(e) == 1 + Weight(e[1..]);
      if c == '\\' { assert e[1..] == "\\" && "\\"[1..] == ""; }
    }
  }

  lemma {:induction false} WeightEscape(k: string)
    ensures Weight(Escape(k)) >= Weight(k)
    ensures Weight(Escape(k)) == Weight(k) ==> forall c <- k :: PlainChar(c)
  {
    if k != "" {
      WeightEscapeChar(k[0]);
      WeightEscape(k[1..]);
      WeightConcat(EscapeChar(k[0]), Escape(k[1..]));
      WeightConcat([k[0]], k[1..]);
      assert [k[0]] + k[1..] == k;
    }
  }

  lemma WeightPrefix(key: Option<string>)
    ensures Weight(Prefix(key)) <= Weight(KeyTokens(key))
    ensures Weight(Prefix(key)) == Weight(KeyTokens(key)) ==> KeyPlain(key)
  {
    if key.Some? {
      var k := key.value;
      WeightEscape(k);
      WeightConcat("\"" + Escape(k) + "\"", ":");
      WeightConcat("\"" + Escape(k), "\"");
      WeightConcat("\"", Escape(k));
      assert Weight("\"") == 0 && Weight(":") == 1 by { assert "\""[1..] == "" && ":"[1..] == ""; }
      if k != "" {
        assert Prefix(key) == "\"" + k + "\"" + ": ";
        WeightConcat("\"" + k + "\"", ": ");
        WeightConcat("\"" + k, "\"");
        WeightConcat("\"", k);
        assert Weight(": ") == 1 by { assert ": "[1..] == " " && " "[1..] == ""; }
      }
    }
  }

  lemma {:induction false} WeightPad(level: nat)
    ensures Weight(Pad(level)) == 0
  {
    if level > 0 {
      WeightPad(level - 1);
      WeightConcat("  ", Pad(level - 1));
      assert "  "[1..] == " " && " "[1..] == "";
    }
  }

  lemma WeightLine(level: nat, key: Option<string>, text: string, trailing: bool)
    ensures Weight(Pad(level) + Prefix(key) + text + Comma(trailing)) == Weight(Prefix(key)) + Weight(text)
  {
    WeightPad(level);
    WeightConcat(Pad(level), Prefix(key));
    WeightConcat(Pad(level) + Prefix(key), text);
    WeightConcat(Pad(level) + Prefix(key) + text, Comma(trailing));
    assert ","[1..] == "";
  }

  lemma {:induction false} OnlyPlainKeeps(v: Json, level: nat, trailing: bool, key: Option<string>)
    requires Format(v, level, trailing, key).Some?
    ensures var w := LinesWeight(Format(v, level, trailing, key).value);
            var full := Weight(KeyTokens(key)) + Weight(Compact(v));
            w <= full && (w == full ==> KeyPlain(key) && Plain(v))
    decreases v, 1
  {
    var lines := Format(v, level, trailing, key).value;
    WeightPrefix(key);
    if OneLine(v) {
      WeightLine(level, key, Compact(v), trailing);
      assert lines[1..] == [];
    } else {
      var inner := FormatInner(v, level + 1).value;
      OnlyPlainInner(v, level + 1);
      WrappedWeight(v, level, trailing, key, inner);
    }
  }

  lemma OnlyPlainInner(v: Json, level: nat)
    requires Container(v) && FormatInner(v, level).Some?
    ensures var w, full := LinesWeight(FormatInner(v, level).value), Weight(Inner(v));
            w <= full && (w == full ==> Plain(v))
    decreases v, 0
  {
    if v.Obj? { OnlyPlainFields(v.fields, level); } else { OnlyPlainItems(v.items, level); }
  }

  lemma WrappedWeight(v: Json, level: nat, trailing: bool, key: Option<string>, inner: seq<string>)
    requires Container(v)
    ensures LinesWeight([Pad(level) + Prefix(key) + Opening(v)] + inner + [Pad(level) + Closing(v) + Comma(trailing)])
            == Weight(Prefix(key)) + LinesWeight(inner)
    ensures Weight(Compact(v)) == Weight(Inner(v))
  {
    var first, last := Pad(level) + Prefix(key) + Opening(v), Pad(level) + Closing(v) + Comma(trailing);
    LinesWeightConcat([first] + inner, [last]);
    LinesWeightConcat([first], inner);
    assert [first][1..] == [] && [last][1..] == [];
    assert Weight(Opening(v)) == 0 && Weight(Closing(v)) == 0 by {
      assert Opening(v)[1..] == "" && Closing(v)[1..] == "";
    }
    WeightLine(level, key, Opening(v), false);
    assert first + Comma(false) == first;
    WeightLine(level, None, Closing(v), trailing);
    assert Pad(level) + Prefix(None) == Pad(level);
    WeightConcat(Opening(v) + Inner(v), Closing(v));
    WeightConcat(Opening(v), Inner(v));
  }

  lemma WeightSep(more: bool)
    ensures Weight(Sep(more)) == 0
  {
    assert ", "[1..] == " " && " "[1..] == "";
  }

  lemma {:induction false} OnlyPlainFields(fields: seq<Field>, level: nat)
    requires FormatFields(fields, level).Some?
    ensures var w := LinesWeight(FormatFields(fields, level).value);
            var full := Weight(CompactFields(fields));
            w <= full && (w == full ==> forall f <- fields :: PlainKey(f.key) && Plain(f.value))
    decreases fields
  {
    if fields != [] {
      var key := Some(fields[0].key);
      OnlyPlainKeeps(fields[0].value, level, |fields| > 1, key);
      OnlyPlainFields(fields[1..], level);
      LinesWeightConcat(Format(fields[0].value, level, |fields| > 1, key).value,
                        FormatFields(fields[1..], level).value);
      WeightField(fields);
    }
  }

  lemma WeightField(fields: seq<Field>)
    requires fields != []
    ensures Weight(CompactFields(fields)) == Weight(KeyTokens(Some(fields[0].key)))
              + Weight(Compact(fields[0].value)) + Weight(CompactFields(fields[1..]))
  {
    var key, head, sep := Dumps(fields[0].key), Compact(fields[0].value), Sep(|fields| > 1);
    WeightSep(|fields| > 1);
    WeightConcat(key, ":");
    WeightConcat(key + ":", " ");
    assert key + ":" + " " == key + ": ";
    assert " "[1..] == "";
    WeightConcat(key + ": ", head);
    WeightConcat(key + ": " + head, sep);
    WeightConcat(key + ": " + head + sep, CompactFields(fields[1..]));
  }

  lemma {:induction false} OnlyPlainItems(items: seq<Json>, level: nat)
    requires FormatItems(items, level).Some?
    ensures var w := LinesWeight(FormatItems(items, level).value);
            var full := Weight(CompactItems(items));
            w <= full && (w == full ==> forall x <- items :: Plain(x))
    decreases items
  {
    if items != [] {
      OnlyPlainKeeps(items[0], level, |items| > 1, None);
      OnlyPlainItems(items[1..], level);
      LinesWeightConcat(Format(items[0], level, |items| > 1, None).value, FormatItems(items[1..], level).value);
      WeightSep(|items| > 1);
      WeightConcat(Compact(items[0]), Sep(|items| > 1));
      WeightConcat(Compact(items[0]) + Sep(|items| > 1), CompactItems(items[1..]));
    }
  }

  /** The printed text is the key, the compact text and the comma, up to white space outside string
      literals, exactly when the key and every key on a line of its own is plain. */
  lemma OnlyWhiteSpaceIff(v: Json, level: nat, trailing: bool, key: Option<string>)
    requires Format(v, level, trailing, key).Some?
    ensures Tokens(Join(Format(v, level, trailing, key).value)) == Expected(v, trailing, key)
            <==> KeyPlain(key) && Plain(v)
  {
    var lines := Format(v, level, trailing, key).value;
    if KeyPlain(key) && Plain(v) {
      PlainKeeps(v, level, trailing, key);
      JoinTokens(lines);
    }
    WeightSqueeze(Out, Join(lines));
    WeightJoin(lines);
    WeightExpected(v, trailing, key);
    OnlyPlainKeeps(v, level, trailing, key);
  }

  lemma WeightExpected(v: Json, trailing: bool, key: Option<string>)
    ensures Weight(Expected(v, trailing, key)) == Weight(KeyTokens(key)) + Weight(Compact(v))
  {
    WeightSqueeze(Out, Compact(v));
    WeightConcat(KeyTokens(key) + Tokens(Compact(v)), Comma(trailing));
    WeightConcat(KeyTokens(key), Tokens(Compact(v)));
    assert ","[1..] == "";
  }

  /** An empty key on a line of its own disappears. */
  lemma EmptyKeyIsDropped()
    ensures Format(Obj([Field("", Str("@x"))]), 0, false, None) == Some(["{", "  \"@x\"", "}"])
  {
    var x := Str("@x");
    var v := Obj([Field("", x)]);
    assert HasExpr(x) && v.fields[0] in v.fields;
    assert HasExpr(v) && !OneLine(v) && !Raises(v);
    assert Pad(1) == "  " + Pad(0) && Pad(0) == "";
    assert "@x"[1..] == "x" && "x"[1..] == "";
    assert EscapeChar('@') == "@" && EscapeChar('x') == "x";
    assert Escape("x") == "x" + "" && Escape("@x") == "@" + Escape("x");
    var line := Line(x, 1, false, Some(""));
    assert line == "  \"@x\"";
    assert v.fields[1..] == [];
    assert FormatFields([], 1) == Some([]);
    assert [line] + [] == [line];
    assert FormatFields(v.fields, 1) == Some([line] + []);
    assert FormatInner(v, 1) == Some([line]);
    var lines := [Pad(0) + Prefix(None) + Opening(v)] + [line] + [Pad(0) + Closing(v) + Comma(false)];
    assert Format(v, 0, false, None) == Some(lines);
    assert Pad(0) + Prefix(None) + Opening(v) == "{" && Pad(0) + Closing(v) + Comma(false) == "}";
    assert lines == ["{", "  \"@x\"", "}"];
  }

  /** Every `#if` on the way holds an object. */
  predicate WellFormed(v: Json) {
    match v
    case Obj(fields) => forall f <- fields :: (f.key == "#if" ==> f.value.Obj?) && WellFormed(f.value)
    case Arr(items) => forall x <- items :: WellFormed(x)
    case _ => true
  }

  lemma {:induction false} WellFormedPrints(v: Json, level: nat, trailing: bool, key: Option<string>)
    requires WellFormed(v)
    ensures Format(v, level, trailing, key).Some?
    decreases v
  {
    if v.Obj? {
      FieldsPrint(v.fields, level + 1);
      assert v.fields != [] ==> v.fields[0] in v.fields;
    } else if v.Arr? {
      ItemsPrint(v.items, level + 1);
    }
  }

  lemma {:induction false} FieldsPrint(fields: seq<Field>, level: nat)
    requires forall f <- fields :: WellFormed(f.value)
    ensures FormatFields(fields, level).Some?
    decreases fields
  {
    if fields != [] {
      assert fields[0] in fields;
      WellFormedPrints(fields[0].value, level, |fields| > 1, Some(fields[0].key));
      FieldsPrint(fields[1..], level);
    }
  }

  lemma {:induction false} ItemsPrint(items: seq<Json>, level: nat)
    requires forall x <- items :: WellFormed(x)
    ensures FormatItems(items, level).Some?
    decreases items
  {
    if items != [] {
      assert items[0] in items;
      WellFormedPrints(items[0], level, |items| > 1, None);
      ItemsPrint(items[1..], level);
    }
  }
}
