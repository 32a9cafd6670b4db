/** Reading JSON back: the formatter's own guarantee, that its output parses to the value it was given. */
module FormatterReads {
  import opened Basics
  import opened Formatter

  // ------------------------------------------------------------------ strings

  function Nibble(c: char): Option<nat> {
    if '0' <= c <= '9' then Some(c as int - '0' as int)
    else if 'a' <= c <= 'f' then Some(c as int - 'a' as int + 10)
    else if 'A' <= c <= 'F' then Some(c as int - 'A' as int + 10)
    else None
  }

  /** `\u` and two zeros: the control characters, which is all json.dumps writes that way here. */
  function FromHex(a: char, b: char): Option<char> {
    if Nibble(a).Some? && Nibble(b).Some? then Some((16 * Nibble(a).value + Nibble(b).value) as char) else None
  }

  function Short2(c: char): Option<char> {
    if c == '"' || c == '\\' || c == '/' then Some(c)
    else if c == 'n' then Some('\n') else if c == 'r' then Some('\r') else if c == 't' then Some('\t')
    else if c == 'b' then Some(8 as char) else if c == 'f' then Some(12 as char)
    else None
  }

  /** The first character of a literal and how long it is written. */
  function ReadChar(s: string): Option<(char, nat)> {
    if s == "" || s[0] == '"' || s[0] as int < 32 then None
    else if s[0] != '\\' then Some((s[0], 1))
    else if |s| < 2 then None
    else if s[1] != 'u' then if Short2(s[1]).Some? then Some((Short2(s[1]).value, 2)) else None
    else if |s| < 6 || s[2] != '0' || s[3] != '0' || FromHex(s[4], s[5]).None? then None
    else Some((FromHex(s[4], s[5]).value, 6))
  }

  /** The text of a literal and what follows its closing quote. */
  function ReadString(s: string): (r: Option<(string, string)>)
    ensures r.Some? ==> |r.value.1| < |s|
    decreases |s|
  {
    if s != "" && s[0] == '"' then Some(("", s[1..]))
    else
      var c := ReadChar(s);
      if c.None? || c.value.1 == 0 || c.value.1 > |s| then None
      else
        var rest := ReadString(s[c.value.1..]);
        if rest.None? then None else Some(([c.value.0] + rest.value.0, rest.value.1))
  }

  lemma HexReads(c: char)
    requires c as int < 32
    ensures FromHex(Hex(c as int / 16), Hex(c as int % 16)) == Some(c)
  {
    NibbleOfHex(c as int / 16);
    NibbleOfHex(c as int % 16);
  }

  lemma NibbleOfHex(n: nat)
    requires n < 16
    ensures Nibble(Hex(n)) == Some(n)
  {}

  lemma EscapedReads(c: char, rest: string)
    ensures ReadChar(EscapeChar(c) + rest) == Some((c, |EscapeChar(c)|))
    ensures EscapeChar(c)[0] != '"'
  {
    var e := EscapeChar(c);
    var t := e + rest;
    if |e| == 6 {
      HexReads(c);
      assert t[0] == '\\' && t[1] == 'u' && t[2] == '0' && t[3] == '0';
      assert t[4] == Hex(c as int / 16) && t[5] == Hex(c as int % 16);
    } else if |e| == 2 {
      assert t[0] == '\\' && t[1] == e[1];
    } else {
      assert t[0] == c;
    }
  }

  /** json.dumps of a string is read back. */
  lemma {:induction false} StringReads(s: string, rest: string)
    ensures ReadString(Escape(s) + "\"" + rest) == Some((s, rest))
  {
    var t := Escape(s) + "\"" + rest;
    if s == "" {
      assert t[0] == '"' && t[1..] == rest;
    } else {
      var tail := Escape(s[1..]) + "\"" + rest;
      assert t == EscapeChar(s[0]) + tail;
      EscapedReads(s[0], tail);
      StringReads(s[1..], rest);
      assert t[|EscapeChar(s[0])|..] == tail;
      assert [s[0]] + s[1..] == s;
    }
  }

  // ------------------------------------------------------------------- values

  function Run(s: string): string {
    if s != "" && NumberChar(s[0]) then [s[0]] + Run(s[1..]) else ""
  }

  lemma RunIsNumeral(s: string)
    ensures |Run(s)| <= |s| && forall c <- Run(s) :: NumberChar(c)
  {}

  function Word(s: string): Option<(Json, nat)> {
    if "null" <= s then Some((Null, 4))
    else if "true" <= s then Some((Bool(true), 4))
    else if "false" <= s then Some((Bool(false), 5))
    else None
  }

  /** A value, of text without white space outside its literals, and what follows it. */
  function ReadValue(s: string): (r: Option<(Json, string)>)
    ensures r.Some? ==> |r.value.1| < |s|
    decreases |s|, 1
  {
    if s == "" then None
    else if s[0] == '"' then
      var r := ReadString(s[1..]);
      if r.None? then None else Some((Str(r.value.0), r.value.1))
    else if s[0] == '[' then
      if |s| > 1 && s[1] == ']' then Some((Arr([]), s[2..]))
      else
        var r := ReadItems(s[1..]);
        if r.None? then None else Some((Arr(r.value.0), r.value.1))
    else if s[0] == '{' then
      if |s| > 1 && s[1] == '}' then Some((Obj([]), s[2..]))
      else
        var r := ReadFields(s[1..]);
        if r.None? then None else Some((Obj(r.value.0), r.value.1))
    else if Word(s).Some? then Some((Word(s).value.0, s[Word(s).value.1..]))
    else
      RunIsNumeral(s);
      if Run(s) == "" then None else Some((Num(Run(s)), s[|Run(s)|..]))
  }

  /** After `[`. */
  function ReadItems(s: string): (r: Option<(seq<Json>, string)>)
    ensures r.Some? ==> |r.value.1| < |s|
    decreases |s|, 2
  {
    var v := ReadValue(s);
    if v.None? || v.value.1 == "" then None
    else if v.value.1[0] == ']' then Some(([v.value.0], v.value.1[1..]))
    else if v.value.1[0] != ',' then None
    else
      var more := ReadItems(v.value.1[1..]);
      if more.None? then None else Some(([v.value.0] + more.value.0, more.value.1))
  }

  function ReadField(s: string): (r: Option<(Field, string)>)
    ensures r.Some? ==> |r.value.1| < |s|
    decreases |s|, 2
  {
    if s == "" || s[0] != '"' then None
    else
      var key := ReadString(s[1..]);
      if key.None? || key.value.1 == "" || key.value.1[0] != ':' then None
      else
        var v := ReadValue(key.value.1[1..]);
        if v.None? then None else Some((Field(key.value.0, v.value.0), v.value.1))
  }

  /** After `{`. */
  function ReadFields(s: string): (r: Option<(seq<Field>, string)>)
    ensures r.Some? ==> |r.value.1| < |s|
    decreases |s|, 3
  {
    var f := ReadField(s);
    if f.None? || f.value.1 == "" then None
    else if f.value.1[0] == '}' then Some(([f.value.0], f.value.1[1..]))
    else if f.value.1[0] != ',' then None
    else
      var more := ReadFields(f.value.1[1..]);
      if more.None? then None else Some(([f.value.0] + more.value.0, more.value.1))
  }

  // --------------------------------------------------------------- round trip

  function T(v: Json): string { Tokens(Compact(v)) }

  function TItems(items: seq<Json>): string { Tokens(CompactItems(items)) }

  function TFields(fields: seq<Field>): string { Tokens(CompactFields(fields)) }

  lemma TokenForms(v: Json)
    ensures match v
            case Null => T(v) == "null"
            case Bool(b) => T(v) == if b then "true" else "false"
            case Num(text) => T(v) == text
            case Str(s) => T(v) == "\"" + (Escape(s) + "\"")
            case Arr(items) => T(v) == "[" + TItems(items) + "]"
            case Obj(fields) => T(v) == "{" + TFields(fields) + "}"
  {
    match v {
      case Null => NumeralTokens("null");
      case Bool(b) => NumeralTokens("true"); NumeralTokens("false");
      case Num(text) => NumberTokens(text);
      case Str(s) => DumpsTokens(s);
      case Arr(items) =>
        ItemsClosed(items);
        BracketsClosed("[", CompactItems(items), "]");
      case Obj(fields) =>
        FieldsClosed(fields);
        BracketsClosed("{", CompactFields(fields), "}");
    }
  }

  predicate Stops(rest: string) { rest == "" || !NumberChar(rest[0]) }

  lemma {:induction false} RunStops(text: string, rest: string)
    requires (forall c <- text :: NumberChar(c)) && Stops(rest)
    ensures Run(text + rest) == text
  {
    if text == "" {
      assert text + rest == rest;
    } else {
      assert text[0] in text && (text + rest)[1..] == text[1..] + rest;
      RunStops(text[1..], rest);
    }
  }

  lemma FirstChar(v: Json)
    ensures T(v) != "" && T(v)[0] != ']' && T(v)[0] != '}'
  {
    TokenForms(v);
    if v.Num? { assert v.text[0] in v.text; }
  }

  // One step of each reader.

  lemma StringStep(s: string, text: string, rest: string)
    requires ReadString(s) == Some((text, rest))
    ensures ReadValue("\"" + s) == Some((Str(text), rest))
  {
    assert ("\"" + s)[1..] == s;
  }

  lemma ArrayStep(s: string, items: seq<Json>, rest: string)
    requires s != "" && s[0] != ']' && ReadItems(s) == Some((items, rest))
    ensures ReadValue("[" + s) == Some((Arr(items), rest))
  {
    assert ("[" + s)[1..] == s;
  }

  lemma ObjectStep(s: string, fields: seq<Field>, rest: string)
    requires s != "" && s[0] != '}' && ReadFields(s) == Some((fields, rest))
    ensures ReadValue("{" + s) == Some((Obj(fields), rest))
  {
    assert ("{" + s)[1..] == s;
  }

  lemma EmptyStep(rest: string)
    ensures ReadValue("[]" + rest) == Some((Arr([]), rest)) && ReadValue("{}" + rest) == Some((Obj([]), rest))
  {
    assert ("[]" + rest)[2..] == rest && ("{}" + rest)[2..] == rest;
  }

  lemma ItemsStep(s: string, x: Json, more: string, xs: seq<Json>, rest: string)
    ensures ReadValue(s) == Some((x, "]" + rest)) ==> ReadItems(s) == Some(([x], rest))
    ensures ReadValue(s) == Some((x, "," + more)) && ReadItems(more) == Some((xs, rest)) ==>
              ReadItems(s) == Some(([x] + xs, rest))
  {
    assert ("]" + rest)[1..] == rest && ("," + more)[1..] == more;
  }

  lemma FieldStep(s: string, key: string, t: string, x: Json, rest: string)
    requires ReadString(s) == Some((key, ":" + t)) && ReadValue(t) == Some((x, rest))
    ensures ReadField("\"" + s) == Some((Field(key, x), rest))
  {
    assert ("\"" + s)[1..] == s && (":" + t)[1..] == t;
  }

  lemma FieldsStep(s: string, f: Field, more: string, fs: seq<Field>, rest: string)
    ensures ReadField(s) == Some((f, "}" + rest)) ==> ReadFields(s) == Some(([f], rest))
    ensures ReadField(s) == Some((f, "," + more)) && ReadFields(more) == Some((fs, rest)) ==>
              ReadFields(s) == Some(([f] + fs, rest))
  {
    assert ("}" + rest)[1..] == rest && ("," + more)[1..] == more;
  }

  lemma Assoc(a: string, b: string, c: string, d: string)
    ensures a + b + c + d == a + (b + c + d) && a + b + c == a + (b + c) && (a + b) + (c + d) == a + (b + (c + d))
  {}

  lemma ScalarReads(v: Json, rest: string)
    requires !v.Arr? && !v.Obj? && Stops(rest)
    ensures ReadValue(T(v) + rest) == Some((v, rest))
  {
    TokenForms(v);
    match v {
      case Null => NullReads(rest);
      case Bool(b) => BoolReads(b, rest);
      case Num(text) => NumberReads(text, rest);
      case Str(s) =>
        StringReads(s, rest);
        Assoc("\"", Escape(s), "\"", rest);
        StringStep(Escape(s) + "\"" + rest, s, rest);
    }
  }

  lemma NullReads(rest: string)
    ensures ReadValue("null" + rest) == Some((Null, rest))
  {
    assert ("null" + rest)[..4] == "null" && ("null" + rest)[4..] == rest && ("null" + rest)[0] == 'n';
  }

  lemma BoolReads(b: bool, rest: string)
    ensures ReadValue((if b then "true" else "false") + rest) == Some((Bool(b), rest))
  {
    if b {
      assert ("true" + rest)[..4] == "true" && ("true" + rest)[4..] == rest && ("true" + rest)[0] == 't';
    } else {
      assert ("false" + rest)[..5] == "false" && ("false" + rest)[5..] == rest && ("false" + rest)[0] == 'f';
    }
  }

  lemma NumberReads(text: Numeral, rest: string)
    requires Stops(rest)
    ensures ReadValue(text + rest) == Some((Num(text), rest))
  {
    var s := text + rest;
    assert forall c <- text :: NumberChar(c);
    assert text[0] in text && s[0] == text[0];
    RunStops(text, rest);
    assert s[|text|..] == rest;
    NumberStep(s);
  }

  lemma NumberStep(s: string)
    requires s != "" && NumberChar(s[0]) && |Run(s)| <= |s| && forall c <- Run(s) :: NumberChar(c)
    ensures ReadValue(s) == Some((Num(Run(s)), s[|Run(s)|..]))
  {
    NumberIsNoWord(s);
  }

  lemma NumberIsNoWord(s: string)
    requires s != "" && NumberChar(s[0])
    ensures Word(s).None? && s[0] != '"' && s[0] != '[' && s[0] != '{' && Run(s) != ""
  {
    assert "null"[0] == 'n' && "true"[0] == 't' && "false"[0] == 'f';
  }

  /** Whatever follows, the compact form of a value without its white space is read back. */
  lemma {:induction false} ValueReads(v: Json, rest: string)
    requires Stops(rest)
    ensures ReadValue(T(v) + rest) == Some((v, rest))
    decreases v
  {
    match v {
      case Arr(items) => ArrayReads(items, rest);
      case Obj(fields) => ObjectReads(fields, rest);
      case _ => ScalarReads(v, rest);
    }
  }

  lemma {:induction false} ArrayReads(items: seq<Json>, rest: string)
    ensures ReadValue(T(Arr(items)) + rest) == Some((Arr(items), rest))
    decreases items, 1
  {
    TokenForms(Arr(items));
    if items == [] {
      assert "[" + TItems(items) + "]" == "[]";
      EmptyStep(rest);
    } else {
      var s := TItems(items) + "]" + rest;
      ItemsRead(items, rest);
      ItemsBegin(items, rest);
      ArrayStep(s, items, rest);
      Assoc("[", TItems(items), "]", rest);
    }
  }

  lemma ItemsBegin(items: seq<Json>, rest: string)
    requires items != []
    ensures var s := TItems(items) + "]" + rest; s != "" && s[0] != ']'
  {
    ItemsClosed(items);
    FirstChar(items[0]);
    assert (TItems(items) + "]" + rest)[0] == T(items[0])[0];
  }

  lemma {:induction false} ItemsRead(items: seq<Json>, rest: string)
    requires items != []
    ensures ReadItems(TItems(items) + "]" + rest) == Some((items, rest))
    decreases items, 0
  {
    var s := TItems(items) + "]" + rest;
    if |items| == 1 {
      OneItem(items, rest);
      ValueReads(items[0], "]" + rest);
      ItemsStep(s, items[0], "", [], rest);
    } else {
      var more := TItems(items[1..]) + "]" + rest;
      MoreItems(items, rest);
      ValueReads(items[0], "," + more);
      ItemsRead(items[1..], rest);
      ItemsStep(s, items[0], more, items[1..], rest);
    }
  }

  lemma OneItem(items: seq<Json>, rest: string)
    requires |items| == 1
    ensures TItems(items) + "]" + rest == T(items[0]) + ("]" + rest) && items == [items[0]]
  {
    ItemsClosed(items);
    NothingLeft();
    assert items[1..] == [];
    Bare(T(items[0]), "]", rest);
  }

  lemma NothingLeft()
    ensures TItems([]) == "" && TFields([]) == "" && Comma(false) == ""
  {}

  lemma Bare(a: string, d: string, e: string)
    ensures a + "" + "" + d + e == a + (d + e)
  {}

  lemma MoreItems(items: seq<Json>, rest: string)
    requires |items| > 1
    ensures TItems(items) + "]" + rest == T(items[0]) + ("," + (TItems(items[1..]) + "]" + rest))
    ensures [items[0]] + items[1..] == items
  {
    ItemsClosed(items);
    Five(T(items[0]), ",", TItems(items[1..]), "]", rest);
  }

  lemma Five(a: string, b: string, c: string, d: string, e: string)
    ensures a + b + c + d + e == a + (b + (c + d + e))
  {}

  lemma {:induction false} ObjectReads(fields: seq<Field>, rest: string)
    ensures ReadValue(T(Obj(fields)) + rest) == Some((Obj(fields), rest))
    decreases fields, 1
  {
    TokenForms(Obj(fields));
    if fields == [] {
      assert "{" + TFields(fields) + "}" == "{}";
      EmptyStep(rest);
    } else {
      var s := TFields(fields) + "}" + rest;
      FieldsRead(fields, rest);
      FieldsBegin(fields, rest);
      ObjectStep(s, fields, rest);
      Assoc("{", TFields(fields), "}", rest);
    }
  }

  lemma FieldsBegin(fields: seq<Field>, rest: string)
    requires fields != []
    ensures var s := TFields(fields) + "}" + rest; s != "" && s[0] != '}'
  {
    FieldsClosed(fields);
    assert (TFields(fields) + "}" + rest)[0] == '"';
  }

  lemma {:induction false} FieldReads(f: Field, rest: string)
    requires Stops(rest)
    ensures ReadField(KeyTokens(Some(f.key)) + T(f.value) + rest) == Some((f, rest))
    decreases f
  {
    var t := T(f.value) + rest;
    StringReads(f.key, ":" + t);
    ValueReads(f.value, rest);
    FieldStep(Escape(f.key) + "\"" + (":" + t), f.key, t, f.value, rest);
    KeyFirst(f.key, T(f.value), rest);
  }

  lemma KeyFirst(key: string, value: string, rest: string)
    ensures KeyTokens(Some(key)) + value + rest == "\"" + (Escape(key) + "\"" + (":" + (value + rest)))
  {
    assert KeyTokens(Some(key)) == "\"" + Escape(key) + "\"" + ":";
    SixParts("\"", Escape(key), "\"", ":", value, rest);
  }

  lemma SixParts(a: string, b: string, c: string, d: string, e: string, f: string)
    ensures a + b + c + d + e + f == a + (b + c + (d + (e + f)))
  {}

  lemma {:induction false} FieldsRead(fields: seq<Field>, rest: string)
    requires fields != []
    ensures ReadFields(TFields(fields) + "}" + rest) == Some((fields, rest))
    decreases fields, 0
  {
    var s := TFields(fields) + "}" + rest;
    if |fields| == 1 {
      OneField(fields, rest);
      FieldReads(fields[0], "}" + rest);
      FieldsStep(s, fields[0], "", [], rest);
    } else {
      var more := TFields(fields[1..]) + "}" + rest;
      MoreFields(fields, rest);
      FieldReads(fields[0], "," + more);
      FieldsRead(fields[1..], rest);
      FieldsStep(s, fields[0], more, fields[1..], rest);
    }
  }

  lemma OneField(fields: seq<Field>, rest: string)
    requires |fields| == 1
    ensures TFields(fields) + "}" + rest
            == KeyTokens(Some(fields[0].key)) + T(fields[0].value) + ("}" + rest) && fields == [fields[0]]
  {
    FieldsClosed(fields);
    NothingLeft();
    assert fields[1..] == [];
    Bare(KeyTokens(Some(fields[0].key)) + T(fields[0].value), "}", rest);
  }

  lemma MoreFields(fields: seq<Field>, rest: string)
    requires |fields| > 1
    ensures TFields(fields) + "}" + rest
            == KeyTokens(Some(fields[0].key)) + T(fields[0].value) + ("," + (TFields(fields[1..]) + "}" + rest))
    ensures [fields[0]] + fields[1..] == fields
  {
    FieldsClosed(fields);
    Five(KeyTokens(Some(fields[0].key)) + T(fields[0].value), ",", TFields(fields[1..]), "}", rest);
  }

  /** Different values have different compact forms, even without their white space. */
  lemma CompactInjective(v: Json, w: Json)
    requires T(v) == T(w)
    ensures v == w
  {
    ValueReads(v, "");
    ValueReads(w, "");
    assert T(v) + "" == T(v) && T(w) + "" == T(w);
  }

  /** The formatter's guarantee: whenever the keys it gives a line of their own are plain, its text reads
      back as the value it was given, at every level. */
  lemma FormattedReads(v: Json, level: nat)
    requires Format(v, level, false, None).Some? && Plain(v)
    ensures ReadValue(Tokens(Join(Format(v, level, false, None).value))) == Some((v, ""))
  {
    OnlyWhiteSpaceIff(v, level, false, None);
    ValueReads(v, "");
    assert Expected(v, false, None) == T(v) + "" == T(v);
  }
}
