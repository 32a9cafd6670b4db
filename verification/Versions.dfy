/** Version comparison of core/core_version.go: a total preorder on all strings. */
module Versions {
  import opened Basics

  // ----------------------------------------------------------------- parsing

  function TrimV(s: string): string {
    if s != "" && s[0] == 'v' then s[1..] else s
  }

  /** The text before the first dash, and whether there is one. */
  function ExtractBase(s: string): (string, bool) {
    if s == "" then ("", false)
    else if s[0] == '-' then ("", true)
    else
      var (base, suffix) := ExtractBase(s[1..]);
      ([s[0]] + base, suffix)
  }

  function SplitDots(s: string): (parts: seq<string>)
    ensures parts != []
  {
    if s == "" then [""]
    else
      var rest := SplitDots(s[1..]);
      if s[0] == '.' then [""] + rest else [[s[0]] + rest[0]] + rest[1..]
  }

  predicate IsDigit(c: char) { '0' <= c <= '9' }

  /** White space that fmt skips before a number; a line break makes it fail. */
  predicate IsBlank(c: char) {
    c in {' ', '\t', '\r'} || c in "\U{000B}\U{000C}\U{0085}\U{00A0}\U{1680}\U{2028}\U{2029}\U{202F}\U{205F}\U{3000}"
    || '\U{2000}' <= c <= '\U{200A}'
  }

  /** By code point. */
  lemma BlankIff(c: char)
    ensures IsBlank(c) <==>
              || c as int in {9, 11, 12, 13, 32, 0x85, 0xA0, 0x1680, 0x2028, 0x2029, 0x202F, 0x205F, 0x3000}
              || 0x2000 <= c as int <= 0x200A
  {}

  function SkipBlanks(s: string): string {
    if s != "" && IsBlank(s[0]) then SkipBlanks(s[1..]) else s
  }

  function Digits(s: string): string {
    if s != "" && IsDigit(s[0]) then [s[0]] + Digits(s[1..]) else ""
  }

  function Value(digits: string): nat
    requires forall i | 0 <= i < |digits| :: IsDigit(digits[i])
  {
    if digits == "" then 0
    else
      assert IsDigit(digits[|digits| - 1]);
      10 * Value(digits[..|digits| - 1]) + (digits[|digits| - 1] as int - '0' as int)
  }

  lemma DigitsAreDigits(s: string)
    ensures forall i | 0 <= i < |Digits(s)| :: IsDigit(Digits(s)[i])
  {}

  /** fmt.Sscanf(s, "%d", &n) into n = 0: a failed scan leaves 0, also one that exceeds 64 bits. */
  function ScanInt(s: string): int { ScanNumber(SkipBlanks(s)) }

  function ScanNumber(t: string): int {
    var negative := t != "" && t[0] == '-';
    var digits := Digits(if t != "" && t[0] in {'+', '-'} then t[1..] else t);
    DigitsAreDigits(if t != "" && t[0] in {'+', '-'} then t[1..] else t);
    var value: int := Value(digits);
    var n := if negative then -value else value;
    if -0x8000_0000_0000_0000 <= n < 0x8000_0000_0000_0000 then n else 0
  }

  // -------------------------------------------------------------- comparison

  function Numbers(parts: seq<string>): seq<int> {
    seq(|parts|, i requires 0 <= i < |parts| => ScanInt(parts[i]))
  }

  /** Component i, zero beyond the end. */
  function Part(parts: seq<int>, i: nat): int {
    if i < |parts| then parts[i] else 0
  }

  function CompareFrom(p: seq<int>, q: seq<int>, i: nat, max: nat): int
    decreases max - i
  {
    if i >= max then 0
    else if Part(p, i) < Part(q, i) then -1
    else if Part(p, i) > Part(q, i) then 1
    else CompareFrom(p, q, i + 1, max)
  }

  function CompareBases(p: seq<int>, q: seq<int>): int {
    CompareFrom(p, q, 0, if |q| > |p| then |q| else |p|)
  }

  function Parts(v: string): seq<int> {
    Numbers(SplitDots(ExtractBase(TrimV(v)).0))
  }

  predicate HasSuffix(v: string) {
    ExtractBase(TrimV(v)).1
  }

  function CompareVersions(v: string, w: string): int {
    var c := CompareBases(Parts(v), Parts(w));
    if c != 0 then c
    else if HasSuffix(v) && !HasSuffix(w) then 1
    else if !HasSuffix(v) && HasSuffix(w) then -1
    else 0
  }

  // -------------------------------------------------- what it means

  ghost predicate AgreeBelow(p: seq<int>, q: seq<int>, k: nat) {
    forall i: nat | i < k :: Part(p, i) == Part(q, i)
  }

  ghost predicate SameBase(p: seq<int>, q: seq<int>) {
    forall i: nat :: Part(p, i) == Part(q, i)
  }

  /** The first component in which they differ decides. */
  ghost predicate LowerAt(p: seq<int>, q: seq<int>, k: nat) {
    AgreeBelow(p, q, k) && Part(p, k) < Part(q, k)
  }

  ghost predicate LowerBase(p: seq<int>, q: seq<int>) {
    exists k: nat :: LowerAt(p, q, k)
  }

  ghost predicate Older(v: string, w: string) {
    LowerBase(Parts(v), Parts(w)) || (SameBase(Parts(v), Parts(w)) && !HasSuffix(v) && HasSuffix(w))
  }

  ghost predicate SameVersion(v: string, w: string) {
    SameBase(Parts(v), Parts(w)) && (HasSuffix(v) <==> HasSuffix(w))
  }

  lemma {:induction false} CompareFromIs(p: seq<int>, q: seq<int>, i: nat, max: nat)
    requires AgreeBelow(p, q, i) && |p| <= max && |q| <= max && i <= max
    ensures var c := CompareFrom(p, q, i, max);
            && (c == -1 ==> LowerBase(p, q)) && (c == 1 ==> LowerBase(q, p)) && (c == 0 ==> SameBase(p, q))
            && c in {-1, 0, 1}
    decreases max - i
  {
    if i < max {
      if Part(p, i) < Part(q, i) {
        assert LowerAt(p, q, i);
      } else if Part(p, i) > Part(q, i) {
        assert LowerAt(q, p, i);
      } else {
        CompareFromIs(p, q, i + 1, max);
      }
    }
  }

  lemma BasesExclude(p: seq<int>, q: seq<int>)
    ensures !(LowerBase(p, q) && LowerBase(q, p)) && !(LowerBase(p, q) && SameBase(p, q))
  {
    forall k: nat, j: nat ensures !(LowerAt(p, q, k) && LowerAt(q, p, j)) {
      assert AgreeBelow(p, q, k) && j < k ==> Part(p, j) == Part(q, j);
      assert AgreeBelow(q, p, j) && k < j ==> Part(p, k) == Part(q, k);
    }
  }

  /** The sign says exactly which is older: decided by the first differing component of the zero-padded
      base versions, and between equal bases by the suffix. */
  lemma CompareMeans(v: string, w: string)
    ensures CompareVersions(v, w) in {-1, 0, 1}
    ensures CompareVersions(v, w) == -1 <==> Older(v, w)
    ensures CompareVersions(v, w) == 1 <==> Older(w, v)
    ensures CompareVersions(v, w) == 0 <==> SameVersion(v, w)
  {
    var p, q := Parts(v), Parts(w);
    CompareFromIs(p, q, 0, if |q| > |p| then |q| else |p|);
    BasesExclude(p, q);
    BasesExclude(q, p);
    assert SameBase(p, q) <==> SameBase(q, p);
  }

  lemma LowerBaseTransitive(p: seq<int>, q: seq<int>, r: seq<int>)
    requires LowerBase(p, q) || SameBase(p, q)
    requires LowerBase(q, r) || SameBase(q, r)
    ensures if SameBase(p, q) && SameBase(q, r) then SameBase(p, r) else LowerBase(p, r)
  {
    if LowerBase(p, q) && LowerBase(q, r) {
      var k: nat :| LowerAt(p, q, k);
      var j: nat :| LowerAt(q, r, j);
      assert LowerAt(p, r, if k < j then k else j);
      BasesExclude(p, q);
    } else if LowerBase(p, q) {
      var k: nat :| LowerAt(p, q, k);
      assert LowerAt(p, r, k);
      BasesExclude(p, q);
    } else if LowerBase(q, r) {
      var j: nat :| LowerAt(q, r, j);
      assert LowerAt(p, r, j);
      BasesExclude(q, r);
    }
  }

  /** CompareVersions is a total preorder on all strings. */
  lemma TotalPreorder(u: string, v: string, w: string)
    ensures CompareVersions(v, v) == 0
    ensures CompareVersions(v, w) == -CompareVersions(w, v)
    ensures CompareVersions(u, v) <= 0 && CompareVersions(v, w) <= 0 ==> CompareVersions(u, w) <= 0
    ensures CompareVersions(u, v) < 0 && CompareVersions(v, w) <= 0 ==> CompareVersions(u, w) < 0
    ensures CompareVersions(u, v) <= 0 && CompareVersions(v, w) < 0 ==> CompareVersions(u, w) < 0
  {
    CompareMeans(v, v);
    CompareMeans(v, w);
    CompareMeans(w, v);
    CompareMeans(u, v);
    CompareMeans(u, w);
    if CompareVersions(u, v) <= 0 && CompareVersions(v, w) <= 0 {
      LowerBaseTransitive(Parts(u), Parts(v), Parts(w));
      BasesExclude(Parts(u), Parts(v));
      BasesExclude(Parts(v), Parts(w));
    }
  }

  lemma {:induction false} SplitAppend(s: string)
    ensures SplitDots(s + ".0") == SplitDots(s) + ["0"]
  {
    if s == "" {
      assert ".0"[1..] == "0" && "0"[1..] == "" && ['0'] + "" == "0";
      assert SplitDots("0"[1..]) == [""];
      assert SplitDots("0") == ["0"];
      assert "" + ".0" == ".0";
      assert SplitDots(".0") == ["", "0"];
    } else {
      SplitAppend(s[1..]);
      assert (s + ".0")[1..] == s[1..] + ".0";
    }
  }

  lemma {:induction false} BaseAppend(s: string)
    requires !ExtractBase(s).1
    ensures ExtractBase(s + ".0") == (s + ".0", false) && ExtractBase(s) == (s, false)
  {
    if s == "" {
      assert ".0"[1..] == "0" && "0"[1..] == "" && ['0'] + "" == "0" && ['.'] + "0" == ".0";
      assert ExtractBase("0"[1..]) == ("", false);
      assert ExtractBase("0") == ("0", false);
      assert "" + ".0" == ".0";
    } else {
      BaseAppend(s[1..]);
      assert (s + ".0")[1..] == s[1..] + ".0";
      assert [s[0]] + s[1..] == s && [s[0]] + (s[1..] + ".0") == s + ".0";
    }
  }

  /** A trailing zero component changes nothing. */
  lemma TrailingZero(v: string)
    requires !HasSuffix(v)
    ensures CompareVersions(v, v + ".0") == 0
  {
    var t := TrimV(v);
    assert TrimV(v + ".0") == t + ".0";
    BaseAppend(t);
    SplitAppend(t);
    ScanZero();
    CompareMeans(v, v + ".0");
    assert Parts(v + ".0") == Parts(v) + [0];
    assert SameBase(Parts(v), Parts(v + ".0"));
  }

  lemma ScanZero()
    ensures ScanInt("0") == 0
  {
    assert "0"[1..] == "" && Digits("0") == "0" && "0"[..0] == "";
  }

  // ------------------------------------------------- on versions as printed

  function Digit(d: nat): char
    requires d < 10
  {
    ('0' as int + d) as char
  }

  /** The decimal numeral. */
  function Decimal(n: nat): string {
    if n < 10 then [Digit(n)] else Decimal(n / 10) + [Digit(n % 10)]
  }

  predicate AllDigits(s: string) {
    s != "" && forall i | 0 <= i < |s| :: IsDigit(s[i])
  }

  lemma {:induction false} DecimalIs(n: nat)
    ensures AllDigits(Decimal(n)) && Value(Decimal(n)) == n
  {
    var s := Decimal(n);
    if n < 10 {
      assert s[..0] == "" && Value(s[..0]) == 0;
    } else {
      DecimalIs(n / 10);
      assert s[..|s| - 1] == Decimal(n / 10);
    }
  }

  lemma {:induction false} DigitsOfNumeral(s: string)
    requires forall i | 0 <= i < |s| :: IsDigit(s[i])
    ensures Digits(s) == s
  {
    if s != "" { DigitsOfNumeral(s[1..]); }
  }

  lemma DigitIsPlain(c: char)
    requires IsDigit(c)
    ensures !IsBlank(c) && c != '+' && c != '-' && c != '.' && c != 'v'
  {}

  /** A component is read as the number it prints. */
  lemma ScanDecimal(n: nat)
    requires n < 0x8000_0000_0000_0000
    ensures ScanInt(Decimal(n)) == n
  {
    var s := Decimal(n);
    DecimalIs(n);
    DigitIsPlain(s[0]);
    DigitsOfNumeral(s);
  }

  lemma {:induction false} BlanksSkipped(blanks: string, rest: string)
    requires (forall i | 0 <= i < |blanks| :: IsBlank(blanks[i])) && (rest != "" ==> !IsBlank(rest[0]))
    ensures SkipBlanks(blanks + rest) == rest
  {
    if blanks == "" {
      assert blanks + rest == rest;
    } else {
      assert (blanks + rest)[1..] == blanks[1..] + rest;
      BlanksSkipped(blanks[1..], rest);
    }
  }

  lemma {:induction false} DigitsStop(digits: string, rest: string)
    requires (forall i | 0 <= i < |digits| :: IsDigit(digits[i])) && (rest != "" ==> !IsDigit(rest[0]))
    ensures Digits(digits + rest) == digits
  {
    if digits == "" {
      assert digits + rest == rest;
    } else {
      assert (digits + rest)[1..] == digits[1..] + rest;
      DigitsStop(digits[1..], rest);
    }
  }

  /** A component in full: blanks, a sign, a number and anything after it; the number decides, zero when
      there is none or it does not fit in 64 bits. */
  lemma ScanIs(blanks: string, sign: string, digits: string, rest: string)
    requires (forall i | 0 <= i < |blanks| :: IsBlank(blanks[i])) && sign in {"", "+", "-"}
    requires (forall i | 0 <= i < |digits| :: IsDigit(digits[i])) && (rest != "" ==> !IsDigit(rest[0]))
    requires sign == "" && digits == "" && rest != "" ==> !IsBlank(rest[0]) && rest[0] !in {'+', '-'}
    ensures var n: int := Value(digits);
            var m := if sign == "-" then -n else n;
            ScanInt(blanks + (sign + (digits + rest)))
            == if -0x8000_0000_0000_0000 <= m < 0x8000_0000_0000_0000 then m else 0
  {
    FirstIsNoBlank(sign, digits, rest);
    ScanSkips(blanks, sign + (digits + rest));
    SignedIs(sign, digits, rest);
  }

  lemma ScanSkips(blanks: string, t: string)
    requires (forall i | 0 <= i < |blanks| :: IsBlank(blanks[i])) && (t != "" ==> !IsBlank(t[0]))
    ensures ScanInt(blanks + t) == ScanNumber(t)
  {
    BlanksSkipped(blanks, t);
  }

  lemma FirstIsNoBlank(sign: string, digits: string, rest: string)
    requires sign in {"", "+", "-"} && (forall i | 0 <= i < |digits| :: IsDigit(digits[i]))
    requires sign == "" && digits == "" && rest != "" ==> !IsBlank(rest[0])
    ensures var t := sign + (digits + rest); t != "" ==> !IsBlank(t[0])
  {
    if sign == "" && digits != "" { DigitIsPlain(digits[0]); }
  }

  lemma SignedIs(sign: string, digits: string, rest: string)
    requires sign in {"", "+", "-"} && (forall i | 0 <= i < |digits| :: IsDigit(digits[i]))
    requires rest != "" ==> !IsDigit(rest[0])
    requires sign == "" && digits == "" && rest != "" ==> rest[0] !in {'+', '-'}
    ensures var n: int := Value(digits);
            var m := if sign == "-" then -n else n;
            ScanNumber(sign + (digits + rest))
            == if -0x8000_0000_0000_0000 <= m < 0x8000_0000_0000_0000 then m else 0
  {
    DigitsStop(digits, rest);
    if sign == "" {
      if digits != "" { DigitIsPlain(digits[0]); }
      assert sign + (digits + rest) == digits + rest;
    } else {
      assert (sign + (digits + rest))[0] == sign[0] && (sign + (digits + rest))[1..] == digits + rest;
    }
    NumberIs(sign + (digits + rest), sign, digits);
  }

  lemma NumberIs(t: string, sign: string, digits: string)
    requires sign in {"", "+", "-"}
    requires sign == "" ==> (t != "" ==> t[0] !in {'+', '-'}) && Digits(t) == digits
    requires sign != "" ==> t != "" && t[0] == sign[0] && Digits(t[1..]) == digits
    requires forall i | 0 <= i < |digits| :: IsDigit(digits[i])
    ensures var n: int := Value(digits);
            var m := if sign == "-" then -n else n;
            ScanNumber(t) == if -0x8000_0000_0000_0000 <= m < 0x8000_0000_0000_0000 then m else 0
  {
    assert "+"[0] == '+' && "-"[0] == '-';
  }

  function Dotted(ns: seq<nat>): string
    requires ns != []
  {
    if |ns| == 1 then Decimal(ns[0]) else Decimal(ns[0]) + "." + Dotted(ns[1..])
  }

  /** A release number, with or without a leading v and a suffix. */
  function Printed(ns: seq<nat>, v: bool, suffix: Option<string>): string
    requires ns != []
  {
    (if v then "v" else "") + (Dotted(ns) + if suffix.Some? then "-" + suffix.value else "")
  }

  lemma {:induction false} SplitWord(w: string, rest: string)
    requires '.' !in w
    ensures SplitDots(w + "." + rest) == [w] + SplitDots(rest)
  {
    if w == "" {
      assert w + "." + rest == "." + rest && ("." + rest)[1..] == rest;
    } else {
      assert (w + "." + rest)[1..] == w[1..] + "." + rest && (w + "." + rest)[0] == w[0];
      SplitWord(w[1..], rest);
      assert [w[0]] + w[1..] == w;
      assert ([w[1..]] + SplitDots(rest))[1..] == SplitDots(rest);
    }
  }

  lemma {:induction false} SplitLast(w: string)
    requires '.' !in w
    ensures SplitDots(w) == [w]
  {
    if w != "" {
      SplitLast(w[1..]);
      assert [w[0]] + w[1..] == w;
    }
  }

  lemma NumeralHasNoDot(n: nat)
    ensures '.' !in Decimal(n) && '-' !in Decimal(n)
  {
    DecimalIs(n);
  }

  lemma {:induction false} NumbersOfDotted(ns: seq<nat>)
    requires ns != [] && forall i | 0 <= i < |ns| :: ns[i] < 0x8000_0000_0000_0000
    ensures Numbers(SplitDots(Dotted(ns))) == ns
    ensures '-' !in Dotted(ns) && IsDigit(Dotted(ns)[0])
  {
    var w := Decimal(ns[0]);
    ScanDecimal(ns[0]);
    DecimalIs(ns[0]);
    NumeralHasNoDot(ns[0]);
    if |ns| == 1 {
      SplitLast(w);
    } else {
      var rest := Dotted(ns[1..]);
      NumbersOfDotted(ns[1..]);
      SplitWord(w, rest);
      NumbersOfCons(w, SplitDots(rest));
      assert [ns[0]] + ns[1..] == ns;
    }
  }

  lemma NumbersOfCons(w: string, parts: seq<string>)
    ensures Numbers([w] + parts) == [ScanInt(w)] + Numbers(parts)
  {}

  lemma {:induction false} BaseOf(b: string, tail: string)
    requires '-' !in b && (tail == "" || tail[0] == '-')
    ensures ExtractBase(b + tail) == (b, tail != "")
  {
    if b == "" {
      assert b + tail == tail;
    } else {
      assert (b + tail)[0] == b[0] && (b + tail)[1..] == b[1..] + tail;
      BaseOf(b[1..], tail);
      assert [b[0]] + b[1..] == b;
    }
  }

  /** The components of a printed release number come back, and so does whether it has a suffix. */
  lemma PrintedParts(ns: seq<nat>, v: bool, suffix: Option<string>)
    requires ns != [] && forall i | 0 <= i < |ns| :: ns[i] < 0x8000_0000_0000_0000
    ensures Parts(Printed(ns, v, suffix)) == ns
    ensures HasSuffix(Printed(ns, v, suffix)) == suffix.Some?
  {
    var text := Printed(ns, v, suffix);
    var tail := if suffix.Some? then "-" + suffix.value else "";
    NumbersOfDotted(ns);
    BaseOf(Dotted(ns), tail);
    assert TrimV(text) == Dotted(ns) + tail by {
      if v {
        assert text[0] == 'v' && text[1..] == Dotted(ns) + tail;
      } else {
        assert text == Dotted(ns) + tail && text[0] == Dotted(ns)[0];
      }
    }
  }

  /** The k-th number, zero beyond the end. */
  function Nth(ns: seq<nat>, k: nat): nat { if k < |ns| then ns[k] else 0 }

  ghost predicate DiffersAt(p: seq<nat>, q: seq<nat>, k: nat) {
    Nth(p, k) < Nth(q, k) && forall i: nat | i < k :: Nth(p, i) == Nth(q, i)
  }

  /** What the comparison says about printed release numbers, in terms of their numbers alone: the first
      that differs decides, missing ones counting as zero; between equal ones a suffix is newer. */
  lemma ComparePrinted(p: seq<nat>, v: bool, a: Option<string>, q: seq<nat>, w: bool, b: Option<string>)
    requires p != [] && forall i | 0 <= i < |p| :: p[i] < 0x8000_0000_0000_0000
    requires q != [] && forall i | 0 <= i < |q| :: q[i] < 0x8000_0000_0000_0000
    ensures CompareVersions(Printed(p, v, a), Printed(q, w, b)) == -1 <==>
              (exists k: nat :: DiffersAt(p, q, k))
              || ((forall k: nat :: Nth(p, k) == Nth(q, k)) && a.None? && b.Some?)
    ensures CompareVersions(Printed(p, v, a), Printed(q, w, b)) == 0 <==>
              (forall k: nat :: Nth(p, k) == Nth(q, k)) && (a.Some? <==> b.Some?)
  {
    PrintedParts(p, v, a);
    PrintedParts(q, w, b);
    CompareMeans(Printed(p, v, a), Printed(q, w, b));
    assert forall k: nat :: Part(p, k) == Nth(p, k) && Part(q, k) == Nth(q, k);
    assert forall k: nat :: LowerAt(p, q, k) <==> DiffersAt(p, q, k);
  }

  // ---------------------------------------------------------------- the code

  method Component(parts: seq<string>, i: nat) returns (num: int)
    ensures num == Part(Numbers(parts), i)
  {
    num := 0;
    if i < |parts| { num := ScanInt(parts[i]); }
  }

  method CompareBaseVersions(base1: string, base2: string) returns (c: int)
    ensures c == CompareBases(Numbers(SplitDots(base1)), Numbers(SplitDots(base2)))
  {
    var parts1, parts2 := SplitDots(base1), SplitDots(base2);
    var maxLen := |parts1|;
    if |parts2| > maxLen {
      maxLen := |parts2|;
    }
    for i := 0 to maxLen
      invariant CompareBases(Numbers(parts1), Numbers(parts2))
                == CompareFrom(Numbers(parts1), Numbers(parts2), i, maxLen)
    {
      var num1 := Component(parts1, i);
      var num2 := Component(parts2, i);
      if num1 < num2 { return -1; }
      if num1 > num2 { return 1; }
    }
    c := 0;
  }

  method Compare(v1: string, v2: string) returns (c: int)
    ensures c == CompareVersions(v1, v2)
    ensures (c < 0 <==> Older(v1, v2)) && (c == 0 <==> SameVersion(v1, v2))
  {
    CompareMeans(v1, v2);
    var (base1, hasSuffix1) := ExtractBase(TrimV(v1));
    var (base2, hasSuffix2) := ExtractBase(TrimV(v2));
    c := CompareBaseVersions(base1, base2);
    if c != 0 { return; }
    if hasSuffix1 && !hasSuffix2 { return 1; }
    if !hasSuffix1 && hasSuffix2 { return -1; }
    c := 0;
  }
}
