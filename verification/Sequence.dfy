/** Issue and volume numbers as text: parsing, normal forms and sort keys, on ASCII input. */
module Sequence {
  import opened Basics

  datatype Kind = Integer | Decimal | Alphanumeric | Range | Symbolic

  datatype SortKey = SortKey(rank: nat, number: nat, text: string)

  datatype Number = Number(raw: string, normalized: string, kind: Kind, key: SortKey, width: nat)

  // ---------------------------------------------------------------- characters and digits

  predicate IsDigit(c: char) {
    '0' <= c <= '9'
  }

  predicate IsLetter(c: char) {
    'a' <= c <= 'z' || 'A' <= c <= 'Z'
  }

  predicate IsSpace(c: char) {
    c as int in {9, 10, 11, 12, 13, 28, 29, 30, 31, 32}
  }

  function UpperChar(c: char): char {
    if 'a' <= c <= 'z' then (c as int - 32) as char else c
  }

  function LowerChar(c: char): char {
    if 'A' <= c <= 'Z' then (c as int + 32) as char else c
  }

  function Upper(s: string): (r: string)
    ensures |r| == |s| && forall i :: 0 <= i < |s| ==> r[i] == UpperChar(s[i])
  {
    seq(|s|, i requires 0 <= i < |s| => UpperChar(s[i]))
  }

  function Lower(s: string): (r: string)
    ensures |r| == |s| && forall i :: 0 <= i < |s| ==> r[i] == LowerChar(s[i])
  {
    seq(|s|, i requires 0 <= i < |s| => LowerChar(s[i]))
  }

  predicate AllDigits(s: string) {
    forall i :: 0 <= i < |s| ==> IsDigit(s[i])
  }

  predicate AllLetters(s: string) {
    forall i :: 0 <= i < |s| ==> IsLetter(s[i])
  }

  /** The length of the leading run of digits. */
  function Span(s: string): (n: nat)
    ensures n <= |s| && AllDigits(s[..n]) && (n < |s| ==> !IsDigit(s[n]))
  {
    if s == "" || !IsDigit(s[0]) then 0
    else
      var n := Span(s[1..]);
      assert s[..n + 1] == [s[0]] + s[1..][..n];
      n + 1
  }

  lemma {:induction false} SpanOf(d: string, r: string)
    requires AllDigits(d) && (r == "" || !IsDigit(r[0]))
    ensures Span(d + r) == |d|
  {
    if d == "" {
      assert d + r == r;
    } else {
      assert (d + r)[1..] == d[1..] + r;
      SpanOf(d[1..], r);
    }
  }

  function DropSpaces(s: string): (r: string)
    ensures |r| <= |s| && (r != "" ==> !IsSpace(r[0]))
  {
    if s != "" && IsSpace(s[0]) then DropSpaces(s[1..]) else s
  }

  function Strip(s: string): string {
    var t := DropSpaces(s);
    StripEnd(t)
  }

  function StripEnd(s: string): string {
    if s != "" && IsSpace(s[|s| - 1]) then StripEnd(s[..|s| - 1]) else s
  }

  predicate Trim(s: string) {
    s != "" ==> !IsSpace(s[0]) && !IsSpace(s[|s| - 1])
  }

  lemma StripTrim(s: string)
    requires Trim(s)
    ensures Strip(s) == s
  {
  }

  lemma {:induction false} StripEndTrims(s: string)
    requires s != "" ==> !IsSpace(s[0])
    ensures Trim(StripEnd(s)) && StripEnd(s) <= s
  {
    if s != "" && IsSpace(s[|s| - 1]) { StripEndTrims(s[..|s| - 1]); }
  }

  /** int() of a string of digits, and str() of a number. */
  function ToNat(s: string): nat {
    if s == "" then 0 else 10 * ToNat(s[..|s| - 1]) + if IsDigit(s[|s| - 1]) then s[|s| - 1] as int - 48 else 0
  }

  function Digit(n: nat): char
    requires n < 10
  {
    (n + 48) as char
  }

  function ToText(n: nat): (s: string)
    ensures s != "" && AllDigits(s)
  {
    if n < 10 then [Digit(n)] else ToText(n / 10) + [Digit(n % 10)]
  }

  lemma {:induction false} TextRoundTrip(n: nat)
    ensures ToNat(ToText(n)) == n
  {
    if n >= 10 {
      TextRoundTrip(n / 10);
      var s := ToText(n / 10);
      assert (s + [Digit(n % 10)])[..|s|] == s;
    } else {
      assert [Digit(n)][..0] == "";
    }
  }

  function Zeros(n: nat): (s: string)
    ensures |s| == n && forall i :: 0 <= i < n ==> s[i] == '0'
  {
    seq(n, i => '0')
  }

  lemma {:induction false} LeadingZeros(k: nat, s: string)
    ensures ToNat(Zeros(k) + s) == ToNat(s)
    decreases k, |s|
  {
    if s != "" {
      assert (Zeros(k) + s)[..|Zeros(k) + s| - 1] == Zeros(k) + s[..|s| - 1];
      LeadingZeros(k, s[..|s| - 1]);
    } else if k > 0 {
      assert (Zeros(k) + s)[..k - 1] == Zeros(k - 1) + "";
      LeadingZeros(k - 1, "");
    }
  }

  /** rstrip("0") or "0". */
  function TrimZeros(s: string): string {
    if s != "" && s[|s| - 1] == '0' then TrimZeros(s[..|s| - 1]) else s
  }

  function Fraction(s: string): string {
    if TrimZeros(s) == "" then "0" else TrimZeros(s)
  }

  /** ljust(18, "0"). */
  function Padded(s: string): string {
    if |s| < 18 then s + Zeros(18 - |s|) else s
  }

  /** Every run of blanks becomes one space. */
  function Collapse(s: string): string
    decreases |s|
  {
    if s == "" then ""
    else if IsSpace(s[0]) then [' '] + Collapse(DropSpaces(s[1..]))
    else [s[0]] + Collapse(s[1..])
  }

  // ---------------------------------------------------------------- parsing

  predicate IsInteger(s: string) {
    s != "" && AllDigits(s)
  }

  predicate IsDecimal(s: string) {
    var n := Span(s);
    0 < n && n + 1 < |s| && s[n] == '.' && AllDigits(s[n + 1..])
  }

  predicate IsAlphanumeric(s: string) {
    var n := Span(s);
    0 < n < |s| && AllLetters(s[n..])
  }

  predicate IsRange(s: string) {
    var n := Span(s);
    var r := DropSpaces(s[n..]);
    0 < n && r != "" && r[0] == '-' && DropSpaces(r[1..]) != "" && AllDigits(DropSpaces(r[1..]))
  }

  function RangeEnd(s: string): string {
    var r := DropSpaces(s[Span(s)..]);
    if r == "" then "" else DropSpaces(r[1..])
  }

  function PadLeft(s: string, width: nat): string {
    if |s| < width then Zeros(width - |s|) + s else s
  }

  function ParseRaw(raw: string): (r: Number)
    requires raw != ""
  {
    var n := Span(raw);
    var number := ToNat(raw[..n]);
    if IsInteger(raw) then Number(raw, ToText(ToNat(raw)), Integer, SortKey(0, ToNat(raw), ""), |raw|)
    else if IsDecimal(raw) then
      var fraction := Fraction(raw[n + 1..]);
      Number(raw, ToText(number) + "." + fraction, Decimal, SortKey(1, number, Padded(fraction)), 0)
    else if IsAlphanumeric(raw) then
      Number(raw, ToText(number) + Upper(raw[n..]), Alphanumeric, SortKey(2, number, Lower(raw[n..])), 0)
    else if IsRange(raw) then
      var end := ToNat(RangeEnd(raw));
      Number(raw, ToText(number) + "-" + ToText(end), Range, SortKey(3, number, PadLeft(ToText(end), 9)), 0)
    else
      var normalized := Upper(Collapse(raw));
      Number(raw, normalized, Symbolic, SortKey(4, 0, Lower(normalized)), 0)
  }

  /** None is the error of an empty sequence number. */
  function Parse(value: string): Option<Number> {
    var raw := Strip(value);
    if raw == "" then None else Some(ParseRaw(raw))
  }

  function Render(s: Number, minimumWidth: nat): string {
    if s.kind == Integer
    then PadLeft(ToText(ToNat(s.normalized)), if minimumWidth >= s.width then minimumWidth else s.width)
    else s.normalized
  }

  // ---------------------------------------------------------------- normal forms parse to themselves

  /** The same number, read again. */
  predicate SameNumber(a: Number, b: Option<Number>) {
    b.Some? && b.value.normalized == a.normalized && b.value.kind == a.kind && b.value.key == a.key
  }

  lemma Split(d: string, r: string)
    requires AllDigits(d) && (r == "" || !IsDigit(r[0]))
    ensures Span(d + r) == |d| && (d + r)[..|d|] == d && (d + r)[|d|..] == r
  {
    SpanOf(d, r);
  }

  lemma IntegerAgain(n: nat, zeros: nat)
    ensures var t := Zeros(zeros) + ToText(n);
            && Parse(t).Some? && Parse(t).value.kind == Integer
            && Parse(t).value.normalized == ToText(n) && Parse(t).value.key == SortKey(0, n, "")
  {
    var t := Zeros(zeros) + ToText(n);
    assert AllDigits(t);
    StripTrim(t);
    LeadingZeros(zeros, ToText(n));
    TextRoundTrip(n);
  }

  lemma {:induction false} TrimmedZeros(s: string)
    requires AllDigits(s)
    ensures AllDigits(TrimZeros(s)) && TrimZeros(TrimZeros(s)) == TrimZeros(s)
  {
    if s != "" && s[|s| - 1] == '0' { TrimmedZeros(s[..|s| - 1]); }
  }

  lemma FractionAgain(s: string)
    requires AllDigits(s)
    ensures Fraction(s) != "" && AllDigits(Fraction(s)) && Fraction(Fraction(s)) == Fraction(s)
  {
    TrimmedZeros(s);
    assert TrimZeros("0") == "" by { assert "0"[..0] == ""; }
  }

  lemma UpperTwice(s: string)
    ensures Upper(Upper(s)) == Upper(s) && Lower(Upper(s)) == Lower(s)
    ensures AllLetters(s) ==> AllLetters(Upper(s))
  {
  }

  /** A text made of digits and something else parses by what the rest looks like. */
  lemma ShapeOf(n: nat, r: string) returns (t: string)
    requires r != "" && !IsDigit(r[0]) && !IsSpace(r[|r| - 1])
    ensures t == ToText(n) + r && Strip(t) == t && t != ""
    ensures Span(t) == |ToText(n)| > 0 && t[..Span(t)] == ToText(n) && t[Span(t)..] == r && ToNat(t[..Span(t)]) == n
    ensures !IsInteger(t) && (IsDecimal(t) <==> r[0] == '.' && |r| > 1 && AllDigits(r[1..]))
    ensures IsAlphanumeric(t) <==> AllLetters(r)
  {
    var d := ToText(n);
    t := d + r;
    Split(d, r);
    assert t[|d|] == r[0] && t[|d| + 1..] == r[1..] && t[|t| - 1] == r[|r| - 1];
    StripTrim(t);
    TextRoundTrip(n);
  }

  lemma DecimalAgain(n: nat, f: string)
    requires f != "" && AllDigits(f) && Fraction(f) == f
    ensures var t := ToText(n) + "." + f;
            && Parse(t).Some? && Parse(t).value.kind == Decimal
            && Parse(t).value.normalized == t && Parse(t).value.key == SortKey(1, n, Padded(f))
  {
    hide Strip, IsInteger, IsDecimal, IsAlphanumeric, IsRange, ToText, ToNat, Fraction, Padded, Span;
    var r := "." + f;
    assert ToText(n) + "." + f == ToText(n) + r;
    assert r[|r| - 1] == f[|f| - 1] && r[1..] == f;
    var t := ShapeOf(n, r);
    assert t[Span(t) + 1..] == t[Span(t)..][1..] == f;
  }

  lemma AlphanumericAgain(n: nat, letters: string)
    requires letters != "" && AllLetters(letters)
    ensures var t := ToText(n) + Upper(letters);
            && Parse(t).Some? && Parse(t).value.kind == Alphanumeric
            && Parse(t).value.normalized == t && Parse(t).value.key == SortKey(2, n, Lower(letters))
  {
    var r := Upper(letters);
    UpperTwice(letters);
    assert IsLetter(r[0]) && IsLetter(r[|r| - 1]);
    hide Strip, IsInteger, IsDecimal, IsAlphanumeric, IsRange, ToText, ToNat, AllLetters;
    var t := ShapeOf(n, r);
  }

  lemma RangeAgain(n: nat, end: nat)
    ensures var t := ToText(n) + "-" + ToText(end);
            && Parse(t).Some? && Parse(t).value.kind == Range
            && Parse(t).value.normalized == t && Parse(t).value.key == SortKey(3, n, PadLeft(ToText(end), 9))
  {
    hide Strip, IsInteger, IsDecimal, IsAlphanumeric, IsRange, ToText, ToNat, RangeEnd, PadLeft, Span, DropSpaces,
      ParseRaw;
    var e := ToText(end);
    var r := "-" + e;
    assert ToText(n) + "-" + e == ToText(n) + r;
    assert r[|r| - 1] == e[|e| - 1] && r[0] == '-';
    TextRoundTrip(end);
    var t := ShapeOf(n, r);
    RangeShape(t, r, e);
    assert !AllLetters(r) by { assert !IsLetter(r[0]); }
    assert !IsDecimal(t);
    ParsedRange(t);
  }

  lemma ParsedRange(t: string)
    requires t != "" && !IsInteger(t) && !IsDecimal(t) && !IsAlphanumeric(t) && IsRange(t)
    ensures var number, end := ToNat(t[..Span(t)]), ToNat(RangeEnd(t));
            ParseRaw(t) == Number(t, ToText(number) + "-" + ToText(end), Range,
              SortKey(3, number, PadLeft(ToText(end), 9)), 0)
  {
  }

  lemma RangeShape(t: string, r: string, e: string)
    requires 0 < Span(t) && t[Span(t)..] == r && r == "-" + e && e != "" && AllDigits(e)
    ensures IsRange(t) && RangeEnd(t) == e
  {
    assert DropSpaces(r) == r && r[1..] == e && DropSpaces(e) == e;
  }

  // ---------------------------------------------------------------- symbolic numbers

  lemma {:induction false} SpanUnique(s: string, n: nat)
    requires n <= |s| && AllDigits(s[..n]) && (n < |s| ==> !IsDigit(s[n]))
    ensures Span(s) == n
  {
    var m := Span(s);
    assert forall i :: 0 <= i < m ==> s[..m][i] == s[i];
    assert forall i :: 0 <= i < n ==> s[..n][i] == s[i];
  }

  lemma {:induction false} CollapsePlain(s: string)
    ensures (forall i :: 0 <= i < |s| ==> !IsSpace(s[i])) ==> Collapse(s) == s
    ensures (exists i :: 0 <= i < |s| && IsSpace(s[i])) ==>
              exists i :: 0 <= i < |Collapse(s)| && IsSpace(Collapse(s)[i])
    ensures s != "" ==> Collapse(s) != "" && (if IsSpace(s[0]) then Collapse(s)[0] == ' ' else Collapse(s)[0] == s[0])
    decreases |s|
  {
    if s != "" {
      if IsSpace(s[0]) {
        assert Collapse(s)[0] == ' ';
      } else {
        CollapsePlain(s[1..]);
        assert forall i :: 0 < i < |s| ==> s[i] == s[1..][i - 1];
        var c := Collapse(s[1..]);
        if i :| 0 <= i < |s| && IsSpace(s[i]) {
          assert IsSpace(s[1..][i - 1]);
          var j :| 0 <= j < |c| && IsSpace(c[j]);
          assert Collapse(s)[j + 1] == c[j];
        }
        assert s == [s[0]] + s[1..];
      }
    }
  }

  lemma {:induction false} CollapseEnd(s: string)
    requires s != "" && !IsSpace(s[|s| - 1])
    ensures Collapse(s) != "" && !IsSpace(Collapse(s)[|Collapse(s)| - 1])
    decreases |s|
  {
    if IsSpace(s[0]) {
      var d := DropSpaces(s[1..]);
      DropEnd(s[1..]);
      CollapseEnd(d);
    } else if |s| > 1 {
      CollapseEnd(s[1..]);
    }
  }

  lemma {:induction false} DropEnd(s: string)
    requires s != "" && !IsSpace(s[|s| - 1])
    ensures DropSpaces(s) != "" && DropSpaces(s)[|DropSpaces(s)| - 1] == s[|s| - 1]
  {
    if IsSpace(s[0]) { DropEnd(s[1..]); }
  }

  lemma {:induction false} CollapseDigits(s: string)
    ensures Span(s) <= |Collapse(s)| && Collapse(s) == s[..Span(s)] + Collapse(s[Span(s)..])
  {
    if s != "" && IsDigit(s[0]) {
      CollapseDigits(s[1..]);
      var n := Span(s[1..]);
      assert s[..n + 1] == [s[0]] + s[1..][..n] && s[n + 1..] == s[1..][n..];
      assert Collapse(s) == [s[0]] + (s[1..][..n] + Collapse(s[n + 1..]));
    } else {
      assert s[..0] + Collapse(s[0..]) == Collapse(s) by { assert s[0..] == s; }
    }
  }

  lemma {:induction false} DropUpper(s: string)
    ensures DropSpaces(Upper(s)) == Upper(DropSpaces(s))
  {
    if s != "" && IsSpace(s[0]) {
      assert Upper(s)[1..] == Upper(s[1..]);
      DropUpper(s[1..]);
    }
  }

  lemma {:induction false} CollapseUpper(s: string)
    ensures Collapse(Upper(s)) == Upper(Collapse(s))
    decreases |s|
  {
    if s != "" {
      assert Upper(s)[1..] == Upper(s[1..]);
      if IsSpace(s[0]) {
        var d := DropSpaces(s[1..]);
        DropUpper(s[1..]);
        CollapseUpper(d);
        assert Upper([' '] + Collapse(d)) == [' '] + Upper(Collapse(d));
      } else {
        CollapseUpper(s[1..]);
        assert Upper([s[0]] + Collapse(s[1..])) == [UpperChar(s[0])] + Upper(Collapse(s[1..]));
      }
    }
  }

  lemma DropCollapse(s: string)
    ensures DropSpaces(Collapse(s)) == Collapse(DropSpaces(s))
  {
    if s != "" && IsSpace(s[0]) {
      var d := DropSpaces(s[1..]);
      var c := Collapse(d);
      CollapsePlain(d);
      assert Collapse(s) == [' '] + c && Collapse(s)[1..] == c;
      assert DropSpaces(c) == c;
    } else {
      CollapsePlain(s);
    }
  }

  lemma {:induction false} CollapseTwice(s: string)
    ensures Collapse(Collapse(s)) == Collapse(s)
    decreases |s|
  {
    if s != "" {
      if IsSpace(s[0]) {
        var d := DropSpaces(s[1..]);
        CollapseTwice(d);
        CollapsePlain(d);
        var c := Collapse(d);
        assert Collapse(s)[1..] == c && DropSpaces(c) == c;
      } else {
        CollapseTwice(s[1..]);
        assert Collapse(s)[1..] == Collapse(s[1..]);
      }
    }
  }

  function Symbol(s: string): string {
    Upper(Collapse(s))
  }

  lemma UpperParts(digits: string, rest: string)
    requires AllDigits(digits)
    ensures Upper(digits + rest) == digits + Upper(rest)
  {
  }

  /** The leading digits survive, and the rest is the symbol of the rest. */
  lemma SymbolSplit(s: string)
    ensures Symbol(s) == s[..Span(s)] + Symbol(s[Span(s)..])
  {
    hide Collapse, Span, Upper;
    CollapseDigits(s);
    UpperParts(s[..Span(s)], Collapse(s[Span(s)..]));
  }

  lemma SymbolSpan(s: string)
    ensures Span(Symbol(s)) == Span(s) && Symbol(s)[Span(s)..] == Symbol(s[Span(s)..])
  {
    hide Symbol, Span;
    var r := s[Span(s)..];
    SymbolSplit(s);
    SymbolHead(r);
    if r != "" {
      var q := Symbol(r);
      assert !IsDigit(r[0]) && !IsDigit(q[0]);
    }
    SpanOf(s[..Span(s)], Symbol(r));
  }

  lemma SymbolFixed(s: string)
    ensures Symbol(Symbol(s)) == Symbol(s)
  {
    CollapseUpper(Collapse(s));
    CollapseTwice(s);
    UpperTwice(Collapse(s));
  }

  lemma SymbolHead(s: string)
    ensures Symbol(s) == "" <==> s == ""
    ensures s != "" && !IsSpace(s[0]) ==> Symbol(s)[0] == UpperChar(s[0]) && Symbol(s)[1..] == Symbol(s[1..])
    ensures s != "" && IsSpace(s[0]) ==> Symbol(s)[0] == ' '
  {
    CollapsePlain(s);
    if s != "" && !IsSpace(s[0]) {
      assert Collapse(s) == [s[0]] + Collapse(s[1..]);
    }
  }

  lemma SymbolDrop(s: string)
    ensures DropSpaces(Symbol(s)) == Symbol(DropSpaces(s))
  {
    DropUpper(Collapse(s));
    DropCollapse(s);
  }

  lemma SymbolClasses(s: string)
    ensures AllDigits(Symbol(s)) <==> AllDigits(s)
    ensures AllLetters(Symbol(s)) <==> AllLetters(s)
  {
    CollapsePlain(s);
    var c := Collapse(s);
    if i :| 0 <= i < |c| && IsSpace(c[i]) {
      assert Symbol(s)[i] == UpperChar(c[i]);
    }
  }

  lemma SameDecimal(s: string)
    ensures IsDecimal(Symbol(s)) <==> IsDecimal(s)
    ensures IsAlphanumeric(Symbol(s)) <==> IsAlphanumeric(s)
  {
    var t, n := Symbol(s), Span(s);
    var r := s[n..];
    SymbolSpan(s);
    SymbolHead(r);
    SymbolClasses(r);
    if r != "" {
      SymbolHead(r[1..]);
      SymbolClasses(r[1..]);
    }
    hide Symbol, AllDigits, AllLetters;
    var q := Symbol(r);
    assert |t| == n + |q| && |s| == n + |r|;
    if r != "" {
      assert t[n] == q[0] && s[n] == r[0] && t[n + 1..] == q[1..] && s[n + 1..] == r[1..];
    }
  }

  /** A text and its symbol have the same shape. */
  lemma SameShape(s: string)
    ensures IsInteger(Symbol(s)) <==> IsInteger(s)
    ensures IsDecimal(Symbol(s)) <==> IsDecimal(s)
    ensures IsAlphanumeric(Symbol(s)) <==> IsAlphanumeric(s)
    ensures IsRange(Symbol(s)) <==> IsRange(s)
  {
    SymbolHead(s);
    SymbolClasses(s);
    SameDecimal(s);
    SameRange(s);
    hide Symbol, IsDecimal, IsAlphanumeric, IsRange;
  }

  lemma SameRange(s: string)
    ensures IsRange(Symbol(s)) <==> IsRange(s)
  {
    var r := s[Span(s)..];
    var d := DropSpaces(r);
    SymbolSpan(s);
    SymbolDrop(r);
    SymbolHead(d);
    if d != "" {
      SymbolDrop(d[1..]);
      SymbolHead(DropSpaces(d[1..]));
      SymbolClasses(DropSpaces(d[1..]));
    }
    hide Symbol, AllDigits, DropSpaces;
  }

  /** A symbolic number's normal form has none of the other shapes, and is its own normal form. */
  lemma SymbolicAgain(s: string)
    requires s != "" && Trim(s) && !IsInteger(s) && !IsDecimal(s) && !IsAlphanumeric(s) && !IsRange(s)
    ensures var t := Symbol(s);
            && Parse(t).Some? && Parse(t).value.kind == Symbolic
            && Parse(t).value.normalized == t && Parse(t).value.key == SortKey(4, 0, Lower(t))
  {
    var t := Symbol(s);
    SymbolHead(s);
    CollapseEnd(s);
    StripTrim(t);
    SameShape(s);
    SymbolFixed(s);
    hide IsInteger, IsDecimal, IsAlphanumeric, IsRange, Collapse, Strip;
  }

  // ---------------------------------------------------------------- the round trips

  lemma RawAgain(raw: string)
    requires raw != "" && Trim(raw)
    ensures SameNumber(ParseRaw(raw), Parse(ParseRaw(raw).normalized))
  {
    var n := Span(raw);
    var number := ToNat(raw[..n]);
    if IsInteger(raw) {
      assert Zeros(0) + ToText(ToNat(raw)) == ToText(ToNat(raw));
      IntegerAgain(ToNat(raw), 0);
    } else if IsDecimal(raw) {
      FractionAgain(raw[n + 1..]);
      DecimalAgain(number, Fraction(raw[n + 1..]));
    } else if IsAlphanumeric(raw) {
      AlphanumericAgain(number, raw[n..]);
    } else if IsRange(raw) {
      RangeAgain(number, ToNat(RangeEnd(raw)));
    } else {
      SymbolicAgain(raw);
    }
  }

  lemma ParsedRaw(value: string)
    requires Parse(value).Some?
    ensures Trim(Strip(value)) && Strip(value) != "" && Parse(value).value == ParseRaw(Strip(value))
  {
    StripEndTrims(DropSpaces(value));
  }

  /** Parsing a normal form gives the same normal form, kind and sort key. */
  lemma NormalizedRoundTrip(value: string)
    requires Parse(value).Some?
    ensures SameNumber(Parse(value).value, Parse(Parse(value).value.normalized))
  {
    ParsedRaw(value);
    RawAgain(Strip(value));
  }

  /** A rendered integer is its digits behind some zeros. */
  lemma RenderedInteger(raw: string, minimumWidth: nat) returns (zeros: nat)
    requires raw != "" && IsInteger(raw)
    ensures Render(ParseRaw(raw), minimumWidth) == Zeros(zeros) + ToText(ToNat(raw))
    ensures var s := ParseRaw(raw);
            s.kind == Integer && s.normalized == ToText(ToNat(raw)) && s.key == SortKey(0, ToNat(raw), "")
  {
    hide IsInteger, ToNat, ToText, Zeros;
    var s, text := ParseRaw(raw), ToText(ToNat(raw));
    TextRoundTrip(ToNat(raw));
    var width := if minimumWidth >= s.width then minimumWidth else s.width;
    zeros := if |text| < width then width - |text| else 0;
    NoZeros();
    assert "" + text == text;
  }

  lemma NoZeros()
    ensures Zeros(0) == ""
  {
  }

  /** So does parsing a rendered number, however far integers are padded. */
  lemma RenderedRoundTrip(value: string, minimumWidth: nat)
    requires Parse(value).Some?
    ensures SameNumber(Parse(value).value, Parse(Render(Parse(value).value, minimumWidth)))
  {
    hide Parse, ParseRaw, IsInteger, ToNat, ToText, Zeros, Strip, Trim;
    ParsedRaw(value);
    var raw := Strip(value);
    IntegerKind(raw);
    if IsInteger(raw) {
      var zeros := RenderedInteger(raw, minimumWidth);
      IntegerAgain(ToNat(raw), zeros);
    } else {
      NormalizedRoundTrip(value);
    }
  }

  lemma IntegerKind(raw: string)
    requires raw != ""
    ensures ParseRaw(raw).kind == Integer <==> IsInteger(raw)
  {
  }

  // ---------------------------------------------------------------- decimals

  /** The value of digits after the point. */
  function FractionValue(s: string): real {
    if s == "" then 0.0 else (DigitValue(s[0]) as real + FractionValue(s[1..])) / 10.0
  }

  function DigitValue(c: char): nat {
    if IsDigit(c) then c as int - 48 else 0
  }

  /** Comparison of Python strings. */
  predicate Before(a: string, b: string) {
    b != "" && (a == "" || a[0] < b[0] || (a[0] == b[0] && Before(a[1..], b[1..])))
  }

  lemma {:induction false} FractionBounds(s: string)
    ensures 0.0 <= FractionValue(s) < 1.0
  {
    if s != "" { FractionBounds(s[1..]); }
  }

  lemma {:induction false} ZerosAreNothing(s: string, k: nat)
    ensures FractionValue(s + Zeros(k)) == FractionValue(s)
    decreases |s|, k
  {
    if s != "" {
      assert (s + Zeros(k))[1..] == s[1..] + Zeros(k);
      ZerosAreNothing(s[1..], k);
    } else if k > 0 {
      assert ("" + Zeros(k))[1..] == "" + Zeros(k - 1);
      ZerosAreNothing("", k - 1);
    }
  }

  /** A text of digits that does not end in 0, or is 0 itself, possibly padded to eighteen digits. */
  predicate KeyText(s: string) {
    AllDigits(s) && |s| >= 18 && (|s| > 18 ==> s[|s| - 1] != '0')
  }

  lemma {:induction false} PositiveTail(s: string)
    requires AllDigits(s) && s != "" && s[|s| - 1] != '0'
    ensures FractionValue(s) > 0.0
  {
    if |s| > 1 { PositiveTail(s[1..]); } else { assert s[1..] == ""; }
    FractionBounds(s[1..]);
  }

  /** Texts that agree in length, or whose longer one ends in a digit other than 0, compare like numbers. */
  lemma {:induction false} BeforeIsLess(a: string, b: string)
    requires AllDigits(a) && AllDigits(b)
    requires |a| < |b| ==> b[|b| - 1] != '0'
    requires |b| < |a| ==> a[|a| - 1] != '0'
    ensures Before(a, b) <==> FractionValue(a) < FractionValue(b)
    ensures a == b <==> FractionValue(a) == FractionValue(b)
  {
    FractionBounds(a);
    FractionBounds(b);
    if a == "" || b == "" {
      if b != "" { PositiveTail(b); }
      if a != "" { PositiveTail(a); }
    } else {
      FractionBounds(a[1..]);
      FractionBounds(b[1..]);
      BeforeIsLess(a[1..], b[1..]);
      assert a == [a[0]] + a[1..] && b == [b[0]] + b[1..];
    }
  }

  lemma {:induction false} TrimmedValue(s: string)
    requires AllDigits(s)
    ensures FractionValue(TrimZeros(s)) == FractionValue(s)
    ensures TrimZeros(s) == "" || TrimZeros(s)[|TrimZeros(s)| - 1] != '0'
  {
    if s != "" && s[|s| - 1] == '0' {
      var rest := s[..|s| - 1];
      TrimmedValue(rest);
      assert s == rest + Zeros(1);
      ZerosAreNothing(rest, 1);
    }
  }

  lemma PaddedFraction(f: string)
    requires AllDigits(f)
    ensures KeyText(Padded(Fraction(f))) && FractionValue(Padded(Fraction(f))) == FractionValue(f)
    ensures FractionValue(Fraction(f)) == FractionValue(f)
  {
    TrimmedValue(f);
    TrimmedZeros(f);
    var g := Fraction(f);
    assert FractionValue(g) == FractionValue(f) by {
      if TrimZeros(f) == "" { assert "0" == "" + Zeros(1); ZerosAreNothing("", 1); }
    }
    if |g| < 18 { ZerosAreNothing(g, 18 - |g|); }
  }

  /** The number a decimal text means. */
  function DecimalValue(raw: string): real
    requires IsDecimal(raw)
  {
    ToNat(raw[..Span(raw)]) as real + FractionValue(raw[Span(raw) + 1..])
  }

  /** Comparison of Python tuples. */
  predicate KeyBefore(a: SortKey, b: SortKey) {
    || a.rank < b.rank
    || (a.rank == b.rank && (a.number < b.number || (a.number == b.number && Before(a.text, b.text))))
  }

  lemma ParsedDecimal(raw: string)
    requires IsDecimal(raw)
    ensures var f := raw[Span(raw) + 1..];
            && AllDigits(f) && f != "" && raw != ""
            && ParseRaw(raw).kind == Decimal
            && ParseRaw(raw).key == SortKey(1, ToNat(raw[..Span(raw)]), Padded(Fraction(f)))
            && ParseRaw(raw).normalized == ToText(ToNat(raw[..Span(raw)])) + "." + Fraction(f)
  {
    assert !IsInteger(raw) by { assert raw[Span(raw)] == '.'; }
  }

  lemma FractionsAlike(f: string, g: string)
    requires AllDigits(f) && AllDigits(g)
    ensures Padded(Fraction(f)) == Padded(Fraction(g)) <==> FractionValue(f) == FractionValue(g)
    ensures Before(Padded(Fraction(f)), Padded(Fraction(g))) <==> FractionValue(f) < FractionValue(g)
  {
    hide Padded, Fraction, Before, FractionValue, AllDigits;
    PaddedFraction(f);
    PaddedFraction(g);
    BeforeIsLess(Padded(Fraction(f)), Padded(Fraction(g)));
  }

  /** For decimals of any length the sort keys order as the numbers do. */
  lemma DecimalOrder(a: string, b: string)
    requires IsDecimal(a) && IsDecimal(b)
    ensures KeyBefore(ParseRaw(a).key, ParseRaw(b).key) <==> DecimalValue(a) < DecimalValue(b)
    ensures ParseRaw(a).key == ParseRaw(b).key <==> DecimalValue(a) == DecimalValue(b)
  {
    ParsedDecimal(a);
    ParsedDecimal(b);
    var f, g := a[Span(a) + 1..], b[Span(b) + 1..];
    FractionsAlike(f, g);
    FractionBounds(f);
    FractionBounds(g);
  }

  lemma FractionDetermined(f: string, g: string)
    requires AllDigits(f) && AllDigits(g) && FractionValue(f) == FractionValue(g)
    ensures Fraction(f) == Fraction(g)
  {
    TrimmedZeros(f);
    TrimmedZeros(g);
    TrimmedValue(f);
    TrimmedValue(g);
    BeforeIsLess(TrimZeros(f), TrimZeros(g));
  }

  /** Two decimals have the same value exactly when their normal forms are the same. */
  lemma DecimalEquality(a: string, b: string)
    requires IsDecimal(a) && IsDecimal(b) && Trim(a) && Trim(b)
    ensures ParseRaw(a).normalized == ParseRaw(b).normalized <==> DecimalValue(a) == DecimalValue(b)
  {
    ParsedDecimal(a);
    ParsedDecimal(b);
    DecimalOrder(a, b);
    var f, g := a[Span(a) + 1..], b[Span(b) + 1..];
    if DecimalValue(a) == DecimalValue(b) {
      FractionsAlike(f, g);
      FractionDetermined(f, g);
    }
    RawAgain(a);
    RawAgain(b);
  }

  // ---------------------------------------------------------------- the other kinds

  lemma {:induction false} LastDecides(a: string, b: string, x: char, y: char)
    requires |a| == |b|
    ensures Before(a + [x], b + [y]) <==> Before(a, b) || (a == b && x < y)
  {
    if a == "" {
      assert a + [x] == [x] && b + [y] == [y] && [x][1..] == "" && [y][1..] == "";
    } else {
      assert (a + [x])[1..] == a[1..] + [x] && (b + [y])[1..] == b[1..] + [y];
      assert a == [a[0]] + a[1..] && b == [b[0]] + b[1..];
      LastDecides(a[1..], b[1..], x, y);
    }
  }

  /** Digits of the same length compare like the numbers they mean. */
  lemma {:induction false} SameLength(a: string, b: string)
    requires AllDigits(a) && AllDigits(b) && |a| == |b|
    ensures Before(a, b) <==> ToNat(a) < ToNat(b)
    ensures a == b <==> ToNat(a) == ToNat(b)
  {
    if a != "" {
      var n := |a| - 1;
      assert a == a[..n] + [a[n]] && b == b[..n] + [b[n]];
      LastDecides(a[..n], b[..n], a[n], b[n]);
      SameLength(a[..n], b[..n]);
    }
  }

  lemma PadLeftValue(s: string, width: nat)
    ensures ToNat(PadLeft(s, width)) == ToNat(s) && |PadLeft(s, width)| == if |s| < width then width else |s|
    ensures AllDigits(s) ==> AllDigits(PadLeft(s, width))
  {
    if |s| < width { LeadingZeros(width - |s|, s); }
  }

  /** Integers sort as their texts do when the shorter one is padded with zeros. */
  lemma IntegerOrder(a: string, b: string)
    requires IsInteger(a) && IsInteger(b)
    ensures KeyBefore(ParseRaw(a).key, ParseRaw(b).key) <==> Before(PadLeft(a, |b|), PadLeft(b, |a|))
    ensures ParseRaw(a).key == ParseRaw(b).key <==> PadLeft(a, |b|) == PadLeft(b, |a|)
  {
    hide Before, PadLeft, ToNat, AllDigits;
    PadLeftValue(a, |b|);
    PadLeftValue(b, |a|);
    SameLength(PadLeft(a, |b|), PadLeft(b, |a|));
    assert !Before("", "") by { NothingBefore(""); }
  }

  lemma NothingBefore(s: string)
    ensures !Before(s, "")
  {
  }

  /** Two padded ends of ranges that compare as the numbers do: of the same length, or the shorter one does
      not exceed the leading digits of the longer one. */
  predicate EndsCompare(x: string, y: string) {
    || |x| == |y|
    || (|x| < |y| && ToNat(x) <= ToNat(y[..|x|]))
    || (|y| < |x| && ToNat(y) <= ToNat(x[..|y|]))
  }

  lemma {:induction false} ShorterText(x: string, y: string)
    requires |x| < |y|
    ensures Before(x, y) <==> Before(x, y[..|x|]) || x == y[..|x|]
    ensures Before(y, x) <==> Before(y[..|x|], x)
  {
    if x != "" {
      ShorterText(x[1..], y[1..]);
      assert y[..|x|][1..] == y[1..][..|x| - 1] && x == [x[0]] + x[1..] && y[..|x|] == [y[0]] + y[1..][..|x| - 1];
    }
  }

  lemma {:induction false} LongerIsGreater(x: string, y: string)
    requires AllDigits(x) && AllDigits(y) && |x| < |y| && y[0] != '0'
    ensures ToNat(x) < ToNat(y)
  {
    if x == "" {
      FirstDigitCounts(y);
    } else {
      var m, n := |x| - 1, |y| - 1;
      LongerIsGreater(x[..m], y[..n]);
    }
  }

  lemma {:induction false} FirstDigitCounts(y: string)
    requires AllDigits(y) && y != "" && y[0] != '0'
    ensures ToNat(y) > 0
  {
    if |y| > 1 { FirstDigitCounts(y[..|y| - 1]); } else { assert y[..0] == ""; }
  }

  lemma {:induction false} TextHasNoZeros(n: nat)
    requires n > 0
    ensures ToText(n)[0] != '0'
  {
    if n >= 10 { TextHasNoZeros(n / 10); }
  }

  /** The padded text of a range's end. */
  function EndText(raw: string): string {
    PadLeft(ToText(ToNat(RangeEnd(raw))), 9)
  }

  lemma EndTextValue(e: nat)
    ensures var x := PadLeft(ToText(e), 9); AllDigits(x) && |x| >= 9 && ToNat(x) == e && (|x| > 9 ==> x[0] != '0')
  {
    TextRoundTrip(e);
    PadLeftValue(ToText(e), 9);
    if e > 0 { TextHasNoZeros(e); }
  }

  lemma EndsExactly(d: nat, e: nat)
    ensures var x, y := PadLeft(ToText(d), 9), PadLeft(ToText(e), 9);
            && (x == y <==> d == e)
            && ((Before(x, y) <==> d < e) && (Before(y, x) <==> e < d) <==> EndsCompare(x, y))
  {
    hide PadLeft, ToText, Before, ToNat;
    var x, y := PadLeft(ToText(d), 9), PadLeft(ToText(e), 9);
    EndTextValue(d);
    EndTextValue(e);
    if |x| == |y| {
      SameLength(x, y);
      SameLength(y, x);
    } else if |x| < |y| {
      LongerIsGreater(x, y);
      ShorterText(x, y);
      SameLength(x, y[..|x|]);
      SameLength(y[..|x|], x);
    } else {
      LongerIsGreater(y, x);
      ShorterText(y, x);
      SameLength(y, x[..|y|]);
      SameLength(x[..|y|], y);
    }
  }

  predicate RangeBefore(a: string, b: string)
    requires IsRange(a) && IsRange(b)
  {
    var s, t := ToNat(a[..Span(a)]), ToNat(b[..Span(b)]);
    s < t || (s == t && ToNat(RangeEnd(a)) < ToNat(RangeEnd(b)))
  }

  predicate SortsRight(a: string, b: string)
    requires IsRange(a) && IsRange(b) && a != "" && b != ""
  {
    KeyBefore(ParseRaw(a).key, ParseRaw(b).key) <==> RangeBefore(a, b)
  }

  /** Ranges sort by start and then by end, exactly when the starts differ or the padded ends compare as the
      numbers do. */
  lemma RangeOrder(a: string, b: string)
    requires IsRange(a) && IsRange(b) && a != "" && b != ""
    ensures SortsRight(a, b) && SortsRight(b, a) <==>
              ToNat(a[..Span(a)]) != ToNat(b[..Span(b)]) || EndsCompare(EndText(a), EndText(b))
  {
    hide PadLeft, ToText, Before, ToNat, RangeEnd, EndsCompare, ParseRaw, IsRange;
    RangeKey(a);
    RangeKey(b);
    EndsExactly(ToNat(RangeEnd(a)), ToNat(RangeEnd(b)));
  }

  lemma RangeKey(a: string)
    requires IsRange(a)
    ensures a != "" && ParseRaw(a).key == SortKey(3, ToNat(a[..Span(a)]), EndText(a))
  {
    var r := a[Span(a)..];
    assert r != "" && !IsLetter(r[0]) by { assert r[0] == '-' || IsSpace(r[0]); }
    assert !IsInteger(a) by { assert !IsDigit(a[Span(a)]); }
    assert !IsAlphanumeric(a);
    assert !IsDecimal(a) by { assert a[Span(a)] == r[0]; }
  }

  lemma EndTextIs(d: string)
    requires AllDigits(d) && |d| >= 9 && (|d| > 9 ==> d[0] != '0')
    ensures PadLeft(ToText(ToNat(d)), 9) == d
  {
    hide PadLeft, ToText, ToNat;
    var x := PadLeft(ToText(ToNat(d)), 9);
    EndTextValue(ToNat(d));
    if |x| < |d| { LongerIsGreater(x, d); }
    if |d| < |x| { LongerIsGreater(d, x); }
    SameLength(x, d);
  }

  lemma RangeFrom(start: char, e: string)
    requires IsDigit(start) && AllDigits(e) && |e| >= 9 && (|e| > 9 ==> e[0] != '0')
    ensures var a := [start] + "-" + e;
            IsRange(a) && a != "" && a[..Span(a)] == [start] && EndText(a) == e
  {
    var a := [start] + "-" + e;
    assert a == [start] + ("-" + e);
    Split([start], "-" + e);
    RangeShape(a, "-" + e, e);
    EndTextIs(e);
  }

  /** Ten digits may sort before nine. */
  lemma LongEndsExample()
    ensures var a, b := "1-999999999", "1-1000000000";
            IsRange(a) && IsRange(b) && !(SortsRight(a, b) && SortsRight(b, a))
  {
    hide PadLeft, ToText, Before, ToNat, RangeEnd, ParseRaw, IsRange, SortsRight, Span, EndText;
    var x, y := "999999999", "1000000000";
    assert "1-999999999" == "1" + "-" + x && "1-1000000000" == "1" + "-" + y;
    RangeFrom('1', x);
    RangeFrom('1', y);
    assert y[..9] == "100000000" && |y[..9]| == |x|;
    SameLength(y[..9], x);
    RangeOrder("1-999999999", "1-1000000000");
    assert Before(y[..9], x) by { FirstDecides(y[..9], x); }
  }

  lemma FirstDecides(s: string, t: string)
    requires s != "" && t != "" && s[0] < t[0]
    ensures Before(s, t)
  {
  }

  /** Two numbers have the same normal form exactly if they have the same sort key. */
  lemma KeyIdentifies(a: string, b: string)
    requires a != "" && b != "" && Trim(a) && Trim(b)
    ensures ParseRaw(a).normalized == ParseRaw(b).normalized <==> ParseRaw(a).key == ParseRaw(b).key
  {
    hide ParseRaw, Parse, Trim, Padded;
    RawAgain(a);
    RawAgain(b);
    if ParseRaw(a).key == ParseRaw(b).key { SameKeySameForm(a, b); }
  }

  lemma SameKeySameForm(a: string, b: string)
    requires a != "" && b != "" && Trim(a) && Trim(b) && ParseRaw(a).key == ParseRaw(b).key
    ensures ParseRaw(a).normalized == ParseRaw(b).normalized
  {
    hide Span, ToText, ToNat, Upper, Lower, Collapse, PadLeft, Padded, Fraction, RangeEnd, IsRange, IsDecimal,
      IsAlphanumeric, IsInteger, Trim, DecimalValue;
    match ParseRaw(a).key.rank {
      case 1 =>
        DecimalOrder(a, b);
        DecimalEquality(a, b);
      case 2 => LowerIdentifies(a[Span(a)..], b[Span(b)..]);
      case 3 => EndsExactly(ToNat(RangeEnd(a)), ToNat(RangeEnd(b)));
      case 4 => LowerIdentifies(Collapse(a), Collapse(b));
      case _ =>
    }
  }

  /** Upper and lower case lose the same. */
  lemma LowerIdentifies(s: string, t: string)
    ensures Lower(s) == Lower(t) <==> Upper(s) == Upper(t)
    ensures Lower(Upper(s)) == Lower(Upper(t)) <==> Upper(s) == Upper(t)
  {
    assert forall c: char, d: char :: LowerChar(c) == LowerChar(d) <==> UpperChar(c) == UpperChar(d);
    if Lower(s) == Lower(t) { UpperFollows(s, t); }
    if Upper(s) == Upper(t) { LowerFollows(s, t); }
    UpperTwice(s);
    UpperTwice(t);
  }

  lemma UpperFollows(s: string, t: string)
    requires Lower(s) == Lower(t)
    ensures Upper(s) == Upper(t)
  {
    assert |s| == |t|;
    forall i | 0 <= i < |s| ensures Upper(s)[i] == Upper(t)[i] { assert Lower(s)[i] == Lower(t)[i]; }
  }

  lemma LowerFollows(s: string, t: string)
    requires Upper(s) == Upper(t)
    ensures Lower(s) == Lower(t)
  {
    assert |s| == |t|;
    forall i | 0 <= i < |s| ensures Lower(s)[i] == Lower(t)[i] { assert Upper(s)[i] == Upper(t)[i]; }
  }

  /** An integer is rendered with exactly as many digits as it was written with, or as the minimum width
      asks for, and means the same; anything else is rendered as its normal form. */
  lemma RenderedExactly(raw: string, minimumWidth: nat)
    requires raw != ""
    ensures var r := Render(ParseRaw(raw), minimumWidth);
            if IsInteger(raw)
            then AllDigits(r) && ToNat(r) == ToNat(raw) && |r| == if |raw| > minimumWidth then |raw| else minimumWidth
            else r == ParseRaw(raw).normalized
  {
    IntegerKind(raw);
    hide ToNat, ToText, PadLeft;
    if IsInteger(raw) {
      var text := ToText(ToNat(raw));
      TextRoundTrip(ToNat(raw));
      PadLeftValue(text, if minimumWidth >= |raw| then minimumWidth else |raw|);
      TextIsShortest(raw);
    }
  }

  lemma {:induction false} TextIsShortest(s: string)
    requires s != "" && AllDigits(s)
    ensures |ToText(ToNat(s))| <= |s|
  {
    if |s| > 1 {
      TextIsShortest(s[..|s| - 1]);
      assert ToNat(s) / 10 == ToNat(s[..|s| - 1]);
    } else {
      assert s[..0] == "" && ToNat("") == 0;
    }
  }
}
