/** The memory bank and its comma-separated export: a quoting printer and a toggling splitter. */
module MemoryCsv {
  import opened Basics

  const MAX_PRESETS := 20
  const MAX_NAME := 30
  const MAX_NOTES := 80
  const INT_MAX := 0x7fff_ffff

  datatype Preset = Preset(name: string, freq: int, mode: string, rxBw: int, notes: string, offset: int, tone: real)

  // ---- Text ----

  predicate Lacks(s: string, c: char) {
    forall i :: 0 <= i < |s| ==> s[i] != c
  }

  /** Neither of the two characters the row format gives a meaning to. */
  predicate Plain(s: string) {
    Lacks(s, ',') && Lacks(s, '"')
  }

  function Unquote(s: string): string {
    if s == [] then [] else Unquote(s[..|s| - 1]) + (if s[|s| - 1] == '"' then [] else [s[|s| - 1]])
  }

  function Doubled(s: string): string {
    if s == [] then [] else Doubled(s[..|s| - 1]) + (if s[|s| - 1] == '"' then ['"', '"'] else [s[|s| - 1]])
  }

  /** A field on its way out: quotes doubled, and quoted as a whole where it has a comma or a quote. */
  function Escape(s: string): string {
    if Plain(s) then s else ['"'] + Doubled(s) + ['"']
  }

  function Join(fields: seq<string>): string {
    if fields == [] then []
    else if |fields| == 1 then fields[0]
    else Join(fields[..|fields| - 1]) + [','] + fields[|fields| - 1]
  }

  function Escaped(fields: seq<string>): (r: seq<string>)
    ensures |r| == |fields|
  {
    seq(|fields|, i requires 0 <= i < |fields| => Escape(fields[i]))
  }

  function Unquoted(fields: seq<string>): (r: seq<string>)
    ensures |r| == |fields|
  {
    seq(|fields|, i requires 0 <= i < |fields| => Unquote(fields[i]))
  }

  // ---- The splitter ----

  datatype Scan = Scan(done: seq<string>, cur: string, inq: bool)

  function Step(s: Scan, c: char): Scan {
    if c == '"' then s.(inq := !s.inq)
    else if c == ',' && !s.inq then Scan(s.done + [s.cur], [], false)
    else s.(cur := s.cur + [c])
  }

  function Scanned(s: Scan, line: string): Scan
    decreases |line|
  {
    if line == [] then s else Step(Scanned(s, line[..|line| - 1]), line[|line| - 1])
  }

  function Split(line: string): seq<string> {
    var s := Scanned(Scan([], [], false), line);
    s.done + [s.cur]
  }

  method SplitRow(line: string) returns (c: seq<string>)
    ensures c == Split(line)
  {
    c := [];
    var cur: string, inq := [], false;
    for i := 0 to |line|
      invariant Scan(c, cur, inq) == Scanned(Scan([], [], false), line[..i])
    {
      assert line[..i + 1][..i] == line[..i];
      if line[i] == '"' {
        inq := !inq;
      } else if line[i] == ',' && !inq {
        c := c + [cur];
        cur := [];
      } else {
        cur := cur + [line[i]];
      }
    }
    assert line[..|line|] == line;
    c := c + [cur];
  }

  lemma {:induction false} ScannedConcat(s: Scan, a: string, b: string)
    ensures Scanned(s, a + b) == Scanned(Scanned(s, a), b)
    decreases |b|
  {
    if b == [] {
      assert a + b == a;
    } else {
      ScannedConcat(s, a, b[..|b| - 1]);
      assert (a + b)[..|a + b| - 1] == a + b[..|b| - 1];
    }
  }

  /** Inside quotes a doubled field passes whole, commas and all, less its quotes. */
  lemma {:induction false} ScannedDoubled(done: seq<string>, cur: string, s: string)
    ensures Scanned(Scan(done, cur, true), Doubled(s)) == Scan(done, cur + Unquote(s), true)
    decreases |s|
  {
    if s != [] {
      var front, c := s[..|s| - 1], s[|s| - 1];
      ScannedDoubled(done, cur, front);
      var tail := if c == '"' then ['"', '"'] else [c];
      ScannedConcat(Scan(done, cur, true), Doubled(front), tail);
      var mid := Scan(done, cur + Unquote(front), true);
      assert tail[..|tail| - 1][..0] == [];
      assert Scanned(mid, tail[..|tail| - 1]) == if c == '"' then mid.(inq := false) else mid;
      assert cur + Unquote(s) == if c == '"' then cur + Unquote(front) else (cur + Unquote(front)) + [c];
    } else {
      assert cur + [] == cur;
    }
  }

  lemma {:induction false} ScannedPlain(done: seq<string>, cur: string, s: string)
    requires Plain(s)
    ensures Unquote(s) == s
    ensures Scanned(Scan(done, cur, false), s) == Scan(done, cur + s, false)
    decreases |s|
  {
    if s != [] {
      var front, c := s[..|s| - 1], s[|s| - 1];
      ScannedPlain(done, cur, front);
      assert front + [c] == s && (cur + front) + [c] == cur + s;
    } else {
      assert cur + s == cur;
    }
  }

  lemma ScannedEscape(done: seq<string>, cur: string, s: string)
    ensures Scanned(Scan(done, cur, false), Escape(s)) == Scan(done, cur + Unquote(s), false)
  {
    if Plain(s) {
      ScannedPlain(done, cur, s);
    } else {
      var start, q := Scan(done, cur, false), ['"'];
      assert q[..0] == [];
      assert Scanned(start, q) == Scan(done, cur, true);
      ScannedConcat(start, q, Doubled(s));
      ScannedDoubled(done, cur, s);
      ScannedConcat(start, q + Doubled(s), q);
    }
  }

  lemma ScannedComma(done: seq<string>, cur: string)
    ensures Scanned(Scan(done, cur, false), [',']) == Scan(done + [cur], [], false)
  {
    assert [','][..0] == [];
  }

  lemma ScannedField(line: string, done: seq<string>, cur: string, s: string)
    requires Scanned(Scan([], [], false), line) == Scan(done, cur, false)
    ensures Scanned(Scan([], [], false), line + [','] + Escape(s)) == Scan(done + [cur], Unquote(s), false)
  {
    var start := Scan([], [], false);
    ScannedConcat(start, line, [',']);
    ScannedConcat(start, line + [','], Escape(s));
    ScannedComma(done, cur);
    ScannedEscape(done + [cur], [], s);
    assert [] + Unquote(s) == Unquote(s);
  }

  lemma {:induction false} ScannedJoin(fields: seq<string>)
    requires fields != []
    ensures var n := |fields|;
            Scanned(Scan([], [], false), Join(Escaped(fields))) == Scan(Unquoted(fields)[..n - 1], Unquoted(fields)[n - 1], false)
    decreases |fields|
  {
    hide Scanned, Escape, Unquote, Step;
    var n := |fields|;
    var last := fields[n - 1];
    if n == 1 {
      ScannedEscape([], [], last);
      assert [] + Unquote(last) == Unquote(last);
    } else {
      var front := fields[..n - 1];
      ScannedJoin(front);
      assert Escaped(fields)[..n - 1] == Escaped(front);
      var u := Unquoted(front);
      assert u[..n - 2] + [u[n - 2]] == u == Unquoted(fields)[..n - 1];
      ScannedField(Join(Escaped(front)), u[..n - 2], u[n - 2], last);
    }
  }

  /** Any row comes apart into as many fields as went in, each as it was but for its double quotes. */
  lemma SplitUndoesJoin(fields: seq<string>)
    requires fields != []
    ensures Split(Join(Escaped(fields))) == Unquoted(fields)
  {
    ScannedJoin(fields);
    var u := Unquoted(fields);
    assert u[..|u| - 1] + [u[|u| - 1]] == u;
  }

  // ---- Numbers ----

  function Digit(d: int): char
    requires 0 <= d < 10
  {
    '0' + d as char
  }

  predicate IsDigit(c: char) {
    '0' <= c <= '9'
  }

  function Decimal(n: nat): (s: string)
    ensures s != [] && forall i :: 0 <= i < |s| ==> IsDigit(s[i])
  {
    if n < 10 then [Digit(n)] else Decimal(n / 10) + [Digit(n % 10)]
  }

  predicate Digits(s: string) {
    s != [] && forall i :: 0 <= i < |s| ==> IsDigit(s[i])
  }

  function DigitValue(c: char): nat
    requires IsDigit(c)
  {
    c as int - '0' as int
  }

  function Value(s: string): nat
    requires forall i :: 0 <= i < |s| ==> IsDigit(s[i])
  {
    if s == [] then 0 else 10 * Value(s[..|s| - 1]) + DigitValue(s[|s| - 1])
  }

  lemma {:induction false} ValueOfDecimal(n: nat)
    ensures Value(Decimal(n)) == n
  {
    if n >= 10 {
      ValueOfDecimal(n / 10);
      assert Decimal(n)[..|Decimal(n)| - 1] == Decimal(n / 10);
    } else {
      assert [Digit(n)][..0] == [];
    }
  }

  function Printed(n: int): string {
    if n < 0 then ['-'] + Decimal(-n) else Decimal(n)
  }

  /** An integer field; anything else, or anything too wide, reads as nought. */
  function ToInt(s: string): int {
    var neg := s != [] && s[0] == '-';
    var digits := if neg then s[1..] else s;
    if !Digits(digits) then 0
    else
      var v: int := if neg then 0 - Value(digits) else Value(digits);
      if -INT_MAX - 1 <= v <= INT_MAX then v else 0
  }

  lemma ToIntOfPrinted(n: int)
    requires -INT_MAX - 1 <= n <= INT_MAX
    ensures ToInt(Printed(n)) == n
  {
    if n < 0 {
      ValueOfDecimal(-n);
      assert Printed(n)[1..] == Decimal(-n);
    } else {
      ValueOfDecimal(n);
      assert IsDigit(Printed(n)[0]);
    }
  }

  function DotAt(s: string): (i: nat)
    ensures i <= |s| && (i < |s| ==> s[i] == '.') && forall j :: 0 <= j < i ==> s[j] != '.'
  {
    if s == [] || s[0] == '.' then 0 else 1 + DotAt(s[1..])
  }

  function Ten(k: nat): nat
    ensures Ten(k) > 0
  {
    if k == 0 then 1 else 10 * Ten(k - 1)
  }

  /** Digits with an optional fraction. */
  function Unsigned(s: string): Option<real> {
    var dot := DotAt(s);
    var frac := if dot < |s| then s[dot + 1..] else [];
    if !Digits(s[..dot]) || !(forall i :: 0 <= i < |frac| ==> IsDigit(frac[i])) then None
    else Some(Value(s[..dot]) as real + Value(frac) as real / Ten(|frac|) as real)
  }

  /** A decimal number with an optional sign and fraction. */
  function ToReal(s: string): Option<real> {
    if s != [] && s[0] == '-' then
      match Unsigned(s[1..])
      case None => None
      case Some(v) => Some(-v)
    else Unsigned(s)
  }

  lemma ToRealOfDecimal(n: nat)
    ensures ToReal(Decimal(n)) == Some(n as real)
  {
    var s := Decimal(n);
    assert IsDigit(s[0]);
    assert DotAt(s) == |s|;
    assert s[..|s|] == s;
    ValueOfDecimal(n);
  }

  /** To the nearest tenth, as `number(x, 'f', 1)` prints a positive number. */
  function Tenths(x: real): nat
    requires x > 0.0
  {
    (x * 10.0 + 0.5).Floor
  }

  function PrintedTone(x: real): string
    requires x > 0.0
  {
    Decimal(Tenths(x) / 10) + ['.'] + [Digit(Tenths(x) % 10)]
  }

  lemma ToneText(k: nat) returns (whole: string, s: string)
    ensures whole == Decimal(k / 10) && s == whole + ['.'] + [Digit(k % 10)]
    ensures s[0] != '-' && DotAt(s) == |whole| && s[..|whole|] == whole && s[|whole| + 1..] == [Digit(k % 10)]
  {
    whole := Decimal(k / 10);
    s := whole + ['.'] + [Digit(k % 10)];
    assert IsDigit(whole[0]) && s[0] == whole[0];
    assert forall j :: 0 <= j < |whole| ==> s[j] == whole[j] && IsDigit(whole[j]);
    assert s[|whole|] == '.';
    hide Decimal;
    assert DotAt(s) == |whole|;
  }

  lemma ToRealOfTone(x: real)
    requires x > 0.0
    ensures ToReal(PrintedTone(x)) == Some(Tenths(x) as real / 10.0)
  {
    var k := Tenths(x);
    hide Tenths;
    var whole, s := ToneText(k);
    ValueOfDecimal(k / 10);
    OneDigit(k % 10);
    assert s == PrintedTone(x) && Digits(whole);
    hide Decimal, DotAt, Value, Ten, Digit, PrintedTone;
    var frac := s[|whole| + 1..];
    assert |frac| == 1 && Value(frac) == k % 10 && Ten(|frac|) == 10;
    assert Unsigned(s) == Some(Value(whole) as real + Value(frac) as real / Ten(|frac|) as real);
    hide Unsigned;
    TenthsAdd(k / 10, k % 10, k);
  }

  lemma OneDigit(d: nat)
    requires d < 10
    ensures IsDigit([Digit(d)][0]) && Value([Digit(d)]) == d && Ten(|[Digit(d)]|) == 10
  {
    assert [Digit(d)][..0] == [];
    assert Ten(1) == 10 * Ten(0);
  }

  lemma TenthsAdd(a: nat, b: nat, k: nat)
    requires k == 10 * a + b
    ensures a as real + b as real / 10.0 == k as real / 10.0
  {
  }

  // ---- Presets as rows ----

  predicate IsSpace(c: char) {
    c == ' ' || '\U{9}' <= c <= '\U{d}'
  }

  function Trim(s: string): (r: string)
    ensures |r| <= |s|
    decreases |s|
  {
    if s == [] then []
    else if IsSpace(s[0]) then Trim(s[1..])
    else if IsSpace(s[|s| - 1]) then Trim(s[..|s| - 1])
    else s
  }

  function Left(s: string, n: nat): (r: string)
    ensures |r| <= n && |r| <= |s|
  {
    if |s| <= n then s else s[..n]
  }

  function Upper(s: string): (r: string)
    ensures |r| == |s|
  {
    seq(|s|, i requires 0 <= i < |s| => if 'a' <= s[i] <= 'z' then s[i] - 32 as char else s[i])
  }

  function Fields(p: Preset): (r: seq<string>)
    ensures |r| == 7
  {
    [p.name, Printed(p.freq), p.mode, if p.rxBw > 0 then Printed(p.rxBw) else [], p.notes, Printed(p.offset),
     if p.tone > 0.0 then PrintedTone(p.tone) else []]
  }

  /** A row as it is printed: only the name and the notes are escaped. */
  function Row(p: Preset): string {
    Escape(p.name) + [','] + Printed(p.freq) + [','] + p.mode + [',']
    + (if p.rxBw > 0 then Printed(p.rxBw) else []) + [','] + Escape(p.notes) + [','] + Printed(p.offset) + [',']
    + (if p.tone > 0.0 then PrintedTone(p.tone) else [])
  }

  function Truncated(x: real): int {
    if x >= 0.0 then x.Floor else -((-x).Floor)
  }

  /** A row's fields read back; a row without a positive frequency is skipped. */
  function ParseRow(c: seq<string>): Option<Preset> {
    if |c| < 3 then None
    else
      match ToReal(Trim(c[1]))
      case None => None
      case Some(hz) =>
        if Truncated(hz) <= 0 then None
        else Some(Preset(
          Left(Trim(c[0]), MAX_NAME),
          Truncated(hz),
          Upper(Trim(c[2])),
          if |c| > 3 then ToInt(Trim(c[3])) else 0,
          if |c| > 4 then Left(Trim(c[4]), MAX_NOTES) else [],
          if |c| > 5 then ToInt(Trim(c[5])) else 0,
          if |c| > 6 then (match ToReal(Trim(c[6])) case None => 0.0 case Some(x) => x) else 0.0))
  }

  /** What an exported preset comes back as. */
  function Normal(p: Preset): Preset {
    Preset(Left(Trim(Unquote(p.name)), MAX_NAME), p.freq, Upper(Trim(p.mode)), if p.rxBw > 0 then p.rxBw else 0,
           Left(Trim(Unquote(p.notes)), MAX_NOTES), p.offset, if p.tone > 0.0 then Tenths(p.tone) as real / 10.0 else 0.0)
  }

  predicate OneLine(s: string) {
    Lacks(s, '\n') && Lacks(s, '\r')
  }

  /** A stored preset as the bank holds it; its mode must not break the row. */
  predicate Exportable(p: Preset) {
    && p.freq > 0 && -INT_MAX - 1 <= p.rxBw <= INT_MAX && -INT_MAX - 1 <= p.offset <= INT_MAX
    && Plain(p.mode) && OneLine(p.mode) && OneLine(p.name) && OneLine(p.notes)
  }

  predicate NoSpace(s: string) {
    forall i :: 0 <= i < |s| ==> !IsSpace(s[i])
  }

  /** The characters numbers are printed with. */
  predicate Numeric(s: string) {
    forall i :: 0 <= i < |s| ==> IsDigit(s[i]) || s[i] == '-' || s[i] == '.'
  }

  lemma NumericIsPlain(s: string)
    requires Numeric(s)
    ensures Plain(s) && NoSpace(s) && OneLine(s) && Trim(s) == s
  {
  }

  lemma NumbersAreNumeric(p: Preset)
    ensures Numeric(Printed(p.freq)) && Numeric(Printed(p.rxBw)) && Numeric(Printed(p.offset))
    ensures p.tone > 0.0 ==> Numeric(PrintedTone(p.tone))
  {
  }

  lemma JoinOfSeven(f: seq<string>)
    requires |f| == 7
    ensures Join(f) == f[0] + [','] + f[1] + [','] + f[2] + [','] + f[3] + [','] + f[4] + [','] + f[5] + [','] + f[6]
  {
    assert f[..6][..5] == f[..5] && f[..5][..4] == f[..4] && f[..4][..3] == f[..3] && f[..3][..2] == f[..2] && f[..2][..1] == f[..1];
    assert Join(f[..1]) == f[0];
    assert Join(f[..2]) == f[0] + [','] + f[1];
    assert Join(f[..3]) == Join(f[..2]) + [','] + f[2];
    assert Join(f[..4]) == Join(f[..3]) + [','] + f[3];
    assert Join(f[..5]) == Join(f[..4]) + [','] + f[4];
    assert Join(f[..6]) == Join(f[..5]) + [','] + f[5];
  }

  lemma RowIsJoin(p: Preset)
    requires Plain(p.mode)
    ensures Row(p) == Join(Escaped(Fields(p)))
  {
    NumbersAreNumeric(p);
    NumericIsPlain(Printed(p.freq));
    NumericIsPlain(Printed(p.offset));
    NumericIsPlain(Fields(p)[3]);
    NumericIsPlain(Fields(p)[6]);
    JoinOfSeven(Escaped(Fields(p)));
    hide Join, Printed, PrintedTone, Doubled;
  }

  lemma FieldsUnquoted(p: Preset)
    requires Plain(p.mode)
    ensures var f := Fields(p); Unquoted(f) == [Unquote(p.name), f[1], p.mode, f[3], Unquote(p.notes), f[5], f[6]]
  {
    NumbersAreNumeric(p);
    var f := Fields(p);
    forall i | 0 <= i < 7 && i != 0 && i != 4 ensures Unquote(f[i]) == f[i] {
      if i != 2 {
        NumericIsPlain(f[i]);
      }
      ScannedPlain([], [], f[i]);
    }
    hide Unquote, Printed, PrintedTone, Plain;
  }

  lemma WidthReadsBack(p: Preset)
    requires Exportable(p)
    ensures ToInt(Trim(Fields(p)[3])) == if p.rxBw > 0 then p.rxBw else 0
  {
    NumbersAreNumeric(p);
    NumericIsPlain(Fields(p)[3]);
    if p.rxBw > 0 {
      ToIntOfPrinted(p.rxBw);
    }
  }

  lemma ToneReadsBack(p: Preset)
    ensures (match ToReal(Trim(Fields(p)[6])) case None => 0.0 case Some(x) => x)
            == if p.tone > 0.0 then Tenths(p.tone) as real / 10.0 else 0.0
  {
    NumbersAreNumeric(p);
    NumericIsPlain(Fields(p)[6]);
    hide Trim;
    if p.tone > 0.0 {
      ToRealOfTone(p.tone);
      hide ToReal;
    }
  }

  lemma FrequencyReadsBack(p: Preset)
    requires Exportable(p)
    ensures ToReal(Trim(Fields(p)[1])) == Some(p.freq as real) && Truncated(p.freq as real) == p.freq
    ensures ToInt(Trim(Fields(p)[5])) == p.offset
  {
    NumbersAreNumeric(p);
    NumericIsPlain(Fields(p)[1]);
    NumericIsPlain(Fields(p)[5]);
    hide Trim;
    ToRealOfDecimal(p.freq);
    ToIntOfPrinted(p.offset);
  }

  /** A printed row reads back as the preset's normal form, whatever its name and notes hold. */
  lemma RowReadsBack(p: Preset)
    requires Exportable(p)
    ensures ParseRow(Split(Row(p))) == Some(Normal(p))
  {
    hide Row, Fields, Split, Join, Escaped, Trim, Tenths, Unquote, Unquoted, ToInt, ToReal, Left, Upper, Truncated;
    hide Plain, OneLine;
    var f := Fields(p);
    RowIsJoin(p);
    SplitUndoesJoin(f);
    FieldsUnquoted(p);
    FrequencyReadsBack(p);
    WidthReadsBack(p);
    ToneReadsBack(p);
  }

  // ---- What survives ----

  lemma {:induction false} UnquoteShrinks(s: string)
    ensures |Unquote(s)| <= |s|
    ensures Unquote(s) == s <==> Lacks(s, '"')
    ensures |Unquote(s)| == |s| ==> Unquote(s) == s
    decreases |s|
  {
    if s != [] {
      var front, c := s[..|s| - 1], s[|s| - 1];
      UnquoteShrinks(front);
      assert front + [c] == s;
      if c != '"' && Unquote(s) == s {
        assert Unquote(front) == (Unquote(front) + [c])[..|front|];
      }
      if c != '"' {
        assert Lacks(s, '"') <==> Lacks(front, '"');
      }
    }
  }

  lemma TrimKeeps(s: string)
    ensures Trim(s) == s <==> s == [] || (!IsSpace(s[0]) && !IsSpace(s[|s| - 1]))
  {
  }

  /** A text field survives exactly when it has no quote, no space at its ends, and fits. */
  lemma TextKeptIff(s: string, n: nat)
    ensures Left(Trim(Unquote(s)), n) == s
            <==> Lacks(s, '"') && |s| <= n && (s == [] || (!IsSpace(s[0]) && !IsSpace(s[|s| - 1])))
  {
    UnquoteShrinks(s);
    TrimKeeps(s);
    TrimLength(Unquote(s));
    hide Unquote, Trim, Lacks;
  }

  predicate TextPortable(s: string, n: nat) {
    Lacks(s, '"') && |s| <= n && (s == [] || (!IsSpace(s[0]) && !IsSpace(s[|s| - 1])))
  }

  predicate ModePortable(s: string) {
    && (forall i :: 0 <= i < |s| ==> !('a' <= s[i] <= 'z'))
    && (s == [] || (!IsSpace(s[0]) && !IsSpace(s[|s| - 1])))
  }

  /** A tone survives when it is nought or a positive multiple of a tenth of a hertz. */
  predicate TonePortable(x: real) {
    x == 0.0 || (x > 0.0 && (x * 10.0).Floor as real == x * 10.0)
  }

  predicate Portable(p: Preset) {
    TextPortable(p.name, 30) && ModePortable(p.mode) && p.rxBw >= 0 && TextPortable(p.notes, 80) && TonePortable(p.tone)
  }

  lemma ModeKeptIff(s: string)
    ensures Upper(Trim(s)) == s <==> ModePortable(s)
  {
    TrimKeeps(s);
    if |Trim(s)| == |s| {
      TrimLength(s);
    }
    if Trim(s) == s {
      forall i | 0 <= i < |s| ensures Upper(s)[i] == s[i] <==> !('a' <= s[i] <= 'z') {
      }
      if ModePortable(s) {
        assert forall i :: 0 <= i < |s| ==> Upper(s)[i] == s[i];
      }
    }
  }

  lemma {:induction false} TrimLength(s: string)
    ensures |Trim(s)| == |s| ==> Trim(s) == s
  {
  }

  lemma WholeIff(y: real)
    ensures (y + 0.5).Floor as real == y <==> y.Floor as real == y
  {
    var k := y.Floor;
    if k as real == y {
      assert (k as real + 0.5).Floor == k;
    }
    if (y + 0.5).Floor as real == y {
      WholeFloor((y + 0.5).Floor);
    }
  }

  lemma WholeFloor(t: int)
    ensures (t as real).Floor == t
  {
  }

  lemma TenthOf(t: int, x: real)
    ensures t as real / 10.0 == x <==> t as real == x * 10.0
  {
  }

  lemma ToneKeptIff(x: real)
    ensures (if x > 0.0 then Tenths(x) as real / 10.0 else 0.0) == x <==> TonePortable(x)
  {
    if x > 0.0 {
      WholeIff(x * 10.0);
      TenthOf(Tenths(x), x);
    }
  }

  lemma NormalIff(p: Preset)
    ensures Normal(p) == p <==> Portable(p)
  {
    TextKeptIff(p.name, MAX_NAME);
    TextKeptIff(p.notes, MAX_NOTES);
    ModeKeptIff(p.mode);
    ToneKeptIff(p.tone);
    hide Trim, Unquote, Left, Upper, Tenths, Lacks, IsSpace, ModePortable, TonePortable;
  }

  // ---- The file ----

  const COLUMNS := ["Name", "Freq_Hz", "Mode", "RX_BW_Hz", "Notes", "Offset_Hz", "CTCSS_Hz"]

  function Header(): string {
    Join(COLUMNS)
  }

  function Rows(bank: seq<Preset>): string {
    if bank == [] then [] else Row(bank[0]) + ['\n'] + Rows(bank[1..])
  }

  function Export(bank: seq<Preset>): string {
    Header() + ['\n'] + Rows(bank)
  }

  function LineEnd(s: string): (i: nat)
    ensures i <= |s| && (i < |s| ==> s[i] == '\n') && forall j :: 0 <= j < i ==> s[j] != '\n'
  {
    if s == [] || s[0] == '\n' then 0 else 1 + LineEnd(s[1..])
  }

  /** A line as a text file gives it: no carriage return survives the reading. */
  function Chomped(s: string): (r: string)
    ensures Lacks(r, '\r') && (Lacks(s, '\n') ==> Lacks(r, '\n'))
  {
    if s == [] then [] else Chomped(s[..|s| - 1]) + (if s[|s| - 1] == '\r' then [] else [s[|s| - 1]])
  }

  lemma {:induction false} ChompedPlain(s: string)
    requires Lacks(s, '\r')
    ensures Chomped(s) == s
    decreases |s|
  {
    if s != [] {
      ChompedPlain(s[..|s| - 1]);
    }
  }

  function Lines(text: string): seq<string>
    decreases |text|
  {
    if text == [] then []
    else
      var i := LineEnd(text);
      [Chomped(text[..i])] + Lines(if i < |text| then text[i + 1..] else [])
  }

  /** The presets and the number of skipped rows in the lines after the header. */
  datatype Read = Read(presets: seq<Preset>, skipped: nat)

  function ReadLine(r: Read, line: string): Read {
    if Trim(line) == [] then r
    else
      match ParseRow(Split(line))
      case None => r.(skipped := r.skipped + 1)
      case Some(p) => r.(presets := r.presets + [p])
  }

  function ReadLines(lines: seq<string>): Read
    decreases |lines|
  {
    if lines == [] then Read([], 0) else ReadLine(ReadLines(lines[..|lines| - 1]), lines[|lines| - 1])
  }

  function Incoming(text: string): Read {
    var lines := Lines(text);
    if lines == [] then Read([], 0) else ReadLines(lines[1..])
  }

  /** Appends while there is room. */
  function Filled(bank: seq<Preset>, more: seq<Preset>): (r: seq<Preset>)
    ensures |r| <= (if |bank| > MAX_PRESETS then |bank| else MAX_PRESETS)
    ensures |bank| + |more| <= MAX_PRESETS ==> r == bank + more
  {
    if |bank| >= MAX_PRESETS then bank
    else if |bank| + |more| <= MAX_PRESETS then bank + more
    else bank + more[..MAX_PRESETS - |bank|]
  }

  function Import(bank: seq<Preset>, text: string, replace: bool): seq<Preset> {
    Filled(if replace then [] else bank, Incoming(text).presets)
  }

  // ---- Export then import ----

  lemma {:induction false} EscapeOneLine(s: string)
    requires OneLine(s)
    ensures OneLine(Escape(s)) && OneLine(Doubled(s))
    decreases |s|
  {
    if s != [] {
      EscapeOneLine(s[..|s| - 1]);
    }
  }

  lemma {:induction false} OneLineJoin(fields: seq<string>)
    requires forall i :: 0 <= i < |fields| ==> OneLine(fields[i])
    ensures OneLine(Join(fields))
    ensures |fields| > 1 ==> Trim(Join(fields)) != []
    decreases |fields|
  {
    hide Trim;
    if |fields| > 1 {
      var head := Join(fields[..|fields| - 1]);
      OneLineJoin(fields[..|fields| - 1]);
      assert Join(fields)[|head|] == ',';
      HasInk(Join(fields), |head|);
    }
  }

  /** The texts of a preset have no line break. */
  predicate Lined(p: Preset) {
    OneLine(p.name) && OneLine(p.mode) && OneLine(p.notes)
  }

  lemma RowIsOneLine(p: Preset)
    requires Lined(p)
    ensures OneLine(Row(p)) && Trim(Row(p)) != []
  {
    hide Trim, Escape, Printed, PrintedTone, Doubled, Join, OneLine, Plain, NoSpace;
    var f := Fields(p);
    var pieces := [Escape(p.name), f[1], f[2], f[3], Escape(p.notes), f[5], f[6]];
    NumbersAreNumeric(p);
    NumericIsPlain(f[1]);
    NumericIsPlain(f[3]);
    NumericIsPlain(f[5]);
    NumericIsPlain(f[6]);
    EscapeOneLine(p.name);
    EscapeOneLine(p.notes);
    JoinOfSeven(pieces);
    OneLineJoin(pieces);
    assert Row(p) == Join(pieces);
  }

  lemma {:induction false} HasInk(s: string, i: nat)
    requires i < |s| && !IsSpace(s[i])
    ensures Trim(s) != []
    decreases |s|
  {
    if IsSpace(s[0]) {
      HasInk(s[1..], i - 1);
    } else if IsSpace(s[|s| - 1]) {
      HasInk(s[..|s| - 1], i);
    }
  }

  lemma FirstLine(line: string, rest: string)
    requires OneLine(line)
    ensures Lines(line + ['\n'] + rest) == [line] + Lines(rest)
  {
    var text := line + ['\n'] + rest;
    assert text[|line|] == '\n' && forall j :: 0 <= j < |line| ==> text[j] == line[j];
    assert LineEnd(text) == |line|;
    assert text[..|line|] == line && text[|line| + 1..] == rest;
    ChompedPlain(line);
  }

  function RowsOf(bank: seq<Preset>): (r: seq<string>)
    ensures |r| == |bank|
  {
    seq(|bank|, i requires 0 <= i < |bank| => Row(bank[i]))
  }

  function NormalOf(bank: seq<Preset>): (r: seq<Preset>)
    ensures |r| == |bank|
  {
    seq(|bank|, i requires 0 <= i < |bank| => Normal(bank[i]))
  }

  ghost predicate AllExportable(bank: seq<Preset>) {
    forall i :: 0 <= i < |bank| ==> Exportable(bank[i])
  }

  lemma NoLines()
    ensures Lines([]) == []
  {
  }

  lemma {:induction false} LinesOfRows(bank: seq<Preset>)
    requires forall i :: 0 <= i < |bank| ==> Lined(bank[i])
    ensures Lines(Rows(bank)) == RowsOf(bank)
    decreases |bank|
  {
    hide Row, Lines, Lined, OneLine, Trim;
    NoLines();
    if bank != [] {
      RowIsOneLine(bank[0]);
      LinesOfRows(bank[1..]);
      FirstLine(Row(bank[0]), Rows(bank[1..]));
      assert RowsOf(bank) == [Row(bank[0])] + RowsOf(bank[1..]);
    }
  }

  lemma ExportableIsLined(p: Preset)
    requires Exportable(p)
    ensures Lined(p)
  {
    hide OneLine;
  }

  lemma CleanIsLined(p: Preset)
    requires Clean(p)
    ensures Lined(p)
  {
    hide OneLine;
  }

  lemma RowRead(r: Read, p: Preset)
    requires Exportable(p)
    ensures ReadLine(r, Row(p)) == Read(r.presets + [Normal(p)], r.skipped)
  {
    hide Row, Normal, Split, ParseRow, Exportable, Trim, OneLine;
    ExportableIsLined(p);
    RowIsOneLine(p);
    RowReadsBack(p);
  }

  lemma {:induction false} RowsReadBack(bank: seq<Preset>)
    requires AllExportable(bank)
    ensures ReadLines(RowsOf(bank)) == Read(NormalOf(bank), 0)
    decreases |bank|
  {
    hide Row, Normal, ReadLine, Exportable;
    if bank != [] {
      var front, last := bank[..|bank| - 1], bank[|bank| - 1];
      RowsReadBack(front);
      RowRead(ReadLines(RowsOf(front)), last);
      assert RowsOf(bank)[..|bank| - 1] == RowsOf(front);
      assert NormalOf(bank) == NormalOf(front) + [Normal(last)];
    }
  }

  lemma HeaderIsOneLine()
    ensures OneLine(Header())
  {
    ColumnsAreOneLine();
    OneLineJoin(COLUMNS);
  }

  lemma ColumnsAreOneLine()
    ensures forall i :: 0 <= i < |COLUMNS| ==> OneLine(COLUMNS[i])
  {
    assert OneLine("Name") && OneLine("Freq_Hz") && OneLine("Mode") && OneLine("RX_BW_Hz");
    assert OneLine("Notes") && OneLine("Offset_Hz") && OneLine("CTCSS_Hz");
  }

  /** Importing an export gives every preset in its normal form, in order, with no row skipped. */
  lemma ExportReadsBack(bank: seq<Preset>)
    requires AllExportable(bank)
    ensures Incoming(Export(bank)) == Read(NormalOf(bank), 0)
  {
    hide Rows, Lines, ReadLines, OneLine, Lined, Normal, Row, Exportable, Header;
    forall i | 0 <= i < |bank| ensures Lined(bank[i]) {
      ExportableIsLined(bank[i]);
    }
    LinesOfRows(bank);
    RowsReadBack(bank);
    HeaderIsOneLine();
    FirstLine(Header(), Rows(bank));
    var lines := [Header()] + RowsOf(bank);
    assert Lines(Export(bank)) == lines;
    assert lines[1..] == RowsOf(bank);
  }

  // ---- What can come back at all ----

  predicate CleanText(s: string) {
    OneLine(s) && Lacks(s, '"')
  }

  predicate InRange(x: int) {
    -INT_MAX - 1 <= x <= INT_MAX
  }

  /** What every imported preset is, whatever the file. */
  predicate Clean(p: Preset) {
    && p.freq > 0 && InRange(p.rxBw) && InRange(p.offset)
    && CleanText(p.name) && CleanText(p.mode) && CleanText(p.notes)
  }

  ghost predicate CleanTexts(c: seq<string>) {
    forall i :: 0 <= i < |c| ==> CleanText(c[i])
  }

  lemma {:induction false} ScannedClean(s: Scan, line: string)
    requires CleanTexts(s.done) && CleanText(s.cur) && OneLine(line)
    ensures CleanTexts(Scanned(s, line).done) && CleanText(Scanned(s, line).cur)
    decreases |line|
  {
    if line != [] {
      ScannedClean(s, line[..|line| - 1]);
    }
  }

  lemma {:induction false} TrimLacks(s: string, c: char)
    requires Lacks(s, c)
    ensures Lacks(Trim(s), c)
    decreases |s|
  {
    if s == [] {
    } else if IsSpace(s[0]) {
      TrimLacks(s[1..], c);
    } else if IsSpace(s[|s| - 1]) {
      TrimLacks(s[..|s| - 1], c);
    }
  }

  lemma TrimClean(s: string, n: nat)
    requires CleanText(s)
    ensures CleanText(Left(Trim(s), n)) && CleanText(Upper(Trim(s)))
  {
    TrimLacks(s, '"');
    TrimLacks(s, '\n');
    TrimLacks(s, '\r');
    hide Trim;
  }

  lemma ToIntInRange(s: string)
    ensures InRange(ToInt(s)) && InRange(0)
  {
  }

  lemma ParsedFields(c: seq<string>)
    requires CleanTexts(c)
    ensures ParseRow(c).Some? ==> Clean(ParseRow(c).value)
  {
    hide Trim, ToReal, Upper, Left, Truncated, CleanText, ToInt, InRange;
    if |c| >= 3 {
      TrimClean(c[0], MAX_NAME);
      TrimClean(c[2], MAX_NAME);
      if |c| > 3 {
        ToIntInRange(Trim(c[3]));
      }
      if |c| > 4 {
        TrimClean(c[4], MAX_NOTES);
      }
      if |c| > 5 {
        ToIntInRange(Trim(c[5]));
      }
      NothingIsClean();
    }
  }

  lemma NothingIsClean()
    ensures CleanText([]) && InRange(0)
  {
  }

  /** Parsing gives clean presets, whatever the row. */
  lemma ParsedClean(line: string)
    requires OneLine(line)
    ensures ParseRow(Split(line)).Some? ==> Clean(ParseRow(Split(line)).value)
  {
    hide ParseRow, Clean, CleanText, OneLine, Scanned;
    NothingIsClean();
    ScannedClean(Scan([], [], false), line);
    ParsedFields(Split(line));
  }

  lemma {:induction false} LinesOneLine(text: string)
    ensures forall i :: 0 <= i < |Lines(text)| ==> OneLine(Lines(text)[i])
    decreases |text|
  {
    if text != [] {
      var i := LineEnd(text);
      LinesOneLine(if i < |text| then text[i + 1..] else []);
      assert Lacks(text[..i], '\n');
    }
  }

  lemma {:induction false} ReadClean(lines: seq<string>)
    requires forall i :: 0 <= i < |lines| ==> OneLine(lines[i])
    ensures forall i :: 0 <= i < |ReadLines(lines).presets| ==> Clean(ReadLines(lines).presets[i])
    decreases |lines|
  {
    hide Split, ParseRow, Trim, OneLine, Clean;
    if lines != [] {
      ReadClean(lines[..|lines| - 1]);
      ParsedClean(lines[|lines| - 1]);
    }
  }

  lemma IncomingClean(text: string)
    ensures forall i :: 0 <= i < |Incoming(text).presets| ==> Clean(Incoming(text).presets[i])
  {
    hide Lines, ReadLines, OneLine, Clean;
    LinesOneLine(text);
    if Lines(text) != [] {
      ReadClean(Lines(text)[1..]);
    }
  }

  // ---- A comma in a mode ----

  lemma {:induction false} DoneGrows(s: Scan, line: string)
    ensures s.done <= Scanned(s, line).done
    decreases |line|
  {
    if line != [] {
      DoneGrows(s, line[..|line| - 1]);
    }
  }

  /** Scanning a quote-free text: it stays in its field up to the first comma. */
  lemma {:induction false} BareScan(done: seq<string>, m: string)
    requires Lacks(m, '"')
    ensures var r := Scanned(Scan(done, [], false), m);
            && !r.inq && done <= r.done
            && (if |r.done| == |done| then r.cur == m && Lacks(m, ',') else |r.done| > |done| && Lacks(r.done[|done|], ','))
    decreases |m|
  {
    if m != [] {
      BareScan(done, m[..|m| - 1]);
      assert m[..|m| - 1] + [m[|m| - 1]] == m;
    }
  }

  function RowHead(p: Preset): string {
    Escape(p.name) + [','] + Printed(p.freq) + [',']
  }

  function RowRest(p: Preset): string {
    [','] + ((if p.rxBw > 0 then Printed(p.rxBw) else []) + [','] + Escape(p.notes) + [','] + Printed(p.offset) + [',']
             + (if p.tone > 0.0 then PrintedTone(p.tone) else []))
  }

  /** One escaped field and its comma, from the start of a field. */
  lemma FieldScan(done: seq<string>, s: string)
    ensures Scanned(Scan(done, [], false), Escape(s) + [',']) == Scan(done + [Unquote(s)], [], false)
  {
    hide Escape, Unquote, Step, Scanned;
    ScannedEscape(done, [], s);
    assert [] + Unquote(s) == Unquote(s);
    ScannedConcat(Scan(done, [], false), Escape(s), [',']);
    ScannedComma(done, Unquote(s));
  }

  lemma HeadScan(p: Preset)
    ensures Scanned(Scan([], [], false), RowHead(p)) == Scan([Unquote(p.name), Printed(p.freq)], [], false)
  {
    hide Unquote, Printed, Step, Scanned, Numeric, NoSpace, OneLine;
    NumbersAreNumeric(p);
    var b := Printed(p.freq);
    NumericIsPlain(b);
    ScannedPlain([], [], b);
    assert Escape(b) == b;
    hide Escape, Plain;
    FieldScan([], p.name);
    FieldScan([Unquote(p.name)], b);
    assert [] + [Unquote(p.name)] == [Unquote(p.name)] && [Unquote(p.name)] + [b] == [Unquote(p.name), b];
    ScannedConcat(Scan([], [], false), Escape(p.name) + [','], b + [',']);
    assert RowHead(p) == (Escape(p.name) + [',']) + (b + [',']);
  }

  lemma RowInParts(p: Preset)
    ensures Row(p) == RowHead(p) + p.mode + RowRest(p)
  {
    hide Escape, Printed, PrintedTone;
  }

  lemma ModeField(p: Preset)
    requires Lacks(p.mode, '"')
    ensures var c := Split(Row(p)); |c| >= 3 && c[1] == Printed(p.freq) && Lacks(c[2], ',')
  {
    var start, two := Scan([], [], false), [Unquote(p.name), Printed(p.freq)];
    HeadScan(p);
    BareScan(two, p.mode);
    RowInParts(p);
    RestKeepsMode(Scanned(Scan(two, [], false), p.mode), two, p.mode, RowRest(p));
    hide Row, RowHead, Unquote, Printed, Step, Lacks, Scanned, RowRest;
    ScannedConcat(start, RowHead(p), p.mode);
    ScannedConcat(start, RowHead(p) + p.mode, RowRest(p));
  }

  /** What follows the mode begins with a comma, so the third field is settled by then. */
  lemma RestKeepsMode(r: Scan, two: seq<string>, m: string, rest: string)
    requires |two| == 2 && !r.inq && two <= r.done
    requires if |r.done| == 2 then r.cur == m && Lacks(m, ',') else Lacks(r.done[2], ',')
    requires rest != [] && rest[0] == ','
    ensures var c := Scanned(r, rest).done; |c| >= 3 && c[..2] == two && Lacks(c[2], ',')
  {
    hide Lacks;
    assert rest == [','] + rest[1..];
    ScannedConcat(r, [','], rest[1..]);
    assert [','][..0] == [];
    var q := Scanned(r, [',']);
    assert q == Scan(r.done + [r.cur], [], false);
    DoneGrows(q, rest[1..]);
  }

  lemma UpperTrimLacks(s: string)
    requires Lacks(s, ',')
    ensures Lacks(Upper(Trim(s)), ',')
  {
    TrimLacks(s, ',');
    hide Trim;
  }

  /** A clean preset's row gives a preset, and its mode has no comma. */
  lemma CleanRow(p: Preset)
    requires Clean(p)
    ensures OneLine(Row(p)) && Trim(Row(p)) != []
    ensures ParseRow(Split(Row(p))).Some? && Lacks(ParseRow(Split(Row(p))).value.mode, ',')
  {
    hide Row, Split, Trim, Upper, ToReal, Truncated, Lacks, Left, ToInt;
    ModeField(p);
    var c := Split(Row(p));
    FrequencyParses(p.freq);
    UpperTrimLacks(c[2]);
    RowIsOneLine(p);
  }

  lemma FrequencyParses(freq: int)
    requires freq > 0
    ensures ToReal(Trim(Printed(freq))) == Some(freq as real) && Truncated(freq as real) == freq
  {
    assert Numeric(Printed(freq));
    NumericIsPlain(Printed(freq));
    hide Trim;
    ToRealOfDecimal(freq);
  }

  /** Every row of a clean bank gives one preset, in order. */
  lemma {:induction false} CleanRowsRead(bank: seq<Preset>)
    requires forall i :: 0 <= i < |bank| ==> Clean(bank[i])
    ensures var r := ReadLines(RowsOf(bank)).presets;
            |r| == |bank| && forall i :: 0 <= i < |bank| ==> Lacks(r[i].mode, ',')
    decreases |bank|
  {
    hide Row, Clean, OneLine, Trim, Split, ParseRow, Lacks;
    if bank != [] {
      var front, last := bank[..|bank| - 1], bank[|bank| - 1];
      CleanRowsRead(front);
      CleanRow(last);
      assert RowsOf(bank)[..|bank| - 1] == RowsOf(front);
    }
  }

  lemma CleanBankReads(bank: seq<Preset>)
    requires forall i :: 0 <= i < |bank| ==> Clean(bank[i])
    ensures var r := Incoming(Export(bank)).presets;
            |r| == |bank| && forall i :: 0 <= i < |bank| ==> Lacks(r[i].mode, ',')
  {
    hide Rows, Lines, ReadLines, OneLine, Lined, Row, Clean, Header, Lacks;
    forall i | 0 <= i < |bank| ensures Lined(bank[i]) {
      CleanIsLined(bank[i]);
    }
    LinesOfRows(bank);
    CleanRowsRead(bank);
    HeaderIsOneLine();
    FirstLine(Header(), Rows(bank));
    var lines := [Header()] + RowsOf(bank);
    assert Lines(Export(bank)) == lines;
    assert lines[1..] == RowsOf(bank);
  }

  lemma ExportableRoundTrip(bank: seq<Preset>)
    requires AllExportable(bank) && |bank| <= 20
    ensures Import([], Export(bank), true) == bank <==> forall i :: 0 <= i < |bank| ==> Portable(bank[i])
  {
    hide Incoming, Export, Portable, Normal, Exportable;
    ExportReadsBack(bank);
    assert [] + NormalOf(bank) == NormalOf(bank);
    forall i | 0 <= i < |bank| ensures NormalOf(bank)[i] == bank[i] <==> Portable(bank[i]) {
      NormalIff(bank[i]);
    }
    if forall i :: 0 <= i < |bank| ==> Portable(bank[i]) {
      assert NormalOf(bank) == bank;
    }
  }

  lemma OnlyExportablesReturn(bank: seq<Preset>)
    requires |bank| <= 20 && Import([], Export(bank), true) == bank
    ensures AllExportable(bank)
  {
    hide Incoming, Export, Clean, Lacks, OneLine;
    var r := Incoming(Export(bank)).presets;
    IncomingClean(Export(bank));
    assert forall i :: 0 <= i < |bank| ==> i < |r| && bank[i] == r[i];
    CleanBankReads(bank);
    forall i | 0 <= i < |bank| ensures Exportable(bank[i]) {
      CleanExportable(bank[i]);
    }
  }

  lemma CleanExportable(p: Preset)
    requires Clean(p) && Lacks(p.mode, ',')
    ensures Exportable(p)
  {
    hide Lacks;
  }

  /**
   * For every bank whatever: it comes back exactly when each preset has a positive frequency, texts
   * without line breaks, a mode without commas or quotes, and is its own normal form.
   */
  lemma RoundTripIff(bank: seq<Preset>)
    requires |bank| <= 20
    ensures Import([], Export(bank), true) == bank
            <==> forall i :: 0 <= i < |bank| ==> Exportable(bank[i]) && Portable(bank[i])
  {
    hide Import, Export, Portable, Exportable;
    if Import([], Export(bank), true) == bank {
      OnlyExportablesReturn(bank);
      ExportableRoundTrip(bank);
    } else if AllExportable(bank) {
      ExportableRoundTrip(bank);
    }
  }

  // ---- A second trip ----

  predicate EndsInk(s: string) {
    s == [] || !IsSpace(s[|s| - 1])
  }

  lemma {:induction false} UnquotedLacks(s: string)
    ensures Lacks(Unquote(s), '"')
    decreases |s|
  {
    if s != [] {
      UnquotedLacks(s[..|s| - 1]);
    }
  }

  lemma {:induction false} TrimmedText(s: string)
    ensures Lacks(s, '"') ==> Lacks(Trim(s), '"')
    ensures Trim(s) == [] || (!IsSpace(Trim(s)[0]) && !IsSpace(Trim(s)[|Trim(s)| - 1]))
    decreases |s|
  {
    if s == [] {
    } else if IsSpace(s[0]) {
      TrimmedText(s[1..]);
    } else if IsSpace(s[|s| - 1]) {
      TrimmedText(s[..|s| - 1]);
    }
  }

  lemma CutTextIff(s: string, n: nat)
    ensures var t := Left(Trim(Unquote(s)), n); Left(Trim(Unquote(t)), n) == t <==> EndsInk(t)
  {
    UnquotedLacks(s);
    TrimmedText(Unquote(s));
    hide Trim, Unquote;
    TextKeptIff(Left(Trim(Unquote(s)), n), n);
  }

  lemma ModeKeptTwice(s: string)
    ensures Upper(Trim(Upper(Trim(s)))) == Upper(Trim(s))
  {
    TrimmedText(s);
    hide Trim;
    ModeKeptIff(Upper(Trim(s)));
  }

  lemma ToneKeptTwice(t: nat)
    ensures TonePortable(t as real / 10.0)
  {
    WholeFloor(t);
    TenthOf(t, t as real / 10.0);
  }

  /**
   * What came back once comes back the same again, unless the length limit cut a name or a note
   * right after a space: the second import trims that space away.
   */
  lemma SecondTripIff(p: Preset)
    ensures Normal(Normal(p)) == Normal(p) <==> EndsInk(Normal(p).name) && EndsInk(Normal(p).notes)
  {
    CutTextIff(p.name, MAX_NAME);
    CutTextIff(p.notes, MAX_NOTES);
    ModeKeptTwice(p.mode);
    if p.tone > 0.0 {
      ToneKeptTwice(Tenths(p.tone));
      ToneKeptIff(Normal(p).tone);
    }
    hide Trim, Unquote, Left, Upper, Tenths, IsSpace, TonePortable;
  }

  // ---- The bank ----

  class Bank {
    var presets: seq<Preset>

    predicate Valid()
      reads this
    {
      |presets| <= MAX_PRESETS
    }

    constructor ()
      ensures Valid() && presets == []
    {
      presets := [];
    }

    /** The stored bank: only rows with a positive frequency, only as many as fit. */
    method Load(stored: seq<Preset>)
      modifies this
      ensures Valid()
      ensures presets == Loaded(stored)
    {
      presets := [];
      for i := 0 to |stored|
        invariant |presets| <= MAX_PRESETS && presets == Loaded(stored[..i])
      {
        assert stored[..i + 1][..i] == stored[..i];
        var p := stored[i];
        p := p.(name := Left(p.name, MAX_NAME), notes := Left(p.notes, MAX_NOTES));
        if p.freq > 0 && |presets| < MAX_PRESETS {
          presets := presets + [p];
        }
      }
      assert stored[..|stored|] == stored;
    }

    method AddPreset(p: Preset) returns (added: bool)
      requires Valid()
      modifies this
      ensures Valid()
      ensures added == (|old(presets)| < MAX_PRESETS && p.freq > 0)
      ensures presets == if added then old(presets) + [p] else old(presets)
    {
      if |presets| >= MAX_PRESETS || p.freq <= 0 {
        return false;
      }
      presets := presets + [p];
      return true;
    }

    method SetPreset(index: int, p: Preset)
      requires Valid()
      modifies this
      ensures Valid()
      ensures presets == if 0 <= index < |old(presets)| then old(presets)[index := p] else old(presets)
    {
      if index < 0 || index >= |presets| {
        return;
      }
      presets := presets[index := p];
    }

    method Remove(index: int)
      requires Valid()
      modifies this
      ensures Valid()
      ensures presets == if 0 <= index < |old(presets)| then old(presets)[..index] + old(presets)[index + 1..] else old(presets)
    {
      if index < 0 || index >= |presets| {
        return;
      }
      presets := presets[..index] + presets[index + 1..];
    }

    method ClearAll()
      modifies this
      ensures Valid() && presets == []
    {
      presets := [];
    }

    method ExportCsv() returns (text: string)
      ensures text == Export(presets)
    {
      text := [];
      var i := |presets|;
      while i > 0
        invariant 0 <= i <= |presets|
        invariant text == Rows(presets[i..])
      {
        i := i - 1;
        assert presets[i..][1..] == presets[i + 1..];
        text := Row(presets[i]) + ['\n'] + text;
      }
      assert presets[0..] == presets;
      text := Header() + ['\n'] + text;
    }

    /** Stores the live settings; a blank name gets the one made up for them. */
    method AddCurrent(name: string, automatic: string, live: Preset) returns (added: bool)
      requires Valid()
      modifies this
      ensures Valid()
      ensures added == (|old(presets)| < MAX_PRESETS)
      ensures presets == if added then old(presets) + [Captured(name, automatic, live)] else old(presets)
    {
      if |presets| >= MAX_PRESETS {
        return false;
      }
      var wanted := if Trim(name) == [] then automatic else Trim(name);
      presets := presets + [live.(name := Left(wanted, MAX_NAME), rxBw := 0, notes := [])];
      return true;
    }

    /** Reads a file line by line, past its header. */
    static method ReadFile(text: string) returns (incoming: seq<Preset>, skipped: nat)
      ensures Read(incoming, skipped) == Incoming(text)
    {
      hide Split, ParseRow, Trim, Lines;
      var lines := Lines(text);
      incoming, skipped := [], 0;
      if lines == [] {
        return;
      }
      ghost var body := lines[1..];
      for i := 1 to |lines|
        invariant Read(incoming, skipped) == ReadLines(body[..i - 1])
      {
        assert body[..i][..i - 1] == body[..i - 1] && body[i - 1] == lines[i];
        if Trim(lines[i]) == [] {
          continue;
        }
        var c := SplitRow(lines[i]);
        var p := ParseRow(c);
        if p.None? {
          skipped := skipped + 1;
        } else {
          incoming := incoming + [p.value];
        }
      }
      assert body[..|lines| - 1] == body;
    }

    /** Adds what the file holds while there is room; the counts say how much that was. */
    method ImportCsv(text: string, replace: bool) returns (added: nat, skipped: nat)
      requires Valid()
      modifies this
      ensures Valid()
      ensures presets == Import(old(presets), text, replace)
      ensures skipped == Incoming(text).skipped
      ensures |presets| == (if replace then 0 else |old(presets)|) + added
    {
      hide Incoming;
      var incoming: seq<Preset>;
      incoming, skipped := ReadFile(text);
      if replace {
        presets := [];
      }
      ghost var base := presets;
      added := 0;
      for k := 0 to |incoming|
        invariant added == k && presets == base + incoming[..k] && |presets| <= MAX_PRESETS
      {
        if |presets| >= MAX_PRESETS {
          break;
        }
        presets := presets + [incoming[k]];
        added := added + 1;
      }
    }
  }

  function Captured(name: string, automatic: string, live: Preset): Preset {
    live.(name := Left(if Trim(name) == [] then automatic else Trim(name), MAX_NAME), rxBw := 0, notes := [])
  }

  function Loaded(stored: seq<Preset>): (r: seq<Preset>)
    ensures |r| <= MAX_PRESETS
    decreases |stored|
  {
    if stored == [] then []
    else
      var front, p := Loaded(stored[..|stored| - 1]), stored[|stored| - 1];
      if p.freq > 0 && |front| < MAX_PRESETS
      then front + [p.(name := Left(p.name, MAX_NAME), notes := Left(p.notes, MAX_NOTES))]
      else front
  }
}
