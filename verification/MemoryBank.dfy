/** What a bank holds after a load or an import, and what a file's lines and columns amount to. */
module MemoryBank {
  import opened Basics
  import opened MemoryCsv

  // ---- The splitter on rows as they are written ----

  /** The columns of a printed row, in the order the header names them. */
  lemma ColumnsInOrder(p: Preset)
    requires Exportable(p)
    ensures Split(Header()) == ["Name", "Freq_Hz", "Mode", "RX_BW_Hz", "Notes", "Offset_Hz", "CTCSS_Hz"]
    ensures var c := Split(Row(p));
            && |c| == 7 && c[0] == Unquote(p.name) && ToInt(c[1]) == (if p.freq <= 0x7fff_ffff then p.freq else 0)
            && c[2] == p.mode && ToInt(c[3]) == (if p.rxBw > 0 then p.rxBw else 0)
            && c[4] == Unquote(p.notes) && ToInt(c[5]) == p.offset
            && if p.tone > 0.0 then ToReal(c[6]) == Some((p.tone * 10.0 + 0.5).Floor as real / 10.0) else c[6] == []
  {
    HeaderSplits();
    RowIsJoin(p);
    SplitUndoesJoin(Fields(p));
    FieldsUnquoted(p);
    hide Split, Row, Join, Escaped, Unquoted, Unquote, Plain, OneLine, Header, ToInt, ToReal, PrintedTone, Printed;
    NumberColumns(p);
  }

  lemma NumberColumns(p: Preset)
    requires p.freq > 0 && -0x8000_0000 <= p.rxBw <= 0x7fff_ffff && -0x8000_0000 <= p.offset <= 0x7fff_ffff
    ensures ToInt(Printed(p.freq)) == (if p.freq <= 0x7fff_ffff then p.freq else 0) && ToInt(Printed(p.offset)) == p.offset
    ensures ToInt([]) == 0 && (p.rxBw > 0 ==> ToInt(Printed(p.rxBw)) == p.rxBw)
    ensures p.tone > 0.0 ==> ToReal(PrintedTone(p.tone)) == Some((p.tone * 10.0 + 0.5).Floor as real / 10.0)
  {
    hide ToReal, ToInt, Printed, PrintedTone;
    FrequencyColumn(p.freq);
    ToIntOfPrinted(p.offset);
    assert ToInt([]) == 0 by {
      EmptyColumn();
    }
    if p.rxBw > 0 {
      ToIntOfPrinted(p.rxBw);
    }
    if p.tone > 0.0 {
      ToRealOfTone(p.tone);
    }
  }

  lemma EmptyColumn()
    ensures ToInt([]) == 0
  {
    assert !Digits([]);
  }

  lemma FrequencyColumn(freq: int)
    requires freq > 0
    ensures ToInt(Printed(freq)) == if freq <= 0x7fff_ffff then freq else 0
  {
    ValueOfDecimal(freq);
    assert IsDigit(Printed(freq)[0]);
  }

  lemma HeaderSplits()
    ensures Split(Header()) == ["Name", "Freq_Hz", "Mode", "RX_BW_Hz", "Notes", "Offset_Hz", "CTCSS_Hz"]
  {
    var names := ["Name", "Freq_Hz", "Mode", "RX_BW_Hz", "Notes", "Offset_Hz", "CTCSS_Hz"];
    forall i | 0 <= i < |names| ensures Escape(names[i]) == names[i] && Unquote(names[i]) == names[i] {
      assert Plain(names[i]) by {
        assert Plain("Name") && Plain("Freq_Hz") && Plain("Mode") && Plain("RX_BW_Hz");
        assert Plain("Notes") && Plain("Offset_Hz") && Plain("CTCSS_Hz");
      }
      ScannedPlain([], [], names[i]);
    }
    hide Escape, Unquote, Join, Split;
    assert Escaped(names) == names && Unquoted(names) == names;
    SplitUndoesJoin(names);
  }

  /**
   * A row cut short after any column, as files of the older kind are, still imports as the whole row
   * would with the missing columns at nought; it is refused only where the mode is missing.
   */
  lemma ShortRows(p: Preset, k: nat)
    requires Exportable(p) && 1 <= k <= 7
    ensures var n := Normal(p);
            ParseRow(Split(Join(Escaped(Fields(p)[..k]))))
            == if k <= 2 then None
               else Some(Preset(n.name, n.freq, n.mode, if k >= 4 then n.rxBw else 0, if k >= 5 then n.notes else [],
                                if k >= 6 then n.offset else 0, if k >= 7 then n.tone else 0.0))
  {
    hide *;
    var f := Fields(p);
    RowReadsBack(p);
    ModeIsPlain(p);
    RowIsJoin(p);
    SplitUndoesJoin(f);
    SplitUndoesJoin(f[..k]);
    FirstUnquoted(f, k);
    ColumnsKept(Unquoted(f), k);
  }

  lemma ModeIsPlain(p: Preset)
    requires Exportable(p)
    ensures Plain(p.mode)
  {
  }

  lemma FirstUnquoted(f: seq<string>, k: nat)
    requires k <= |f|
    ensures Unquoted(f[..k]) == Unquoted(f)[..k]
  {
  }

  lemma ColumnsKept(c: seq<string>, k: nat)
    requires |c| == 7 && k <= 7 && ParseRow(c).Some?
    ensures var n := ParseRow(c).value;
            ParseRow(c[..k])
            == if k <= 2 then None
               else Some(Preset(n.name, n.freq, n.mode, if k >= 4 then n.rxBw else 0, if k >= 5 then n.notes else [],
                                if k >= 6 then n.offset else 0, if k >= 7 then n.tone else 0.0))
  {
    hide Trim, ToInt, ToReal, Left, Upper, Truncated;
  }

  lemma NegativeReads(s: string)
    requires s != [] && s[0] != '-' && ToReal(s).Some?
    ensures ToReal(['-'] + s) == Some(-ToReal(s).value)
  {
    hide Unsigned;
    assert (['-'] + s)[1..] == s;
  }

  /** A fraction of a hertz is dropped. */
  lemma WholeHertz(x: real)
    ensures x >= 0.0 ==> Truncated(x) as real <= x < Truncated(x) as real + 1.0
    ensures x <= 0.0 ==> Truncated(x) as real - 1.0 < x <= Truncated(x) as real
  {
  }

  lemma UpperCase(s: string, i: nat)
    requires i < |s|
    ensures 'a' <= s[i] <= 'z' ==> Upper(s)[i] as int - 'A' as int == s[i] as int - 'a' as int
    ensures !('a' <= s[i] <= 'z') ==> Upper(s)[i] == s[i]
  {
    if 'a' <= s[i] <= 'z' {
      assert (s[i] - 32 as char) as int == s[i] as int - 32;
    }
  }

  // ---- Trimming ----

  predicate White(c: char) {
    c == ' ' || c == '\t' || c == '\n' || c == '\U{b}' || c == '\U{c}' || c == '\r'
  }

  /** Trimming takes white space off both ends, and all of it. */
  lemma {:induction false} TrimTakesTheEnds(s: string) returns (a: nat, b: nat)
    ensures a <= b <= |s| && Trim(s) == s[a..b]
    ensures forall i :: 0 <= i < |s| && !(a <= i < b) ==> White(s[i])
    ensures a < b ==> !White(s[a]) && !White(s[b - 1])
    decreases |s|
  {
    a, b := 0, |s|;
    if s != [] {
      SpacesAre(s[0]);
      SpacesAre(s[|s| - 1]);
      hide IsSpace, White;
      if IsSpace(s[0]) {
        a, b := TrimTakesTheEnds(s[1..]);
        a, b := a + 1, b + 1;
        assert s[1..][a - 1..b - 1] == s[a..b];
        assert forall i :: 0 < i < |s| ==> s[i] == s[1..][i - 1];
      } else if IsSpace(s[|s| - 1]) {
        a, b := TrimTakesTheEnds(s[..|s| - 1]);
        assert s[..|s| - 1][a..b] == s[a..b];
      } else {
        assert s[0..|s|] == s;
      }
    }
  }

  lemma SpacesAre(c: char)
    ensures IsSpace(c) <==> White(c)
  {
    assert '\U{9}' <= c <= '\U{d}' <==> 9 <= c as int <= 13;
  }

  // ---- The lines of a file ----

  function Inked(lines: seq<string>): nat {
    if lines == [] then 0 else Inked(lines[..|lines| - 1]) + (if Trim(lines[|lines| - 1]) == [] then 0 else 1)
  }

  lemma {:induction false} LinesCounted(lines: seq<string>)
    ensures |ReadLines(lines).presets| + ReadLines(lines).skipped == Inked(lines)
    decreases |lines|
  {
    hide Trim, Split, ParseRow;
    if lines != [] {
      LinesCounted(lines[..|lines| - 1]);
    }
  }

  /** Every line after the header that is not blank is either a preset or counted as skipped. */
  lemma EveryLineCounted(text: string)
    ensures var body := if Lines(text) == [] then [] else Lines(text)[1..];
            |Incoming(text).presets| + Incoming(text).skipped == Inked(body)
  {
    hide Lines, ReadLines;
    if Lines(text) != [] {
      LinesCounted(Lines(text)[1..]);
    }
  }

  // ---- What the bank holds ----

  /** An import fills the bank, or an emptied one, in the file's order up to twenty and no further. */
  lemma FillsToTwenty(bank: seq<Preset>, text: string, replace: bool)
    requires |bank| <= 20
    ensures var base, more, r := if replace then [] else bank, Incoming(text).presets, Import(bank, text, replace);
            && base <= r && |r| == (if |base| + |more| <= 20 then |base| + |more| else 20)
            && forall i :: |base| <= i < |r| ==> r[i] == more[i - |base|]
  {
    hide Incoming;
  }

  /** The stored presets that have a frequency, in their order. */
  function Tuned(stored: seq<Preset>): (r: seq<Preset>)
    ensures |r| <= |stored|
  {
    if stored == [] then []
    else Tuned(stored[..|stored| - 1]) + (if stored[|stored| - 1].freq > 0 then [stored[|stored| - 1]] else [])
  }

  /** A load keeps the first twenty presets that have a frequency, in order, each as it was but for its long texts. */
  lemma {:induction false} LoadsFirstTwenty(stored: seq<Preset>)
    ensures var r, tuned := Loaded(stored), Tuned(stored);
            && |r| == (if |tuned| <= 20 then |tuned| else 20)
            && forall i :: 0 <= i < |r| ==>
                 r[i] == tuned[i].(name := if |tuned[i].name| <= 30 then tuned[i].name else tuned[i].name[..30],
                                   notes := if |tuned[i].notes| <= 80 then tuned[i].notes else tuned[i].notes[..80])
    decreases |stored|
  {
    if stored != [] {
      LoadsFirstTwenty(stored[..|stored| - 1]);
    }
  }

  /** Live settings are stored under the name given, or the one made up for them, with no width and no notes. */
  lemma CapturedAs(name: string, automatic: string, live: Preset)
    ensures var p := Captured(name, automatic, live);
            && p.freq == live.freq && p.mode == live.mode && p.offset == live.offset && p.tone == live.tone
            && p.rxBw == 0 && p.notes == [] && |p.name| <= 30
    ensures (forall i :: 0 <= i < |name| ==> IsSpace(name[i])) ==> Captured(name, automatic, live).name == if |automatic| <= 30 then automatic else automatic[..30]
    ensures name != [] && |name| <= 30 && !IsSpace(name[0]) && !IsSpace(name[|name| - 1])
            ==> Captured(name, automatic, live).name == name
  {
    TrimKeeps(name);
    if forall i :: 0 <= i < |name| ==> IsSpace(name[i]) {
      BlankTrims(name);
    }
    hide Trim;
  }

  lemma {:induction false} BlankTrims(s: string)
    requires forall i :: 0 <= i < |s| ==> IsSpace(s[i])
    ensures Trim(s) == []
    decreases |s|
  {
    if s != [] {
      BlankTrims(s[1..]);
    }
  }
}
