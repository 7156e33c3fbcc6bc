/**
 * Staging of broker candles as CSV text (`process_candle_response` and
 * `oanda_fix_date` in gamestonk_terminal/forex/fx_view.py).
 *
 * The broker's candle response is flattened into `.temp_candles.csv`, one
 * comma-separated line per candle; that file is read back line by line and
 * rewritten into `.candles.csv` under a header, with each broker timestamp
 * `YYYY-MM-DDTHH:MM:SS.fffffffffZ` cut down to `YYYY-MM-DD HH:MM:SS` by
 * fixed-offset slicing. A file is modelled as the sequence of strings handed
 * to `write()`; its content is their concatenation.
 */
module CandleCsv {
  import opened Wrappers
  import opened PyText

  /** A price object of a candle (`mid`, `bid` or `ask`); a field may be absent. */
  datatype Ohlc = Ohlc(o: Option<string>, h: Option<string>, l: Option<string>, c: Option<string>)

  /** One candle of the response; any key may be absent from the broker's object. */
  datatype Candle = Candle(
    time: Option<string>,
    volume: Option<int>,
    mid: Option<Ohlc>,
    bid: Option<Ohlc>,
    ask: Option<Ohlc>)

  /** The dictionary keys the serialiser looks up, in the order it looks them up. */
  datatype Key = Time | Volume | Mid | O | H | L | C

  /** The `KeyError` raised for candle `index` when `key` is missing. */
  datatype KeyError = KeyError(index: nat, key: Key)

  /** The first lookup on a candle that raises `KeyError`, if any. */
  function MissingKey(c: Candle): (k: Option<Key>)
    ensures k.None? <==> (c.time.Some? && c.volume.Some? && c.mid.Some?
      && c.mid.value.o.Some? && c.mid.value.h.Some? && c.mid.value.l.Some? && c.mid.value.c.Some?)
  {
    if c.time.None? then Some(Time)
    else if c.volume.None? then Some(Volume)
    else if c.mid.None? then Some(Mid)
    else if c.mid.value.o.None? then Some(O)
    else if c.mid.value.h.None? then Some(H)
    else if c.mid.value.l.None? then Some(L)
    else if c.mid.value.c.None? then Some(C)
    else None
  }

  predicate Complete(c: Candle) {
    MissingKey(c).None?
  }

  predicate AllComplete(cs: seq<Candle>) {
    forall i :: 0 <= i < |cs| ==> Complete(cs[i])
  }

  /** What follows the timestamp on a candle's line: `,o,h,l,c,volume` and the newline. */
  function RowTail(c: Candle): string
    requires Complete(c)
  {
    var p := c.mid.value;
    "," + p.o.value + "," + p.h.value + "," + p.l.value + "," + p.c.value
      + "," + IntToDecimal(c.volume.value) + "\n"
  }

  /** The line written for one candle: its time, then the mid prices and the volume. */
  function CandleLine(c: Candle): (line: string)
    requires Complete(c)
  {
    c.time.value + RowTail(c)
  }

  /** Every line written for complete candles, in response order. */
  function CandleLines(cs: seq<Candle>): (lines: seq<string>)
    requires AllComplete(cs)
    ensures |lines| == |cs|
    ensures forall i :: 0 <= i < |cs| ==> lines[i] == CandleLine(cs[i])
  {
    if cs == [] then []
    else
      var init := cs[..|cs| - 1];
      assert forall i :: 0 <= i < |init| ==> init[i] == cs[i];
      CandleLines(init) + [CandleLine(cs[|cs| - 1])]
  }

  /**
   * The line written for a candle is the `str` of its time, `o`, `h`, `l`,
   * `c` and volume joined by commas and ended by a newline: splitting the
   * line at its commas gives those six columns back.
   */
  lemma CandleLineColumns(c: Candle)
    requires Complete(c) && CommaFree(c)
    ensures var line := CandleLine(c);
      && |line| >= 1 && line[|line| - 1] == '\n'
      && Split(line[..|line| - 1], ',') == [c.time.value, c.mid.value.o.value, c.mid.value.h.value,
           c.mid.value.l.value, c.mid.value.c.value, IntToDecimal(c.volume.value)]
  {
    var t, p, v := c.time.value, c.mid.value, IntToDecimal(c.volume.value);
    DecimalHasNoBreaks(c.volume.value);
    var line := CandleLine(c);
    assert line[..|line| - 1] == t + [','] + (p.o.value + [','] + (p.h.value + [','] + (p.l.value + [',']
      + (p.c.value + [','] + v))));
    SplitSixColumns(t, p.o.value, p.h.value, p.l.value, p.c.value, v);
  }

  /** Index of the first candle that raises `KeyError`, or the number of candles. */
  function FirstIncomplete(cs: seq<Candle>): (k: nat)
    ensures k <= |cs|
    ensures AllComplete(cs[..k])
    ensures k < |cs| ==> !Complete(cs[k])
  {
    if cs == [] then 0
    else if !Complete(cs[0]) then 0
    else
      assert cs[..1 + FirstIncomplete(cs[1..])] == [cs[0]] + cs[1..][..FirstIncomplete(cs[1..])];
      1 + FirstIncomplete(cs[1..])
  }

  /**
   * `process_candle_response`: writes one line per candle into the temporary
   * file. A candle missing a key raises `KeyError` at that candle; the lines
   * written before it stay in the file.
   */
  method ProcessCandleResponse(candles: seq<Candle>) returns (written: seq<string>, failure: Option<KeyError>)
    ensures var k := FirstIncomplete(candles);
      && written == CandleLines(candles[..k])
      && failure == (if k == |candles| then None else Some(KeyError(k, MissingKey(candles[k]).value)))
  {
    written := [];
    var i := 0;
    while i < |candles|
      invariant 0 <= i <= |candles|
      invariant AllComplete(candles[..i])
      invariant written == CandleLines(candles[..i])
    {
      var c := candles[i];
      var missing := MissingKey(c);
      if missing.Some? {
        FirstIncompleteAt(candles, i);
        return written, Some(KeyError(i, missing.value));
      }
      written := written + [CandleLine(c)];
      CandleLinesStep(candles, i);
      i := i + 1;
    }
    assert candles[..i] == candles;
    FirstIncompleteAt(candles, i);
    failure := None;
  }

  /** One more complete candle adds its line at the end. */
  lemma CandleLinesStep(cs: seq<Candle>, i: nat)
    requires i < |cs| && AllComplete(cs[..i]) && Complete(cs[i])
    ensures AllComplete(cs[..i + 1])
    ensures CandleLines(cs[..i + 1]) == CandleLines(cs[..i]) + [CandleLine(cs[i])]
  {
    var done := cs[..i + 1];
    assert done[..i] == cs[..i] && done[i] == cs[i];
  }

  /** The first incomplete candle is the one a scan over complete candles stops at. */
  lemma {:induction false} FirstIncompleteAt(cs: seq<Candle>, i: nat)
    requires i <= |cs| && AllComplete(cs[..i])
    requires i < |cs| ==> !Complete(cs[i])
    ensures FirstIncomplete(cs) == i
  {
    if i > 0 {
      assert cs[0] == cs[..i][0];
      assert cs[1..][..i - 1] == cs[..i][1..];
      FirstIncompleteAt(cs[1..], i - 1);
    }
  }

  // ---------------------------------------------------------------------------
  // oanda_fix_date
  // ---------------------------------------------------------------------------

  const Header := "Datetime, Open, High, Low, Close, Volume\n"

  /** `line[:10] + " " + line[11:19] + line[30:]` */
  function FixLine(line: string): (r: string)
    ensures |r| == if |line| >= 30 then |line| - 11
                   else if |line| >= 19 then 19
                   else if |line| >= 11 then |line|
                   else |line| + 1
  {
    Take(line, 10) + " " + Slice(line, 11, 19) + Drop(line, 30)
  }

  /**
   * On a line of at least 30 characters the date and the `HH:MM:SS` are kept
   * verbatim, the character at index 10 becomes a space, characters 19 to 29
   * are dropped and the rest of the line follows unchanged.
   */
  lemma FixLineLong(line: string)
    requires |line| >= 30
    ensures var r := FixLine(line);
      && |r| == |line| - 11
      && r[..10] == line[..10]
      && r[10] == ' '
      && r[11..19] == line[11..19]
      && r[19..] == line[30..]
  {
  }

  /** A line shorter than 11 characters keeps its text and gains a trailing space. */
  lemma FixLineShort(line: string)
    requires |line| <= 10
    ensures FixLine(line) == line + " "
  {
  }

  /** Each line rewritten, in file order. */
  function FixAll(lines: seq<string>): (out: seq<string>)
    ensures |out| == |lines|
    ensures forall i :: 0 <= i < |lines| ==> out[i] == FixLine(lines[i])
  {
    if lines == [] then [] else FixAll(lines[..|lines| - 1]) + [FixLine(lines[|lines| - 1])]
  }

  /** The rewrite seen field by field: date, separator, clock, dropped part, rest. */
  lemma FixLineParts(date: string, sep: string, clock: string, dropped: string, rest: string)
    requires |date| == 10 && |sep| == 1 && |clock| == 8 && |dropped| == 11
    ensures FixLine(date + sep + clock + dropped + rest) == date + " " + clock + rest
  {
    var line := date + sep + clock + dropped + rest;
    assert line[..10] == date;
    assert line[11..19] == clock;
    assert line[30..] == rest;
  }

  /** One more line read adds its rewrite at the end. */
  lemma FixAllStep(lines: seq<string>, i: nat)
    requires i < |lines|
    ensures FixAll(lines[..i + 1]) == FixAll(lines[..i]) + [FixLine(lines[i])]
  {
    var done := lines[..i + 1];
    assert done[..i] == lines[..i] && done[i] == lines[i];
  }

  /** The content of `.candles.csv`: the header, then each line rewritten. */
  function FixedLines(lines: seq<string>): (out: seq<string>)
    ensures |out| == |lines| + 1
    ensures out[0] == Header
    ensures forall i :: 1 <= i <= |lines| ==> out[i] == FixLine(lines[i - 1])
  {
    [Header] + FixAll(lines)
  }

  /**
   * `oanda_fix_date`: reads the staged file line by line and writes the
   * header followed by each line with its timestamp cut down.
   */
  method OandaFixDate(staged: string) returns (written: seq<string>)
    ensures written == FixedLines(ReadLines(staged))
  {
    var lines := ReadLines(staged);
    written := WriteFixed(lines);
  }

  /** The loop of `oanda_fix_date`: the header, then each line read, rewritten, in order. */
  method WriteFixed(lines: seq<string>) returns (written: seq<string>)
    ensures written == FixedLines(lines)
  {
    written := [Header];
    for i := 0 to |lines|
      invariant written == [Header] + FixAll(lines[..i])
    {
      written := written + [FixLine(lines[i])];
      FixAllStep(lines, i);
    }
    assert lines[..|lines|] == lines;
  }


  // ---------------------------------------------------------------------------
  // The two steps together, as `show_candles` runs them.
  // ---------------------------------------------------------------------------

  /** `YYYY-MM-DD HH:MM:SS`: the date, a space, the whole-second time. */
  function NormalTimestamp(t: string): (r: string)
    requires |t| == 30
    ensures |r| == 19 && r[..10] == t[..10] && r[10] == ' ' && r[11..] == t[11..19]
  {
    t[..10] + " " + t[11..19]
  }

  predicate AllWellFormed(cs: seq<Candle>)
    ensures AllWellFormed(cs) ==> AllComplete(cs)
  {
    forall i :: 0 <= i < |cs| ==> WellFormed(cs[i])
  }

  predicate NoBreaks(s: string) {
    '\n' !in s && ',' !in s
  }

  /**
   * A complete candle whose timestamp has the broker's length of 30
   * characters (`2021-01-04T00:00:00.000000000Z`) and whose time and prices
   * hold no newline, so that its line is read back whole.
   */
  predicate WellFormed(c: Candle) {
    && Complete(c)
    && |c.time.value| == 30
    && '\n' !in c.time.value
    && '\n' !in c.mid.value.o.value && '\n' !in c.mid.value.h.value
    && '\n' !in c.mid.value.l.value && '\n' !in c.mid.value.c.value
  }

  /** The time and prices of a complete candle hold no comma, so its columns split apart again. */
  predicate CommaFree(c: Candle)
    requires Complete(c)
  {
    && ',' !in c.time.value
    && ',' !in c.mid.value.o.value && ',' !in c.mid.value.h.value
    && ',' !in c.mid.value.l.value && ',' !in c.mid.value.c.value
  }

  /** The row the rewritten file holds for a well-formed candle. */
  function NormalRow(c: Candle): (r: string)
    requires WellFormed(c)
  {
    NormalTimestamp(c.time.value) + RowTail(c)
  }

  lemma DecimalHasNoBreaks(n: int)
    ensures NoBreaks(IntToDecimal(n))
  {
    var r := IntToDecimal(n);
    if n < 0 {
      assert forall i :: 1 <= i < |r| ==> r[i] == r[1..][i - 1];
    }
  }

  /** A well-formed candle's line is a single line in the sense of `readlines()`. */
  lemma CandleLineIsLine(c: Candle)
    requires WellFormed(c)
    ensures IsLine(CandleLine(c))
  {
    var p := c.mid.value;
    var v := IntToDecimal(c.volume.value);
    DecimalHasNoBreaks(c.volume.value);
    var line := CandleLine(c);
    assert line[..|line| - 1] == c.time.value + "," + p.o.value + "," + p.h.value + ","
      + p.l.value + "," + p.c.value + "," + v;
  }

  /** Rewriting a candle's line only shortens the timestamp. */
  lemma FixCandleLine(c: Candle)
    requires WellFormed(c)
    ensures FixLine(CandleLine(c)) == NormalRow(c)
  {
    var t := c.time.value;
    var line := CandleLine(c);
    FixLineLong(line);
    assert line[..10] == t[..10] && line[11..19] == t[11..19] && line[30..] == RowTail(c);
  }

  /**
   * Serialising then fixing: the rewritten file is the header followed by one
   * row per candle, in response order, each row the normalised timestamp and
   * the untouched `,o,h,l,c,volume`.
   */
  lemma {:induction false} StagedThenFixed(cs: seq<Candle>)
    requires AllWellFormed(cs)
    ensures var out := FixedLines(ReadLines(Concat(CandleLines(cs))));
      && |out| == |cs| + 1
      && out[0] == Header
      && forall i :: 0 <= i < |cs| ==> out[i + 1] == NormalRow(cs[i])
  {
    var lines := CandleLines(cs);
    forall i | 0 <= i < |lines| ensures IsLine(lines[i]) {
      CandleLineIsLine(cs[i]);
    }
    ReadLinesConcat(lines);
    forall i | 0 <= i < |cs| ensures FixLine(lines[i]) == NormalRow(cs[i]) {
      FixCandleLine(cs[i]);
    }
  }

  /**
   * The CSV columns of a rewritten row are the normalised timestamp, the four
   * mid prices and the volume, each as it was written.
   */
  lemma RowColumns(c: Candle)
    requires WellFormed(c) && CommaFree(c)
    ensures var row := NormalRow(c);
      && |row| >= 1 && row[|row| - 1] == '\n'
      && Split(row[..|row| - 1], ',') == [NormalTimestamp(c.time.value), c.mid.value.o.value,
           c.mid.value.h.value, c.mid.value.l.value, c.mid.value.c.value, IntToDecimal(c.volume.value)]
  {
    var t, p, v := c.time.value, c.mid.value, IntToDecimal(c.volume.value);
    var n := NormalTimestamp(t);
    assert ',' !in n by {
      assert forall i :: 0 <= i < 10 ==> n[i] == t[i];
      assert forall i :: 11 <= i < 19 ==> n[i] == t[i];
    }
    DecimalHasNoBreaks(c.volume.value);
    var row := NormalRow(c);
    assert row[..|row| - 1] == n + [','] + (p.o.value + [','] + (p.h.value + [','] + (p.l.value + [',']
      + (p.c.value + [','] + v))));
    SplitSixColumns(n, p.o.value, p.h.value, p.l.value, p.c.value, v);
  }

  /** Six comma-free columns joined by commas split back into those columns. */
  lemma SplitSixColumns(a: string, b: string, c: string, d: string, e: string, f: string)
    requires ',' !in a && ',' !in b && ',' !in c && ',' !in d && ',' !in e && ',' !in f
    ensures Split(a + [','] + (b + [','] + (c + [','] + (d + [','] + (e + [','] + f)))), ',')
      == [a, b, c, d, e, f]
  {
    SplitNone(f, ',');
    SplitJoin(e, ',', f);
    SplitJoin(d, ',', e + [','] + f);
    SplitJoin(c, ',', d + [','] + (e + [','] + f));
    SplitJoin(b, ',', c + [','] + (d + [','] + (e + [','] + f)));
    SplitJoin(a, ',', b + [','] + (c + [','] + (d + [','] + (e + [','] + f))));
  }

  /** With no candles the rewritten file holds the header alone. */
  lemma NoCandlesHeaderOnly()
    ensures FixedLines(ReadLines(Concat(CandleLines([])))) == [Header]
  {
  }

  /** The example of a daily candle at midnight, 4 January 2021. */
  lemma MidnightCandleRow()
    ensures var c := Candle(Some("2021-01-04T00:00:00.000000000Z"), Some(100),
                            Some(Ohlc(Some("1.1"), Some("1.2"), Some("1.0"), Some("1.15"))), None, None);
      && Complete(c)
      && FixLine(CandleLine(c)) == "2021-01-04 00:00:00,1.1,1.2,1.0,1.15,100\n"
  {
    var c := Candle(Some("2021-01-04T00:00:00.000000000Z"), Some(100),
                    Some(Ohlc(Some("1.1"), Some("1.2"), Some("1.0"), Some("1.15"))), None, None);
    var tail := ",1.1,1.2,1.0,1.15,100\n";
    assert RowTail(c) == tail by { Decimal100(); }
    MidnightTimestampSplits();
    MidnightRowJoins();
    FixLineParts("2021-01-04", "T", "00:00:00", ".000000000Z", tail);
  }

  // The string identities behind the two examples sit in lemmas of their own,
  // one identity each, to keep every literal comparison a small proof.
  lemma MidnightTimestampSplits()
    ensures "2021-01-04T00:00:00.000000000Z" == "2021-01-04" + "T" + "00:00:00" + ".000000000Z"
  {
  }

  lemma MidnightRowJoins()
    ensures "2021-01-04" + " " + "00:00:00" + ",1.1,1.2,1.0,1.15,100\n"
      == "2021-01-04 00:00:00,1.1,1.2,1.0,1.15,100\n"
  {
  }

  lemma Decimal100()
    ensures IntToDecimal(100) == "100"
  {
    assert NatToDecimal(1) == "1";
    assert NatToDecimal(10) == "10";
  }

  /**
   * A timestamp without the nine fractional digits is shorter than the
   * broker's 30 characters, and the fixed slice `[30:]` then cuts into the
   * prices: the open, the high and the leading `1` of the low are lost, and
   * the low's remaining `.0` is glued to the time.
   */
  lemma ShortTimestampLosesPrices()
    ensures FixLine("2021-01-04T00:00:00Z,1.1,1.2,1.0,1.15,100\n") == "2021-01-04 00:00:00.0,1.15,100\n"
  {
    var date, clock, rest := "2021-01-04", "00:00:00", ".0,1.15,100\n";
    ShortLineSplits();
    ShortLineJoins();
    FixLineParts(date, "T", clock, "Z,1.1,1.2,1", rest);
  }

  lemma ShortLineSplits()
    ensures "2021-01-04T00:00:00Z,1.1,1.2,1.0,1.15,100\n"
      == "2021-01-04" + "T" + "00:00:00" + "Z,1.1,1.2,1" + ".0,1.15,100\n"
  {
  }

  lemma ShortLineJoins()
    ensures "2021-01-04" + " " + "00:00:00" + ".0,1.15,100\n" == "2021-01-04 00:00:00.0,1.15,100\n"
  {
  }

  /**
   * The bid and ask prices play no part in the line written for a candle:
   * only the mid prices are serialised.
   */
  lemma OnlyMidPrices(c: Candle, bid: Option<Ohlc>, ask: Option<Ohlc>)
    requires Complete(c)
    ensures Complete(c.(bid := bid, ask := ask))
    ensures CandleLine(c.(bid := bid, ask := ask)) == CandleLine(c)
  {
  }

  /**
   * The staging as `show_candles` drives it: the serialiser writes the
   * temporary file and, if it raised no `KeyError`, the date fixer rewrites
   * what it wrote. On a `KeyError` the exception is caught and printed and
   * nothing is rewritten.
   */
  method StageCandles(candles: seq<Candle>) returns (csv: Option<seq<string>>)
    ensures csv.Some? <==> AllComplete(candles)
    ensures csv.Some? ==> csv.value == FixedLines(ReadLines(Concat(CandleLines(candles))))
    ensures AllWellFormed(candles) ==>
      && csv.Some?
      && |csv.value| == |candles| + 1
      && csv.value[0] == Header
      && forall i :: 0 <= i < |candles| ==> csv.value[i + 1] == NormalRow(candles[i])
  {
    var staged, failure := ProcessCandleResponse(candles);
    if failure.Some? {
      return None;
    }
    assert candles[..|candles|] == candles;
    var fixed := OandaFixDate(Concat(staged));
    csv := Some(fixed);
    if AllWellFormed(candles) {
      StagedThenFixed(candles);
    }
  }
}
