/**
 * The economic calendar listing in `calendar` (gamestonk_terminal/forex/fx_view.py):
 * the look-back period sent to the broker, and the text printed for each
 * calendar event. An event is the broker's dictionary, each value taken as
 * the text Python prints for it.
 */
module EconCalendar {
  import opened PyText

  /** A calendar event: the keys present, each with the printed text of its value. */
  type Event = map<string, string>

  const SecondsPerDay := 86400
  const DefaultDays := 7

  /** `str(days * 86400 * -1)`: the period parameter, in seconds, counted backwards. */
  function Period(days: int): (period: string)
    ensures |period| >= 1 && (period[0] == '-' ==> AllDigits(period[1..]))
    ensures period[0] != '-' ==> AllDigits(period)
    ensures DecimalValue(period) == 0 - SecondsPerDay * days
    ensures period[0] == '-' <==> days > 0
    ensures period[0] == '-' ==> period[1] != '0'
    ensures period[0] != '-' && |period| > 1 ==> period[0] != '0'
  {
    IntToDecimalRoundTrip(days * SecondsPerDay * -1);
    IntToDecimal(days * SecondsPerDay * -1)
  }

  /** With the default of seven days the period is a week of seconds, backwards. */
  lemma DefaultPeriod()
    ensures Period(DefaultDays) == "-604800"
  {
    assert NatToDecimal(6) == "6";
    assert NatToDecimal(60) == "60";
    assert NatToDecimal(604) == "604";
    assert NatToDecimal(6048) == "6048";
    assert NatToDecimal(60480) == "60480";
    assert NatToDecimal(604800) == "604800";
  }

  /** The fields printed for an event. */
  datatype Field = Title | Time | Impact | Forecast | Market | Currency | Region | Actual | Previous {

    /** The dictionary key the field is read from. */
    function Key(): string {
      match this
      case Title => "title"
      case Time => "timestamp"
      case Impact => "impact"
      case Forecast => "forecast"
      case Market => "market"
      case Currency => "currency"
      case Region => "region"
      case Actual => "actual"
      case Previous => "previous"
    }

    /** What the printed line starts with. */
    function Label(): string {
      match this
      case Title => "Title: "
      case Time => "Time: "
      case Impact => "Impact: "
      case Forecast => "Forecast: "
      case Market => "Market Forecast: "
      case Currency => "Currency: "
      case Region => "Region: "
      case Actual => "Actual: "
      case Previous => "Previous: "
    }

    /** Whether the value is printed with the event's unit. */
    predicate HasUnit() {
      Forecast? || Market? || Actual? || Previous?
    }

    /** The field's place in print order. */
    function Index(): (k: nat)
      ensures k < FieldCount
    {
      match this
      case Title => 0
      case Time => 1
      case Impact => 2
      case Forecast => 3
      case Market => 4
      case Currency => 5
      case Region => 6
      case Actual => 7
      case Previous => 8
    }
  }

  /** The number of fields an event can print. */
  const FieldCount := 9

  /** The field printed `k`-th: title, time, impact, forecast, market, currency, region, actual, previous. */
  function FieldAt(k: nat): Field
    requires k < FieldCount
  {
    if k == 0 then Title
    else if k == 1 then Time
    else if k == 2 then Impact
    else if k == 3 then Forecast
    else if k == 4 then Market
    else if k == 5 then Currency
    else if k == 6 then Region
    else if k == 7 then Actual
    else Previous
  }

  /** `"-" * 30`, printed after every event. */
  const Separator: string := "------------------------------"

  lemma SeparatorIsThirtyDashes()
    ensures |Separator| == 30 && forall i :: 0 <= i < |Separator| ==> Separator[i] == '-'
  {
  }

  const UnitKey := "unit"
  const IndexUnit := "Index"

  /** A value followed by its unit, unless the unit is "Index". */
  function WithUnit(value: string, unit: string): (r: string)
    ensures unit == IndexUnit ==> r == value
    ensures unit != IndexUnit ==> r == value + unit
  {
    if unit != IndexUnit then value + unit else value
  }

  /** The line printed for a field that is present (and whose unit is present, if it needs one). */
  function FieldLine(e: Event, f: Field, localTime: string -> string): (line: string)
    requires f.Key() in e
    requires f.HasUnit() ==> UnitKey in e
    ensures |line| >= |f.Label()| && line[..|f.Label()|] == f.Label()
    ensures !f.HasUnit() && f != Time ==> line[|f.Label()|..] == e[f.Key()]
    ensures f == Time ==> line[|f.Label()|..] == localTime(e[f.Key()])
    ensures f.HasUnit() && e[UnitKey] == IndexUnit ==> line[|f.Label()|..] == e[f.Key()]
    ensures f.HasUnit() && e[UnitKey] != IndexUnit ==> line[|f.Label()|..] == e[f.Key()] + e[UnitKey]
  {
    if f == Time then f.Label() + localTime(e[f.Key()])
    else if f.HasUnit() then f.Label() + WithUnit(e[f.Key()], e[UnitKey])
    else f.Label() + e[f.Key()]
  }

  /**
   * What printing produces: the lines printed, and whether printing got to
   * the end (it does not when a field that needs the unit is present but the
   * unit is not: the lookup raises `KeyError`).
   */
  datatype Printed = Printed(lines: seq<string>, completed: bool)

  function Prepend(lines: seq<string>, p: Printed): Printed {
    Printed(lines + p.lines, p.completed)
  }

  /**
   * Reference: the present fields from the `k`-th on, printed one by one in
   * print order, then the separator.
   */
  function EventLinesFrom(e: Event, k: nat, localTime: string -> string): Printed
    requires k <= FieldCount
    decreases FieldCount - k
  {
    if k == FieldCount then Printed([Separator], true)
    else
      var f := FieldAt(k);
      if f.Key() !in e then EventLinesFrom(e, k + 1, localTime)
      else if f.HasUnit() && UnitKey !in e then Printed([], false)
      else Prepend([FieldLine(e, f, localTime)], EventLinesFrom(e, k + 1, localTime))
  }

  /** Everything printed for an event. */
  function EventLines(e: Event, localTime: string -> string): Printed {
    EventLinesFrom(e, 0, localTime)
  }

  /** The fields from the `k`-th on that are present in the event, in print order. */
  function PresentFrom(e: Event, k: nat): (present: seq<Field>)
    requires k <= FieldCount
    decreases FieldCount - k
  {
    if k == FieldCount then []
    else if FieldAt(k).Key() in e then [FieldAt(k)] + PresentFrom(e, k + 1)
    else PresentFrom(e, k + 1)
  }

  /** No field from the `k`-th on needs a unit that is missing. */
  predicate UnitAvailableFrom(e: Event, k: nat)
    requires k <= FieldCount
  {
    UnitKey in e || forall j :: k <= j < FieldCount ==> FieldAt(j).Key() in e ==> !FieldAt(j).HasUnit()
  }

  /** The line for field `f` can be formed: its key is present, and so is the unit if it needs one. */
  predicate Printable(e: Event, f: Field) {
    f.Key() in e && (f.HasUnit() ==> UnitKey in e)
  }

  /**
   * Printing an event completes exactly when its unit is present or no field
   * needing it is.
   */
  lemma {:induction false} EventLinesCompleted(e: Event, k: nat, localTime: string -> string)
    requires k <= FieldCount
    ensures EventLinesFrom(e, k, localTime).completed <==> UnitAvailableFrom(e, k)
    decreases FieldCount - k
  {
    if k < FieldCount {
      EventLinesCompleted(e, k + 1, localTime);
      var f := FieldAt(k);
      if f.Key() in e && f.HasUnit() && UnitKey !in e {
        assert !UnitAvailableFrom(e, k);
      }
    }
  }

  /**
   * A completed event prints one line per present field and then the
   * separator.
   */
  lemma {:induction false} EventLinesLength(e: Event, k: nat, localTime: string -> string)
    requires k <= FieldCount && UnitAvailableFrom(e, k)
    ensures var lines := EventLinesFrom(e, k, localTime).lines;
      |lines| == |PresentFrom(e, k)| + 1 && lines[|lines| - 1] == Separator
    decreases FieldCount - k
  {
    if k < FieldCount {
      var f := FieldAt(k);
      assert UnitAvailableFrom(e, k + 1);
      EventLinesLength(e, k + 1, localTime);
      var rest := EventLinesFrom(e, k + 1, localTime);
      if f.Key() in e {
        assert Printable(e, f);
        assert EventLinesFrom(e, k, localTime) == Prepend([FieldLine(e, f, localTime)], rest);
        assert PresentFrom(e, k) == [f] + PresentFrom(e, k + 1);
      } else {
        assert EventLinesFrom(e, k, localTime) == rest;
      }
    }
  }

  /** On a completed event every present field can be printed. */
  lemma {:induction false} PresentPrintable(e: Event, k: nat, i: nat)
    requires k <= FieldCount && UnitAvailableFrom(e, k) && i < |PresentFrom(e, k)|
    ensures Printable(e, PresentFrom(e, k)[i])
    decreases FieldCount - k
  {
    var f := FieldAt(k);
    assert UnitAvailableFrom(e, k + 1);
    if f.Key() !in e {
      PresentPrintable(e, k + 1, i);
    } else if i > 0 {
      PresentPrintable(e, k + 1, i - 1);
    } else {
      assert PresentFrom(e, k)[0] == f;
    }
  }

  /** The `i`-th line of a completed event is that of the `i`-th present field, in print order. */
  lemma {:induction false} EventLinesAt(e: Event, k: nat, localTime: string -> string, i: nat)
    requires k <= FieldCount && UnitAvailableFrom(e, k) && i < |PresentFrom(e, k)|
    requires Printable(e, PresentFrom(e, k)[i])
    ensures var lines := EventLinesFrom(e, k, localTime).lines;
      i < |lines| && lines[i] == FieldLine(e, PresentFrom(e, k)[i], localTime)
    decreases FieldCount - k
  {
    EventLinesLength(e, k, localTime);
    assert UnitAvailableFrom(e, k + 1);
    var f, rest := FieldAt(k), EventLinesFrom(e, k + 1, localTime);
    if f.Key() !in e {
      assert EventLinesFrom(e, k, localTime) == rest && PresentFrom(e, k) == PresentFrom(e, k + 1);
      PresentPrintable(e, k + 1, i);
      EventLinesAt(e, k + 1, localTime, i);
    } else {
      PresentPrintable(e, k, 0);
      assert EventLinesFrom(e, k, localTime) == Prepend([FieldLine(e, f, localTime)], rest);
      assert PresentFrom(e, k) == [f] + PresentFrom(e, k + 1);
      if i > 0 {
        PresentPrintable(e, k + 1, i - 1);
        EventLinesAt(e, k + 1, localTime, i - 1);
      }
    }
  }

  /**
   * An event that stops (a present field needs the unit and the unit is
   * missing) has printed, in print order, the lines of its present fields up
   * to the first one that needs the unit; none of those needs it, and that
   * one and everything after it print nothing, separator included.
   */
  lemma {:induction false} EventLinesStopped(e: Event, k: nat, localTime: string -> string)
    requires k <= FieldCount && !UnitAvailableFrom(e, k)
    ensures StoppedAt(e, localTime, EventLinesFrom(e, k, localTime), PresentFrom(e, k))
    decreases FieldCount - k
  {
    assert k < FieldCount;
    var f := FieldAt(k);
    var p, present := EventLinesFrom(e, k, localTime), PresentFrom(e, k);
    if f.Key() in e && f.HasUnit() {
      assert p == Printed([], false);
      assert present[0] == f;
    } else if f.Key() !in e {
      assert !UnitAvailableFrom(e, k + 1);
      EventLinesStopped(e, k + 1, localTime);
      assert p == EventLinesFrom(e, k + 1, localTime) && present == PresentFrom(e, k + 1);
    } else {
      assert !UnitAvailableFrom(e, k + 1);
      EventLinesStopped(e, k + 1, localTime);
      var rest, restPresent := EventLinesFrom(e, k + 1, localTime), PresentFrom(e, k + 1);
      assert p == Prepend([FieldLine(e, f, localTime)], rest);
      assert present == [f] + restPresent;
      StoppedCons(e, localTime, f, rest, restPresent);
    }
  }

  /**
   * Printing stopped: the lines printed are those of the present fields
   * before the first one that needs the unit, none of which needs it, and
   * the separator was not printed.
   */
  predicate StoppedAt(e: Event, localTime: string -> string, p: Printed, present: seq<Field>) {
    && !p.completed
    && |p.lines| < |present|
    && present[|p.lines|].HasUnit()
    && forall i :: 0 <= i < |p.lines| ==>
         present[i].Key() in e && !present[i].HasUnit() && p.lines[i] == FieldLine(e, present[i], localTime)
  }

  lemma StoppedCons(e: Event, localTime: string -> string, f: Field, rest: Printed, restPresent: seq<Field>)
    requires StoppedAt(e, localTime, rest, restPresent)
    requires f.Key() in e && !f.HasUnit()
    ensures StoppedAt(e, localTime, Prepend([FieldLine(e, f, localTime)], rest), [f] + restPresent)
  {
    var p, present := Prepend([FieldLine(e, f, localTime)], rest), [f] + restPresent;
    forall i | 0 <= i < |p.lines|
      ensures present[i].Key() in e && !present[i].HasUnit() && p.lines[i] == FieldLine(e, present[i], localTime)
    {
      if i > 0 {
        assert present[i] == restPresent[i - 1] && p.lines[i] == rest.lines[i - 1];
      }
    }
  }

  /** Print order tells fields apart. */
  lemma FieldAtIndex(k: nat, f: Field)
    requires k < FieldCount
    ensures FieldAt(k).Index() == k
    ensures FieldAt(k) == f <==> f.Index() == k
  {
  }

  /**
   * The fields listed from the `k`-th on are exactly those present in the
   * event whose place in print order is `k` or later.
   */
  lemma {:induction false} PresentFromMembers(e: Event, k: nat, f: Field)
    requires k <= FieldCount
    ensures f in PresentFrom(e, k) <==> f.Key() in e && k <= f.Index()
    decreases FieldCount - k
  {
    if k < FieldCount {
      PresentFromMembers(e, k + 1, f);
      FieldAtIndex(k, f);
    }
  }

  /** Fields listed in print order. */
  predicate InPrintOrder(fields: seq<Field>) {
    forall a, b :: 0 <= a < b < |fields| ==> fields[a].Index() < fields[b].Index()
  }

  /** Every field of `fields` comes at or after position `k` of the print order. */
  predicate NotBefore(fields: seq<Field>, k: nat) {
    forall i :: 0 <= i < |fields| ==> k <= fields[i].Index()
  }

  /** The present fields are listed in print order. */
  lemma {:induction false} PresentFromOrdered(e: Event, k: nat)
    requires k <= FieldCount
    ensures InPrintOrder(PresentFrom(e, k)) && NotBefore(PresentFrom(e, k), k)
    decreases FieldCount - k
  {
    if k < FieldCount {
      PresentFromOrdered(e, k + 1);
      var f := FieldAt(k);
      FieldAtIndex(k, f);
      OrderedStep(PresentFrom(e, k), f, PresentFrom(e, k + 1), k, f.Key() in e);
    }
  }

  lemma OrderedStep(present: seq<Field>, f: Field, rest: seq<Field>, k: nat, keep: bool)
    requires f.Index() == k && InPrintOrder(rest) && NotBefore(rest, k + 1)
    requires present == if keep then [f] + rest else rest
    ensures InPrintOrder(present) && NotBefore(present, k)
  {
    if keep {
      OrderedCons(f, rest, k);
    } else {
      NotBeforeWeaken(rest, k);
    }
  }

  lemma NotBeforeWeaken(fields: seq<Field>, k: nat)
    requires NotBefore(fields, k + 1)
    ensures NotBefore(fields, k)
  {
  }

  lemma OrderedCons(f: Field, rest: seq<Field>, k: nat)
    requires f.Index() == k && InPrintOrder(rest) && NotBefore(rest, k + 1)
    ensures InPrintOrder([f] + rest) && NotBefore([f] + rest, k)
  {
    var all := [f] + rest;
    forall a, b | 0 <= a < b < |all|
      ensures all[a].Index() < all[b].Index()
    {
      assert all[b] == rest[b - 1];
      if a > 0 {
        assert all[a] == rest[a - 1];
      }
    }
    forall i | 0 <= i < |all|
      ensures k <= all[i].Index()
    {
      if i > 0 {
        assert all[i] == rest[i - 1];
      }
    }
  }

  /** An event with no keys prints only the separator. */
  lemma EmptyEvent(localTime: string -> string)
    ensures EventLines(map[], localTime) == Printed([Separator], true)
  {
    EventLinesLength(map[], 0, localTime);
    PresentEmpty(0);
  }

  lemma {:induction false} PresentEmpty(k: nat)
    requires k <= FieldCount
    ensures PresentFrom(map[], k) == []
    decreases FieldCount - k
  {
    if k < FieldCount {
      PresentEmpty(k + 1);
    }
  }

  /** Fields whose keys are absent print nothing. */
  lemma {:induction false} SkipAbsent(e: Event, k: nat, m: nat, localTime: string -> string)
    requires k <= m <= FieldCount
    requires forall j :: k <= j < m ==> FieldAt(j).Key() !in e
    ensures EventLinesFrom(e, k, localTime) == EventLinesFrom(e, m, localTime)
    decreases m - k
  {
    if k < m {
      SkipAbsent(e, k + 1, m, localTime);
    }
  }

  /** A percentage forecast is printed with its unit. */
  lemma PercentUnitExample(localTime: string -> string)
    ensures EventLines(map["forecast" := "1.5", "unit" := "%"], localTime) == Printed(["Forecast: 1.5%", Separator], true)
  {
    var e: Event := map["forecast" := "1.5", "unit" := "%"];
    SkipAbsent(e, 0, 3, localTime);
    SkipAbsent(e, 4, 6, localTime);
    SkipAbsent(e, 6, FieldCount, localTime);
    assert WithUnit("1.5", "%") == "1.5%";
    assert FieldLine(e, Forecast, localTime) == "Forecast: 1.5%";
    assert EventLinesFrom(e, 3, localTime) == Prepend(["Forecast: 1.5%"], EventLinesFrom(e, 4, localTime));
  }

  /** Values whose unit is "Index" are printed without it. */
  lemma IndexUnitExample(localTime: string -> string)
    ensures EventLines(map["actual" := "101", "previous" := "99", "unit" := "Index"], localTime)
      == Printed(["Actual: 101", "Previous: 99", Separator], true)
  {
    var e: Event := map["actual" := "101", "previous" := "99", "unit" := "Index"];
    SkipAbsent(e, 0, 7, localTime);
    assert FieldLine(e, Actual, localTime) == "Actual: 101";
    assert FieldLine(e, Previous, localTime) == "Previous: 99";
    assert EventLinesFrom(e, 8, localTime) == Prepend(["Previous: 99"], EventLinesFrom(e, 9, localTime));
    assert EventLinesFrom(e, 7, localTime) == Prepend(["Actual: 101"], EventLinesFrom(e, 8, localTime));
  }

  /** A forecast without a unit raises `KeyError` after the title is printed. */
  lemma MissingUnitExample(localTime: string -> string)
    ensures EventLines(map["title" := "CPI", "forecast" := "1.5"], localTime) == Printed(["Title: CPI"], false)
  {
    var e: Event := map["title" := "CPI", "forecast" := "1.5"];
    SkipAbsent(e, 1, 3, localTime);
    assert EventLinesFrom(e, 3, localTime) == Printed([], false);
    assert FieldLine(e, Title, localTime) == "Title: CPI";
    assert EventLinesFrom(e, 0, localTime) == Prepend(["Title: CPI"], EventLinesFrom(e, 1, localTime));
  }

  /**
   * One field handled: printed if present, skipped if not, and printing
   * stopped if it needs the unit and the unit is missing.
   */
  lemma Advance(e: Event, k: nat, localTime: string -> string, before: seq<string>)
    requires k < FieldCount
    ensures var f, rest := FieldAt(k), EventLinesFrom(e, k + 1, localTime);
      Prepend(before, EventLinesFrom(e, k, localTime)) ==
        if f.Key() !in e then Prepend(before, rest)
        else if f.HasUnit() && UnitKey !in e then Printed(before, false)
        else Prepend(before + [FieldLine(e, f, localTime)], rest)
  {
    var f, rest := FieldAt(k), EventLinesFrom(e, k + 1, localTime);
    if f.Key() in e && f.HasUnit() && UnitKey !in e {
      assert before + [] == before;
    } else if f.Key() in e {
      var line := FieldLine(e, f, localTime);
      assert before + ([line] + rest.lines) == before + [line] + rest.lines;
    }
  }

  /**
   * `if key in event: print(f"{caption}{value}")`, for field `f`, the `k`-th
   * printed. Each of these steps is specified against the reference: what
   * it printed, followed by what the fields after it print, is what the
   * fields from the `k`-th on print (see `Advance`).
   */
  method PrintIfPresent(e: Event, f: Field, lines: seq<string>, ghost k: nat, ghost localTime: string -> string)
    returns (out: seq<string>)
    requires k < FieldCount && FieldAt(k) == f && !f.HasUnit() && f != Time
    ensures Prepend(out, EventLinesFrom(e, k + 1, localTime)) == Prepend(lines, EventLinesFrom(e, k, localTime))
  {
    Advance(e, k, localTime, lines);
    var key, caption := f.Key(), f.Label();
    out := lines;
    if key in e {
      out := out + [caption + e[key]];
    }
  }

  /** The event's time, given in seconds since the epoch, printed as local time if present. */
  method PrintTime(e: Event, localTime: string -> string, lines: seq<string>) returns (out: seq<string>)
    ensures Prepend(out, EventLinesFrom(e, 2, localTime)) == Prepend(lines, EventLinesFrom(e, 1, localTime))
  {
    Advance(e, 1, localTime, lines);
    out := lines;
    if "timestamp" in e {
      out := out + ["Time: " + localTime(e["timestamp"])];
    }
  }

  /**
   * `if key in event: print(f"{caption}{value}{unit}")`, the unit left out
   * when it is "Index", for field `f`, the `k`-th printed; the unit lookup
   * raises `KeyError` when the unit is missing.
   */
  method PrintWithUnitIfPresent(e: Event, f: Field, lines: seq<string>, ghost k: nat, ghost localTime: string -> string)
    returns (out: seq<string>, ok: bool)
    requires k < FieldCount && FieldAt(k) == f && f.HasUnit()
    ensures ok <==> f.Key() !in e || UnitKey in e
    ensures ok ==>
      Prepend(out, EventLinesFrom(e, k + 1, localTime)) == Prepend(lines, EventLinesFrom(e, k, localTime))
    ensures !ok ==> Printed(out, false) == Prepend(lines, EventLinesFrom(e, k, localTime))
  {
    Advance(e, k, localTime, lines);
    var key, caption := f.Key(), f.Label();
    out, ok := lines, true;
    if key in e {
      if "unit" !in e {
        return lines, false;
      }
      var unit := e["unit"];
      if unit != "Index" {
        out := out + [caption + (e[key] + unit)];
      } else {
        out := out + [caption + e[key]];
      }
    }
  }

  /**
   * The body of the loop in `calendar` for one event: each field is printed
   * only if its key is present, in a fixed order, the unit-bearing ones with
   * the unit appended unless it is "Index"; then thirty dashes. A missing
   * unit raises `KeyError` and printing stops there.
   */
  method PrintEvent(e: Event, localTime: string -> string) returns (lines: seq<string>, completed: bool)
    ensures Printed(lines, completed) == EventLines(e, localTime)
  {
    lines := PrintFirstFields(e, localTime);
    lines, completed := PrintForecasts(e, localTime, lines);
    if !completed {
      return;
    }
    lines := PrintPlaces(e, localTime, lines);
    lines, completed := PrintOutcomes(e, localTime, lines);
  }

  // The loop body is split over four methods only to keep each proof small;
  // run one after the other they are the straight-line body in `calendar`.

  /** The title, the time (converted to local time) and the impact of the loop body. */
  method PrintFirstFields(e: Event, localTime: string -> string) returns (lines: seq<string>)
    ensures Prepend(lines, EventLinesFrom(e, 3, localTime)) == EventLines(e, localTime)
  {
    lines := PrintIfPresent(e, Title, [], 0, localTime);
    lines := PrintTime(e, localTime, lines);
    lines := PrintIfPresent(e, Impact, lines, 2, localTime);
  }

  /**
   * The forecast and market forecast of the loop body, each with the unit;
   * `completed` is false when the unit lookup raised `KeyError`.
   */
  method PrintForecasts(e: Event, localTime: string -> string, start: seq<string>)
    returns (lines: seq<string>, completed: bool)
    ensures completed ==> Prepend(lines, EventLinesFrom(e, 5, localTime)) == Prepend(start, EventLinesFrom(e, 3, localTime))
    ensures !completed ==> Printed(lines, false) == Prepend(start, EventLinesFrom(e, 3, localTime))
  {
    lines, completed := PrintWithUnitIfPresent(e, Forecast, start, 3, localTime);
    if completed {
      lines, completed := PrintWithUnitIfPresent(e, Market, lines, 4, localTime);
    }
  }

  /** The currency and region of the loop body. */
  method PrintPlaces(e: Event, localTime: string -> string, start: seq<string>) returns (lines: seq<string>)
    ensures Prepend(lines, EventLinesFrom(e, 7, localTime)) == Prepend(start, EventLinesFrom(e, 5, localTime))
  {
    lines := PrintIfPresent(e, Currency, start, 5, localTime);
    lines := PrintIfPresent(e, Region, lines, 6, localTime);
  }

  /**
   * The end of the loop body: the actual and previous values, each with the
   * unit, then the separator; `completed` is false when the unit lookup
   * raised `KeyError`.
   */
  method PrintOutcomes(e: Event, localTime: string -> string, start: seq<string>)
    returns (lines: seq<string>, completed: bool)
    ensures Printed(lines, completed) == Prepend(start, EventLinesFrom(e, 7, localTime))
  {
    var ok: bool;
    lines, ok := PrintWithUnitIfPresent(e, Actual, start, 7, localTime);
    if !ok {
      return lines, false;
    }
    lines, ok := PrintWithUnitIfPresent(e, Previous, lines, 8, localTime);
    if !ok {
      return lines, false;
    }
    lines := lines + [Separator];
    completed := true;
  }

  /**
   * Printing a list of events one after the other with `show`; the first
   * event whose printing raises `KeyError` ends the listing (the exception is
   * not caught).
   */
  function Listing(events: seq<Event>, show: Event -> Printed): Printed
    decreases |events|
  {
    if |events| == 0 then Printed([], true)
    else
      var before := Listing(events[..|events| - 1], show);
      if !before.completed then before
      else Prepend(before.lines, show(events[|events| - 1]))
  }

  /** Reference: what the calendar prints for a list of events. */
  function CalendarLines(events: seq<Event>, localTime: string -> string): Printed {
    Listing(events, e => EventLines(e, localTime))
  }

  /** Once the listing has stopped, later events print nothing. */
  lemma {:induction false} ListingStopped(events: seq<Event>, j: nat, show: Event -> Printed)
    requires j <= |events| && !Listing(events[..j], show).completed
    ensures Listing(events, show) == Listing(events[..j], show)
    decreases |events| - j
  {
    if j < |events| {
      var longer := events[..j + 1];
      assert longer[..j] == events[..j];
      assert Listing(longer, show) == Listing(events[..j], show);
      ListingStopped(events, j + 1, show);
    } else {
      assert events[..j] == events;
    }
  }

  /** The listing completes exactly when every event's printing does. */
  lemma {:induction false} ListingCompleted(events: seq<Event>, show: Event -> Printed)
    ensures Listing(events, show).completed <==> forall i :: 0 <= i < |events| ==> show(events[i]).completed
    decreases |events|
  {
    if |events| > 0 {
      var n := |events| - 1;
      var before := events[..n];
      ListingCompleted(before, show);
      assert forall i :: 0 <= i < n ==> before[i] == events[i];
    }
  }

  /** The calendar listing completes exactly when no event lacks a unit that one of its fields needs. */
  lemma CalendarCompleted(events: seq<Event>, localTime: string -> string)
    ensures CalendarLines(events, localTime).completed <==> forall i :: 0 <= i < |events| ==> UnitAvailableFrom(events[i], 0)
  {
    ListingCompleted(events, e => EventLines(e, localTime));
    forall i | 0 <= i < |events| {
      EventLinesCompleted(events[i], 0, localTime);
    }
  }

  /** The loop over the broker's events in `calendar`, printing each in turn. */
  method ShowCalendar(events: seq<Event>, localTime: string -> string) returns (lines: seq<string>, completed: bool)
    ensures Printed(lines, completed) == CalendarLines(events, localTime)
  {
    lines := [];
    for i := 0 to |events|
      invariant Printed(lines, true) == CalendarLines(events[..i], localTime)
    {
      var printed, ok := PrintEvent(events[i], localTime);
      ghost var done := events[..i + 1];
      assert done[..i] == events[..i] && done[i] == events[i];
      lines := lines + printed;
      if !ok {
        ListingStopped(events, i + 1, e => EventLines(e, localTime));
        return lines, false;
      }
    }
    assert events[..|events|] == events;
    completed := true;
  }
}
