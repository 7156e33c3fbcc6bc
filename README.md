# Forex view core of the Gamestonk Terminal, in Dafny

This project models the data-handling core of `gamestonk_terminal/forex/fx_view.py`, the
terminal's forex menu backed by the OANDA broker API, and proves properties of that model:

- **Candle staging** (`CandleCsv`). `process_candle_response` writes one line per broker
  candle into `.temp_candles.csv`: the time, the four mid prices and the volume, joined by
  commas. `oanda_fix_date` reads that file back with `readlines()`. It writes
  `.candles.csv`: a header, then each line rewritten as
  `line[:10] + " " + line[11:19] + line[30:]`. That turns the broker timestamp
  `YYYY-MM-DDTHH:MM:SS.fffffffffZ` into `YYYY-MM-DD HH:MM:SS`. A candle that lacks a key
  raises `KeyError` part-way through, and the lines already written stay in the file. A
  file is modelled as the sequence of strings passed to `write()`; its content is their
  concatenation.
- **Instrument loading** (`InstrumentLoad`). `load` inserts `-i` in front of the caller's
  argument list, in place, when the first argument contains no `-`. It hands the list to
  the argument parser and returns the instrument upper-cased.
- **Economic calendar** (`EconCalendar`). The `period` parameter is `str(days * 86400 * -1)`,
  and `days` defaults to 7. Each event prints its present fields in a fixed order:
  title, time, impact, forecast, market forecast, currency, region, actual, previous.
  Then come thirty dashes. The four value fields append the event's `unit` unless it is
  `"Index"`. That `unit` lookup is unguarded: a missing unit raises `KeyError`, which the
  `except V20Error` clause does not catch, so the listing stops there.
- **Chart overlays** (`CandleOverlays`). `show_candles` builds `plots_to_add` from the
  thirteen indicator switches. The blocks follow a fixed order, each appending one plot
  on a fixed panel.
- Shared helpers (`PyText`) give Python's string semantics: clamped slicing, `str` of an
  integer, ASCII `upper()`, `readlines()` and `split`.

Each imperative routine is a `method` proved against a reference function:

- `ProcessCandleResponse` is proved against `CandleLines`/`FirstIncomplete`.
- `OandaFixDate` is proved against `FixedLines`.
- `Load` is proved against `NormalizedArgs`/`LoadedInstrument`, and mutates an `ArgList` object.
- `PrintEvent` and `ShowCalendar` are proved against `EventLines`/`CalendarLines`.
- `SelectOverlays` is proved against `Overlays`.

Lemmas then state what those reference functions promise.

The rewrite assumes the broker's 30-character timestamp. On a timestamp without
fractional seconds, such as `2021-01-04T00:00:00Z`, the fixed `[30:]` slice cuts into
the prices. The line `2021-01-04T00:00:00Z,1.1,1.2,1.0,1.15,100` becomes
`2021-01-04 00:00:00.0,1.15,100`. The open and the high are gone, the low loses its
leading `1`, and its `.0` is glued to the time (`CandleCsv.ShortTimestampLosesPrices`).
The composed staging (`CandleCsv.StageCandles`) is stated for every complete input,
short timestamps included. The row-by-row reading (`CandleCsv.StagedThenFixed`) is
proved for 30-character timestamps.

## Model

| member | source | states |
|---|---|---|
| CandleCsv.MissingKey | gamestonk_terminal/forex/fx_view.py:440-445 | no `KeyError` is raised exactly when `time`, `volume`, `mid` and all four of `o`, `h`, `l`, `c` are present |
| CandleCsv.CandleLineColumns | gamestonk_terminal/forex/fx_view.py:446-458 | the line written for a candle (`CandleLine`, built from `RowTail`) is `str(time)`, `o`, `h`, `l`, `c` and `str(volume)` joined by commas and ended by a newline: split at its commas it gives those six columns back |
| CandleCsv.CandleLines | gamestonk_terminal/forex/fx_view.py:439-459 | one line per complete candle, the i-th line being the i-th candle's line |
| CandleCsv.FirstIncomplete | gamestonk_terminal/forex/fx_view.py:439-445 | the index where the loop raises `KeyError`: every candle before it is complete, and the one at it is not |
| CandleCsv.ProcessCandleResponse | gamestonk_terminal/forex/fx_view.py:437-459 | writes exactly the lines of the candles before the first incomplete one; reports `KeyError` for that candle's first missing key, or none when all are complete |
| CandleCsv.CandleLinesStep | gamestonk_terminal/forex/fx_view.py:446-459 | one more complete candle appends its line at the end of what was written |
| CandleCsv.FirstIncompleteAt | gamestonk_terminal/forex/fx_view.py:439-445 | a scan that passed only complete candles and stops at an incomplete one (or the end) stops at `FirstIncomplete` |
| CandleCsv.FixLine | gamestonk_terminal/forex/fx_view.py:469 | the rewritten line is 11 characters shorter than a line of 30 or more characters; shorter lines follow Python's clamped slicing |
| CandleCsv.FixLineLong | gamestonk_terminal/forex/fx_view.py:469 | on a line of at least 30 characters: characters 0-9 are kept, index 10 becomes a space, 11-18 are kept, 19-29 are dropped, and the rest is unchanged |
| CandleCsv.FixLineShort | gamestonk_terminal/forex/fx_view.py:469 | a line of at most 10 characters is kept and gains a trailing space |
| CandleCsv.FixLineParts | gamestonk_terminal/forex/fx_view.py:469 | date (10), separator (1), clock (8) and an 11-character part, then the rest, become date, space, clock, rest |
| CandleCsv.FixAll | gamestonk_terminal/forex/fx_view.py:467-469 | every line is rewritten, in file order |
| CandleCsv.FixedLines | gamestonk_terminal/forex/fx_view.py:465-469 | the output is the header, then one rewritten line per input line, in order |
| CandleCsv.FixAllStep | gamestonk_terminal/forex/fx_view.py:467-469 | one more line read appends its rewrite at the end |
| CandleCsv.WriteFixed | gamestonk_terminal/forex/fx_view.py:465-469 | the loop writes exactly the header followed by each line rewritten, in order |
| CandleCsv.OandaFixDate | gamestonk_terminal/forex/fx_view.py:462-469 | writes exactly the header followed by each of the file's `readlines()` lines rewritten |
| CandleCsv.NormalTimestamp | gamestonk_terminal/forex/fx_view.py:469 | a 30-character timestamp becomes 19 characters: the date, a space, `HH:MM:SS` |
| CandleCsv.AllWellFormed | gamestonk_terminal/forex/fx_view.py:439-445 | well-formed candles (complete, a 30-character timestamp, no newline in the time or the prices) are complete, so the serialiser raises nothing on them |
| CandleCsv.DecimalHasNoBreaks | gamestonk_terminal/forex/fx_view.py:457 | `str(volume)` contains neither a comma nor a newline |
| CandleCsv.CandleLineIsLine | gamestonk_terminal/forex/fx_view.py:446-459 | a well-formed candle's line ends in its only newline, so `readlines()` returns it whole |
| CandleCsv.FixCandleLine | gamestonk_terminal/forex/fx_view.py:446-469 | fixing a candle's line gives the normalised timestamp followed by the untouched `,o,h,l,c,volume` and newline |
| CandleCsv.StagedThenFixed | gamestonk_terminal/forex/fx_view.py:437-469 | serialising well-formed candles and fixing the file gives the header, then one normalised row per candle, in response order |
| CandleCsv.RowColumns | gamestonk_terminal/forex/fx_view.py:446-469 | for a well-formed candle with no comma in its time or prices, the comma-separated columns of a rewritten row are the normalised timestamp, `o`, `h`, `l`, `c` and `str(volume)`, and the row ends in a newline |
| CandleCsv.SplitSixColumns | gamestonk_terminal/forex/fx_view.py:446-458 | six comma-free fields joined by commas split back into those six fields |
| CandleCsv.NoCandlesHeaderOnly | gamestonk_terminal/forex/fx_view.py:462-469 | with no candles the rewritten file holds only the header |
| CandleCsv.MidnightCandleRow | gamestonk_terminal/forex/fx_view.py:437-469 | the candle of 2021-01-04 at midnight becomes the row `2021-01-04 00:00:00,1.1,1.2,1.0,1.15,100` |
| CandleCsv.ShortTimestampLosesPrices | gamestonk_terminal/forex/fx_view.py:469 | on a timestamp without fractional seconds the rewrite drops the open, the high and the low's leading `1`, and glues `.0` to the time |
| CandleCsv.OnlyMidPrices | gamestonk_terminal/forex/fx_view.py:442-445 | the bid and ask prices play no part in a candle's line |
| CandleCsv.StageCandles | gamestonk_terminal/forex/fx_view.py:358-359 | the staged CSV exists exactly when every candle is complete; it is then the header and the rewrite of every line `readlines()` finds in the serialised candles; for well-formed candles, one normalised row per candle |
| CandleCsv.Decimal100 | gamestonk_terminal/forex/fx_view.py:457 | `str(100)` is `100` |
| InstrumentLoad.ArgList.constructor | gamestonk_terminal/forex/fx_view.py:545 | the list object holds the caller's arguments |
| InstrumentLoad.NormalizedArgs | gamestonk_terminal/forex/fx_view.py:563-565 | `other_args.insert(0, "-i")` when the list is non-empty and its first element has no `-`: the result is one longer exactly then, starts with `-i` then, and ends with the original list |
| InstrumentLoad.LoadedInstrument | gamestonk_terminal/forex/fx_view.py:567-571 | `ns_parser.instrument.upper()`: a result exactly when the parser accepts the normalised list, and then the parsed instrument upper-cased |
| InstrumentLoad.NormalizedArgsSpec | gamestonk_terminal/forex/fx_view.py:563-565 | `-i` is inserted in front, shifting every argument by one, exactly when the list is non-empty and its first element contains no `-`; otherwise, including the empty list, nothing changes |
| InstrumentLoad.NormalizedArgsIdempotent | gamestonk_terminal/forex/fx_view.py:563-565 | normalising twice is normalising once |
| InstrumentLoad.DashAnywhereSuppressesFlag | gamestonk_terminal/forex/fx_view.py:564 | the test is "contains a dash": `EUR-USD` gets no flag, `eur_usd` does |
| InstrumentLoad.Load | gamestonk_terminal/forex/fx_view.py:562-571 | the caller's list is left normalised in place, and the result is the parsed instrument upper-cased, or none when parsing fails |
| InstrumentLoad.LoadedInstrumentProperties | gamestonk_terminal/forex/fx_view.py:567-571 | a result exists exactly when parsing succeeds; it has no lower-case letter and the parsed value's length; loading again on the list left behind gives the same result |
| PyText.Take | gamestonk_terminal/forex/fx_view.py:469 | `s[:n]` is the first `min(n, len(s))` characters |
| PyText.Drop | gamestonk_terminal/forex/fx_view.py:469 | `s[n:]` is the last `len(s) - n` characters, or nothing |
| PyText.Slice | gamestonk_terminal/forex/fx_view.py:469 | `s[i:j]` clamps to the string and is empty when `j <= i` |
| PyText.NatToDecimal | gamestonk_terminal/forex/fx_view.py:457 | decimal digits with no leading zero; one digit exactly below ten |
| PyText.IntToDecimal | gamestonk_terminal/forex/fx_view.py:457 | `str(n)` starts with `-` exactly for negative `n`, the rest is digits, and it has no leading zero (only `0` itself starts with `0`) |
| PyText.NatToDecimalValue | gamestonk_terminal/forex/fx_view.py:457 | reading the digits back gives the number |
| PyText.IntToDecimalRoundTrip | gamestonk_terminal/forex/fx_view.py:491 | `int(str(n)) == n` |
| PyText.IntToDecimalInjective | gamestonk_terminal/forex/fx_view.py:491 | distinct integers print differently |
| PyText.UpperChar | gamestonk_terminal/forex/fx_view.py:571 | a lower-case ASCII letter moves to upper case; any other character is kept |
| PyText.Upper | gamestonk_terminal/forex/fx_view.py:571 | `upper()` keeps the length and upper-cases character by character |
| PyText.UpperHasNoLower | gamestonk_terminal/forex/fx_view.py:571 | an upper-cased string has no lower-case letter |
| PyText.UpperIdempotent | gamestonk_terminal/forex/fx_view.py:571 | upper-casing twice is upper-casing once |
| PyText.FirstLineLength | gamestonk_terminal/forex/fx_view.py:464 | the first line of non-empty content has at least one and at most all of its characters |
| PyText.ReadLinesShape | gamestonk_terminal/forex/fx_view.py:464 | `readlines()` returns non-empty pieces; no piece holds a newline before its last character, and every one but the last ends in a newline |
| PyText.FirstLineShape | gamestonk_terminal/forex/fx_view.py:464 | the first line ends at the first newline, or is the whole content when there is none |
| PyText.ConcatReadLines | gamestonk_terminal/forex/fx_view.py:464 | the lines read, put back together, are the content |
| PyText.FirstLineOfLine | gamestonk_terminal/forex/fx_view.py:464 | after a whole line, the first line is exactly that line |
| PyText.ReadLinesConcat | gamestonk_terminal/forex/fx_view.py:446-464 | writing whole lines and reading the file back gives the same lines |
| PyText.Split | gamestonk_terminal/forex/fx_view.py:446-458 | splitting yields at least one field |
| PyText.SplitNone | gamestonk_terminal/forex/fx_view.py:446-458 | a string without the separator is one field |
| PyText.SplitJoin | gamestonk_terminal/forex/fx_view.py:446-458 | a separator-free field joined to the rest comes first among the fields |
| EconCalendar.Period | gamestonk_terminal/forex/fx_view.py:491 | the period text is a canonical decimal (no leading zero after the optional `-`) whose value is `-86400 * days`, negative exactly when `days > 0` |
| EconCalendar.DefaultPeriod | gamestonk_terminal/forex/fx_view.py:484-491 | the default seven days give `-604800` |
| EconCalendar.SeparatorIsThirtyDashes | gamestonk_terminal/forex/fx_view.py:540 | the separator is thirty dashes |
| EconCalendar.WithUnit | gamestonk_terminal/forex/fx_view.py:509-512 | `{value}{unit}` unless the unit is `Index`, then `{value}` alone |
| EconCalendar.FieldLine | gamestonk_terminal/forex/fx_view.py:496-539 | the line printed for a present field starts with its caption (`Title: `, `Market Forecast: `, ...); then comes the time as local time for `timestamp`, or the value, with the unit appended unless it is `Index` for the four unit-bearing fields |
| EconCalendar.EventLinesCompleted | gamestonk_terminal/forex/fx_view.py:506-539 | printing an event completes exactly when no present field that needs the unit lacks it |
| EconCalendar.EventLinesLength | gamestonk_terminal/forex/fx_view.py:495-540 | a completed event prints one line per present field, then the separator as its last line |
| EconCalendar.PresentPrintable | gamestonk_terminal/forex/fx_view.py:506-539 | on a completed event every present field's line can be formed |
| EconCalendar.EventLinesAt | gamestonk_terminal/forex/fx_view.py:496-539 | the i-th line of a completed event is the line of its i-th present field |
| EconCalendar.EventLinesStopped | gamestonk_terminal/forex/fx_view.py:496-539 | an event that stops on a missing unit has printed, in order, exactly the lines of its present fields before the first one that needs the unit, none of which needs it, and no separator |
| EconCalendar.FieldAtIndex | gamestonk_terminal/forex/fx_view.py:496-539 | each position in the print order holds exactly one field |
| EconCalendar.PresentFromMembers | gamestonk_terminal/forex/fx_view.py:496-539 | the fields printed from position k on are exactly the present keys at position k or later |
| EconCalendar.PresentFromOrdered | gamestonk_terminal/forex/fx_view.py:496-539 | the present fields are printed in strictly increasing print order, so none is printed twice |
| EconCalendar.EmptyEvent | gamestonk_terminal/forex/fx_view.py:495-540 | an event with no keys prints only the separator |
| EconCalendar.SkipAbsent | gamestonk_terminal/forex/fx_view.py:496-539 | fields whose keys are absent print nothing |
| EconCalendar.PercentUnitExample | gamestonk_terminal/forex/fx_view.py:506-510 | a forecast of 1.5 with unit `%` prints `Forecast: 1.5%` |
| EconCalendar.IndexUnitExample | gamestonk_terminal/forex/fx_view.py:526-540 | an actual of 101 and a previous of 99 with unit `Index` print `Actual: 101` and `Previous: 99` without the unit, then the separator |
| EconCalendar.MissingUnitExample | gamestonk_terminal/forex/fx_view.py:496-508 | a forecast without a unit stops printing, with the title already printed |
| EconCalendar.Advance | gamestonk_terminal/forex/fx_view.py:496-539 | one field: printed when present (with the unit if needed), skipped when absent, stopping when the needed unit is missing |
| EconCalendar.PrintIfPresent | gamestonk_terminal/forex/fx_view.py:496-498 | printing a unit-free field advances the reference by one field |
| EconCalendar.PrintTime | gamestonk_terminal/forex/fx_view.py:499-502 | printing the time (as local time) advances the reference by one field |
| EconCalendar.PrintWithUnitIfPresent | gamestonk_terminal/forex/fx_view.py:506-512 | succeeds exactly when the key is absent or the unit is present, then advancing the reference by one field; otherwise what was printed is the reference's stopped output |
| EconCalendar.PrintFirstFields | gamestonk_terminal/forex/fx_view.py:496-505 | prints what the reference prints for title, time and impact |
| EconCalendar.PrintForecasts | gamestonk_terminal/forex/fx_view.py:506-519 | prints what the reference prints for forecast and market forecast, or its stopped output |
| EconCalendar.PrintPlaces | gamestonk_terminal/forex/fx_view.py:520-525 | prints what the reference prints for currency and region |
| EconCalendar.PrintOutcomes | gamestonk_terminal/forex/fx_view.py:526-540 | prints what the reference prints for actual and previous, then the separator |
| EconCalendar.PrintEvent | gamestonk_terminal/forex/fx_view.py:496-540 | prints exactly the reference lines of the event, and completes exactly when the reference does |
| EconCalendar.ListingStopped | gamestonk_terminal/forex/fx_view.py:495 | once an event stops the listing, later events print nothing |
| EconCalendar.ListingCompleted | gamestonk_terminal/forex/fx_view.py:495 | the listing completes exactly when every event's printing does |
| EconCalendar.CalendarCompleted | gamestonk_terminal/forex/fx_view.py:495-540 | the calendar completes exactly when no event lacks a unit that one of its present fields needs |
| EconCalendar.ShowCalendar | gamestonk_terminal/forex/fx_view.py:495-540 | prints the events in order, exactly as the reference listing does, stopping at the first `KeyError` |
| CandleOverlays.AtRank | gamestonk_terminal/forex/fx_view.py:366-418 | each block position belongs to the indicator of that rank |
| CandleOverlays.RankInjective | gamestonk_terminal/forex/fx_view.py:366-418 | no two indicators share a block |
| CandleOverlays.SwitchCount | gamestonk_terminal/forex/fx_view.py:334-346 | at most thirteen switches can be given |
| CandleOverlays.SelectOverlays | gamestonk_terminal/forex/fx_view.py:364-418 | builds exactly the reference overlay list |
| CandleOverlays.AddOverlays0To4 | gamestonk_terminal/forex/fx_view.py:366-381 | the ad, adx, aroon and cci blocks extend the reference by four blocks |
| CandleOverlays.AddOverlays4To7 | gamestonk_terminal/forex/fx_view.py:382-394 | the bbands, ema and fwma blocks extend the reference by three blocks |
| CandleOverlays.AddOverlays7To10 | gamestonk_terminal/forex/fx_view.py:395-406 | the rsi, macd and obv blocks extend the reference by three blocks |
| CandleOverlays.AddOverlays10To13 | gamestonk_terminal/forex/fx_view.py:407-418 | the sma, stoch and vwap blocks extend the reference by three blocks |
| CandleOverlays.OverlaysUpToMembers | gamestonk_terminal/forex/fx_view.py:364-418 | a plot is among the first n blocks' overlays exactly when its indicator was requested, its block is among them and it is on that indicator's panel |
| CandleOverlays.OverlaysUpToOrdered | gamestonk_terminal/forex/fx_view.py:364-418 | those overlays follow strictly increasing block order |
| CandleOverlays.OverlaysSpec | gamestonk_terminal/forex/fx_view.py:364-418 | a plot is added exactly for each requested indicator, on its panel, in block order, with no indicator twice |
| CandleOverlays.OverlaysUpToLength | gamestonk_terminal/forex/fx_view.py:364-418 | the first n blocks add one plot per requested indicator among them |
| CandleOverlays.OverlaysCount | gamestonk_terminal/forex/fx_view.py:334-418 | one overlay per switch given |
| CandleOverlays.CountBlocks0To3 | gamestonk_terminal/forex/fx_view.py:366-377 | the first three blocks count the ad, adx and aroon switches |
| CandleOverlays.CountBlocks3To6 | gamestonk_terminal/forex/fx_view.py:378-390 | the next three count the cci, bbands and ema switches |
| CandleOverlays.CountBlocks6To9 | gamestonk_terminal/forex/fx_view.py:391-402 | the next three count the fwma, rsi and macd switches |
| CandleOverlays.CountBlocks9To13 | gamestonk_terminal/forex/fx_view.py:403-418 | the last four count the obv, sma, stoch and vwap switches |
| CandleOverlays.NoOverlays | gamestonk_terminal/forex/fx_view.py:364-418 | with no switch given, nothing is overlaid |
| CandleOverlays.AroonBeforeBollinger | gamestonk_terminal/forex/fx_view.py:336-385 | `--bollinger-bands` is declared before `--aroon`, yet the aroon plot (panel 3) comes before the Bollinger plot (panel 0) |
| CandleOverlays.OverlayPanels | gamestonk_terminal/forex/fx_view.py:364-418 | every overlay is on panel 0, 2 or 3 |

## Left out

- The OANDA API client, the request objects and `V20Error` are left out. The model starts from the decoded response: the candle list, or the list of calendar events.
- Argument parsing (`argparse`, `parse_known_args_and_warn`) is not part of this model. `load` takes the parser as a function parameter that yields the instrument or nothing. The `calendar` days value and the chart switches are taken as already parsed.
- `datetime.fromtimestamp` depends on the machine's time zone, so it is the parameter `localTime`. That parameter is a total function, so the model cannot fail while printing the time. The exceptions `fromtimestamp` raises for out-of-range timestamps are not modelled: `OverflowError`, `OSError` and `ValueError`. None of them is a `V20Error`, so in the program they would end the listing like a missing unit does.
- EconCalendar.EventLinesCompleted: "completes only when no needed unit is missing" holds because `localTime` cannot fail. An out-of-range timestamp, which also stops the program's listing, is not modelled.
- EconCalendar.CalendarCompleted: the same holds for the whole listing. Only a missing unit stops it in the model.
- Response values are modelled as the text `str()` gives them: prices and calendar values are strings, and the volume is an integer printed with `str`.
- `response["candles"]` is assumed present. Only keys inside a candle are modelled as possibly missing.
- Real file I/O is modelled as the sequence of strings written. The model leaves out opening and appending, and the temporary file name `show_candles` passes in. It also leaves out text-mode newline translation: `ReadLines` cuts only at `\n`, never at `\r` as Python's universal newlines do.
- Nothing after staging is modelled: pandas (`read_csv`, `to_datetime`, renaming the columns), the `pandas_ta` indicator values, `mplfinance` and `matplotlib` plotting. An overlay is modelled as its indicator and panel number, and no check is made that mplfinance accepts those panels.
- The calendar request dictionary is left out, apart from its `period` text.
- The file's other functions are left out. Some only print an API response: price, account summary, orders, pending orders, positions and trades. Some send a request built from parsed arguments: create, cancel and close. Some draw: the order and position books and `book_plot`.
- PyText.UpperChar: only `a`-`z` are mapped; non-ASCII lower-case letters (e.g. `é`) are kept, where Python's `str.upper()` would map them.
- PyText.Upper: covers ASCII letters only; Python's `str.upper()` also maps non-ASCII letters (e.g. `ß` to `SS`).
- Python exceptions are modelled as return values: `KeyError` in the serialiser as `Some(KeyError(...))`, and in the calendar as `completed == false`. Their printing by the callers' `except` clauses is left out.
