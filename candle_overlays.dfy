/**
 * The indicator overlays that `show_candles` (gamestonk_terminal/forex/fx_view.py)
 * adds to the candle chart: one plot per indicator the user asked for, each
 * drawn on a fixed panel of the chart. The indicator values themselves are
 * not modelled; a plot is the indicator it shows and its panel.
 */
module CandleOverlays {

  /** The indicators, declared in the order the overlays are added. */
  datatype Indicator = Ad | Adx | Aroon | Cci | BBands | Ema | Fwma | Rsi | Macd | Obv | Sma | Stoch | Vwap {

    /** The chart panel the indicator is drawn on: 0 is the price panel. */
    function Panel(): nat {
      match this
      case Ad => 3
      case Adx => 3
      case Aroon => 3
      case Cci => 3
      case BBands => 0
      case Ema => 0
      case Fwma => 0
      case Rsi => 2
      case Macd => 3
      case Obv => 3
      case Sma => 0
      case Stoch => 0
      case Vwap => 0
    }

    /** The position of the indicator's block among the thirteen `if`s. */
    function Rank(): (r: nat)
      ensures r < IndicatorCount
    {
      match this
      case Ad => 0
      case Adx => 1
      case Aroon => 2
      case Cci => 3
      case BBands => 4
      case Ema => 5
      case Fwma => 6
      case Rsi => 7
      case Macd => 8
      case Obv => 9
      case Sma => 10
      case Stoch => 11
      case Vwap => 12
    }
  }

  const IndicatorCount := 13

  /** The indicator whose block comes `r`-th. */
  function AtRank(r: nat): (i: Indicator)
    requires r < IndicatorCount
    ensures i.Rank() == r
  {
    if r == 0 then Ad
    else if r == 1 then Adx
    else if r == 2 then Aroon
    else if r == 3 then Cci
    else if r == 4 then BBands
    else if r == 5 then Ema
    else if r == 6 then Fwma
    else if r == 7 then Rsi
    else if r == 8 then Macd
    else if r == 9 then Obv
    else if r == 10 then Sma
    else if r == 11 then Stoch
    else Vwap
  }

  /** Ranks tell indicators apart. */
  lemma RankInjective(i: Indicator, j: Indicator)
    ensures i.Rank() == j.Rank() ==> i == j
  {
    assert AtRank(i.Rank()) == i;
  }

  /** The command's switches, `--ad` to `--vwap`, as parsed. */
  datatype CandleOptions = CandleOptions(
    ad: bool, adx: bool, bbands: bool, cci: bool, ema: bool, fwma: bool, macd: bool,
    obv: bool, rsi: bool, aroon: bool, sma: bool, stoch: bool, vwap: bool)
  {
    /** Whether the switch of indicator `i` was given. */
    predicate Requested(i: Indicator) {
      match i
      case Ad => ad
      case Adx => adx
      case Aroon => aroon
      case Cci => cci
      case BBands => bbands
      case Ema => ema
      case Fwma => fwma
      case Rsi => rsi
      case Macd => macd
      case Obv => obv
      case Sma => sma
      case Stoch => stoch
      case Vwap => vwap
    }
  }

  /** No switch given. */
  const NoOptions := CandleOptions(false, false, false, false, false, false, false, false, false, false, false, false, false)

  /** The order the switches are declared to the argument parser. */
  const DeclarationOrder: seq<Indicator> := [Ad, Adx, BBands, Cci, Ema, Fwma, Macd, Obv, Rsi, Aroon, Sma, Stoch, Vwap]

  /** An overlay: the indicator plotted and the panel it is drawn on. */
  datatype Plot = Plot(indicator: Indicator, panel: nat)

  /** Reference: the overlays of the first `n` blocks, one per requested indicator, in block order. */
  function OverlaysUpTo(opts: CandleOptions, n: nat): seq<Plot>
    requires n <= IndicatorCount
  {
    if n == 0 then []
    else
      var i := AtRank(n - 1);
      OverlaysUpTo(opts, n - 1) + if opts.Requested(i) then [Plot(i, i.Panel())] else []
  }

  /** The overlays added to the chart. */
  function Overlays(opts: CandleOptions): seq<Plot> {
    OverlaysUpTo(opts, IndicatorCount)
  }

  function Ones(b: bool): nat {
    if b then 1 else 0
  }

  /** How many switches were given, counted in declaration order. */
  function SwitchCount(opts: CandleOptions): (count: nat)
    ensures count <= IndicatorCount
  {
    Ones(opts.ad) + Ones(opts.adx) + Ones(opts.bbands) + Ones(opts.cci) + Ones(opts.ema) + Ones(opts.fwma) +
    Ones(opts.macd) + Ones(opts.obv) + Ones(opts.rsi) + Ones(opts.aroon) + Ones(opts.sma) + Ones(opts.stoch) +
    Ones(opts.vwap)
  }

  /**
   * The `plots_to_add` list built in `show_candles`: for each requested
   * indicator, in a fixed order, a plot on that indicator's panel.
   */
  method SelectOverlays(opts: CandleOptions) returns (plots: seq<Plot>)
    ensures plots == Overlays(opts)
  {
    plots := [];
    plots := AddOverlays0To4(opts, plots);
    plots := AddOverlays4To7(opts, plots);
    plots := AddOverlays7To10(opts, plots);
    plots := AddOverlays10To13(opts, plots);
  }

  // The thirteen blocks are split over four methods only to keep each proof
  // small; run one after the other they are the straight-line code of
  // `show_candles`.

  /** The blocks for ad, adx, aroon and cci. */
  method AddOverlays0To4(opts: CandleOptions, start: seq<Plot>) returns (plots: seq<Plot>)
    requires start == OverlaysUpTo(opts, 0)
    ensures plots == OverlaysUpTo(opts, 4)
  {
    plots := start;
    if opts.ad {
      plots := plots + [Plot(Ad, 3)];
    }
    assert plots == OverlaysUpTo(opts, 1);
    if opts.adx {
      plots := plots + [Plot(Adx, 3)];
    }
    assert plots == OverlaysUpTo(opts, 2);
    if opts.aroon {
      plots := plots + [Plot(Aroon, 3)];
    }
    assert plots == OverlaysUpTo(opts, 3);
    if opts.cci {
      plots := plots + [Plot(Cci, 3)];
    }
  }

  /** The blocks for bbands, ema and fwma. */
  method AddOverlays4To7(opts: CandleOptions, start: seq<Plot>) returns (plots: seq<Plot>)
    requires start == OverlaysUpTo(opts, 4)
    ensures plots == OverlaysUpTo(opts, 7)
  {
    plots := start;
    if opts.bbands {
      plots := plots + [Plot(BBands, 0)];
    }
    assert plots == OverlaysUpTo(opts, 5);
    if opts.ema {
      plots := plots + [Plot(Ema, 0)];
    }
    assert plots == OverlaysUpTo(opts, 6);
    if opts.fwma {
      plots := plots + [Plot(Fwma, 0)];
    }
  }

  /** The blocks for rsi, macd and obv. */
  method AddOverlays7To10(opts: CandleOptions, start: seq<Plot>) returns (plots: seq<Plot>)
    requires start == OverlaysUpTo(opts, 7)
    ensures plots == OverlaysUpTo(opts, 10)
  {
    plots := start;
    if opts.rsi {
      plots := plots + [Plot(Rsi, 2)];
    }
    assert plots == OverlaysUpTo(opts, 8);
    if opts.macd {
      plots := plots + [Plot(Macd, 3)];
    }
    assert plots == OverlaysUpTo(opts, 9);
    if opts.obv {
      plots := plots + [Plot(Obv, 3)];
    }
  }

  /** The blocks for sma, stoch and vwap. */
  method AddOverlays10To13(opts: CandleOptions, start: seq<Plot>) returns (plots: seq<Plot>)
    requires start == OverlaysUpTo(opts, 10)
    ensures plots == OverlaysUpTo(opts, 13)
  {
    plots := start;
    if opts.sma {
      plots := plots + [Plot(Sma, 0)];
    }
    assert plots == OverlaysUpTo(opts, 11);
    if opts.stoch {
      plots := plots + [Plot(Stoch, 0)];
    }
    assert plots == OverlaysUpTo(opts, 12);
    if opts.vwap {
      plots := plots + [Plot(Vwap, 0)];
    }
  }

  /**
   * A plot is among the overlays of the first `n` blocks exactly when its
   * indicator's block is one of them, the indicator was requested, and the
   * plot is on that indicator's panel.
   */
  lemma {:induction false} OverlaysUpToMembers(opts: CandleOptions, n: nat, p: Plot)
    requires n <= IndicatorCount
    ensures p in OverlaysUpTo(opts, n) <==> opts.Requested(p.indicator) && p.panel == p.indicator.Panel() && p.indicator.Rank() < n
  {
    if n > 0 {
      OverlaysUpToMembers(opts, n - 1, p);
      RankInjective(p.indicator, AtRank(n - 1));
    }
  }

  /** The plots follow block order. */
  predicate InBlockOrder(plots: seq<Plot>) {
    forall a, b :: 0 <= a < b < |plots| ==> plots[a].indicator.Rank() < plots[b].indicator.Rank()
  }

  /** The overlays of the first `n` blocks are in block order. */
  lemma {:induction false} OverlaysUpToOrdered(opts: CandleOptions, n: nat)
    requires n <= IndicatorCount
    ensures InBlockOrder(OverlaysUpTo(opts, n))
  {
    if n > 0 {
      OverlaysUpToOrdered(opts, n - 1);
      var before, plots := OverlaysUpTo(opts, n - 1), OverlaysUpTo(opts, n);
      var i := AtRank(n - 1);
      assert plots == before + if opts.Requested(i) then [Plot(i, i.Panel())] else [];
      forall a, b | 0 <= a < b < |plots|
        ensures plots[a].indicator.Rank() < plots[b].indicator.Rank()
      {
        assert plots[a] == before[a] && before[a] in before;
        if b < |before| {
          assert plots[b] == before[b];
          assert before[a].indicator.Rank() < before[b].indicator.Rank();
        } else {
          OverlaysUpToMembers(opts, n - 1, before[a]);
          assert before[a].indicator.Rank() < n - 1;
          assert plots[b] == Plot(i, i.Panel());
          assert i.Rank() == n - 1;
        }
      }
    }
  }

  /**
   * The overlays of `show_candles`: a plot is added exactly for each
   * requested indicator, on that indicator's panel; the plots follow block
   * order, so no indicator appears twice.
   */
  lemma OverlaysSpec(opts: CandleOptions)
    ensures forall p :: p in Overlays(opts) <==> opts.Requested(p.indicator) && p.panel == p.indicator.Panel()
    ensures InBlockOrder(Overlays(opts))
    ensures var plots := Overlays(opts);
      forall a, b :: 0 <= a < b < |plots| ==> plots[a].indicator != plots[b].indicator
  {
    var plots := Overlays(opts);
    assert plots == OverlaysUpTo(opts, IndicatorCount);
    forall p {
      OverlaysUpToMembers(opts, IndicatorCount, p);
    }
    OverlaysUpToOrdered(opts, IndicatorCount);
    forall a, b | 0 <= a < b < |plots|
      ensures plots[a].indicator != plots[b].indicator
    {
      assert plots[a].indicator.Rank() < plots[b].indicator.Rank();
    }
  }

  /** How many of the first `n` blocks' switches were given. */
  function CountUpTo(opts: CandleOptions, n: nat): nat
    requires n <= IndicatorCount
  {
    if n == 0 then 0 else CountUpTo(opts, n - 1) + Ones(opts.Requested(AtRank(n - 1)))
  }

  lemma {:induction false} OverlaysUpToLength(opts: CandleOptions, n: nat)
    requires n <= IndicatorCount
    ensures |OverlaysUpTo(opts, n)| == CountUpTo(opts, n)
  {
    if n > 0 {
      OverlaysUpToLength(opts, n - 1);
    }
  }

  /** One overlay per switch given. */
  lemma OverlaysCount(opts: CandleOptions)
    ensures |Overlays(opts)| == SwitchCount(opts)
  {
    OverlaysUpToLength(opts, IndicatorCount);
    CountBlocks0To3(opts);
    CountBlocks3To6(opts);
    CountBlocks6To9(opts);
    CountBlocks9To13(opts);
  }

  lemma CountBlocks0To3(opts: CandleOptions)
    ensures CountUpTo(opts, 3) == CountUpTo(opts, 0) + Ones(opts.ad) + Ones(opts.adx) + Ones(opts.aroon)
  {
    assert CountUpTo(opts, 1) == CountUpTo(opts, 0) + Ones(opts.ad);
    assert CountUpTo(opts, 2) == CountUpTo(opts, 1) + Ones(opts.adx);
  }

  lemma CountBlocks3To6(opts: CandleOptions)
    ensures CountUpTo(opts, 6) == CountUpTo(opts, 3) + Ones(opts.cci) + Ones(opts.bbands) + Ones(opts.ema)
  {
    assert CountUpTo(opts, 4) == CountUpTo(opts, 3) + Ones(opts.cci);
    assert CountUpTo(opts, 5) == CountUpTo(opts, 4) + Ones(opts.bbands);
  }

  lemma CountBlocks6To9(opts: CandleOptions)
    ensures CountUpTo(opts, 9) == CountUpTo(opts, 6) + Ones(opts.fwma) + Ones(opts.rsi) + Ones(opts.macd)
  {
    assert CountUpTo(opts, 7) == CountUpTo(opts, 6) + Ones(opts.fwma);
    assert CountUpTo(opts, 8) == CountUpTo(opts, 7) + Ones(opts.rsi);
  }

  lemma CountBlocks9To13(opts: CandleOptions)
    ensures CountUpTo(opts, 13) == CountUpTo(opts, 9) + Ones(opts.obv) + Ones(opts.sma) + Ones(opts.stoch) + Ones(opts.vwap)
  {
    assert CountUpTo(opts, 10) == CountUpTo(opts, 9) + Ones(opts.obv);
    assert CountUpTo(opts, 11) == CountUpTo(opts, 10) + Ones(opts.sma);
    assert CountUpTo(opts, 12) == CountUpTo(opts, 11) + Ones(opts.stoch);
  }

  /** With no switch given, nothing is overlaid. */
  lemma NoOverlays()
    ensures Overlays(NoOptions) == []
  {
  }

  /**
   * The overlays do not follow the switches' declaration order: `--bollinger-bands`
   * is declared before `--aroon`, yet the aroon plot comes first.
   */
  lemma AroonBeforeBollinger()
    ensures DeclarationOrder[2] == BBands && DeclarationOrder[9] == Aroon
    ensures Overlays(NoOptions.(aroon := true, bbands := true)) == [Plot(Aroon, 3), Plot(BBands, 0)]
  {
  }

  /** Every overlay is drawn on the price panel, or on panel 2 or 3. */
  lemma OverlayPanels(opts: CandleOptions)
    ensures forall p :: p in Overlays(opts) ==> p.panel in {0, 2, 3}
  {
    forall p | p in Overlays(opts)
      ensures p.panel in {0, 2, 3}
    {
      OverlaysUpToMembers(opts, IndicatorCount, p);
    }
  }
}
