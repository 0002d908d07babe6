/** strategy/builtin/ma_cross.py */
module MACross {
  import opened Wrappers
  import opened Models

  datatype Settings = Settings(shortWindow: int, longWindow: int, orderSize: int)

  datatype ConfigError = WindowsNotPositive | ShortNotBelowLong | OrderSizeNotPositive

  predicate Constructible(s: Settings) {
    0 < s.shortWindow < s.longWindow && 0 < s.orderSize
  }

  type MACrossStrategy = s: Settings | Constructible(s) witness Settings(5, 20, 100)

  function Construct(s: Settings): (r: Result<MACrossStrategy, ConfigError>)
    ensures r.Ok? <==> Constructible(s)
  {
    if s.shortWindow <= 0 || s.longWindow <= 0 then Err(WindowsNotPositive)
    else if s.shortWindow >= s.longWindow then Err(ShortNotBelowLong)
    else if s.orderSize <= 0 then Err(OrderSizeNotPositive)
    else Ok(s)
  }

  function Closes(bars: seq<Bar>): (closes: seq<real>)
    ensures |closes| == |bars|
    ensures forall i :: 0 <= i < |bars| ==> closes[i] == bars[i].close
  {
    seq(|bars|, i requires 0 <= i < |bars| => bars[i].close)
  }

  function Total(values: seq<real>): real {
    if values == [] then 0.0 else values[0] + Total(values[1..])
  }

  function Mean(values: seq<real>): real
    requires values != []
  {
    Over(Total(values), |values|)
  }

  datatype Signal = Bullish | Bearish | Quiet

  function Compare(previousShort: real, previousLong: real, currentShort: real, currentLong: real): Signal {
    if previousShort <= previousLong && currentShort > currentLong then Bullish
    else if previousShort >= previousLong && currentShort < currentLong then Bearish
    else Quiet
  }

  /** The crossing of the two averages between the previous and the latest close. */
  function Crossing(s: MACrossStrategy, closes: seq<real>): Signal
    requires s.longWindow < |closes|
  {
    var n := |closes|;
    Compare(Mean(closes[n - s.shortWindow - 1..n - 1]), Mean(closes[n - s.longWindow - 1..n - 1]),
            Mean(closes[n - s.shortWindow..n]), Mean(closes[n - s.longWindow..n]))
  }

  function OnBar(s: MACrossStrategy, bars: seq<Bar>, portfolio: Portfolio): seq<OrderIntent> {
    if |bars| < s.longWindow + 1 then []
    else
      var latest := bars[|bars| - 1].instrumentId;
      match Crossing(s, Closes(bars))
      case Bullish =>
        if portfolio.Held(latest) > 0 then [] else [OrderIntent(latest, Buy, s.orderSize)]
      case Bearish =>
        if portfolio.Held(latest) > 0 then [OrderIntent(latest, Sell, portfolio.Held(latest))] else []
      case Quiet => []
  }

  function AsStrategy(s: MACrossStrategy): Strategy {
    (bars, portfolio) => OnBar(s, bars, portfolio)
  }

  function Scale(k: real, x: real): real {
    k * x
  }

  ghost predicate ScaledBy(k: real, closes: seq<real>, scaled: seq<real>) {
    |scaled| == |closes| && forall i :: 0 <= i < |closes| ==> scaled[i] == Scale(k, closes[i])
  }

  lemma {:induction false} TotalScales(k: real, closes: seq<real>, scaled: seq<real>)
    requires ScaledBy(k, closes, scaled)
    ensures Total(scaled) == Scale(k, Total(closes))
  {
    if closes != [] {
      TotalScales(k, closes[1..], scaled[1..]);
      assert Scale(k, closes[0]) + Scale(k, Total(closes[1..])) == Scale(k, Total(closes));
    }
  }

  lemma MeanScales(k: real, closes: seq<real>, scaled: seq<real>, lo: nat, hi: nat)
    requires ScaledBy(k, closes, scaled) && lo < hi <= |closes|
    ensures Mean(scaled[lo..hi]) == Scale(k, Mean(closes[lo..hi]))
  {
    TotalScales(k, closes[lo..hi], scaled[lo..hi]);
    ShareScales(k, Total(closes[lo..hi]), hi - lo);
  }

  lemma ShareScales(k: real, x: real, n: int)
    requires n != 0
    ensures Over(Scale(k, x), n) == Scale(k, Over(x, n))
  {
  }

  lemma OrderScales(k: real, x: real, y: real)
    requires 0.0 < k
    ensures Scale(k, x) < Scale(k, y) <==> x < y
  {
    var gap := k * (y - x);
    assert Scale(k, y) - Scale(k, x) == gap;
    if x < y {
      assert 0.0 < gap;
    } else if y < x {
      assert gap < 0.0;
    }
  }

  /** Quoting every price in another unit changes no decision. */
  lemma SignalIgnoresPriceUnit(s: MACrossStrategy, bars: seq<Bar>, rescaled: seq<Bar>, k: real, portfolio: Portfolio)
    requires 0.0 < k && |rescaled| == |bars|
    requires forall i :: 0 <= i < |bars| ==>
               rescaled[i].close == Scale(k, bars[i].close) && rescaled[i].instrumentId == bars[i].instrumentId
    ensures OnBar(s, rescaled, portfolio) == OnBar(s, bars, portfolio)
  {
    if s.longWindow < |bars| {
      CrossingScales(s, k, Closes(bars), Closes(rescaled));
    }
  }

  lemma CrossingScales(s: MACrossStrategy, k: real, closes: seq<real>, scaled: seq<real>)
    requires 0.0 < k && s.longWindow < |closes| && ScaledBy(k, closes, scaled)
    ensures Crossing(s, scaled) == Crossing(s, closes)
  {
    var n := |closes|;
    MeanScales(k, closes, scaled, n - s.shortWindow - 1, n - 1);
    MeanScales(k, closes, scaled, n - s.longWindow - 1, n - 1);
    MeanScales(k, closes, scaled, n - s.shortWindow, n);
    MeanScales(k, closes, scaled, n - s.longWindow, n);
    CompareScales(k, Mean(closes[n - s.shortWindow - 1..n - 1]), Mean(closes[n - s.longWindow - 1..n - 1]),
                  Mean(closes[n - s.shortWindow..n]), Mean(closes[n - s.longWindow..n]));
  }

  lemma CompareScales(k: real, ps: real, pl: real, cs: real, cl: real)
    requires 0.0 < k
    ensures Compare(Scale(k, ps), Scale(k, pl), Scale(k, cs), Scale(k, cl)) == Compare(ps, pl, cs, cl)
  {
    OrderScales(k, ps, pl);
    OrderScales(k, pl, ps);
    OrderScales(k, cs, cl);
    OrderScales(k, cl, cs);
  }

  /** Sum of the `window` closes that end `back` bars before the last. */
  function WindowTotal(bars: seq<Bar>, window: nat, back: nat): real
    requires window + back <= |bars|
  {
    Total(Closes(bars)[|bars| - back - window..|bars| - back])
  }

  /** How far the short average lies above the long one, times both window lengths. */
  function Spread(s: MACrossStrategy, bars: seq<Bar>, back: nat): real
    requires s.longWindow + back <= |bars|
  {
    Times(WindowTotal(bars, s.shortWindow, back), s.longWindow)
    - Times(WindowTotal(bars, s.longWindow, back), s.shortWindow)
  }

  lemma MeansCompare(x: real, n: int, y: real, m: int)
    requires 0 < n && 0 < m
    ensures Over(x, n) < Over(y, m) <==> Times(x, m) < Times(y, n)
    ensures Over(x, n) > Over(y, m) <==> Times(x, m) > Times(y, n)
  {
    var a, b, k := Over(x, n), Over(y, m), n as real * m as real;
    OverTimes(x, n);
    OverTimes(y, m);
    assert 0.0 < k && Scale(k, a) == Times(x, m) && Scale(k, b) == Times(y, n);
    OrderScales(k, a, b);
    OrderScales(k, b, a);
  }

  /** What the strategy does, without averages: it buys its size when nothing is held and the
      spread has just turned from not positive to positive, sells everything it holds when the
      spread has just turned from not negative to negative, and does nothing otherwise. */
  lemma OrdersExactly(s: MACrossStrategy, bars: seq<Bar>, portfolio: Portfolio)
    ensures |bars| <= s.longWindow ==> OnBar(s, bars, portfolio) == []
    ensures |bars| > s.longWindow ==>
              var id := bars[|bars| - 1].instrumentId;
              var before, now, held := Spread(s, bars, 1), Spread(s, bars, 0), portfolio.Held(id);
              OnBar(s, bars, portfolio) ==
              if before <= 0.0 < now && held <= 0 then [OrderIntent(id, Buy, s.orderSize)]
              else if now < 0.0 <= before && held > 0 then [OrderIntent(id, Sell, held)]
              else []
  {
    if |bars| > s.longWindow {
      var short, long := s.shortWindow, s.longWindow;
      MeansCompare(WindowTotal(bars, short, 1), short, WindowTotal(bars, long, 1), long);
      MeansCompare(WindowTotal(bars, short, 0), short, WindowTotal(bars, long, 0), long);
    }
  }
}
