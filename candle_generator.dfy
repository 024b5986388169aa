/**
 * The demo candle generator: `count` one-minute candles from 9:00 on, each
 * opening within two of the previous close, with high, low and close drawn
 * around the open, every price rounded to cents.
 *
 * Prices are exact reals; the four `Math.random()` values each candle uses
 * are given, in call order, as one `Draw` per candle.
 */
module CandleGenerator {
  import opened Text

  /** One chart candle: its `H:MM` label and its prices. */
  datatype Candle = Candle(time: string, open: real, high: real, low: real, close: real)

  /** The four random numbers one candle consumes, in the order they are drawn. */
  datatype Draw = Draw(openJitter: real, highSpread: real, lowSpread: real, closePosition: real)

  /** What `Math.random()` promises: a number in [0, 1). */
  predicate Unit(x: real) {
    0.0 <= x < 1.0
  }

  predicate ValidDraw(d: Draw) {
    Unit(d.openJitter) && Unit(d.highSpread) && Unit(d.lowSpread) && Unit(d.closePosition)
  }

  predicate ValidDraws(draws: seq<Draw>) {
    forall k :: 0 <= k < |draws| ==> ValidDraw(draws[k])
  }

  /** The unrounded prices of one candle, as the loop computes them. */
  datatype Prices = Prices(open: real, high: real, low: real, close: real)

  /** The candle invariant: low is at most open and close, high at least both. */
  predicate WellFormed(c: Candle) {
    c.low <= c.open <= c.high && c.low <= c.close <= c.high
  }

  predicate Ordered(p: Prices) {
    p.low <= p.open <= p.high && p.low <= p.close <= p.high
  }

  // ---- Labels ----

  /** The label of candle `i`: the hour `9 + i / 60` without padding, a colon, the minute padded to two digits. */
  function TimeLabel(i: nat): string {
    Decimal(9 + i / 60) + ":" + PadStart2(Decimal(i % 60))
  }

  /** A minute below 100 pads to exactly two digits that read back as the minute. */
  lemma TwoDigits(m: nat)
    requires m < 100
    ensures |PadStart2(Decimal(m))| == 2
    ensures forall k :: 0 <= k < 2 ==> IsDigit(PadStart2(Decimal(m))[k])
    ensures DecimalValue(PadStart2(Decimal(m))) == m
  {
    DecimalRoundTrip(m);
    var d := Decimal(m);
    var p := PadStart2(d);
    if m < 10 {
      assert p == ['0'] + d;
      assert p[..1] == ['0'];
    } else {
      assert p == d;
    }
  }

  /** The hour, the colon and the minute can be cut back out of a label. */
  lemma LabelParts(h: string, m: string)
    requires |m| == 2
    ensures var l := h + ":" + m;
      |l| == |h| + 3 && l[..|h|] == h && l[|h|] == ':' && l[|h| + 1..] == m
  {
  }

  /** With two-character minutes, equal labels have equal hours and equal minutes. */
  lemma LabelPartsInjective(h1: string, m1: string, h2: string, m2: string)
    requires |m1| == 2 && |m2| == 2 && h1 + ":" + m1 == h2 + ":" + m2
    ensures h1 == h2 && m1 == m2
  {
    LabelParts(h1, m1);
    LabelParts(h2, m2);
  }

  /** Quotient and remainder by 60 determine a number. */
  lemma DivModDetermine(i: nat, j: nat)
    requires i / 60 == j / 60 && i % 60 == j % 60
    ensures i == j
  {
    assert i == 60 * (i / 60) + i % 60;
    assert j == 60 * (j / 60) + j % 60;
  }

  /** Equal labels are equal as hour, colon and minute put together. */
  lemma TimeLabelsUnfold(i: nat, j: nat)
    requires TimeLabel(i) == TimeLabel(j)
    ensures Decimal(9 + i / 60) + ":" + PadStart2(Decimal(i % 60)) ==
            Decimal(9 + j / 60) + ":" + PadStart2(Decimal(j % 60))
  {
  }

  /** Equal hour texts and equal padded minute texts come from the same index. */
  lemma LabelIndexFromParts(i: nat, j: nat)
    requires Decimal(9 + i / 60) == Decimal(9 + j / 60)
    requires PadStart2(Decimal(i % 60)) == PadStart2(Decimal(j % 60))
    ensures i == j
  {
    TwoDigits(i % 60);
    TwoDigits(j % 60);
    DecimalInjective(9 + i / 60, 9 + j / 60);
    DivModDetermine(i, j);
  }

  /** Different candles have different labels. */
  lemma TimeLabelInjective(i: nat, j: nat)
    requires TimeLabel(i) == TimeLabel(j)
    ensures i == j
  {
    TimeLabelsUnfold(i, j);
    TwoDigits(i % 60);
    TwoDigits(j % 60);
    LabelPartsInjective(Decimal(9 + i / 60), PadStart2(Decimal(i % 60)), Decimal(9 + j / 60), PadStart2(Decimal(j % 60)));
    LabelIndexFromParts(i, j);
  }

  /** The first candle of the day and the last of the 240 mock candles. */
  lemma TimeLabelEnds()
    ensures TimeLabel(0) == "9:00"
    ensures TimeLabel(239) == "12:59"
  {
    assert Decimal(9) == "9" && Decimal(0) == "0";
    assert Decimal(12) == "12" && Decimal(59) == "59";
  }

  // ---- Prices ----

  /** `Math.round(x * 100) / 100`: to the nearest cent, halves rounded up. */
  function Round2(x: real): (r: real)
    ensures x - 0.005 < r <= x + 0.005
  {
    (x * 100.0 + 0.5).Floor as real / 100.0
  }

  /** Rounding to cents never reverses an order. */
  lemma Round2Monotone(x: real, y: real)
    requires x <= y
    ensures Round2(x) <= Round2(y)
  {
    var a, b := x * 100.0 + 0.5, y * 100.0 + 0.5;
    assert a <= b;
    assert a.Floor as real <= a <= b < b.Floor as real + 1.0;
    assert a.Floor <= b.Floor;
  }

  /** `low + t * (high - low)`: the point a fraction `t` of the way from `low` to `high`. */
  function Between(low: real, high: real, t: real): (r: real)
    requires low <= high && Unit(t)
    ensures low <= r <= high
  {
    var spread := high - low;
    assert 0.0 <= t * spread <= 1.0 * spread;
    low + t * spread
  }

  /**
   * The prices of a candle after one that closed at `prevClose`: the open
   * moves by less than two either way, the high and low spread by less than
   * four above and below it, and the close falls between them.
   */
  function NextPrices(prevClose: real, d: Draw): (p: Prices)
    requires ValidDraw(d)
    ensures prevClose - 2.0 <= p.open < prevClose + 2.0
    ensures p.open <= p.high < p.open + 4.0 && p.open - 4.0 < p.low <= p.open
    ensures Ordered(p)
  {
    var open := prevClose + (d.openJitter - 0.5) * 4.0;
    var high := open + d.highSpread * 4.0;
    var low := open - d.lowSpread * 4.0;
    Prices(open, high, low, Between(low, high, d.closePosition))
  }

  /** The candle pushed for index `i`: its label and its prices rounded to cents, still in order. */
  function Labelled(i: nat, p: Prices): (c: Candle)
    ensures c.time == TimeLabel(i)
    ensures Ordered(p) ==> WellFormed(c)
  {
    var c := Candle(TimeLabel(i), Round2(p.open), Round2(p.high), Round2(p.low), Round2(p.close));
    assert Ordered(p) ==> WellFormed(c) by {
      if Ordered(p) {
        Round2Monotone(p.low, p.open);
        Round2Monotone(p.open, p.high);
        Round2Monotone(p.low, p.close);
        Round2Monotone(p.close, p.high);
      }
    }
    c
  }

  /** The candles of a run of prices, the `k`-th labelled with index `k`. */
  function LabelAll(ps: seq<Prices>): (r: seq<Candle>)
    ensures |r| == |ps|
    ensures forall k :: 0 <= k < |ps| ==> r[k] == Labelled(k, ps[k])
  {
    seq(|ps|, k requires 0 <= k < |ps| => Labelled(k, ps[k]))
  }

  /** Labelling one more price adds its candle, with the next index, at the end. */
  lemma LabelAllSnoc(ps: seq<Prices>, p: Prices)
    ensures LabelAll(ps + [p]) == LabelAll(ps) + [Labelled(|ps|, p)]
  {
    var l, r := LabelAll(ps + [p]), LabelAll(ps) + [Labelled(|ps|, p)];
    forall k | 0 <= k < |l| ensures l[k] == r[k] {
      if k < |ps| {
        assert (ps + [p])[k] == ps[k];
      }
    }
  }

  /** The unrounded prices of candles `i` up to `count`, the first following a close of `prevClose`. */
  function PriceSeries(i: nat, count: int, prevClose: real, draws: seq<Draw>): seq<Prices>
    requires count <= |draws| && ValidDraws(draws)
    decreases count - i
  {
    if i >= count then []
    else
      var p := NextPrices(prevClose, draws[i]);
      [p] + PriceSeries(i + 1, count, p.close, draws)
  }

  /**
   * What `generateRandomCandleData(count)` returns: the price series from 0,
   * after a close of 100, each labelled with its index and rounded.
   */
  function Generated(count: int, draws: seq<Draw>): seq<Candle>
    requires count <= |draws| && ValidDraws(draws)
  {
    LabelAll(PriceSeries(0, count, 100.0, draws))
  }

  /** The price series from `i` has one entry per index up to `count`, each in order. */
  lemma {:induction false} PriceSeriesShape(i: nat, count: int, prevClose: real, draws: seq<Draw>)
    requires count <= |draws| && ValidDraws(draws)
    ensures var s := PriceSeries(i, count, prevClose, draws);
      |s| == (if i < count then count - i else 0) &&
      forall k :: 0 <= k < |s| ==> Ordered(s[k])
    decreases count - i
  {
    if i < count {
      var p := NextPrices(prevClose, draws[i]);
      PriceSeriesShape(i + 1, count, p.close, draws);
      var rest := PriceSeries(i + 1, count, p.close, draws);
      var s := [p] + rest;
      forall k | 0 < k < |s| ensures Ordered(s[k]) {
        assert s[k] == rest[k - 1];
      }
    }
  }

  /** Each candle opens within two of the unrounded close before it, the first within two of `prevClose`. */
  lemma {:induction false} PriceSeriesChained(i: nat, count: int, prevClose: real, draws: seq<Draw>)
    requires count <= |draws| && ValidDraws(draws)
    ensures var s := PriceSeries(i, count, prevClose, draws);
      (|s| > 0 ==> prevClose - 2.0 <= s[0].open < prevClose + 2.0) &&
      (forall k :: 0 < k < |s| ==> s[k - 1].close - 2.0 <= s[k].open < s[k - 1].close + 2.0)
    decreases count - i
  {
    if i < count {
      var p := NextPrices(prevClose, draws[i]);
      PriceSeriesChained(i + 1, count, p.close, draws);
      var rest := PriceSeries(i + 1, count, p.close, draws);
      var s := [p] + rest;
      forall k | 0 < k < |s| ensures s[k - 1].close - 2.0 <= s[k].open < s[k - 1].close + 2.0 {
        assert s[k] == rest[k - 1];
        if k > 1 {
          assert s[k - 1] == rest[k - 2];
        }
      }
    }
  }

  /**
   * The generated candles: one per index below `count` (none when `count`
   * is not positive), candle `k` labelled with index `k`, every candle well
   * formed after rounding, and no two with the same label.
   */
  lemma GeneratedShape(count: int, draws: seq<Draw>)
    requires count <= |draws| && ValidDraws(draws)
    ensures var data := Generated(count, draws);
      |data| == (if count > 0 then count else 0) &&
      (forall k :: 0 <= k < |data| ==> data[k].time == TimeLabel(k) && WellFormed(data[k])) &&
      (forall j, k :: 0 <= j < k < |data| ==> data[j].time != data[k].time)
  {
    PriceSeriesShape(0, count, 100.0, draws);
    var ps := PriceSeries(0, count, 100.0, draws);
    var data := Generated(count, draws);
    forall k | 0 <= k < |data| ensures data[k].time == TimeLabel(k) && WellFormed(data[k]) {
      assert data[k] == Labelled(k, ps[k]);
    }
    forall j, k | 0 <= j < k < |data| ensures data[j].time != data[k].time {
      if data[j].time == data[k].time {
        TimeLabelInjective(j, k);
      }
    }
  }

  /** One loop step of the generator keeps the prices computed so far a prefix of the series. */
  lemma GenerateStep(count: int, draws: seq<Draw>, done: seq<Prices>, i: nat, prevClose: real)
    requires count <= |draws| && ValidDraws(draws) && i < count
    requires PriceSeries(0, count, 100.0, draws) == done + PriceSeries(i, count, prevClose, draws)
    ensures var p := NextPrices(prevClose, draws[i]);
      PriceSeries(0, count, 100.0, draws) == (done + [p]) + PriceSeries(i + 1, count, p.close, draws)
  {
    var p := NextPrices(prevClose, draws[i]);
    var rest := PriceSeries(i + 1, count, p.close, draws);
    assert PriceSeries(i, count, prevClose, draws) == [p] + rest;
    assert done + [p] + rest == done + ([p] + rest);
  }

  /**
   * `generateRandomCandleData(count)`: the loop computes each candle's
   * prices from the previous unrounded close (`NextPrices` holds that
   * arithmetic), pushes the labelled, rounded candle, and carries the close.
   */
  method GenerateRandomCandleData(count: int, draws: seq<Draw>) returns (data: seq<Candle>)
    requires count <= |draws| && ValidDraws(draws)
    ensures data == Generated(count, draws)
    ensures |data| == if count > 0 then count else 0
  {
    data := [];
    var prevClose := 100.0;
    ghost var done: seq<Prices> := [];
    var i := 0;
    while i < count
      invariant 0 <= i && (count > 0 ==> i <= count) && i == |done|
      invariant PriceSeries(0, count, 100.0, draws) == done + PriceSeries(i, count, prevClose, draws)
      invariant data == LabelAll(done)
    {
      var p := NextPrices(prevClose, draws[i]);
      GenerateStep(count, draws, done, i, prevClose);
      LabelAllSnoc(done, p);
      data := data + [Labelled(i, p)];
      done := done + [p];
      prevClose := p.close;
      i := i + 1;
    }
    PriceSeriesShape(0, count, 100.0, draws);
  }
}
