/**
 * The candle chart page: a symbol field, the candles on the chart, a
 * loading flag and an error line. A fetch asks the server for the last
 * thirty minutes of trade ticks of the symbol and charts them; when the
 * answer is an error, or holds no ticks, the 240 mock candles are charted.
 *
 * The request runs in two steps, split where the source awaits: `StartFetch`
 * builds the URL and raises the loading flag, `FinishFetch` takes what the
 * server sent. The two ISO timestamps bounding the range come from the clock
 * and are parameters.
 */
module CandleChartPage {
  import opened Wrappers
  import opened Text
  import opened CandleGenerator

  const DefaultSymbol := "KOSPI::005930"
  /** The number of mock candles the page falls back to. */
  const MockCount := 240
  const FetchFailed := "API 요청 실패"
  const LoadFailed := "데이터 로딩 실패"

  /** One trade tick of the server's answer: an ISO timestamp and its prices. */
  datatype TradeTick = TradeTick(at: string, open: real, high: real, low: real, close: real)

  /**
   * How a fetch ended: an exception with its message (possibly empty), or a
   * response, with its `ok` flag and the `items` field of its body, absent
   * when the body has none.
   */
  datatype FetchResult =
    | Threw(message: string)
    | Responded(ok: bool, items: Option<seq<TradeTick>>)

  /** The `HH:mm` part of an ISO timestamp: code units 11 up to 16. */
  function ChartTime(at: string): (r: string)
    ensures |r| <= 5
    ensures |at| >= 16 ==> r == at[11..16]
    ensures |at| <= 11 ==> r == []
  {
    Slice(at, 11, 16)
  }

  /**
   * The chart candles of the ticks: one per tick, in the same order, each
   * labelled with its tick's time of day and carrying its prices unchanged.
   */
  function ToChartData(items: seq<TradeTick>): (r: seq<Candle>)
    ensures |r| == |items|
    ensures forall k :: 0 <= k < |items| ==>
      r[k].time == ChartTime(items[k].at) &&
      r[k].open == items[k].open && r[k].high == items[k].high &&
      r[k].low == items[k].low && r[k].close == items[k].close
  {
    seq(|items|, k requires 0 <= k < |items| =>
      var t := items[k]; Candle(ChartTime(t.at), t.open, t.high, t.low, t.close))
  }

  /** Converting a batch of ticks is converting its parts one after the other. */
  lemma ToChartDataConcat(a: seq<TradeTick>, b: seq<TradeTick>)
    ensures ToChartData(a + b) == ToChartData(a) + ToChartData(b)
  {
    var l, r := ToChartData(a + b), ToChartData(a) + ToChartData(b);
    forall k | 0 <= k < |l| ensures l[k] == r[k] {
      if k >= |a| {
        assert (a + b)[k] == b[k - |a|];
      }
    }
  }

  /** A tick well formed in its prices gives a well formed candle. */
  lemma ToChartDataWellFormed(items: seq<TradeTick>, k: nat)
    requires k < |items|
    requires var t := items[k]; t.low <= t.open <= t.high && t.low <= t.close <= t.high
    ensures WellFormed(ToChartData(items)[k])
  {
  }

  /** The time of day of an ISO timestamp of the server. */
  lemma ChartTimeOfIsoTimestamp()
    ensures ChartTime("2025-06-28T09:30:00.000Z") == "09:30"
  {
    var at := "2025-06-28T09:30:00.000Z";
    assert at[11..16] == "09:30";
  }

  /** The path up to the symbol, and the part between the symbol and the range start. */
  const TicksPath := "/api/v1/stocks/"
  const RangeQuery := "/trade-ticks/range?start="

  /** The three parts of a concatenation can be cut back out of it. */
  lemma Split3(a: string, e: string, b: string)
    ensures (a + e + b)[..|a|] == a
    ensures (a + e + b)[|a|..|a| + |e|] == e
    ensures (a + e + b)[|a| + |e|..] == b
  {
  }

  /**
   * The request for the ticks of `symbol` between `start` and `end`: the
   * path, the encoded symbol as one segment, then the range query with both
   * ends inserted as they are.
   */
  function RangeUrl(symbol: string, start: string, end: string): (u: string)
    ensures var e := EncodeUriComponent(symbol);
      |u| >= |TicksPath| + |e| &&
      u[..|TicksPath|] == TicksPath && u[|TicksPath|..|TicksPath| + |e|] == e &&
      u[|TicksPath| + |e|..] == RangeQuery + start + "&end=" + end
  {
    var e := EncodeUriComponent(symbol);
    var tail := RangeQuery + start + "&end=" + end;
    Split3(TicksPath, e, tail);
    assert TicksPath + e + tail == TicksPath + e + RangeQuery + start + "&end=" + end;
    TicksPath + e + tail
  }

  /** The encoded symbol is one path segment: it holds no `/`, `?`, `&` or `#`. */
  lemma RangeUrlSymbolIsOneSegment(symbol: string)
    ensures forall c :: c in EncodeUriComponent(symbol) ==> c !in "/?&#"
  {
  }

  /** The message an exception leaves on the error line: its own, or the generic one when it has none. */
  function ThrownMessage(message: string): (r: string)
    ensures r != ""
    ensures message != "" ==> r == message
    ensures message == "" ==> r == LoadFailed
  {
    if message != "" then message else LoadFailed
  }

  class ChartPage {
    var symbol: string
    var candleData: seq<Candle>
    var loading: bool
    var error: Option<string>
    /** The mock candles, generated once when the page is loaded. */
    const mock: seq<Candle>

    /** There are 240 mock candles, and the chart is never empty. */
    ghost predicate Valid()
      reads this
    {
      |mock| == MockCount && candleData != []
    }

    /** The page as first shown: the default symbol and the mock candles; `draws` are the generator's random numbers. */
    constructor (draws: seq<Draw>)
      requires MockCount <= |draws| && ValidDraws(draws)
      ensures Valid()
      ensures mock == Generated(MockCount, draws)
      ensures symbol == DefaultSymbol && candleData == mock && !loading && error == None
    {
      var data := GenerateRandomCandleData(MockCount, draws);
      assert |data| == MockCount;
      mock := data;
      symbol := DefaultSymbol;
      candleData := data;
      loading := false;
      error := None;
    }

    /** The symbol field's change handler. */
    method SetSymbol(s: string)
      modifies `symbol
      ensures symbol == s
    {
      symbol := s;
    }

    /** The first half of `fetchCandleData()`: loading on, error cleared, and the request for the range. */
    method StartFetch(start: string, end: string) returns (url: string)
      modifies `loading, `error
      ensures loading && error == None
      ensures url == RangeUrl(symbol, start, end)
    {
      loading := true;
      error := None;
      url := TicksPath + EncodeUriComponent(symbol) + RangeQuery + start + "&end=" + end;
    }

    /**
     * The second half of `fetchCandleData()`: the ticks of a successful
     * answer are charted when there are any; an exception or an answer that
     * is not ok sets the error and charts the mock candles. On every path
     * loading ends.
     */
    method FinishFetch(result: FetchResult)
      requires Valid()
      modifies `loading, `error, `candleData
      ensures Valid()
      ensures !loading
      ensures result.Threw? ==>
        error == Some(ThrownMessage(result.message)) && candleData == mock
      ensures result.Responded? && !result.ok ==>
        error == Some(FetchFailed) && candleData == mock
      ensures result.Responded? && result.ok ==>
        var chart := ToChartData(result.items.GetOr([]));
        error == old(error) && candleData == (if |chart| > 0 then chart else mock)
    {
      match result {
        case Threw(message) =>
          error := Some(ThrownMessage(message));
          candleData := mock;
        case Responded(ok, items) =>
          if !ok {
            error := Some(FetchFailed);
            candleData := mock;
          } else {
            var chartData := ToChartData(items.GetOr([]));
            candleData := if |chartData| > 0 then chartData else mock;
          }
      }
      loading := false;
    }
  }
}
