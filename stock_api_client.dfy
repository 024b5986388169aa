/**
 * The REST client for candle data: one base URL, fixed when the client is
 * made, and one request that asks for the candles of a symbol at an
 * interval, optionally bounded by a start and an end.
 *
 * The network is a parameter: `GetCandles` is given what `fetch` produced
 * for the URL it built.
 */
module StockApi {
  import opened Wrappers

  const DefaultBaseUrl := "http://localhost:8081/api/v1"
  const RequestFailed := "API 요청 실패"

  /** One candle of the server's answer. */
  datatype StockCandle = StockCandle(at: string, open: real, high: real, low: real, close: real, volume: real)

  /** The body of a candle answer. */
  datatype CandleResponse = CandleResponse(stockId: string, interval: string, candles: seq<StockCandle>)

  /** What `fetch` produced: an answer with its `ok` flag and its body, or a rejection with its message. */
  datatype FetchOutcome =
    | Reply(ok: bool, body: CandleResponse)
    | Rejected(message: string)

  /** An optional argument that JavaScript treats as true: given and not the empty string. */
  predicate Present(v: Option<string>) {
    v.Some? && v.value != ""
  }

  /** The fixed part of the request: the path of the symbol's candles and the interval. */
  function CandlesPath(baseUrl: string, symbol: string, interval: string): string {
    baseUrl + "/stocks/" + symbol + "/candles?interval=" + interval
  }

  /** The optional part: `&start=` when a start is present, then `&end=` when an end is present. */
  function RangeParams(start: Option<string>, end: Option<string>): (r: string)
    ensures Present(start) && Present(end) ==> r == "&start=" + start.value + "&end=" + end.value
    ensures Present(start) && !Present(end) ==> r == "&start=" + start.value
    ensures !Present(start) && Present(end) ==> r == "&end=" + end.value
    ensures !Present(start) && !Present(end) ==> r == ""
  {
    (if Present(start) then "&start=" + start.value else "") +
    (if Present(end) then "&end=" + end.value else "")
  }

  /** The optional part names a start exactly when a start is present, and is empty exactly when neither is. */
  lemma RangeParamsIff(start: Option<string>, end: Option<string>)
    ensures var r := RangeParams(start, end);
      (|r| >= 7 && r[..7] == "&start=") <==> Present(start)
    ensures RangeParams(start, end) == "" <==> !Present(start) && !Present(end)
  {
    var r := RangeParams(start, end);
    if !Present(start) && Present(end) {
      assert r[1] == 'e';
    }
  }

  class StockApiClient {
    const baseUrl: string

    /** `new StockApiClient(baseUrl?)`: the given base URL, or the local server's when none is given. */
    constructor (baseUrl: Option<string>)
      ensures this.baseUrl == baseUrl.GetOr(DefaultBaseUrl)
      ensures baseUrl.None? ==> this.baseUrl == DefaultBaseUrl
    {
      this.baseUrl := if baseUrl.Some? then baseUrl.value else DefaultBaseUrl;
    }

    /**
     * `getCandles(symbol, interval, start?, end?)`: the URL is the candles
     * path, the symbol inserted as it is, followed by the range parameters
     * that are present, start first. An answer that is not ok is an error,
     * as is a rejected fetch; otherwise the body is the result.
     */
    method GetCandles(symbol: string, interval: string, start: Option<string>, end: Option<string>,
                      outcome: FetchOutcome)
      returns (url: string, result: Result<CandleResponse, string>)
      ensures url == CandlesPath(baseUrl, symbol, interval) + RangeParams(start, end)
      ensures outcome.Reply? && outcome.ok ==> result == Success(outcome.body)
      ensures outcome.Reply? && !outcome.ok ==> result == Failure(RequestFailed)
      ensures outcome.Rejected? ==> result == Failure(outcome.message)
    {
      url := baseUrl + "/stocks/" + symbol + "/candles?interval=" + interval;
      if start.Some? && start.value != "" {
        url := url + "&start=" + start.value;
      }
      if end.Some? && end.value != "" {
        url := url + "&end=" + end.value;
      }
      match outcome {
        case Rejected(message) =>
          result := Failure(message);
        case Reply(ok, body) =>
          if !ok {
            result := Failure(RequestFailed);
          } else {
            result := Success(body);
          }
      }
    }
  }

  /** The request URL begins with the candles path, whatever the range. */
  lemma CandlesUrlPrefix(baseUrl: string, symbol: string, interval: string, start: Option<string>, end: Option<string>)
    ensures var p := CandlesPath(baseUrl, symbol, interval);
      var u := p + RangeParams(start, end);
      |p| <= |u| && u[..|p|] == p && u[|p|..] == RangeParams(start, end)
  {
    var p := CandlesPath(baseUrl, symbol, interval);
    var u := p + RangeParams(start, end);
    assert u[..|p|] == p;
  }
}
