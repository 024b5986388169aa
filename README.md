# Stock viewer client core, in Dafny

This project models the deterministic rules inside the stock viewer's web
client and proves properties of them. It covers five pieces.

- **Activity log** of the socket connection panel. Each message is put on
  top of a text buffer, separated by a blank line. The buffer is cut to
  4000 UTF-16 code units and then marked with the notice `"\n...(생략)..."`.
- **Connection panel** (`ConnectionPanel`). It holds the socket, the status
  line, the log and the list of joined rooms. It guards `connectSocket`,
  and it reacts to the socket's `connect`, `disconnect`, `connect_error`
  and `tickUpdate` events.
- **Room manager** (`RoomManager`). It sends join and leave requests over
  the panel's socket. It updates the joined-room list when the server
  acknowledges a request. Acknowledgements wait in a list and may arrive
  in any order. The class runs the join rule as the component writes it,
  deciding on the list of the moment the join was sent; `RoomLists.JoinAck`
  is the corrected rule of the Findings table.
- **Demo candle generator.** It makes `count` one-minute candles labelled
  `H:MM` from 9:00, with prices rounded to cents. The chart page also
  turns the server's trade ticks into chart candles, and falls back to
  240 mock candles when an answer is an error or holds no ticks.
- **REST client.** It builds the candle request URL from a base URL, a
  symbol, an interval and an optional start and end.

Some modelling choices apply throughout:

- Strings are Dafny strings. Log lengths are counted in UTF-16 code units,
  as JavaScript counts them (`Text.Utf16`).
- Prices are exact reals. Each `Math.random()` value is a given number in
  [0, 1), and `Math.round(x)` is `floor(x + 0.5)`.
- Clock readings, the server-assigned socket id, `JSON.stringify` of a
  tick, and the outcome of `fetch` are parameters.
- Socket events and server acknowledgements are method calls made by the
  environment.

Files:

| file | module |
|---|---|
| `wrappers.dfy` | `Wrappers`: `Option`, `Result` |
| `text.dfy` | `Text`: UTF-16 code units, `toString`, `padStart`, `slice`, `encodeURIComponent` |
| `activity_log.dfy` | `ActivityLog`: the log update and its limit |
| `socket_connection_panel.dfy` | `SocketPanel`: the connection panel |
| `room_lists.dfy` | `RoomLists`: the joined-room list rules on acknowledgement |
| `room_manager.dfy` | `RoomManagement`: the room manager |
| `candle_generator.dfy` | `CandleGenerator`: the demo candle generator |
| `candle_chart_page.dfy` | `CandleChartPage`: the chart page's fetch and fallback |
| `stock_api_client.dfy` | `StockApi`: the REST client |

## Model

| member | source | states |
|---|---|---|
| Text.Decimal | src/CandleChartPage.tsx:9-10 | `n.toString()`: at least one character, all decimal digits, no leading zero, one digit exactly when n < 10 |
| Text.DecimalRoundTrip | src/CandleChartPage.tsx:9-10 | reading the digits of `n.toString()` back gives n |
| Text.DecimalInjective | src/CandleChartPage.tsx:9-10 | different numbers render differently |
| Text.PadStart2 | src/CandleChartPage.tsx:10 | `padStart(2, '0')`: at least two characters, the original text at the end, zeros in front |
| Text.Slice | src/CandleChartPage.tsx:64 | `slice(start, end)`: both ends clamped to the length, empty when they cross, otherwise the elements of the range in order |
| Text.EncodeUriComponent | src/CandleChartPage.tsx:55 | the encoded text contains only unreserved characters and `%`, and is never shorter than the input |
| Text.EncodeUnreservedIdentity | src/CandleChartPage.tsx:55 | a string of unreserved characters passes through unchanged |
| Text.EncodeUriComponentConcat | src/CandleChartPage.tsx:55 | encoding distributes over concatenation |
| Text.Utf16OfBmp | src/SocketConnectionPanel.tsx:31 | a string without astral characters has one code unit per character, each equal to its code point |
| Text.Utf16Concat | src/SocketConnectionPanel.tsx:30 | the code units of a concatenation are the concatenated code units |
| ActivityLog.MarkerIsNotice | src/SocketConnectionPanel.tsx:31 | the notice appended to a cut log is `"\n...(생략)..."`, eleven code units long |
| ActivityLog.Capacity | src/SocketConnectionPanel.tsx:31 | the largest possible log is the 4000 kept code units plus the notice, 4011 |
| ActivityLog.Prepend | src/SocketConnectionPanel.tsx:28-33 | the new log is at most 4011 long; when `msg + "\n\n" + prev` fits in 4000 it is exactly that; otherwise it is that text's first 4000 code units followed by the notice; a message of at most 4000 units is always on top |
| ActivityLog.PrependOntoCut | src/SocketConnectionPanel.tsx:31 | logging onto an already cut log gives the cut of the longer uncut history |
| ActivityLog.LogIsCutHistory | src/SocketConnectionPanel.tsx:28-33 | after any sequence of messages, the log is the full newest-first history when that fits in 4000, and otherwise the first 4000 code units of that history followed by the notice, so only the oldest text is ever dropped |
| ActivityLog.ReachableLogBounded | src/SocketConnectionPanel.tsx:14-33 | starting from the empty log, every reachable log is at most 4011 code units |
| ActivityLog.LastMessageOnTop | src/SocketConnectionPanel.tsx:30 | after a batch of messages, the last one logged opens the log |
| ActivityLog.HistoryHoldsEveryMessage | src/SocketConnectionPanel.tsx:30 | every message logged appears whole in the uncut history at its offset, the later message above the earlier one |
| SocketPanel.Stamped | src/SocketConnectionPanel.tsx:52 | a stamped entry is `[`, the time, `] `, then the text |
| SocketPanel.TickEntries | src/SocketConnectionPanel.tsx:61-63 | one entry per tick, in tick order, each stamped with its own clock reading and carrying the stock id and the tick's JSON |
| SocketPanel.ConnectionPanel.constructor | src/SocketConnectionPanel.tsx:12-15 | no socket, empty status, empty log, no joined rooms |
| SocketPanel.ConnectionPanel.LogMessage | src/SocketConnectionPanel.tsx:28-33 | the log becomes the `Prepend` of the message onto the old log, and stays within 4011 code units |
| SocketPanel.ConnectionPanel.ConnectSocket | src/SocketConnectionPanel.tsx:35-49 | without a token: the alert only, with socket, status and log unchanged; while connected: only the "이미 소켓에 연결되어 있습니다." entry, and no new socket; otherwise: the old socket is closed and one new socket is opened at `http://localhost:9092` over websocket with the token as query |
| SocketPanel.ConnectionPanel.DisconnectSocket | src/SocketConnectionPanel.tsx:71-78 | with a socket: it is closed and forgotten, the status is "❌ 연결 종료됨", and the joined rooms are cleared; without one nothing changes |
| SocketPanel.ConnectionPanel.OnConnect | src/SocketConnectionPanel.tsx:50-53 | the status names the socket id, the time-stamped success entry is logged, and the socket is marked connected if it is the current one |
| SocketPanel.ConnectionPanel.OnDisconnect | src/SocketConnectionPanel.tsx:54-58 | the status is "❌ 연결 종료됨", the closure is logged, and the joined rooms are cleared |
| SocketPanel.ConnectionPanel.OnConnectError | src/SocketConnectionPanel.tsx:65-68 | the status and the log carry the error text; the panel stays consistent |
| SocketPanel.ConnectionPanel.OnTickUpdate | src/SocketConnectionPanel.tsx:59-64 | the log is the old log after logging each tick's entry, stamped with the clock reading taken for that tick, in tick order; the panel stays consistent |
| SocketPanel.TickUpdateLastOnTop | src/SocketConnectionPanel.tsx:59-64 | whatever was cut, the last tick's entry opens the log when it is at most 4000 code units |
| SocketPanel.TickUpdateLogsEveryTick | src/SocketConnectionPanel.tsx:59-64 | when nothing is cut, every tick's entry is whole in the log at its offset, and a later tick's entry lies above an earlier one |
| RoomLists.Keep | src/RoomManager.tsx:68 | `filter`: a room is kept exactly when it was listed and is not removed |
| RoomLists.KeepConcat | src/RoomManager.tsx:68 | the filter keeps the rooms' relative order |
| RoomLists.KeepAbsent | src/RoomManager.tsx:68 | removing rooms that are not listed changes nothing |
| RoomLists.KeepEverything | src/RoomManager.tsx:89 | removing every listed room leaves nothing |
| RoomLists.KeepTwice | src/RoomManager.tsx:89 | two filters in a row are one filter by both rooms |
| RoomLists.KeepNoDuplicates | src/RoomManager.tsx:68 | a filter keeps a duplicate-free list duplicate-free |
| RoomLists.LeaveAck | src/RoomManager.tsx:66-69 | a successful leave removes every occurrence of the room, keeps every other room, changes nothing when the room is absent, and keeps the list duplicate-free |
| RoomLists.JoinAck | src/RoomManager.tsx:48-51 | a successful join appends the symbol at the end only when it is absent, so the list holds the symbol and stays duplicate-free |
| RoomLists.JoinAckAsWrittenAgreesOnCurrentList | src/RoomManager.tsx:47-51 | when the list did not change between request and acknowledgement, the rule as written agrees with `JoinAck` |
| RoomLists.JoinAckAsWrittenDuplicates | src/RoomManager.tsx:47-51 | two joins of one room requested before either is acknowledged list it twice under the rule as written |
| RoomLists.JoinAckAsWrittenNoDuplicates | src/RoomManager.tsx:49-50 | on a duplicate-free list, the rule as written keeps it duplicate-free exactly when the request's snapshot listed the room or the current list lacks it |
| RoomLists.JoinAckAsWrittenLosesRoom | src/RoomManager.tsx:47-51 | a join requested while the room is listed, whose leave is acknowledged first, leaves the joined room off the list under the rule as written |
| RoomLists.Succeeded | src/RoomManager.tsx:86-95 | a room is in the set exactly when some acknowledgement for it succeeded |
| RoomLists.LeaveAcksFilterSucceeded | src/RoomManager.tsx:86-95 | whatever order the leave acknowledgements arrive in, the list ends as the original without the rooms whose leave succeeded; failed rooms remain |
| RoomLists.LeaveAllSucceededEmpties | src/RoomManager.tsx:86-95 | when every room's leave succeeds, the list ends empty |
| RoomManagement.LeaveEmits | src/RoomManager.tsx:86-87 | one `leaveRoom` request per joined room, in list order |
| RoomManagement.LeaveCallbacks | src/RoomManager.tsx:86-87 | one waiting leave callback per joined room, in list order |
| RoomManagement.RoomManager.constructor | src/RoomManager.tsx:33-35 | on a consistent panel: symbol "KOSPI::005930", no error, nothing sent, nothing waiting |
| RoomManagement.RoomManager.SetSymbol | src/RoomManager.tsx:34 | the symbol becomes the typed text |
| RoomManagement.RoomManager.JoinRoom | src/RoomManager.tsx:37-58 | without a connected socket: the error "먼저 소켓에 연결하세요!" only; with an empty symbol: the error "종목 코드를 입력해주세요." only; otherwise: the error is cleared, one join is sent and awaits its answer together with the joined-room list of the moment, and the request is logged; the panel stays consistent on every path |
| RoomManagement.RoomManager.LeaveRoom | src/RoomManager.tsx:60-74 | without a connected socket: the error only; otherwise: the error is cleared and one leave is sent and awaits its answer |
| RoomManagement.RoomManager.LeaveAllRooms | src/RoomManager.tsx:76-96 | without a connected socket: the error only; with no joined room: "참여 중인 Room이 없습니다." only; otherwise: the error is cleared and one leave is sent per joined room, in list order |
| RoomManagement.RoomManager.Acknowledge | src/RoomManager.tsx:47-73 | the answered callback leaves the waiting list; a successful join appends the symbol to the current list unless the list of the request's moment held it (`JoinAckAsWritten`), which is `JoinAck` when the list did not change in between; a successful leave applies `LeaveAck` and keeps a duplicate-free list duplicate-free; a failure leaves the list unchanged; either way the outcome is logged |
| CandleGenerator.TwoDigits | src/CandleChartPage.tsx:10 | a minute below 100 pads to exactly two digits that read back as the minute |
| CandleGenerator.TimeLabelInjective | src/CandleChartPage.tsx:9-11 | different indices have different labels |
| CandleGenerator.TimeLabelEnds | src/CandleChartPage.tsx:9-11 | index 0 is labelled "9:00" and index 239, the last mock candle, "12:59" |
| CandleGenerator.Round2 | src/CandleChartPage.tsx:18-21 | rounding to cents moves a price by at most half a cent |
| CandleGenerator.Round2Monotone | src/CandleChartPage.tsx:18-21 | rounding to cents preserves order |
| CandleGenerator.Between | src/CandleChartPage.tsx:15 | the close lies between the low and the high |
| CandleGenerator.NextPrices | src/CandleChartPage.tsx:12-15 | the open is within two of the previous close, the high and low within four above and below it, and low ≤ open, close ≤ high |
| CandleGenerator.Labelled | src/CandleChartPage.tsx:16-22 | the pushed candle has the index's label and stays in order after rounding |
| CandleGenerator.PriceSeriesShape | src/CandleChartPage.tsx:8-24 | one price entry per index up to `count`, each in order |
| CandleGenerator.PriceSeriesChained | src/CandleChartPage.tsx:12-23 | the first open is within two of 100 and each later open within two of the previous unrounded close |
| CandleGenerator.GeneratedShape | src/CandleChartPage.tsx:5-26 | exactly `count` candles (none for `count` ≤ 0), candle k labelled `(9 + k div 60):(k mod 60, two digits)`, every candle well formed after rounding, labels pairwise distinct |
| CandleGenerator.GenerateRandomCandleData | src/utils.ts:4-25 | the loop returns the labelled, rounded price series, `count` candles long; `src/utils.ts` exports the same loop that src/CandleChartPage.tsx:5-26 declares privately |
| CandleChartPage.ChartTime | src/CandleChartPage.tsx:64 | the time of a timestamp is at most five units: code units 11 up to 16 when the timestamp is long enough, empty when it is at most 11 long |
| CandleChartPage.ToChartData | src/CandleChartPage.tsx:63-69 | one candle per tick, in tick order, with the tick's time of day and its four prices unchanged |
| CandleChartPage.ToChartDataConcat | src/CandleChartPage.tsx:63-69 | the conversion distributes over concatenation, so the order is preserved |
| CandleChartPage.ToChartDataWellFormed | src/CandleChartPage.tsx:63-69 | a tick in price order gives a well-formed candle |
| CandleChartPage.ChartTimeOfIsoTimestamp | src/CandleChartPage.tsx:64 | the time of "2025-06-28T09:30:00.000Z" is "09:30" |
| CandleChartPage.RangeUrl | src/CandleChartPage.tsx:55 | the request is `/api/v1/stocks/`, the encoded symbol, then the range query with start and end |
| CandleChartPage.RangeUrlSymbolIsOneSegment | src/CandleChartPage.tsx:55 | the encoded symbol holds no `/`, `?`, `&` or `#` |
| CandleChartPage.ThrownMessage | src/CandleChartPage.tsx:72 | the error line shows the exception's message, or "데이터 로딩 실패" when it has none; it is never empty |
| CandleChartPage.ChartPage.constructor | src/CandleChartPage.tsx:40-43 | symbol "KOSPI::005930", the 240 generated mock candles on the chart, not loading, no error |
| CandleChartPage.ChartPage.SetSymbol | src/CandleChartPage.tsx:91 | the symbol becomes the typed text |
| CandleChartPage.ChartPage.StartFetch | src/CandleChartPage.tsx:47-55 | loading is on, the error is cleared, and the request is the range URL for the symbol |
| CandleChartPage.ChartPage.FinishFetch | src/CandleChartPage.tsx:56-76 | loading is off on every path; an exception sets its message and charts the mock; a response that is not ok sets "API 요청 실패" and charts the mock; an ok response charts its ticks, or the mock when there are none (missing `items` counts as none); the chart is never empty |
| StockApi.RangeParams | src/api/StockApiClient.ts:11-12 | `&start=` is added when a start is given and non-empty, then `&end=` when an end is, start always first |
| StockApi.RangeParamsIff | src/api/StockApiClient.ts:11-12 | the optional part begins with `&start=` exactly when a start is present, and is empty exactly when neither bound is |
| StockApi.StockApiClient.constructor | src/api/StockApiClient.ts:5-7 | the base URL is the given one, or `http://localhost:8081/api/v1` when none is given |
| StockApi.StockApiClient.GetCandles | src/api/StockApiClient.ts:9-16 | the URL is base + `/stocks/` + symbol (not encoded) + `/candles?interval=` + interval + the range parameters; a response that is not ok is the error "API 요청 실패", a rejected fetch is its error, and an ok response is its body |
| StockApi.CandlesUrlPrefix | src/api/StockApiClient.ts:10 | the URL always begins with the candles path and the interval |

## Left out

- Rendering, JSX, styles, and the d3 chart in `src/CandleChart.tsx`.
- Token signing in `src/JWTGenerator.tsx`, the hook in `src/hooks/useSocket.ts`, and the layout in `src/App.tsx`. They are not part of this model.
- The socket.io transport, `fetch`, and `res.json()`. What they produce is a parameter.
- React's state scheduling. Each setter is a plain assignment in the order the handler runs.
- The effect that closes the socket when the component unmounts or the socket changes (src/SocketConnectionPanel.tsx:22-26).
- The `disconnect` event that socket.io itself fires after `disconnect()`. The panel records the closed socket, and the environment may then deliver that event through `OnDisconnect`.
- `alert` is not shown. `ConnectSocket` returns its text instead.
- `toLocaleTimeString`, `toISOString`, `Date` arithmetic, `JSON.stringify` and the socket id are given to the model as strings.
- IEEE-754 arithmetic. Prices are exact reals and `Math.round` is `floor(x + 0.5)`.
- A non-integer or `NaN` `count` for the generator. The model takes an integer.
- The mock candles are a field of the page, computed once in its constructor. In the source they are a module-level constant.
- CandleChartPage.ChartTime: it slices by characters, not UTF-16 code units. The two agree on the ASCII ISO timestamps the server sends.
- Text.EncodeUriComponent: it does not model the `URIError` on a lone surrogate, because Dafny characters cannot be lone surrogates.
- StockApi.StockApiClient.GetCandles: a malformed JSON body is not modelled. The body is given as a typed value.
- RoomManagement.RoomManager.JoinRoom: its callback keeps the panel's list at the moment of the call. In the source it keeps the list of the last render, which can lag behind room updates React has not yet rendered.
- CandleChartPage.ChartPage.FinishFetch: exceptions raised while mapping malformed items are not modelled. Items are typed values.

## Findings

| source | as written | input that shows it | evidently intended | confidence | as-written member | corrected member |
|---|---|---|---|---|---|---|
| src/RoomManager.tsx:48-51 | the join callback checks `joinedRooms.includes(symbol)` on the list the component saw when the join was requested, then appends to the current list `prev` | two joins of "KOSPI::005930" requested before either is acknowledged: both see it absent and both append, so the list holds it twice | decide on the current list, appending only when `prev` lacks the symbol, so the list stays duplicate-free | not executed | RoomLists.JoinAckAsWrittenDuplicates | RoomLists.JoinAck |
