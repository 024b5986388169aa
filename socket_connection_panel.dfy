/**
 * The socket connection panel: it owns the socket, the status line, the
 * activity log and the list of joined rooms, opens and closes the socket on
 * the operator's request, and reacts to the socket's events.
 *
 * Socket events arrive from the environment as calls of the `On…` methods;
 * the wall-clock text of each entry, the server-assigned socket id and the
 * JSON text of each tick are parameters.
 */
module SocketPanel {
  import opened Wrappers
  import opened Text
  import opened ActivityLog

  /** The realtime server every socket is opened against. */
  const ServerUrl := "http://localhost:9092"

  const JwtMissingAlert := "먼저 JWT 토큰을 만들어주세요!"
  const AlreadyConnectedEntry := "이미 소켓에 연결되어 있습니다."
  const ConnectedStatusPrefix := "✅ 연결됨. socketId: "
  const ClosedStatus := "❌ 연결 종료됨"
  const FailedStatusPrefix := "❌ 연결 실패: "

  /** A socket the panel opened: its position among all sockets opened, and whether it is connected. */
  datatype SocketHandle = SocketHandle(serial: nat, connected: bool)

  /** The arguments of one `io(...)` call: server, transports and the token query parameter. */
  datatype OpenRequest = OpenRequest(url: string, transports: seq<string>, token: string)

  /** The log text of an event at wall-clock time `time`. */
  function Stamped(time: string, text: string): (r: string)
    ensures |r| == |time| + 3 + |text|
    ensures r[..|time| + 2] == "[" + time + "]" && r[|time| + 2] == ' ' && r[|time| + 3..] == text
  {
    var r := "[" + time + "] " + text;
    assert r[..|time| + 2] == "[" + time + "]";
    r
  }

  function ConnectedEntry(time: string): string { Stamped(time, "소켓 연결 성공") }
  function ClosedEntry(time: string): string { Stamped(time, "소켓 연결 종료") }
  function FailedEntry(time: string, err: string): string { Stamped(time, "소켓 연결 실패: " + err) }

  /** The log text of one trade tick of a `tickUpdate` message. */
  function TickEntry(time: string, stockId: string, tickJson: string): string {
    Stamped(time, "[" + stockId + "] 체결 데이터:\n" + tickJson)
  }

  /**
   * The entries a `tickUpdate` logs, one per tick, in the order of the
   * ticks; the clock is read once per tick, and `times[i]` is the reading
   * for tick `i`.
   */
  function TickEntries(times: seq<string>, stockId: string, ticks: seq<string>): (r: seq<seq<CodeUnit>>)
    requires |times| == |ticks|
    ensures |r| == |ticks|
    ensures forall i :: 0 <= i < |ticks| ==> r[i] == Utf16(TickEntry(times[i], stockId, ticks[i]))
  {
    seq(|ticks|, i requires 0 <= i < |ticks| => Utf16(TickEntry(times[i], stockId, ticks[i])))
  }

  class ConnectionPanel {
    var socket: Option<SocketHandle>
    var status: string
    var log: seq<CodeUnit>
    var joinedRooms: seq<string>
    /** Every `io(...)` call made so far; a new socket's serial is its index here. */
    var openCalls: seq<OpenRequest>
    /** The serials of the sockets `disconnect()` was called on, in order. */
    var closed: seq<nat>

    /** The log is within its capacity and the current socket is one the panel opened. */
    ghost predicate Valid()
      reads this
    {
      |log| <= Capacity() &&
      (socket.Some? ==> socket.value.serial < |openCalls|)
    }

    constructor ()
      ensures Valid()
      ensures socket == None && status == "" && log == [] && joinedRooms == []
      ensures openCalls == [] && closed == []
    {
      socket, status, log, joinedRooms := None, "", [], [];
      openCalls, closed := [], [];
    }

    /** `logMessage(msg)`: put `msg` on top of the log, cut to the limit. */
    method LogMessage(msg: string)
      requires Valid()
      modifies `log
      ensures Valid()
      ensures log == Prepend(old(log), Utf16(msg))
    {
      log := Prepend(log, Utf16(msg));
    }

    /**
     * `connectSocket()`: without a token only the alert is shown; while the
     * socket is connected only a log entry is written; otherwise any old
     * socket is closed and a new, not yet connected one is opened with the
     * token as its query parameter.
     */
    method ConnectSocket(jwt: string) returns (alert: Option<string>)
      requires Valid()
      modifies this
      ensures Valid()
      ensures status == old(status) && joinedRooms == old(joinedRooms)
      ensures jwt == "" ==>
        alert == Some(JwtMissingAlert) && socket == old(socket) && log == old(log) &&
        openCalls == old(openCalls) && closed == old(closed)
      ensures jwt != "" && old(socket).Some? && old(socket).value.connected ==>
        alert == None && socket == old(socket) &&
        log == Prepend(old(log), Utf16(AlreadyConnectedEntry)) &&
        openCalls == old(openCalls) && closed == old(closed)
      ensures jwt != "" && !(old(socket).Some? && old(socket).value.connected) ==>
        alert == None && log == old(log) &&
        openCalls == old(openCalls) + [OpenRequest(ServerUrl, ["websocket"], jwt)] &&
        socket == Some(SocketHandle(|old(openCalls)|, false)) &&
        closed == old(closed) + (if old(socket).Some? then [old(socket).value.serial] else [])
    {
      if jwt == "" {
        return Some(JwtMissingAlert);
      }
      if socket.Some? && socket.value.connected {
        LogMessage(AlreadyConnectedEntry);
        return None;
      }
      if socket.Some? {
        closed := closed + [socket.value.serial];
      }
      socket := Some(SocketHandle(|openCalls|, false));
      openCalls := openCalls + [OpenRequest(ServerUrl, ["websocket"], jwt)];
      alert := None;
    }

    /** `disconnectSocket()`: close the socket, forget it and the joined rooms; without a socket nothing happens. */
    method DisconnectSocket()
      requires Valid()
      modifies this
      ensures Valid()
      ensures log == old(log) && openCalls == old(openCalls)
      ensures old(socket).None? ==>
        socket == None && status == old(status) && joinedRooms == old(joinedRooms) && closed == old(closed)
      ensures old(socket).Some? ==>
        socket == None && status == ClosedStatus && joinedRooms == [] &&
        closed == old(closed) + [old(socket).value.serial]
    {
      if socket.Some? {
        closed := closed + [socket.value.serial];
        socket := None;
        status := ClosedStatus;
        joinedRooms := [];
      }
    }

    /** The `connect` event of socket `serial`. */
    method OnConnect(serial: nat, time: string, socketId: string)
      requires Valid() && serial < |openCalls|
      modifies this
      ensures Valid()
      ensures status == ConnectedStatusPrefix + socketId
      ensures log == Prepend(old(log), Utf16(ConnectedEntry(time)))
      ensures socket == (if old(socket).Some? && old(socket).value.serial == serial
                         then Some(SocketHandle(serial, true)) else old(socket))
      ensures joinedRooms == old(joinedRooms) && openCalls == old(openCalls) && closed == old(closed)
    {
      if socket.Some? && socket.value.serial == serial {
        socket := Some(socket.value.(connected := true));
      }
      status := ConnectedStatusPrefix + socketId;
      LogMessage(ConnectedEntry(time));
    }

    /** The `disconnect` event of socket `serial`: whichever socket it was, the joined rooms are forgotten. */
    method OnDisconnect(serial: nat, time: string)
      requires Valid() && serial < |openCalls|
      modifies this
      ensures Valid()
      ensures status == ClosedStatus && joinedRooms == []
      ensures log == Prepend(old(log), Utf16(ClosedEntry(time)))
      ensures socket == (if old(socket).Some? && old(socket).value.serial == serial
                         then Some(SocketHandle(serial, false)) else old(socket))
      ensures openCalls == old(openCalls) && closed == old(closed)
    {
      if socket.Some? && socket.value.serial == serial {
        socket := Some(socket.value.(connected := false));
      }
      status := ClosedStatus;
      LogMessage(ClosedEntry(time));
      joinedRooms := [];
    }

    /** The `connect_error` event; `err` is the error's message, or the error itself when it has none. */
    method OnConnectError(time: string, err: string)
      requires Valid()
      modifies `status, `log
      ensures Valid()
      ensures status == FailedStatusPrefix + err
      ensures log == Prepend(old(log), Utf16(FailedEntry(time, err)))
    {
      status := FailedStatusPrefix + err;
      LogMessage(FailedEntry(time, err));
    }

    /**
     * The `tickUpdate` event: one log entry per tick, logged in the order of
     * the ticks, each stamped with its own clock reading `times[i]`.
     */
    method OnTickUpdate(times: seq<string>, stockId: string, ticks: seq<string>)
      requires Valid() && |times| == |ticks|
      modifies `log
      ensures Valid()
      ensures log == LogAfter(old(log), TickEntries(times, stockId, ticks))
    {
      ghost var entries := TickEntries(times, stockId, ticks);
      var i := 0;
      while i < |ticks|
        invariant 0 <= i <= |ticks| && Valid()
        invariant log == LogAfter(old(log), entries[..i])
      {
        LogMessage(TickEntry(times[i], stockId, ticks[i]));
        assert entries[..i + 1][..i] == entries[..i];
        i := i + 1;
      }
      assert entries[..i] == entries;
    }
  }

  /** After a `tickUpdate` the entry of its last tick is on top of the log, whatever was cut. */
  lemma TickUpdateLastOnTop(prev: seq<CodeUnit>, times: seq<string>, stockId: string, ticks: seq<string>)
    requires |times| == |ticks| && ticks != []
    requires |Utf16(TickEntry(times[|ticks| - 1], stockId, ticks[|ticks| - 1]))| <= LogLimit
    ensures var lastEntry := Utf16(TickEntry(times[|ticks| - 1], stockId, ticks[|ticks| - 1]));
      LogAfter(prev, TickEntries(times, stockId, ticks))[..|lastEntry|] == lastEntry
  {
    LastMessageOnTop(prev, TickEntries(times, stockId, ticks));
  }

  /**
   * When the log does not overflow, every tick's entry of a `tickUpdate` is
   * in it, whole, at its offset, and a later tick's entry lies above an
   * earlier one.
   */
  lemma TickUpdateLogsEveryTick(prev: seq<CodeUnit>, times: seq<string>, stockId: string, ticks: seq<string>, i: nat)
    requires |times| == |ticks| && |prev| <= LogLimit && i < |ticks|
    requires |History(prev, TickEntries(times, stockId, ticks))| <= LogLimit
    ensures var log, e := LogAfter(prev, TickEntries(times, stockId, ticks)), Utf16(TickEntry(times[i], stockId, ticks[i]));
      var k := Offset(TickEntries(times, stockId, ticks), i);
      k + |e| <= |log| && log[k..k + |e|] == e
    ensures i + 1 < |ticks| ==>
      Offset(TickEntries(times, stockId, ticks), i + 1) < Offset(TickEntries(times, stockId, ticks), i)
  {
    var entries := TickEntries(times, stockId, ticks);
    LogIsCutHistory(prev, entries);
    HistoryHoldsEveryMessage(prev, entries, i);
  }
}
