/**
 * The room manager: it asks the server to join or leave per-symbol rooms
 * over the panel's socket and keeps the panel's list of joined rooms in
 * step with the server's acknowledgements.
 *
 * The socket's `emit` is recorded in `emitted`; the acknowledgement
 * callbacks it registers wait in `pending` until the server answers one of
 * them, in any order, through `Acknowledge`.
 */
module RoomManagement {
  import opened Text
  import opened ActivityLog
  import opened SocketPanel
  import opened RoomLists

  const DefaultSymbol := "KOSPI::005930"
  const NotConnectedError := "먼저 소켓에 연결하세요!"
  const EmptySymbolError := "종목 코드를 입력해주세요."
  const NoRoomsError := "참여 중인 Room이 없습니다."

  /** One message sent on the socket: its event name and the room it names. */
  datatype Emit = Emit(event: string, room: string)

  /**
   * An acknowledgement callback still waiting for the server's answer. A join
   * callback closes over the joined-room list of the render that sent the
   * request, `snapshot`, besides the symbol.
   */
  datatype Callback = JoinCallback(symbol: string, snapshot: seq<string>) | LeaveCallback(room: string)

  /** The server's answer to a join or leave request. */
  datatype Ack = Ack(success: bool, message: string)

  function JoinRequestedEntry(symbol: string): string { "📡 Room '" + symbol + "' 입장 요청됨..." }
  function JoinedEntry(symbol: string): string { "✅ Room '" + symbol + "' 입장 성공" }
  function JoinFailedEntry(symbol: string, message: string): string { "❌ Room '" + symbol + "' 입장 실패: " + message }
  function LeftEntry(room: string): string { "👋 Room '" + room + "' 나가기 성공" }
  function LeaveFailedEntry(room: string, message: string): string { "❌ Room '" + room + "' 나가기 실패: " + message }

  /** The leave requests that `leaveAllRooms` sends, one per room, in list order. */
  function LeaveEmits(rooms: seq<string>): (r: seq<Emit>)
    ensures |r| == |rooms|
    ensures forall i :: 0 <= i < |rooms| ==> r[i] == Emit("leaveRoom", rooms[i])
  {
    seq(|rooms|, i requires 0 <= i < |rooms| => Emit("leaveRoom", rooms[i]))
  }

  /** The callbacks those requests register. */
  function LeaveCallbacks(rooms: seq<string>): (r: seq<Callback>)
    ensures |r| == |rooms|
    ensures forall i :: 0 <= i < |rooms| ==> r[i] == LeaveCallback(rooms[i])
  {
    seq(|rooms|, i requires 0 <= i < |rooms| => LeaveCallback(rooms[i]))
  }

  class RoomManager {
    /** The panel whose socket, room list and log the manager uses. */
    const panel: ConnectionPanel
    var symbol: string
    var error: string
    var emitted: seq<Emit>
    var pending: seq<Callback>

    /** The panel the manager works on is consistent. */
    ghost predicate Valid()
      reads this, panel
    {
      panel.Valid()
    }

    /** Requests may be sent only over a socket that exists and is connected. */
    predicate SocketReady()
      reads this, panel
    {
      panel.socket.Some? && panel.socket.value.connected
    }

    constructor (panel: ConnectionPanel)
      requires panel.Valid()
      ensures Valid()
      ensures this.panel == panel
      ensures symbol == DefaultSymbol && error == "" && emitted == [] && pending == []
    {
      this.panel := panel;
      symbol, error := DefaultSymbol, "";
      emitted, pending := [], [];
    }

    /** The symbol field's change handler. */
    method SetSymbol(s: string)
      modifies `symbol
      ensures symbol == s
    {
      symbol := s;
    }

    /**
     * `joinRoom()`: without a connected socket, or with an empty symbol, only
     * the error is set. Otherwise the error is cleared, the join is sent with
     * its callback, and the request is logged.
     */
    method JoinRoom()
      requires Valid()
      modifies `error, `emitted, `pending, panel`log
      ensures Valid()
      ensures !SocketReady() ==>
        error == NotConnectedError && emitted == old(emitted) && pending == old(pending) &&
        panel.log == old(panel.log)
      ensures SocketReady() && symbol == "" ==>
        error == EmptySymbolError && emitted == old(emitted) && pending == old(pending) &&
        panel.log == old(panel.log)
      ensures SocketReady() && symbol != "" ==>
        error == "" && emitted == old(emitted) + [Emit("joinRoom", symbol)] &&
        pending == old(pending) + [JoinCallback(symbol, panel.joinedRooms)] &&
        panel.log == Prepend(old(panel.log), Utf16(JoinRequestedEntry(symbol)))
    {
      if !SocketReady() {
        error := NotConnectedError;
        return;
      }
      if symbol == "" {
        error := EmptySymbolError;
        return;
      }
      error := "";
      emitted := emitted + [Emit("joinRoom", symbol)];
      pending := pending + [JoinCallback(symbol, panel.joinedRooms)];
      panel.LogMessage(JoinRequestedEntry(symbol));
    }

    /** `leaveRoom(room)`: without a connected socket only the error is set; otherwise the leave is sent. */
    method LeaveRoom(room: string)
      requires Valid()
      modifies `error, `emitted, `pending
      ensures Valid()
      ensures !SocketReady() ==>
        error == NotConnectedError && emitted == old(emitted) && pending == old(pending)
      ensures SocketReady() ==>
        error == "" && emitted == old(emitted) + [Emit("leaveRoom", room)] &&
        pending == old(pending) + [LeaveCallback(room)]
    {
      if !SocketReady() {
        error := NotConnectedError;
        return;
      }
      error := "";
      emitted := emitted + [Emit("leaveRoom", room)];
      pending := pending + [LeaveCallback(room)];
    }

    /**
     * `leaveAllRooms()`: without a connected socket, or with no joined room,
     * only the error is set. Otherwise the error is cleared and one leave is
     * sent per joined room, in list order.
     */
    method LeaveAllRooms()
      requires Valid()
      modifies `error, `emitted, `pending
      ensures Valid()
      ensures !SocketReady() ==>
        error == NotConnectedError && emitted == old(emitted) && pending == old(pending)
      ensures SocketReady() && panel.joinedRooms == [] ==>
        error == NoRoomsError && emitted == old(emitted) && pending == old(pending)
      ensures SocketReady() && panel.joinedRooms != [] ==>
        error == "" && emitted == old(emitted) + LeaveEmits(panel.joinedRooms) &&
        pending == old(pending) + LeaveCallbacks(panel.joinedRooms)
    {
      if !SocketReady() {
        error := NotConnectedError;
        return;
      }
      var rooms := panel.joinedRooms;
      if |rooms| == 0 {
        error := NoRoomsError;
        return;
      }
      error := "";
      var i := 0;
      while i < |rooms|
        invariant 0 <= i <= |rooms| && error == ""
        invariant emitted == old(emitted) + LeaveEmits(rooms[..i])
        invariant pending == old(pending) + LeaveCallbacks(rooms[..i])
      {
        assert LeaveEmits(rooms[..i + 1]) == LeaveEmits(rooms[..i]) + [Emit("leaveRoom", rooms[i])];
        assert LeaveCallbacks(rooms[..i + 1]) == LeaveCallbacks(rooms[..i]) + [LeaveCallback(rooms[i])];
        emitted := emitted + [Emit("leaveRoom", rooms[i])];
        pending := pending + [LeaveCallback(rooms[i])];
        i := i + 1;
      }
      assert rooms[..i] == rooms;
    }

    /**
     * The server answers the `k`-th waiting callback. A successful join adds
     * the room unless the list of the render that sent it held the room; a
     * successful leave removes it from the current list; either way the
     * answer is logged, and a failure changes no list.
     */
    method Acknowledge(k: nat, ack: Ack)
      requires Valid() && k < |pending|
      modifies `pending, panel`joinedRooms, panel`log
      ensures Valid()
      ensures pending == old(pending[..k] + pending[k + 1..])
      ensures old(pending[k]).JoinCallback? ==>
        var s, snapshot := old(pending[k]).symbol, old(pending[k]).snapshot;
        panel.joinedRooms == (if ack.success then JoinAckAsWritten(snapshot, old(panel.joinedRooms), s) else old(panel.joinedRooms)) &&
        panel.log == Prepend(old(panel.log), Utf16(if ack.success then JoinedEntry(s) else JoinFailedEntry(s, ack.message)))
      ensures old(pending[k]).LeaveCallback? ==>
        var r := old(pending[k]).room;
        panel.joinedRooms == (if ack.success then LeaveAck(old(panel.joinedRooms), r) else old(panel.joinedRooms)) &&
        panel.log == Prepend(old(panel.log), Utf16(if ack.success then LeftEntry(r) else LeaveFailedEntry(r, ack.message)))
      ensures old(pending[k]).JoinCallback? && old(pending[k]).snapshot == old(panel.joinedRooms) ==>
        panel.joinedRooms == (if ack.success then JoinAck(old(panel.joinedRooms), old(pending[k]).symbol) else old(panel.joinedRooms))
      ensures old(pending[k]).LeaveCallback? && NoDuplicates(old(panel.joinedRooms)) ==> NoDuplicates(panel.joinedRooms)
    {
      var callback := pending[k];
      pending := pending[..k] + pending[k + 1..];
      match callback
      case JoinCallback(s, snapshot) =>
        JoinAckAsWrittenAgreesOnCurrentList(panel.joinedRooms, s);
        if ack.success {
          if s !in snapshot {
            panel.joinedRooms := panel.joinedRooms + [s];
          }
          panel.LogMessage(JoinedEntry(s));
        } else {
          panel.LogMessage(JoinFailedEntry(s, ack.message));
        }
      case LeaveCallback(r) =>
        if ack.success {
          panel.joinedRooms := LeaveAck(panel.joinedRooms, r);
          panel.LogMessage(LeftEntry(r));
        } else {
          panel.LogMessage(LeaveFailedEntry(r, ack.message));
        }
    }
  }
}
