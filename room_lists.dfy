/**
 * The rules the room manager applies to the list of joined rooms when the
 * server acknowledges a join or a leave.
 */
module RoomLists {

  predicate NoDuplicates(rooms: seq<string>) {
    forall i, j :: 0 <= i < j < |rooms| ==> rooms[i] != rooms[j]
  }

  /** The rooms of `rooms` that are not in `gone`, in their original order (`filter`). */
  function Keep(rooms: seq<string>, gone: set<string>): (r: seq<string>)
    ensures |r| <= |rooms|
    ensures forall x :: x in r <==> x in rooms && x !in gone
  {
    if rooms == [] then []
    else if rooms[0] in gone then Keep(rooms[1..], gone)
    else [rooms[0]] + Keep(rooms[1..], gone)
  }

  /** Filtering distributes over concatenation: the rooms kept stay in their relative order. */
  lemma {:induction false} KeepConcat(a: seq<string>, b: seq<string>, gone: set<string>)
    ensures Keep(a + b, gone) == Keep(a, gone) + Keep(b, gone)
  {
    if a == [] {
      assert a + b == b;
    } else {
      assert (a + b)[0] == a[0] && (a + b)[1..] == a[1..] + b;
      KeepConcat(a[1..], b, gone);
    }
  }

  /** Removing rooms that are not listed changes nothing. */
  lemma {:induction false} KeepAbsent(rooms: seq<string>, gone: set<string>)
    requires forall x :: x in rooms ==> x !in gone
    ensures Keep(rooms, gone) == rooms
  {
    if rooms != [] {
      assert rooms[0] in rooms;
      KeepAbsent(rooms[1..], gone);
    }
  }

  /** Removing every listed room leaves nothing. */
  lemma {:induction false} KeepEverything(rooms: seq<string>, gone: set<string>)
    requires forall x :: x in rooms ==> x in gone
    ensures Keep(rooms, gone) == []
  {
    if rooms != [] {
      assert rooms[0] in rooms;
      KeepEverything(rooms[1..], gone);
    }
  }

  /** Two filters in a row are one filter by the union. */
  lemma {:induction false} KeepTwice(rooms: seq<string>, a: set<string>, b: set<string>)
    ensures Keep(Keep(rooms, a), b) == Keep(rooms, a + b)
  {
    if rooms != [] {
      KeepTwice(rooms[1..], a, b);
    }
  }

  /** Filtering keeps a duplicate-free list duplicate-free. */
  lemma {:induction false} KeepNoDuplicates(rooms: seq<string>, gone: set<string>)
    requires NoDuplicates(rooms)
    ensures NoDuplicates(Keep(rooms, gone))
  {
    if rooms != [] {
      assert NoDuplicates(rooms[1..]) by {
        forall i, j | 0 <= i < j < |rooms[1..]| ensures rooms[1..][i] != rooms[1..][j] {
          assert rooms[1..][i] == rooms[i + 1] && rooms[1..][j] == rooms[j + 1];
        }
      }
      KeepNoDuplicates(rooms[1..], gone);
      assert rooms[0] !in rooms[1..];
    }
  }

  /** A successful leave ack for `room`: every occurrence of it goes, the others stay in order. */
  function LeaveAck(rooms: seq<string>, room: string): (r: seq<string>)
    ensures room !in r
    ensures forall x :: x != room ==> (x in r <==> x in rooms)
    ensures room !in rooms ==> r == rooms
    ensures NoDuplicates(rooms) ==> NoDuplicates(r)
  {
    var r := Keep(rooms, {room});
    assert room !in rooms ==> r == rooms by {
      if room !in rooms {
        KeepAbsent(rooms, {room});
      }
    }
    assert NoDuplicates(rooms) ==> NoDuplicates(r) by {
      if NoDuplicates(rooms) {
        KeepNoDuplicates(rooms, {room});
      }
    }
    r
  }

  /**
   * A successful join ack for `symbol`, deciding on the list as it is when
   * the ack arrives: the symbol is appended only when it is not already
   * there, so the list stays duplicate-free.
   */
  function JoinAck(rooms: seq<string>, symbol: string): (r: seq<string>)
    ensures symbol in r
    ensures forall x :: x in r <==> x in rooms || x == symbol
    ensures symbol in rooms ==> r == rooms
    ensures symbol !in rooms ==> r == rooms + [symbol]
    ensures NoDuplicates(rooms) ==> NoDuplicates(r)
  {
    if symbol in rooms then rooms else rooms + [symbol]
  }

  /**
   * The join ack as the component writes it: whether to append is decided
   * on `snapshot`, the list the component saw when the join was requested,
   * while the append goes to `rooms`, the list as it is when the ack arrives.
   */
  function JoinAckAsWritten(snapshot: seq<string>, rooms: seq<string>, symbol: string): seq<string>
  {
    if symbol in snapshot then rooms else rooms + [symbol]
  }

  /**
   * On a duplicate-free list, the rule as written keeps the list
   * duplicate-free exactly when the snapshot lists the symbol or the current
   * list lacks it: it doubles the room only when the room was absent at the
   * request and is present at the acknowledgement.
   */
  lemma JoinAckAsWrittenNoDuplicates(snapshot: seq<string>, rooms: seq<string>, symbol: string)
    requires NoDuplicates(rooms)
    ensures NoDuplicates(JoinAckAsWritten(snapshot, rooms, symbol)) <==> (symbol in snapshot || symbol !in rooms)
  {
    if symbol !in snapshot && symbol in rooms {
      var r := JoinAckAsWritten(snapshot, rooms, symbol);
      var k :| 0 <= k < |rooms| && rooms[k] == symbol;
      assert r[k] == r[|rooms|];
    }
  }

  /** When nothing changed the list between request and ack, the two rules agree. */
  lemma JoinAckAsWrittenAgreesOnCurrentList(rooms: seq<string>, symbol: string)
    ensures JoinAckAsWritten(rooms, rooms, symbol) == JoinAck(rooms, symbol)
  {
  }

  /**
   * Two joins of the same room requested before either is acknowledged:
   * both see the room absent, the first ack appends it, and the second
   * appends it again.
   */
  lemma JoinAckAsWrittenDuplicates()
    ensures var first := JoinAckAsWritten([], [], "KOSPI::005930");
      var second := JoinAckAsWritten([], first, "KOSPI::005930");
      second == ["KOSPI::005930", "KOSPI::005930"] && !NoDuplicates(second)
  {
    var first := JoinAckAsWritten([], [], "KOSPI::005930");
    assert first == ["KOSPI::005930"];
    var second := JoinAckAsWritten([], first, "KOSPI::005930");
    assert second == ["KOSPI::005930", "KOSPI::005930"];
    assert second[0] == second[1];
  }

  /**
   * A join requested while the room is listed, whose leave is acknowledged
   * before the join: the room is joined on the server but missing from the list.
   */
  lemma JoinAckAsWrittenLosesRoom()
    ensures var afterLeave := LeaveAck(["KOSPI::005930"], "KOSPI::005930");
      "KOSPI::005930" !in JoinAckAsWritten(["KOSPI::005930"], afterLeave, "KOSPI::005930")
  {
  }

  /** The outcome of one leave request: which room, and whether the server said it succeeded. */
  datatype LeaveOutcome = LeaveOutcome(room: string, success: bool)

  /** The rooms whose leave was acknowledged as successful. */
  function Succeeded(acks: seq<LeaveOutcome>): (s: set<string>)
    ensures forall x :: x in s <==> exists i :: 0 <= i < |acks| && acks[i].success && acks[i].room == x
  {
    if acks == [] then {}
    else
      var rest := Succeeded(acks[1..]);
      assert forall i :: 1 <= i < |acks| ==> acks[i] == acks[1..][i - 1];
      (if acks[0].success then {acks[0].room} else {}) + rest
  }

  /** The list after the leave acks arrive, one after the other, in the order given. */
  function ApplyLeaveAcks(rooms: seq<string>, acks: seq<LeaveOutcome>): seq<string>
    decreases acks
  {
    if acks == [] then rooms
    else ApplyLeaveAcks(if acks[0].success then LeaveAck(rooms, acks[0].room) else rooms, acks[1..])
  }

  /**
   * Whatever order the leave acks arrive in, the list ends as the original
   * list without the rooms whose leave succeeded: a failed leave keeps its room.
   */
  lemma {:induction false} LeaveAcksFilterSucceeded(rooms: seq<string>, acks: seq<LeaveOutcome>)
    ensures ApplyLeaveAcks(rooms, acks) == Keep(rooms, Succeeded(acks))
    decreases acks
  {
    if acks == [] {
      KeepAbsent(rooms, {});
    } else {
      var a := acks[0];
      var next := if a.success then LeaveAck(rooms, a.room) else rooms;
      LeaveAcksFilterSucceeded(next, acks[1..]);
      assert ApplyLeaveAcks(rooms, acks) == ApplyLeaveAcks(next, acks[1..]);
      if a.success {
        assert next == Keep(rooms, {a.room});
        assert Succeeded(acks) == {a.room} + Succeeded(acks[1..]);
        KeepTwice(rooms, {a.room}, Succeeded(acks[1..]));
      } else {
        assert Succeeded(acks) == Succeeded(acks[1..]);
      }
    }
  }

  /** When every room's leave succeeds, the list ends empty. */
  lemma LeaveAllSucceededEmpties(rooms: seq<string>, acks: seq<LeaveOutcome>)
    requires forall x :: x in rooms ==> x in Succeeded(acks)
    ensures ApplyLeaveAcks(rooms, acks) == []
  {
    LeaveAcksFilterSucceeded(rooms, acks);
    KeepEverything(rooms, Succeeded(acks));
  }
}
