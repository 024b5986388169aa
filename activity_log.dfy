/**
 * The connection panel's activity log: a text buffer, newest entry first,
 * entries separated by a blank line, cut to `LogLimit` UTF-16 code units and
 * then marked with a fixed truncation notice.
 */
module ActivityLog {
  import opened Text

  /** The number of code units kept before the truncation notice. */
  const LogLimit: nat := 4000

  /** The blank line between two entries, "\n\n". */
  const Separator: seq<CodeUnit> := [10, 10]

  /** The notice that follows a cut log. */
  const MarkerText: string := "\n...(생략)..."
  const Marker: seq<CodeUnit> := [10, 46, 46, 46, 40, 0xC0DD, 0xB7B5, 41, 46, 46, 46]

  /** The notice's code units are those of its text; it is eleven long, so no log exceeds 4011. */
  lemma MarkerIsNotice()
    ensures Marker == Utf16(MarkerText) && |Marker| == 11
  {
  }

  /** The most a log can hold: the kept text plus the notice. */
  function Capacity(): (n: nat)
    ensures n == LogLimit + |Marker| && n == 4011
  {
    LogLimit + |Marker|
  }

  /**
   * One `logMessage(msg)` update of the log `prev`: the message goes on top;
   * when the result would be longer than the limit, only its first `LogLimit`
   * code units stay, followed by the notice. What is dropped is always the
   * oldest text at the bottom.
   */
  function Prepend(prev: seq<CodeUnit>, msg: seq<CodeUnit>): (r: seq<CodeUnit>)
    ensures |r| <= Capacity()
    ensures |msg| + 2 + |prev| <= LogLimit ==> r == msg + Separator + prev
    ensures |msg| + 2 + |prev| > LogLimit ==>
      |r| == Capacity() && r[..LogLimit] == (msg + Separator + prev)[..LogLimit] && r[LogLimit..] == Marker
    ensures |msg| <= LogLimit ==> r[..|msg|] == msg
  {
    var full := msg + Separator + prev;
    if |full| > LogLimit then
      assert full[..|msg|] == msg;
      full[..LogLimit] + Marker
    else full
  }

  /** The log after `logMessage` was called once for each of `msgs`, in order. */
  function LogAfter(prev: seq<CodeUnit>, msgs: seq<seq<CodeUnit>>): seq<CodeUnit>
  {
    if msgs == [] then prev else Prepend(LogAfter(prev, msgs[..|msgs| - 1]), msgs[|msgs| - 1])
  }

  /** The same messages stacked without any limit: the last one on top. */
  function History(prev: seq<CodeUnit>, msgs: seq<seq<CodeUnit>>): seq<CodeUnit>
  {
    if msgs == [] then prev else msgs[|msgs| - 1] + Separator + History(prev, msgs[..|msgs| - 1])
  }

  /** Two sequences that agree on a prefix still agree on it after the same text is put in front. */
  lemma CommonPrefix(x: seq<CodeUnit>, y: seq<CodeUnit>, z: seq<CodeUnit>, n: nat)
    requires |y| <= |z| && y == z[..|y|] && n <= |x| + |y|
    ensures (x + y)[..n] == (x + z)[..n]
  {
    forall i | 0 <= i < n ensures (x + y)[i] == (x + z)[i] {
      if i >= |x| {
        assert (x + y)[i] == y[i - |x|];
        assert (x + z)[i] == z[i - |x|];
      }
    }
  }

  /** Logging onto a log that was already cut gives the cut of the longer history. */
  lemma PrependOntoCut(h': seq<CodeUnit>, m: seq<CodeUnit>)
    requires |h'| > LogLimit
    ensures Prepend(h'[..LogLimit] + Marker, m) == (m + Separator + h')[..LogLimit] + Marker
  {
    var kept := h'[..LogLimit];
    var prev := kept + Marker;
    var r := Prepend(prev, m);
    var x := m + Separator;
    var full := x + prev;
    assert full == x + prev;
    assert r[..LogLimit] == full[..LogLimit] && r[LogLimit..] == Marker;
    assert r == r[..LogLimit] + r[LogLimit..];
    assert full[..LogLimit] == (x + kept)[..LogLimit] by {
      CommonPrefix(x, kept, prev, LogLimit);
    }
    CommonPrefix(x, kept, h', LogLimit);
  }

  /**
   * Whatever was logged, starting from a log within the limit, the log is the
   * complete history when that fits, and otherwise the first `LogLimit` code
   * units of the complete history followed by the notice.
   */
  lemma {:induction false} LogIsCutHistory(prev: seq<CodeUnit>, msgs: seq<seq<CodeUnit>>)
    requires |prev| <= LogLimit
    ensures |History(prev, msgs)| <= LogLimit ==> LogAfter(prev, msgs) == History(prev, msgs)
    ensures |History(prev, msgs)| > LogLimit ==>
      LogAfter(prev, msgs) == History(prev, msgs)[..LogLimit] + Marker
  {
    if msgs != [] {
      var front, m := msgs[..|msgs| - 1], msgs[|msgs| - 1];
      LogIsCutHistory(prev, front);
      var h' := History(prev, front);
      if |h'| > LogLimit {
        PrependOntoCut(h', m);
      }
    }
  }

  /** Starting from the empty log, the log never exceeds the limit plus the notice. */
  lemma {:induction false} ReachableLogBounded(msgs: seq<seq<CodeUnit>>)
    ensures |LogAfter([], msgs)| <= Capacity()
  {
    LogIsCutHistory([], msgs);
  }

  /** After a batch of messages the last one logged is on top. */
  lemma LastMessageOnTop(prev: seq<CodeUnit>, msgs: seq<seq<CodeUnit>>)
    requires msgs != [] && |msgs[|msgs| - 1]| <= LogLimit
    ensures LogAfter(prev, msgs)[..|msgs[|msgs| - 1]|] == msgs[|msgs| - 1]
  {
  }

  /** Where message `i` of `msgs` starts in the history: after every later message and its separator. */
  function Offset(msgs: seq<seq<CodeUnit>>, i: nat): nat
    requires i < |msgs|
  {
    if i == |msgs| - 1 then 0 else |msgs[|msgs| - 1]| + 2 + Offset(msgs[..|msgs| - 1], i)
  }

  /** Every message logged is in the uncut history, whole, at its offset: later messages above earlier ones. */
  lemma {:induction false} HistoryHoldsEveryMessage(prev: seq<CodeUnit>, msgs: seq<seq<CodeUnit>>, i: nat)
    requires i < |msgs|
    ensures Offset(msgs, i) + |msgs[i]| <= |History(prev, msgs)|
    ensures History(prev, msgs)[Offset(msgs, i)..Offset(msgs, i) + |msgs[i]|] == msgs[i]
    ensures i + 1 < |msgs| ==> Offset(msgs, i + 1) + |msgs[i + 1]| + 2 == Offset(msgs, i)
  {
    var front, m := msgs[..|msgs| - 1], msgs[|msgs| - 1];
    var h := History(prev, msgs);
    assert h == m + Separator + History(prev, front);
    if i < |msgs| - 1 {
      assert msgs[i] == front[i];
      HistoryHoldsEveryMessage(prev, front, i);
      var h' := History(prev, front);
      var off := |m| + 2;
      assert h[off..] == h';
      var k := Offset(front, i);
      assert h[off + k..off + k + |msgs[i]|] == h'[k..k + |msgs[i]|];
      if i + 1 < |msgs| - 1 {
        assert msgs[i + 1] == front[i + 1];
        HistoryHoldsEveryMessage(prev, front, i + 1);
      }
    }
  }
}
