/** The chunked banner reader of the Go engine (`readIncremental`) and its terminator search. */
module BannerReader {
  import opened Common

  const MAX_BANNER_READ := 4096
  const BUFFER_SIZE := 512

  type byte = x: int | 0 <= x < 256

  datatype ReadFault = NoFault | EndOfFile | TimedOut | OtherFault

  /** One turn of the loop: setting the deadline fails, or the connection returns data, an error, or both. */
  datatype Turn =
    | DeadlineFails
    | Read(data: seq<byte>, fault: ReadFault, contextDone: bool)

  datatype Phase = FirstByte | IdleRead | TotalProbe | Complete

  datatype Outcome = Outcome(captured: seq<byte>, rawLength: int, truncated: bool, phase: Phase, failed: bool)

  // ---------- Terminators ----------

  predicate EndsWith(content: seq<byte>, end: int, t: seq<byte>) {
    |t| <= end <= |content| && content[end - |t|..end] == t
  }

  predicate EndsAt(content: seq<byte>, end: int, terminators: seq<seq<byte>>) {
    exists k :: 0 <= k < |terminators| && EndsWith(content, end, terminators[k])
  }

  /** `bytes.Index`: the position of the first occurrence, or -1. */
  function IndexFrom(content: seq<byte>, t: seq<byte>, from: nat): (i: int)
    requires from <= |content|
    ensures i == -1 || (from <= i && EndsWith(content, i + |t|, t))
    ensures forall e :: from + |t| <= e && EndsWith(content, e, t) ==> 0 <= i && i + |t| <= e
    decreases |content| - from
  {
    if EndsWith(content, from + |t|, t) then from
    else if from == |content| then -1
    else IndexFrom(content, t, from + 1)
  }

  /** `end` is the least position at which some terminator ends, or -1 when none occurs. */
  ghost predicate IsEarliestEnd(content: seq<byte>, terminators: seq<seq<byte>>, end: int) {
    && (end == -1 || EndsAt(content, end, terminators))
    && forall e :: EndsAt(content, e, terminators) ==> 0 <= end <= e
  }

  method TerminatorIndex(content: seq<byte>, terminators: seq<seq<byte>>) returns (best: int)
    ensures IsEarliestEnd(content, terminators, best)
  {
    best := -1;
    for n := 0 to |terminators|
      invariant best == -1 || EndsAt(content, best, terminators[..n])
      invariant forall e, k :: 0 <= k < n && EndsWith(content, e, terminators[k]) ==> 0 <= best <= e
    {
      ghost var before := best;
      var t := terminators[n];
      var index := IndexFrom(content, t, 0);
      if index >= 0 {
        var end := index + |t|;
        if best == -1 || end < best {
          best := end;
        }
        assert EndsWith(content, end, terminators[..n + 1][n]);
      }
      assert forall e :: EndsWith(content, e, t) ==> 0 <= best <= e;
      if best == before && best != -1 {
        var k :| 0 <= k < n && EndsWith(content, best, terminators[..n][k]);
        assert EndsWith(content, best, terminators[..n + 1][k]);
      }
    }
    assert terminators[..|terminators|] == terminators;
  }

  lemma EarliestEndIsUnique(content: seq<byte>, terminators: seq<seq<byte>>, a: int, b: int)
    requires IsEarliestEnd(content, terminators, a) && IsEarliestEnd(content, terminators, b)
    ensures a == b
  {
    assert a == -1 || EndsAt(content, a, terminators);
    assert b == -1 || EndsAt(content, b, terminators);
  }

  /** A terminator that ends within a prefix ends there in the whole stream, and the other way round. */
  lemma EndsInPrefix(stream: seq<byte>, n: nat, end: int, terminators: seq<seq<byte>>)
    requires n <= |stream| && end <= n
    ensures EndsAt(stream[..n], end, terminators) <==> EndsAt(stream, end, terminators)
  {
    forall k | 0 <= k < |terminators|
      ensures EndsWith(stream[..n], end, terminators[k]) <==> EndsWith(stream, end, terminators[k])
    {
      if |terminators[k]| <= end {
        assert stream[..n][end - |terminators[k]|..end] == stream[end - |terminators[k]|..end];
      }
    }
  }

  // ---------- Reading ----------

  function TurnData(turn: Turn): seq<byte> {
    if turn.Read? then turn.data else []
  }

  /** The bytes the connection delivers, however they are cut into reads. */
  function Stream(turns: seq<Turn>): seq<byte> {
    if turns == [] then [] else Stream(turns[..|turns| - 1]) + TurnData(turns[|turns| - 1])
  }

  /** What the reader captures of a stream, and whether it says it cut it: up to the earliest terminator that ends
      within 4097 bytes, else the first 4096 bytes of a longer stream, else all of it. */
  ghost predicate CapturesOf(stream: seq<byte>, terminators: seq<seq<byte>>, captured: seq<byte>, truncated: bool) {
    exists end :: IsEarliestEnd(stream, terminators, end) &&
      if 0 <= end <= MAX_BANNER_READ + 1 then captured == stream[..end] && !truncated
      else if |stream| > MAX_BANNER_READ then captured == stream[..MAX_BANNER_READ] && truncated
      else captured == stream && !truncated
  }

  /** The reader stops before the stream ends: a terminator ends in time, or there are more than 4096 bytes. */
  ghost predicate StopsEarly(stream: seq<byte>, terminators: seq<seq<byte>>) {
    |stream| > MAX_BANNER_READ || (stream != [] && exists end :: EndsAt(stream, end, terminators))
  }

  predicate LastTurn(turn: Turn) { turn.DeadlineFails? || turn.fault != NoFault }

  /** A connection's turns: reads of at most a buffer each, and an end or error only in the last turn. */
  predicate Connection(turns: seq<Turn>) {
    && turns != []
    && (forall k :: 0 <= k < |turns| ==> |TurnData(turns[k])| <= BUFFER_SIZE)
    && (forall k :: 0 <= k < |turns| - 1 ==> !LastTurn(turns[k]))
    && LastTurn(turns[|turns| - 1])
  }

  /** The verdict when every turn was read without stopping early. */
  predicate EndsLike(before: seq<byte>, last: Turn, captured: seq<byte>, phase: Phase, failed: bool) {
    var atEnd := last.Read? && last.fault == EndOfFile;
    var cancelled := last.Read? && !atEnd && last.contextDone;
    var quiet := last.Read? && !cancelled && last.fault == TimedOut && captured != [];
    && (failed <==> !atEnd && !quiet)
    && (phase == Complete <==> atEnd) && (phase == TotalProbe <==> cancelled)
    && (phase == FirstByte <==> before == [] && !atEnd && !cancelled && !quiet)
  }

  /** No terminator ends in the bytes read so far; an empty terminator is looked for only after the first bytes. */
  ghost predicate Clean(captured: seq<byte>, terminators: seq<seq<byte>>) {
    captured != [] ==> forall e :: !EndsAt(captured, e, terminators)
  }

  lemma {:induction false} EarliestEndExists(content: seq<byte>, terminators: seq<seq<byte>>, from: nat)
    requires from <= |content| + 1 && forall e :: EndsAt(content, e, terminators) ==> from <= e
    ensures exists end :: IsEarliestEnd(content, terminators, end)
    decreases |content| + 1 - from
  {
    if from == |content| + 1 {
      assert IsEarliestEnd(content, terminators, -1);
    } else if EndsAt(content, from, terminators) {
      assert IsEarliestEnd(content, terminators, from);
    } else {
      EarliestEndExists(content, terminators, from + 1);
    }
  }

  /** A terminator found in the bytes read so far is the earliest of the whole stream. */
  lemma EarlyTerminator(stream: seq<byte>, n: nat, terminators: seq<seq<byte>>, end: int)
    requires n <= |stream| && n <= MAX_BANNER_READ + 1 && 0 <= end && IsEarliestEnd(stream[..n], terminators, end)
    ensures end <= n && EndsAt(stream, end, terminators) && CapturesOf(stream, terminators, stream[..end], false)
  {
    EndsInPrefix(stream, n, end, terminators);
    forall e | EndsAt(stream, e, terminators) ensures 0 <= end <= e {
      if e <= n { EndsInPrefix(stream, n, e, terminators); }
    }
    assert IsEarliestEnd(stream, terminators, end);
  }

  /** None among the first 4097 bytes: whatever follows, the reader cuts at 4096. */
  lemma NoEarlyTerminator(stream: seq<byte>, terminators: seq<seq<byte>>)
    requires |stream| > MAX_BANNER_READ && IsEarliestEnd(stream[..MAX_BANNER_READ + 1], terminators, -1)
    ensures CapturesOf(stream, terminators, stream[..MAX_BANNER_READ], true)
  {
    EarliestEndExists(stream, terminators, 0);
    var end :| IsEarliestEnd(stream, terminators, end);
    if 0 <= end <= MAX_BANNER_READ + 1 {
      EndsInPrefix(stream, MAX_BANNER_READ + 1, end, terminators);
      assert false;
    }
  }

  lemma NoTerminatorCaptures(stream: seq<byte>, terminators: seq<seq<byte>>)
    requires |stream| <= MAX_BANNER_READ
    requires stream == [] || forall e :: !EndsAt(stream, e, terminators)
    ensures CapturesOf(stream, terminators, stream, false) && !StopsEarly(stream, terminators)
  {
    EarliestEndExists(stream, terminators, 0);
    var end :| IsEarliestEnd(stream, terminators, end);
    if stream == [] && 0 <= end { assert stream[..end] == stream; }
  }

  /** The captured bytes and the flag are determined by the stream. */
  lemma CaptureIsUnique(stream: seq<byte>, terminators: seq<seq<byte>>,
                        a: seq<byte>, at: bool, b: seq<byte>, bt: bool)
    requires CapturesOf(stream, terminators, a, at) && CapturesOf(stream, terminators, b, bt)
    ensures a == b && at == bt
  {
    forall x, y | IsEarliestEnd(stream, terminators, x) && IsEarliestEnd(stream, terminators, y) ensures x == y {
      EarliestEndIsUnique(stream, terminators, x, y);
    }
  }

  /** At most 4097 bytes are captured, and more than the 4096 of the size limit exactly when the earliest terminator
      ends right after them.  The reader says it has cut the stream exactly when that is longer than 4096 bytes and no
      terminator ends in time, and then it keeps the first 4096. */
  lemma LongestCapture(stream: seq<byte>, terminators: seq<seq<byte>>, captured: seq<byte>, truncated: bool)
    requires CapturesOf(stream, terminators, captured, truncated)
    ensures |captured| <= 4097 && captured <= stream
    ensures |captured| > 4096 <==> IsEarliestEnd(stream, terminators, 4097)
    ensures truncated <==> |stream| > 4096 && forall e :: EndsAt(stream, e, terminators) ==> e > 4097
    ensures truncated ==> captured == stream[..4096]
  {
    var end :| IsEarliestEnd(stream, terminators, end) &&
      if 0 <= end <= MAX_BANNER_READ + 1 then captured == stream[..end] && !truncated
      else if |stream| > MAX_BANNER_READ then captured == stream[..MAX_BANNER_READ] && truncated
      else captured == stream && !truncated;
    if IsEarliestEnd(stream, terminators, MAX_BANNER_READ + 1) {
      EarliestEndIsUnique(stream, terminators, end, MAX_BANNER_READ + 1);
    }
  }

  /** A line of 4096 bytes and its line feed: all 4097 bytes are captured, and nothing is said to be cut. */
  lemma CapturesBeyondTheLimit()
    ensures var stream := seq(4096, _ => 65) + [10]; CapturesOf(stream, [[10]], stream, false)
  {
    var stream: seq<byte> := seq(MAX_BANNER_READ, _ => 65) + [10];
    var n := MAX_BANNER_READ + 1;
    assert EndsWith(stream, n, [[10]][0]);
    forall e | EndsAt(stream, e, [[10]]) ensures n <= e {
      assert EndsWith(stream, e, [10]);
      assert stream[e - 1..e][0] == stream[e - 1];
    }
    assert IsEarliestEnd(stream, [[10]], n) && stream[..n] == stream;
  }

  lemma {:induction false} StreamPrefix(turns: seq<Turn>, n: nat)
    requires n <= |turns|
    ensures Stream(turns[..n]) <= Stream(turns)
    decreases |turns| - n
  {
    if n == |turns| {
      assert turns[..n] == turns;
    } else {
      StreamPrefix(turns, n + 1);
      NextTurn(turns, n);
    }
  }

  lemma NextTurn(turns: seq<Turn>, n: nat)
    requires n < |turns|
    ensures Stream(turns[..n + 1]) == Stream(turns[..n]) + TurnData(turns[n])
  {
    assert turns[..n + 1][..n] == turns[..n];
  }

  /** One non-empty read: keeps at most 4097 bytes, then looks for a terminator, then for the size limit. */
  method Capture(captured: seq<byte>, data: seq<byte>, terminators: seq<seq<byte>>, ghost stream: seq<byte>)
    returns (next: seq<byte>, stop: bool, truncated: bool)
    requires data != [] && |captured| <= MAX_BANNER_READ && captured + data <= stream
    ensures stop ==>
      && CapturesOf(stream, terminators, next, truncated) && StopsEarly(stream, terminators)
      && StopsEarly(captured + data, terminators) && |next| <= |captured| + |data|
    ensures !stop ==>
      && next == captured + data && |next| <= MAX_BANNER_READ
      && forall e :: !EndsAt(next, e, terminators)
  {
    var remaining := MAX_BANNER_READ + 1 - |captured|;
    next := captured + data[..if |data| < remaining then |data| else remaining];
    assert next == stream[..|next|];
    truncated := false;
    var end := TerminatorIndex(next, terminators);
    if end >= 0 {
      EarlyTerminator(stream, |next|, terminators, end);
      assert next == (captured + data)[..|next|];
      EndsInPrefix(captured + data, |next|, end, terminators);
      return next[..end], true, false;
    }
    if |next| > MAX_BANNER_READ {
      NoEarlyTerminator(stream, terminators);
      return next[..MAX_BANNER_READ], true, true;
    }
    stop := false;
  }

  /** The last turn of a connection: how the reader reports the end of the stream or an error. */
  method Ended(turn: Turn, before: seq<byte>, captured: seq<byte>) returns (r: Outcome)
    requires LastTurn(turn) && captured == before + TurnData(turn)
    ensures r.captured == captured && r.rawLength == |captured| && !r.truncated
    ensures EndsLike(before, turn, captured, r.phase, r.failed)
  {
    var phase := if before == [] then FirstByte else IdleRead;
    if turn.DeadlineFails? {
      return Outcome(captured, |captured|, false, phase, true);
    }
    if turn.fault == EndOfFile {
      return Outcome(captured, |captured|, false, Complete, false);
    }
    if turn.contextDone {
      return Outcome(captured, |captured|, false, TotalProbe, true);
    }
    if turn.fault == TimedOut && |captured| > 0 {
      return Outcome(captured, |captured|, false, IdleRead, false);
    }
    return Outcome(captured, |captured|, false, phase, true);
  }

  /** All turns read: what was captured is the stream. */
  lemma AllRead(turns: seq<Turn>, captured: seq<byte>, terminators: seq<seq<byte>>)
    requires captured == Stream(turns) && |captured| <= MAX_BANNER_READ && Clean(captured, terminators)
    ensures CapturesOf(Stream(turns), terminators, captured, false) && !StopsEarly(Stream(turns), terminators)
  {
    NoTerminatorCaptures(captured, terminators);
  }

  /** The reader stops right after `n` reads, which have delivered `rawLength` bytes. */
  ghost predicate StopsAfter(turns: seq<Turn>, terminators: seq<seq<byte>>, n: int, rawLength: int) {
    && 0 < n <= |turns| && rawLength == |Stream(turns[..n])|
    && StopsEarly(Stream(turns[..n]), terminators) && !StopsEarly(Stream(turns[..n - 1]), terminators)
  }

  /** What the outcome of a whole connection has to be. */
  ghost predicate OutcomeOf(turns: seq<Turn>, terminators: seq<seq<byte>>, r: Outcome)
    requires turns != []
  {
    && CapturesOf(Stream(turns), terminators, r.captured, r.truncated)
    && |r.captured| <= r.rawLength
    && if StopsEarly(Stream(turns), terminators) then
         r.phase == Complete && !r.failed && exists n :: StopsAfter(turns, terminators, n, r.rawLength)
       else r.rawLength == |Stream(turns)|
            && EndsLike(Stream(turns[..|turns| - 1]), turns[|turns| - 1], r.captured, r.phase, r.failed)
  }

  lemma TurnFits(turns: seq<Turn>, k: nat)
    requires k < |turns|
    ensures Stream(turns[..k + 1]) == Stream(turns[..k]) + TurnData(turns[k])
    ensures Stream(turns[..k]) + TurnData(turns[k]) <= Stream(turns)
  {
    NextTurn(turns, k);
    StreamPrefix(turns, k + 1);
  }

  /** One turn of the loop: the outcome, or the bytes to go on with. */
  method ReadTurn(turns: seq<Turn>, k: nat, captured: seq<byte>, terminators: seq<seq<byte>>)
    returns (next: seq<byte>, r: Option<Outcome>)
    requires k < |turns| && captured == Stream(turns[..k]) && |captured| <= MAX_BANNER_READ
    requires Clean(captured, terminators) && (LastTurn(turns[k]) <==> k == |turns| - 1)
    ensures r.Some? ==> OutcomeOf(turns, terminators, r.value)
    ensures r.None? ==>
      k + 1 < |turns| && next == Stream(turns[..k + 1]) && |next| <= MAX_BANNER_READ && Clean(next, terminators)
  {
    var turn := turns[k];
    var data := TurnData(turn);
    next := captured;
    TurnFits(turns, k);
    if data != [] {
      var kept, stop, truncated := Capture(captured, data, terminators, Stream(turns));
      if stop {
        assert StopsAfter(turns, terminators, k + 1, |captured| + |data|);
        return kept, Some(Outcome(kept, |captured| + |data|, truncated, Complete, false));
      }
      next := kept;
    }
    assert next == captured + data;
    if !LastTurn(turn) {
      return next, None;
    }
    assert turns[..k + 1] == turns;
    AllRead(turns, next, terminators);
    var ended := Ended(turn, captured, next);
    r := Some(ended);
  }

  /** Whatever the sizes of the reads, the captured bytes and the truncation flag depend on the stream alone. */
  method ReadIncremental(turns: seq<Turn>, terminators: seq<seq<byte>>) returns (r: Outcome)
    requires Connection(turns)
    ensures OutcomeOf(turns, terminators, r)
  {
    var captured: seq<byte>, k: nat := [], 0;
    while true
      invariant k < |turns| && captured == Stream(turns[..k]) && |captured| <= MAX_BANNER_READ
      invariant Clean(captured, terminators)
      decreases |turns| - k
    {
      var next, outcome := ReadTurn(turns, k, captured, terminators);
      if outcome.Some? {
        return outcome.value;
      }
      captured, k := next, k + 1;
    }
  }
}
