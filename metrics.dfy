/** The metrics side of the v2 package: the record every call emits, the
    process-wide channel that carries it, and the accumulator that drains the
    channel and keeps running statistics (v2/metrics.go). */
module Metrics {
  import opened Int64

  /** One completed exchange, as pushed onto the channel by Call and Send. */
  datatype Response = Response(statusCode: int, endpoint: string, timeDuration: int64)

  /** The five fields of the accumulator, taken together as a value. */
  datatype Stats = Stats(
    totalNumberOfSentRequests: int64,
    totalTimeOfWaitingForResponse: int64,
    maxTimeForResponse: int64,
    endpointWithTheSlowestResponse: string,
    minTimeForResponse: int64)

  /** The zero value of the Go struct, which is where a fresh accumulator starts. */
  const Zero := Stats(0, 0, 0, "", 0)

  /** What one pass through the body of Collect's loop does to the fields. */
  function Step(s: Stats, resp: Response): (r: Stats)
    ensures s.totalNumberOfSentRequests as int < MAX ==> r.totalNumberOfSentRequests as int == s.totalNumberOfSentRequests as int + 1
    ensures r.maxTimeForResponse >= s.maxTimeForResponse && r.maxTimeForResponse >= resp.timeDuration
    ensures r.maxTimeForResponse == s.maxTimeForResponse || r.endpointWithTheSlowestResponse == resp.endpoint
    ensures r.minTimeForResponse == s.minTimeForResponse || r.minTimeForResponse == resp.timeDuration
    ensures s.minTimeForResponse != 0 ==> r.minTimeForResponse <= s.minTimeForResponse && r.minTimeForResponse <= resp.timeDuration
  {
    var d := resp.timeDuration;
    var (peak, slowest) :=
      if s.maxTimeForResponse < d then (d, resp.endpoint)
      else (s.maxTimeForResponse, s.endpointWithTheSlowestResponse);
    var low := if s.minTimeForResponse > d || s.minTimeForResponse == 0 then d else s.minTimeForResponse;
    Stats(Add(s.totalNumberOfSentRequests, 1), Add(s.totalTimeOfWaitingForResponse, d), peak, slowest, low)
  }

  /** The fields after the records `rs` have been processed, in order, from `s`. */
  function Accumulate(s: Stats, rs: seq<Response>): (r: Stats)
    ensures r.maxTimeForResponse >= s.maxTimeForResponse
    ensures forall i :: 0 <= i < |rs| ==> r.maxTimeForResponse >= rs[i].timeDuration
    decreases |rs|
  {
    if rs == [] then s else Step(Accumulate(s, rs[..|rs| - 1]), rs[|rs| - 1])
  }

  /** Folding can equally start by processing the first record: this is how
      the drain, which takes the oldest record first, follows the fold. */
  lemma {:induction false} AccumulateFirst(s: Stats, rs: seq<Response>)
    requires rs != []
    ensures Accumulate(s, rs) == Accumulate(Step(s, rs[0]), rs[1..])
    decreases |rs|
  {
    if |rs| == 1 {
      assert rs[..0] == [] && rs[1..] == [];
    } else {
      var front := rs[..|rs| - 1];
      AccumulateFirst(s, front);
      assert front[0] == rs[0];
      assert rs[1..][..|rs| - 2] == front[1..];
      assert rs[1..][|rs| - 2] == rs[|rs| - 1];
    }
  }

  // ---------------------------------------------------------------------
  // Reference definitions the accumulated fields are compared with.

  /** Exact (unbounded) sum of the durations. */
  function Sum(rs: seq<Response>): (total: int)
    ensures NonNegative(rs) ==> total >= 0
    decreases |rs|
  {
    if rs == [] then 0 else Sum(rs[..|rs| - 1]) + rs[|rs| - 1].timeDuration as int
  }

  /** The largest of 0 and every duration in `rs`. */
  function Peak(rs: seq<Response>): (m: int)
    ensures m >= 0
    ensures forall i :: 0 <= i < |rs| ==> rs[i].timeDuration as int <= m
    ensures m == 0 || exists i :: 0 <= i < |rs| && rs[i].timeDuration as int == m
    decreases |rs|
  {
    if rs == [] then 0
    else
      var m := Peak(rs[..|rs| - 1]);
      var d := rs[|rs| - 1].timeDuration as int;
      if m < d then d else m
  }

  /** The smallest duration of a non-empty `rs`. */
  function Lowest(rs: seq<Response>): (m: int)
    requires rs != []
    ensures forall i :: 0 <= i < |rs| ==> m <= rs[i].timeDuration as int
    ensures exists i :: 0 <= i < |rs| && rs[i].timeDuration as int == m
    decreases |rs|
  {
    if |rs| == 1 then rs[0].timeDuration as int
    else
      var m := Lowest(rs[..|rs| - 1]);
      var d := rs[|rs| - 1].timeDuration as int;
      if d < m then d else m
  }

  /** The records after the last one whose duration is 0 (all of `rs` when
      there is none): the records the minimum is actually taken over, since a
      0 duration resets the "unset" sentinel. */
  function SinceLastZero(rs: seq<Response>): (t: seq<Response>)
    ensures |t| <= |rs| && t == rs[|rs| - |t|..]
    ensures forall i :: 0 <= i < |t| ==> t[i].timeDuration != 0
    ensures |t| < |rs| ==> rs[|rs| - |t| - 1].timeDuration == 0
    decreases |rs|
  {
    if rs == [] then []
    else if rs[|rs| - 1].timeDuration == 0 then []
    else SinceLastZero(rs[..|rs| - 1]) + [rs[|rs| - 1]]
  }

  predicate NonNegative(rs: seq<Response>)
  {
    forall i :: 0 <= i < |rs| ==> rs[i].timeDuration >= 0
  }

  predicate Positive(rs: seq<Response>)
  {
    forall i :: 0 <= i < |rs| ==> rs[i].timeDuration > 0
  }

  // ---------------------------------------------------------------------
  // What the accumulated fields mean.

  /** Each record adds exactly one to the count, so from zero the count is the
      number of records, truncated to int64 as `++` does. */
  lemma {:induction false} CountIsNumberOfRecords(rs: seq<Response>)
    ensures Accumulate(Zero, rs).totalNumberOfSentRequests == Wrap(|rs|)
    ensures |rs| <= MAX ==> Accumulate(Zero, rs).totalNumberOfSentRequests as int == |rs|
    decreases |rs|
  {
    if rs != [] {
      CountIsNumberOfRecords(rs[..|rs| - 1]);
      WrapThenAdd(|rs| - 1, 1);
    }
  }

  /** The total waiting time is the sum of all durations, truncated to int64
      as `+=` does; exact when the sum fits. */
  lemma {:induction false} TotalIsSumOfDurations(rs: seq<Response>)
    ensures Accumulate(Zero, rs).totalTimeOfWaitingForResponse == Wrap(Sum(rs))
    ensures MIN <= Sum(rs) <= MAX ==> Accumulate(Zero, rs).totalTimeOfWaitingForResponse as int == Sum(rs)
    decreases |rs|
  {
    if rs != [] {
      var init, last := rs[..|rs| - 1], rs[|rs| - 1];
      var before := Accumulate(Zero, init);
      TotalIsSumOfDurations(init);
      TotalStep(before, last, Sum(init));
    }
  }

  /** One record adds its duration to the total modulo 2^64. */
  lemma TotalStep(s: Stats, resp: Response, x: int)
    requires s.totalTimeOfWaitingForResponse == Wrap(x)
    ensures Step(s, resp).totalTimeOfWaitingForResponse == Wrap(x + resp.timeDuration as int)
  {
    WrapThenAdd(x, resp.timeDuration as int);
  }

  /** The maximum starts at 0 and only grows: it is the largest of 0 and every
      duration, whatever their sign. */
  lemma {:induction false} MaxIsPeak(rs: seq<Response>)
    ensures Accumulate(Zero, rs).maxTimeForResponse as int == Peak(rs)
    decreases |rs|
  {
    if rs != [] {
      MaxIsPeak(rs[..|rs| - 1]);
    }
  }

  /** The slowest endpoint belongs to the EARLIEST record that reaches the
      maximum (the comparison is strict, so later ties lose), and is "" while
      no duration exceeds 0. */
  lemma {:induction false} SlowestIsEarliestPeak(rs: seq<Response>)
    ensures Peak(rs) == 0 ==> Accumulate(Zero, rs).endpointWithTheSlowestResponse == ""
    ensures Peak(rs) > 0 ==>
      exists i :: 0 <= i < |rs| && rs[i].timeDuration as int == Peak(rs)
        && rs[i].endpoint == Accumulate(Zero, rs).endpointWithTheSlowestResponse
        && forall j :: 0 <= j < i ==> rs[j].timeDuration as int < Peak(rs)
    decreases |rs|
  {
    if rs != [] {
      var front := rs[..|rs| - 1];
      var last := rs[|rs| - 1];
      SlowestIsEarliestPeak(front);
      MaxIsPeak(front);
      if Peak(front) < last.timeDuration as int {
        var i := |rs| - 1;
        forall j | 0 <= j < i ensures rs[j].timeDuration as int < Peak(rs) {
          assert rs[j] == front[j];
        }
      } else if Peak(front) > 0 {
        var i :| 0 <= i < |front| && front[i].timeDuration as int == Peak(front)
          && front[i].endpoint == Accumulate(Zero, front).endpointWithTheSlowestResponse
          && forall j :: 0 <= j < i ==> front[j].timeDuration as int < Peak(front);
        assert rs[i] == front[i];
        forall j | 0 <= j < i ensures rs[j].timeDuration as int < Peak(rs) {
          assert rs[j] == front[j];
        }
      }
    }
  }

  /** Under non-negative durations, every record since the last 0-ms one is
      strictly positive. */
  lemma SinceLastZeroPositive(rs: seq<Response>)
    requires NonNegative(rs)
    ensures Positive(SinceLastZero(rs))
  {
    var t := SinceLastZero(rs);
    var offset := |rs| - |t|;
    assert t == rs[offset..];
    forall i | 0 <= i < |t| ensures t[i].timeDuration > 0 {
      assert t[i] == rs[offset + i];
      assert rs[offset + i].timeDuration >= 0;
      assert t[i].timeDuration != 0;
    }
  }

  /** Appending one record to a non-empty sequence takes the smaller one. */
  lemma LowestAppend(t: seq<Response>, x: Response)
    requires t != []
    ensures Lowest(t + [x]) == if x.timeDuration as int < Lowest(t) then x.timeDuration as int else Lowest(t)
  {
    assert (t + [x])[..|t|] == t;
  }

  /** With non-negative durations the minimum is 0 right after a 0-ms record
      and otherwise the smallest duration since the last such record: 0 is the
      "unset" sentinel and the next record replaces it unconditionally. */
  lemma {:induction false} MinIsLowestSinceLastZero(rs: seq<Response>)
    requires NonNegative(rs)
    ensures var t := SinceLastZero(rs);
      Accumulate(Zero, rs).minTimeForResponse as int == if t == [] then 0 else Lowest(t)
    decreases |rs|
  {
    if rs != [] {
      var front := rs[..|rs| - 1];
      var last := rs[|rs| - 1];
      assert NonNegative(front) by {
        forall i | 0 <= i < |front| ensures front[i].timeDuration >= 0 {
          assert front[i] == rs[i];
        }
      }
      MinIsLowestSinceLastZero(front);
      var t := SinceLastZero(front);
      var m := Accumulate(Zero, front).minTimeForResponse;
      assert Accumulate(Zero, rs).minTimeForResponse == if m > last.timeDuration || m == 0 then last.timeDuration else m;
      if last.timeDuration != 0 {
        assert SinceLastZero(rs) == t + [last];
        if t != [] {
          SinceLastZeroPositive(front);
          var i :| 0 <= i < |t| && t[i].timeDuration as int == Lowest(t);
          assert m > 0;
          LowestAppend(t, last);
        }
      }
    }
  }

  /** For a non-empty run of strictly positive durations the minimum is the
      smallest of them, so it is at most every one of them. */
  lemma MinIsLowest(rs: seq<Response>)
    requires rs != [] && Positive(rs)
    ensures Accumulate(Zero, rs).minTimeForResponse as int == Lowest(rs)
    ensures forall i :: 0 <= i < |rs| ==> Accumulate(Zero, rs).minTimeForResponse <= rs[i].timeDuration
  {
    MinIsLowestSinceLastZero(rs);
    assert SinceLastZero(rs) == rs;
  }

  /** A single update moves the maximum and the slowest endpoint together, to
      the new record, exactly when the record is strictly slower; otherwise
      both keep their values. */
  lemma StepMovesMaxAndEndpointTogether(s: Stats, resp: Response)
    ensures var n := Step(s, resp);
      if s.maxTimeForResponse < resp.timeDuration
      then n.maxTimeForResponse == resp.timeDuration && n.endpointWithTheSlowestResponse == resp.endpoint
      else n.maxTimeForResponse == s.maxTimeForResponse && n.endpointWithTheSlowestResponse == s.endpointWithTheSlowestResponse
  {
  }

  /** A 0 minimum is replaced by whatever the next record brings, even a
      larger duration: a 0-ms record followed by a 40-ms one leaves 40. */
  lemma ZeroMinimumIsReplaced(s: Stats, resp: Response)
    ensures s.minTimeForResponse == 0 ==> Step(s, resp).minTimeForResponse == resp.timeDuration
    ensures var rs := [Response(200, "/a", 0), Response(200, "/b", 40)];
      Accumulate(Zero, rs).minTimeForResponse == 40
  {
    var rs := [Response(200, "/a", 0), Response(200, "/b", 40)];
    assert rs[..1] == [rs[0]];
    assert rs[..1][..0] == [];
  }

  /** Two records of 50 ms and 150 ms: count 2, total 200, maximum 150 at the
      second endpoint, minimum 50. */
  lemma TwoRequestsScenario()
    ensures var rs := [Response(200, "/fast", 50), Response(200, "/slow", 150)];
      Accumulate(Zero, rs) == Stats(2, 200, 150, "/slow", 50)
  {
    var rs := [Response(200, "/fast", 50), Response(200, "/slow", 150)];
    assert rs[..1] == [rs[0]];
    assert rs[..1][..0] == [];
  }

  // ---------------------------------------------------------------------
  // The channel and the consumer.

  /** What the consumer does, in order: one receipt per record, then the one
      completion signal. */
  datatype Event = Received(resp: Response) | Finished

  /** The buffered `Responses` channel: records in arrival order and whether
      it has been closed. */
  class Sink {
    var buffer: seq<Response>
    var closed: bool

    constructor ()
      ensures buffer == [] && !closed
    {
      buffer := [];
      closed := false;
    }

    /** `Responses <- resp`; sending on a closed channel panics in Go. */
    method Send(resp: Response)
      requires !closed
      modifies this
      ensures buffer == old(buffer) + [resp] && !closed
    {
      buffer := buffer + [resp];
    }

    /** `close(Responses)`; closing twice panics in Go. */
    method Close()
      requires !closed
      modifies this
      ensures closed && buffer == old(buffer)
    {
      closed := true;
    }

    /** One receive of the `range` loop: the oldest buffered record. */
    method Receive() returns (resp: Response)
      requires buffer != []
      modifies this
      ensures resp == old(buffer)[0] && buffer == old(buffer)[1..] && closed == old(closed)
    {
      resp := buffer[0];
      buffer := buffer[1..];
    }
  }

  /** The accumulator struct; Collect's goroutine is its only writer. */
  class Metrics {
    var totalNumberOfSentRequests: int64
    var totalTimeOfWaitingForResponse: int64
    var maxTimeForResponse: int64
    var endpointWithTheSlowestResponse: string
    var minTimeForResponse: int64

    /** `&Metrics{}`: every field at its zero value. */
    constructor ()
      ensures Snapshot() == Zero
    {
      totalNumberOfSentRequests := 0;
      totalTimeOfWaitingForResponse := 0;
      maxTimeForResponse := 0;
      endpointWithTheSlowestResponse := "";
      minTimeForResponse := 0;
    }

    function Snapshot(): Stats
      reads this
    {
      Stats(totalNumberOfSentRequests, totalTimeOfWaitingForResponse,
            maxTimeForResponse, endpointWithTheSlowestResponse, minTimeForResponse)
    }

    /** The body of Collect's loop for one received record. */
    method Record(resp: Response)
      modifies this
      ensures Snapshot() == Step(old(Snapshot()), resp)
    {
      totalNumberOfSentRequests := Add(totalNumberOfSentRequests, 1);
      totalTimeOfWaitingForResponse := Add(totalTimeOfWaitingForResponse, resp.timeDuration);

      if maxTimeForResponse < resp.timeDuration {
        endpointWithTheSlowestResponse := resp.endpoint;
        maxTimeForResponse := resp.timeDuration;
      }

      if minTimeForResponse > resp.timeDuration || minTimeForResponse == 0 {
        minTimeForResponse := resp.timeDuration;
      }
    }

    /** The consumer run sequentially: once the channel has been closed, take
        every buffered record in arrival order, fold it into the fields, and
        then signal completion once. */
    method Collect(sink: Sink) returns (events: seq<Event>)
      requires sink.closed
      modifies this, sink
      ensures sink.buffer == [] && sink.closed
      ensures Snapshot() == Accumulate(old(Snapshot()), old(sink.buffer))
      ensures |events| == |old(sink.buffer)| + 1
      ensures forall i :: 0 <= i < |old(sink.buffer)| ==> events[i] == Received(old(sink.buffer)[i])
      ensures events[|events| - 1] == Finished
    {
      events := [];
      ghost var start := Snapshot();
      while sink.buffer != []
        invariant sink.closed
        invariant |events| <= |old(sink.buffer)| && sink.buffer == old(sink.buffer)[|events|..]
        invariant Accumulate(Snapshot(), sink.buffer) == Accumulate(start, old(sink.buffer))
        invariant forall i :: 0 <= i < |events| ==> events[i] == Received(old(sink.buffer)[i])
        decreases |sink.buffer|
      {
        ghost var before := Snapshot();
        ghost var pending := sink.buffer;
        var resp := sink.Receive();
        Record(resp);
        AccumulateFirst(before, pending);
        events := events + [Received(resp)];
      }
      events := events + [Finished];
    }
  }
}
