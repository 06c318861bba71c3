/** The load-generating client: its metrics record, the accounting of one
    send-and-acknowledge attempt, the bulk and rate-limited send loops, and
    the statistics of its report. Socket I/O is abstracted: every attempt's
    outcome, and the time it took, is an input. Time is an integer count of
    abstract ticks. */
module TcpClient {
  import opened Reporting
  import opened LatencyStats

  /** What `send_message` is handed: a text string, which it encodes as
      UTF-8 before sending, or bytes, which it sends as they are. */
  datatype Payload = Text(text: string) | Raw(bytes: seq<bv8>)

  /** Number of bytes UTF-8 uses for one code point. */
  function CodePointWidth(c: char): (w: nat)
    ensures 1 <= w <= 4
    ensures w == 1 <==> (c as int) < 0x80
  {
    var v := c as int;
    if v < 0x80 then 1 else if v < 0x800 then 2 else if v < 0x1_0000 then 3 else 4
  }

  /** Length of the UTF-8 encoding of a string (`len(s.encode('utf-8'))`). */
  function Utf8Length(s: string): (n: nat)
    ensures |s| <= n <= 4 * |s|
  {
    if s == [] then 0 else CodePointWidth(s[0]) + Utf8Length(s[1..])
  }

  /** A string of ASCII characters encodes to exactly one byte per character. */
  lemma {:induction false} AsciiUtf8Length(s: string)
    requires forall i :: 0 <= i < |s| ==> (s[i] as int) < 0x80
    ensures Utf8Length(s) == |s|
  {
    if s != [] {
      AsciiUtf8Length(s[1..]);
    }
  }

  /** Number of bytes `send_message` counts for a payload (`len(message_bytes)`). */
  function EncodedLength(p: Payload): (n: nat)
    ensures p.Raw? ==> n == |p.bytes|
    ensures p.Text? ==> |p.text| <= n <= 4 * |p.text|
  {
    match p
    case Text(s) => Utf8Length(s)
    case Raw(b) => |b|
  }

  /** Length of Python's `c * k`: `k`, or 0 when `k` is not positive. */
  function RepeatLength(k: int): nat
  {
    if k > 0 then k else 0
  }

  /** Python's `c * k`: `k` copies of `c`, and the empty string when `k <= 0`. */
  function Repeat(c: char, k: int): (s: string)
    ensures |s| == RepeatLength(k)
    ensures forall i :: 0 <= i < |s| ==> s[i] == c
    decreases k
  {
    if k <= 0 then [] else [c] + Repeat(c, k - 1)
  }

  /** The test message of both load patterns, `"X" * size` or `"Y" * size`,
      is counted at one byte per requested character. */
  lemma TestMessageLength(c: char, size: int)
    requires (c as int) < 0x80
    ensures EncodedLength(Text(Repeat(c, size))) == RepeatLength(size)
  {
    AsciiUtf8Length(Repeat(c, size));
  }

  /** How one send-and-wait-for-acknowledgment attempt went: the
      acknowledgment arrived `roundTrip` ticks after the send started, or
      the send or the receive raised after `spent` ticks. */
  datatype Exchange = Acked(roundTrip: nat) | Failed(spent: nat)

  /** Ticks an attempt takes, from the start of the send to its outcome. */
  function Spent(x: Exchange): nat
  {
    match x
    case Acked(rtt) => rtt
    case Failed(t) => t
  }

  /** The client's `metrics` dictionary. */
  datatype ClientMetrics = ClientMetrics(
    totalMessagesSent: nat,
    totalBytesSent: nat,
    latencies: seq<int>,
    sendTimes: seq<int>,
    startTime: Option<int>,
    endTime: Option<int>,
    failedMessages: nat)
  {
    /** One latency and one send time per acknowledged message. */
    predicate WellFormed()
    {
      |latencies| == totalMessagesSent && |sendTimes| == totalMessagesSent
    }
  }

  /** The record a new client starts with. */
  function InitialMetrics(): (m: ClientMetrics)
    ensures m.WellFormed()
    ensures m.totalMessagesSent == m.failedMessages == m.totalBytesSent == 0
  {
    ClientMetrics(0, 0, [], [], None, None, 0)
  }

  /** The effect of one `send_message` call on the metrics, for a payload of
      `size` bytes whose send started at `sendStart`: exactly one of the
      two message counters moves; a failure moves nothing else; a success
      adds the payload's bytes and one latency and one send time. */
  function Record(m: ClientMetrics, size: nat, sendStart: int, x: Exchange): (r: ClientMetrics)
    ensures r.totalMessagesSent + r.failedMessages == m.totalMessagesSent + m.failedMessages + 1
    ensures x.Acked? <==> r.totalMessagesSent == m.totalMessagesSent + 1
    ensures x.Failed? <==> r.failedMessages == m.failedMessages + 1
    ensures x.Failed? ==> r == m.(failedMessages := m.failedMessages + 1)
    ensures x.Acked? ==> r.totalBytesSent == m.totalBytesSent + size
    ensures x.Acked? ==> r.latencies == m.latencies + [x.roundTrip] && r.sendTimes == m.sendTimes + [sendStart]
    ensures r.startTime == m.startTime && r.endTime == m.endTime
    ensures m.WellFormed() ==> r.WellFormed()
  {
    match x
    case Acked(rtt) =>
      m.(totalMessagesSent := m.totalMessagesSent + 1,
         totalBytesSent := m.totalBytesSent + size,
         latencies := m.latencies + [rtt],
         sendTimes := m.sendTimes + [sendStart])
    case Failed(_) =>
      m.(failedMessages := m.failedMessages + 1)
  }

  /** Number of acknowledged attempts. */
  function AckedCount(xs: seq<Exchange>): (k: nat)
    ensures k <= |xs|
  {
    if xs == [] then 0
    else AckedCount(xs[..|xs| - 1]) + (if xs[|xs| - 1].Acked? then 1 else 0)
  }

  /** Round-trip times of the acknowledged attempts, in order. */
  function Latencies(xs: seq<Exchange>): (l: seq<int>)
    ensures |l| == AckedCount(xs)
  {
    if xs == [] then []
    else
      var init := Latencies(xs[..|xs| - 1]);
      match xs[|xs| - 1]
      case Acked(rtt) => init + [rtt]
      case Failed(_) => init
  }

  /** Ticks taken by a run of back-to-back attempts. */
  function Elapsed(xs: seq<Exchange>): nat
  {
    if xs == [] then 0 else Elapsed(xs[..|xs| - 1]) + Spent(xs[|xs| - 1])
  }

  /** Start times of the acknowledged attempts of a back-to-back run begun at `t0`. */
  function SendTimes(t0: int, xs: seq<Exchange>): (s: seq<int>)
    ensures |s| == AckedCount(xs)
  {
    if xs == [] then []
    else
      var init := xs[..|xs| - 1];
      SendTimes(t0, init) + (if xs[|xs| - 1].Acked? then [t0 + Elapsed(init)] else [])
  }

  /** One more acknowledged attempt adds `size` to `size` times the count. */
  lemma ScaleStep(size: nat, k: nat, acked: bool)
    ensures size * (k + (if acked then 1 else 0)) == size * k + (if acked then size else 0)
  {
  }

  /** The metrics after a run of back-to-back attempts with a `size`-byte
      payload, begun at `t0`: `Record` applied once per attempt. */
  function Replay(m: ClientMetrics, size: nat, t0: int, xs: seq<Exchange>): (r: ClientMetrics)
    ensures r.totalMessagesSent + r.failedMessages == m.totalMessagesSent + m.failedMessages + |xs|
  {
    if xs == [] then m
    else
      var init := xs[..|xs| - 1];
      Record(Replay(m, size, t0, init), size, t0 + Elapsed(init), xs[|xs| - 1])
  }

  /** Over a back-to-back run every attempt is counted once, as sent or as
      failed; the bytes grow by `size` per acknowledged attempt; the
      latencies and send times grow by the acknowledged attempts' own, in
      order; the record stays well formed. */
  lemma {:induction false} ReplayAccounting(m: ClientMetrics, size: nat, t0: int, xs: seq<Exchange>)
    ensures var r := Replay(m, size, t0, xs);
      r.totalMessagesSent + r.failedMessages == m.totalMessagesSent + m.failedMessages + |xs| &&
      r.totalMessagesSent == m.totalMessagesSent + AckedCount(xs) &&
      r.totalBytesSent == m.totalBytesSent + size * AckedCount(xs) &&
      r.latencies == m.latencies + Latencies(xs) &&
      r.sendTimes == m.sendTimes + SendTimes(t0, xs) &&
      r.startTime == m.startTime && r.endTime == m.endTime &&
      (m.WellFormed() ==> r.WellFormed())
  {
    if xs != [] {
      var init := xs[..|xs| - 1];
      ReplayAccounting(m, size, t0, init);
      ScaleStep(size, AckedCount(init), xs[|xs| - 1].Acked?);
    }
  }

  lemma ReplayStep(m: ClientMetrics, size: nat, t0: int, xs: seq<Exchange>, i: nat)
    requires i < |xs|
    ensures Replay(m, size, t0, xs[..i + 1])
            == Record(Replay(m, size, t0, xs[..i]), size, t0 + Elapsed(xs[..i]), xs[i])
    ensures Elapsed(xs[..i + 1]) == Elapsed(xs[..i]) + Spent(xs[i])
  {
    assert xs[..i + 1][..i] == xs[..i];
  }

  /** The pacing rule of the rate-limited loop: after a cycle that took
      `elapsed` ticks, sleep `delay - elapsed` if that is positive, else not
      at all. The cycle then lasts exactly the longer of the two, so the
      target spacing is kept and a slow cycle is never made up for. */
  function PacingSleep(elapsed: int, delay: int): (s: int)
    ensures s >= 0
    ensures s > 0 <==> elapsed < delay
    ensures elapsed + s == (if elapsed < delay then delay else elapsed)
    ensures s > 0 && elapsed >= 0 ==> s <= delay
  {
    if elapsed < delay then delay - elapsed else 0
  }

  /** Where a rate-limited run stands: the metrics, the clock, and the
      loop's `message_count`. */
  datatype Paced = Paced(metrics: ClientMetrics, now: int, count: nat)

  /** The rest of a rate-limited run from clock `now` with `count` cycles
      done: while the clock is before `deadline`, attempt once with outcome
      `xs(count)` (a `size`-byte payload), then sleep by the pacing rule. */
  function PacedRun(m: ClientMetrics, size: nat, now: int, deadline: int, delay: nat, xs: nat -> Exchange, count: nat): (r: Paced)
    requires delay > 0
    ensures r.now >= deadline && r.count >= count
    decreases deadline - now
  {
    if now >= deadline then Paced(m, now, count)
    else
      var x := xs(count);
      var after := now + Spent(x);
      PacedRun(Record(m, size, now, x), size, after + PacingSleep(after - now, delay), deadline, delay, xs, count + 1)
  }

  /** Every cycle of a paced run is counted once, as sent or as failed, so
      `message_count` grows exactly as their sum; only acknowledged cycles
      add bytes, `size` each; nothing else in the record moves. */
  lemma {:induction false} PacedRunCounts(m: ClientMetrics, size: nat, now: int, deadline: int, delay: nat, xs: nat -> Exchange, count: nat)
    requires delay > 0
    ensures var r := PacedRun(m, size, now, deadline, delay, xs, count);
      r.count >= count &&
      r.count - count == (r.metrics.totalMessagesSent + r.metrics.failedMessages) - (m.totalMessagesSent + m.failedMessages) &&
      r.metrics.totalMessagesSent >= m.totalMessagesSent &&
      r.metrics.startTime == m.startTime && r.metrics.endTime == m.endTime &&
      (m.WellFormed() ==> r.metrics.WellFormed())
    decreases deadline - now
  {
    if now < deadline {
      var x := xs(count);
      var after := now + Spent(x);
      var m' := Record(m, size, now, x);
      PacedRunCounts(m', size, after + PacingSleep(after - now, delay), deadline, delay, xs, count + 1);
    }
  }

  /** Only acknowledged cycles add bytes, `size` each. */
  lemma {:induction false} PacedRunBytes(m: ClientMetrics, size: nat, now: int, deadline: int, delay: nat, xs: nat -> Exchange, count: nat)
    requires delay > 0
    ensures var r := PacedRun(m, size, now, deadline, delay, xs, count);
      r.metrics.totalMessagesSent >= m.totalMessagesSent &&
      r.metrics.totalBytesSent == m.totalBytesSent + size * (r.metrics.totalMessagesSent - m.totalMessagesSent)
    decreases deadline - now
  {
    if now < deadline {
      var x := xs(count);
      var after := now + Spent(x);
      var m' := Record(m, size, now, x);
      PacedRunBytes(m', size, after + PacingSleep(after - now, delay), deadline, delay, xs, count + 1);
      var r := PacedRun(m', size, after + PacingSleep(after - now, delay), deadline, delay, xs, count + 1);
      ScaleStep(size, r.metrics.totalMessagesSent - m'.totalMessagesSent, x.Acked?);
    }
  }

  /** A paced run stops only at or after the deadline; it makes no attempt
      at all exactly when it starts at or after the deadline; each cycle
      lasts at least `delay`, so the attempts begun before the deadline are
      at most one more than fit into it at the target rate; and when no
      cycle takes longer than `delay` the run holds the rate exactly. */
  lemma {:induction false} PacedRunTiming(m: ClientMetrics, size: nat, now: int, deadline: int, delay: nat, xs: nat -> Exchange, count: nat)
    requires delay > 0
    ensures var r := PacedRun(m, size, now, deadline, delay, xs, count);
      r.now >= deadline && r.now >= now &&
      (r.count == count <==> now >= deadline) &&
      r.now - now >= (r.count - count) * delay &&
      (r.count > count ==> (r.count - count - 1) * delay < deadline - now) &&
      ((forall k :: count <= k < r.count ==> Spent(xs(k)) <= delay) ==> r.now == now + (r.count - count) * delay)
    decreases deadline - now
  {
    var r := PacedRun(m, size, now, deadline, delay, xs, count);
    PacedRunCounts(m, size, now, deadline, delay, xs, count);
    if now < deadline {
      var x := xs(count);
      var after := now + Spent(x);
      var next := after + PacingSleep(after - now, delay);
      var m' := Record(m, size, now, x);
      PacedRunTiming(m', size, next, deadline, delay, xs, count + 1);
      assert r == PacedRun(m', size, next, deadline, delay, xs, count + 1);
      var n := r.count - count;
      assert n * delay == (n - 1) * delay + delay;
      if r.count > count + 1 {
        assert (n - 1) * delay == (n - 2) * delay + delay;
      }
      if forall k :: count <= k < r.count ==> Spent(xs(k)) <= delay {
        assert Spent(xs(count)) <= delay;
        assert next == now + delay;
      }
    }
  }

  /** The send times a paced run records all fall inside the run's window,
      are at least `delay` apart, and the last of them is at least `delay`
      before the run ends: the loop never sends early to catch up. What was
      recorded before the run is kept as it was. */
  lemma {:induction false} PacedRunSpacing(m: ClientMetrics, size: nat, now: int, deadline: int, delay: nat, xs: nat -> Exchange, count: nat, from: nat)
    requires delay > 0
    requires from <= |m.sendTimes|
    requires forall i :: from <= i < |m.sendTimes| ==> m.sendTimes[i] < deadline && m.sendTimes[i] + delay <= now
    requires forall i :: from <= i < |m.sendTimes| - 1 ==> m.sendTimes[i] + delay <= m.sendTimes[i + 1]
    ensures var r := PacedRun(m, size, now, deadline, delay, xs, count);
      |m.sendTimes| <= |r.metrics.sendTimes| && r.metrics.sendTimes[..|m.sendTimes|] == m.sendTimes &&
      (forall i :: |m.sendTimes| <= i < |r.metrics.sendTimes| ==> now <= r.metrics.sendTimes[i]) &&
      (forall i :: from <= i < |r.metrics.sendTimes| ==> r.metrics.sendTimes[i] < deadline && r.metrics.sendTimes[i] + delay <= r.now) &&
      (forall i :: from <= i < |r.metrics.sendTimes| - 1 ==> r.metrics.sendTimes[i] + delay <= r.metrics.sendTimes[i + 1])
    decreases deadline - now
  {
    if now < deadline {
      var x := xs(count);
      var after := now + Spent(x);
      var next := after + PacingSleep(after - now, delay);
      var m' := Record(m, size, now, x);
      assert next >= now + delay;
      PacedRunSpacing(m', size, next, deadline, delay, xs, count + 1, from);
      var r := PacedRun(m', size, next, deadline, delay, xs, count + 1);
      assert r.metrics.sendTimes[..|m'.sendTimes|][..|m.sendTimes|] == r.metrics.sendTimes[..|m.sendTimes|];
    }
  }

  class Client {
    /** The `metrics` dictionary. */
    var metrics: ClientMetrics
    /** Payload sizes of the acknowledged messages, in order. */
    ghost var sentSizes: seq<nat>

    /** The record is well formed and its byte total is the sum of the
        acknowledged payloads. */
    ghost predicate Valid()
      reads this
    {
      metrics.WellFormed() &&
      |sentSizes| == metrics.totalMessagesSent &&
      metrics.totalBytesSent == Sum(sentSizes)
    }

    constructor ()
      ensures Valid()
      ensures metrics == InitialMetrics() && sentSizes == []
    {
      metrics := InitialMetrics();
      sentSizes := [];
    }

    /** One send-and-acknowledge attempt whose send starts at `sendStart`
        and whose outcome is `x`. Returns whether it succeeded and the
        latency (0 on failure). */
    method SendMessage(message: Payload, sendStart: int, x: Exchange) returns (success: bool, latency: int)
      requires Valid()
      modifies this
      ensures Valid()
      ensures metrics == Record(old(metrics), EncodedLength(message), sendStart, x)
      ensures success == x.Acked?
      ensures latency == (if success then x.roundTrip else 0)
      ensures sentSizes == if success then old(sentSizes) + [EncodedLength(message)] else old(sentSizes)
    {
      var size := EncodedLength(message);
      match x
      case Acked(rtt) =>
        metrics := metrics.(totalMessagesSent := metrics.totalMessagesSent + 1);
        metrics := metrics.(totalBytesSent := metrics.totalBytesSent + size);
        metrics := metrics.(latencies := metrics.latencies + [rtt]);
        metrics := metrics.(sendTimes := metrics.sendTimes + [sendStart]);
        SumAppend(sentSizes, size);
        sentSizes := sentSizes + [size];
        success, latency := true, rtt;
      case Failed(_) =>
        metrics := metrics.(failedMessages := metrics.failedMessages + 1);
        success, latency := false, 0;
    }

    /** The bulk test: starting at `t0`, send `"X" * messageSize` once per
        element of `xs` (so `num_messages == |xs|`), back to back, each
        attempt's outcome given by the element. */
    method SendBulkMessages(messageSize: int, t0: int, xs: seq<Exchange>)
      requires Valid()
      modifies this
      ensures Valid()
      ensures metrics == Replay(old(metrics).(startTime := Some(t0)), RepeatLength(messageSize), t0, xs)
                           .(endTime := Some(t0 + Elapsed(xs)))
    {
      metrics := metrics.(startTime := Some(t0));
      ghost var begin := metrics;
      var message := Text(Repeat('X', messageSize));
      TestMessageLength('X', messageSize);
      var size := EncodedLength(message);
      var now := t0;
      var i := 0;
      while i < |xs|
        invariant 0 <= i <= |xs|
        invariant Valid()
        invariant metrics == Replay(begin, size, t0, xs[..i])
        invariant now == t0 + Elapsed(xs[..i])
      {
        ReplayStep(begin, size, t0, xs, i);
        var success, latency := SendMessage(message, now, xs[i]);
        now := now + Spent(xs[i]);
        i := i + 1;
      }
      assert xs[..|xs|] == xs;
      metrics := metrics.(endTime := Some(now));
    }

    /** The rate-limited test: from `t0`, for `duration` ticks, send
        `"Y" * messageSize` and then sleep by the pacing rule (`delay`
        stands for `1.0 / messages_per_second`). Attempt number `k` (from 0)
        has outcome `xs(k)`. Returns the loop's `message_count`. */
    method SendVariableLoad(duration: int, delay: nat, messageSize: int, t0: int, xs: nat -> Exchange)
      returns (messageCount: nat)
      requires Valid() && delay > 0
      modifies this
      ensures Valid()
      ensures var r := PacedRun(old(metrics).(startTime := Some(t0)), RepeatLength(messageSize), t0, t0 + duration, delay, xs, 0);
              metrics == r.metrics.(endTime := Some(r.now)) && messageCount == r.count
    {
      metrics := metrics.(startTime := Some(t0));
      ghost var begin := metrics;
      var message := Text(Repeat('Y', messageSize));
      TestMessageLength('Y', messageSize);
      var size := EncodedLength(message);
      var now := t0;
      var endTime := now + duration;
      messageCount := 0;
      while now < endTime
        invariant Valid()
        invariant PacedRun(begin, size, t0, endTime, delay, xs, 0) == PacedRun(metrics, size, now, endTime, delay, xs, messageCount)
        decreases endTime - now
      {
        var sendStart := now;
        var x := xs(messageCount);
        var success, latency := SendMessage(message, sendStart, x);
        now := now + Spent(x);
        messageCount := messageCount + 1;
        var elapsed := now - sendStart;
        now := now + PacingSleep(elapsed, delay);
      }
      metrics := metrics.(endTime := Some(now));
    }
  }

  /** What `display_metrics` reports. */
  datatype Report = Report(
    duration: Option<int>,
    messagesSent: nat,
    bytesSent: nat,
    failedMessages: nat,
    latency: Option<Summary>,
    rates: Option<Rates>)

  /** Why the report as written can stop part-way. */
  datatype Fault = TypeError

  /** The rate block exactly as the report computes it: the guard tests the
      message count and the start time only, then subtracts the start time
      from the end time, which raises when the end time was never set. */
  function RatesAsWritten(m: ClientMetrics): (r: Result<Option<Rates>, Fault>)
    ensures r.Failure? <==> m.totalMessagesSent > 0 && Truthy(m.startTime) && m.endTime.None?
  {
    if m.totalMessagesSent > 0 && Truthy(m.startTime) then
      match m.endTime
      case None => Failure(TypeError)
      case Some(end) => Success(GuardedRates(m.totalMessagesSent, m.totalBytesSent, m.startTime, end))
    else
      Success(None)
  }

  /** A bulk run interrupted after its first acknowledged message has its
      start time set and its end time unset, and the report as written
      then fails instead of printing its summary. */
  lemma InterruptedBulkRunBreaksReport(t0: int, size: nat, rtt: nat)
    requires t0 != 0
    ensures RatesAsWritten(Record(InitialMetrics().(startTime := Some(t0)), size, t0, Acked(rtt))).Failure?
  {
  }

  /** The rate block with the guard also requiring an end time: computed
      exactly when messages were acknowledged, both times are set and the
      run lasted a positive time, and equal to the report as written
      whenever that one completes. */
  function ClientRates(m: ClientMetrics): (r: Option<Rates>)
    ensures r.Some? <==> m.totalMessagesSent > 0 && Truthy(m.startTime) && m.endTime.Some?
                         && m.endTime.value - m.startTime.value > 0
    ensures r.Some? ==> r.value == RatesOf(m.totalMessagesSent, m.totalBytesSent, m.endTime.value - m.startTime.value)
    ensures RatesAsWritten(m).Success? ==> RatesAsWritten(m).value == r
  {
    if m.endTime.Some? then GuardedRates(m.totalMessagesSent, m.totalBytesSent, m.startTime, m.endTime.value)
    else None
  }

  /** The client report: counters as recorded, latency statistics when any
      latency was recorded, rates under the guard of `ClientRates`. */
  function DisplayMetrics(m: ClientMetrics): (r: Report)
    ensures r.messagesSent == m.totalMessagesSent && r.bytesSent == m.totalBytesSent
    ensures r.failedMessages == m.failedMessages
    ensures r.duration.Some? <==> Truthy(m.startTime) && Truthy(m.endTime)
    ensures r.latency.Some? <==> |m.latencies| > 0
    ensures r.latency.Some? ==> r.latency.value.minimum <= r.latency.value.p50 <= r.latency.value.p95
                                <= r.latency.value.p99 <= r.latency.value.maximum
    ensures r.latency.Some? ==> r.latency.value.minimum as real <= r.latency.value.average
                                <= r.latency.value.maximum as real
    ensures r.rates.Some? ==> m.totalMessagesSent > 0 && Truthy(m.startTime) && m.endTime.Some? && m.endTime.value - m.startTime.value > 0
    ensures r.latency.Some? ==> r.latency.value == Summarize(m.latencies)
    ensures r.rates == ClientRates(m)
    ensures r.duration == Duration(m.startTime, m.endTime)
  {
    Report(
      Duration(m.startTime, m.endTime),
      m.totalMessagesSent,
      m.totalBytesSent,
      m.failedMessages,
      if |m.latencies| > 0 then Some(Summarize(m.latencies)) else None,
      ClientRates(m))
  }
}
