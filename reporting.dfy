/** Shared vocabulary of the two metrics reports: optional values, failures,
    sums, the truth value the reports give an optional timestamp, and the guarded
    rate figures (messages per second, megabits per second, average size)
    that both `display_metrics` methods print. */
module Reporting {

  datatype Option<+T> = None | Some(value: T)

  datatype Result<+R, +E> = Success(value: R) | Failure(error: E)

  /** Sum of a sequence (Python's `sum`), taken from the back: the byte totals of both
      metrics records and the latency total of the client report. */
  function Sum(s: seq<int>): int
  {
    if s == [] then 0 else Sum(s[..|s| - 1]) + s[|s| - 1]
  }

  lemma SumAppend(s: seq<int>, x: int)
    ensures Sum(s + [x]) == Sum(s) + x
  {
    assert (s + [x])[..|s|] == s;
  }

  /** A timestamp slot of a metrics record: `None` until a run sets it.
      The reports test it as Python does (`if start_time:`), so an unset
      slot and a slot holding time 0 are both false. */
  predicate Truthy(t: Option<int>)
  {
    t.Some? && t.value != 0
  }

  /** The figures a report derives from a count of messages, a byte total
      and a run duration (all in the model's abstract time unit). */
  datatype Rates = Rates(messagesPerSecond: real, throughputMbps: real, averageMessageSize: real)

  /** The three rate figures. Each is characterised by the quantity it
      recovers when multiplied back, which is what the division means. */
  function RatesOf(messages: nat, bytes: nat, duration: int): (r: Rates)
    requires messages > 0 && duration > 0
    ensures r.messagesPerSecond * (duration as real) == messages as real
    ensures r.throughputMbps * (duration as real) * 1000000.0 == (bytes * 8) as real
    ensures r.averageMessageSize * (messages as real) == bytes as real
    ensures r.messagesPerSecond > 0.0 && r.throughputMbps >= 0.0 && r.averageMessageSize >= 0.0
  {
    var d := duration as real;
    Rates((messages as real) / d, ((bytes * 8) as real) / d / 1000000.0, (bytes as real) / (messages as real))
  }

  /** The rate block of a report: computed only when at least one message
      was counted, the start time is set, and the run lasted a positive
      time; otherwise the report prints no rates. */
  function GuardedRates(messages: nat, bytes: nat, start: Option<int>, end: int): (r: Option<Rates>)
    ensures r.Some? <==> messages > 0 && Truthy(start) && end - start.value > 0
    ensures r.Some? ==> r.value == RatesOf(messages, bytes, end - start.value)
  {
    if messages > 0 && Truthy(start) then
      var duration := end - start.value;
      if duration > 0 then Some(RatesOf(messages, bytes, duration)) else None
    else
      None
  }

  /** The duration line of a report, printed only when both timestamps are
      set (and non-zero). */
  function Duration(start: Option<int>, end: Option<int>): (d: Option<int>)
    ensures d.Some? <==> Truthy(start) && Truthy(end)
    ensures d.Some? ==> start.value + d.value == end.value
  {
    if Truthy(start) && Truthy(end) then Some(end.value - start.value) else None
  }
}
