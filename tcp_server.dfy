/** The acknowledging server: its metrics record, the receive-and-acknowledge
    loop run for each connection, the connection counter of the accept loop,
    and the guards of its report. Socket I/O is abstracted: what each
    `recv` returned, when, and whether the reply could be sent, are inputs.
    Connections are handled one after another. */
module TcpServer {
  import opened Reporting

  /** What one `recv(4096)` on a connection produced: `data` (empty when
      the peer closed) read at clock `at`, with `ackSent` telling whether
      the acknowledgment sent back afterwards went out; or an error. */
  datatype Recv = Received(data: seq<bv8>, at: int, ackSent: bool) | RecvFailed

  /** The display branch a chunk took: decoded as UTF-8 text or shown as binary. */
  datatype Shown = Text(byteCount: nat) | Binary(byteCount: nat)

  predicate IsContinuation(b: bv8)
  {
    0x80 <= b <= 0xBF
  }

  /** Length of the well-formed UTF-8 sequence for one code point at the
      head of `b` (as the Unicode Standard's table of well-formed byte
      sequences lists them), or 0 when the head is not one. */
  function CodePointLength(b: seq<bv8>): (k: nat)
    requires |b| > 0
    ensures k <= 4 && k <= |b|
    ensures b[0] < 0x80 ==> k == 1
    ensures k > 0 ==> b[0] < 0x80 || 0xC2 <= b[0] <= 0xF4
  {
    var b0 := b[0];
    if b0 < 0x80 then 1
    else if 0xC2 <= b0 <= 0xDF then
      if |b| >= 2 && IsContinuation(b[1]) then 2 else 0
    else if b0 == 0xE0 then
      if |b| >= 3 && 0xA0 <= b[1] <= 0xBF && IsContinuation(b[2]) then 3 else 0
    else if 0xE1 <= b0 <= 0xEC || 0xEE <= b0 <= 0xEF then
      if |b| >= 3 && IsContinuation(b[1]) && IsContinuation(b[2]) then 3 else 0
    else if b0 == 0xED then
      if |b| >= 3 && 0x80 <= b[1] <= 0x9F && IsContinuation(b[2]) then 3 else 0
    else if b0 == 0xF0 then
      if |b| >= 4 && 0x90 <= b[1] <= 0xBF && IsContinuation(b[2]) && IsContinuation(b[3]) then 4 else 0
    else if 0xF1 <= b0 <= 0xF3 then
      if |b| >= 4 && IsContinuation(b[1]) && IsContinuation(b[2]) && IsContinuation(b[3]) then 4 else 0
    else if b0 == 0xF4 then
      if |b| >= 4 && 0x80 <= b[1] <= 0x8F && IsContinuation(b[2]) && IsContinuation(b[3]) then 4 else 0
    else 0
  }

  /** Whether `data.decode('utf-8')` succeeds. */
  predicate ValidUtf8(b: seq<bv8>): (ok: bool)
    ensures ok && b != [] ==> b[0] < 0x80 || 0xC2 <= b[0] <= 0xF4
    decreases |b|
  {
    b == [] || (CodePointLength(b) > 0 && ValidUtf8(b[CodePointLength(b)..]))
  }

  /** Bytes below 0x80 always decode, so the client's test payloads are shown as text. */
  lemma {:induction false} AsciiIsValidUtf8(b: seq<bv8>)
    requires forall i :: 0 <= i < |b| ==> b[i] < 0x80
    ensures ValidUtf8(b)
  {
    if b != [] {
      AsciiIsValidUtf8(b[1..]);
    }
  }

  /** The display branch of a received chunk. */
  function Show(data: seq<bv8>): (s: Shown)
    ensures s.byteCount == |data|
    ensures s.Text? <==> ValidUtf8(data)
  {
    if ValidUtf8(data) then Text(|data|) else Binary(|data|)
  }

  predicate IsDigits(s: string)
  {
    forall i :: 0 <= i < |s| ==> '0' <= s[i] <= '9'
  }

  function DigitChar(d: nat): (c: char)
    requires d < 10
    ensures '0' <= c <= '9' && (c as int) - ('0' as int) == d
  {
    (('0' as int) + d) as char
  }

  /** Python's `str(n)` for a natural number: its decimal digits, with no
      leading zero. */
  function Decimal(n: nat): (s: string)
    ensures |s| >= 1 && IsDigits(s)
    ensures s[0] == '0' <==> n == 0
    decreases n
  {
    if n < 10 then [DigitChar(n)] else Decimal(n / 10) + [DigitChar(n % 10)]
  }

  /** The number a string of decimal digits denotes. */
  function ParseDecimal(s: string): nat
    requires IsDigits(s)
  {
    if s == [] then 0
    else 10 * ParseDecimal(s[..|s| - 1]) + ((s[|s| - 1] as int) - ('0' as int))
  }

  /** `Decimal` loses nothing: the digits read back as the number. */
  lemma {:induction false} DecimalRoundTrip(n: nat)
    ensures ParseDecimal(Decimal(n)) == n
    decreases n
  {
    if n >= 10 {
      DecimalRoundTrip(n / 10);
      var s := Decimal(n);
      assert s[..|s| - 1] == Decimal(n / 10);
    }
  }

  /** The acknowledgment text `f"ACK:{n}"`. */
  function AckText(n: nat): (s: string)
    ensures |s| >= 5 && s[..4] == "ACK:" && IsDigits(s[4..])
  {
    "ACK:" + Decimal(n)
  }

  /** Reads the number back out of an acknowledgment, if `s` is one. */
  function ParseAck(s: string): Option<nat>
  {
    if |s| > 4 && s[..4] == "ACK:" && IsDigits(s[4..]) then Some(ParseDecimal(s[4..])) else None
  }

  /** An acknowledgment carries its number recoverably, so distinct counts
      give distinct replies. */
  lemma AckRoundTrip(n: nat)
    ensures ParseAck(AckText(n)) == Some(n)
  {
    var s := AckText(n);
    assert s[..4] == "ACK:" && s[4..] == Decimal(n);
    DecimalRoundTrip(n);
  }

  /** The server's `metrics` dictionary. */
  datatype ServerMetrics = ServerMetrics(
    totalConnections: nat,
    totalBytesReceived: nat,
    totalMessages: nat,
    startTime: Option<int>,
    endTime: Option<int>,
    messageTimestamps: seq<int>)
  {
    /** One receive timestamp per counted message. */
    predicate WellFormed()
    {
      |messageTimestamps| == totalMessages
    }
  }

  /** The record a new server starts with. */
  function InitialMetrics(): (m: ServerMetrics)
    ensures m.WellFormed()
    ensures m.totalConnections == m.totalMessages == m.totalBytesReceived == 0
  {
    ServerMetrics(0, 0, 0, None, None, [])
  }

  /** The accounting for one non-empty chunk of `size` bytes received at
      `at`: one more message, its bytes, its timestamp, and nothing else. */
  function CountChunk(m: ServerMetrics, size: nat, at: int): (r: ServerMetrics)
    ensures r.totalMessages == m.totalMessages + 1
    ensures r.totalBytesReceived == m.totalBytesReceived + size
    ensures r.messageTimestamps == m.messageTimestamps + [at]
    ensures r.totalConnections == m.totalConnections && r.startTime == m.startTime && r.endTime == m.endTime
    ensures m.WellFormed() ==> r.WellFormed()
  {
    m.(messageTimestamps := m.messageTimestamps + [at],
       totalBytesReceived := m.totalBytesReceived + size,
       totalMessages := m.totalMessages + 1)
  }

  /** How a connection's handler stopped: the peer closed (an empty read),
      a receive or a reply raised, or the connection is still open after
      the reads given. */
  datatype SessionEnd = PeerClosed | Aborted | Open

  /** The outcome of handling one connection: the metrics afterwards, the
      replies sent (or attempted), the display branch of each chunk, and
      how the handler stopped. */
  datatype Session = Session(metrics: ServerMetrics, replies: seq<string>, shown: seq<Shown>, end: SessionEnd)

  function Prepend(replies: seq<string>, shown: seq<Shown>, s: Session): Session
  {
    Session(s.metrics, replies + s.replies, shown + s.shown, s.end)
  }

  /** `handle_client` on a connection whose reads are `arrivals`, from
      metrics `m`: each non-empty chunk is counted, then answered with
      `ACK:` and the server-wide message total; an empty read, a failed
      read or a failed reply ends the loop. */
  function Handle(m: ServerMetrics, arrivals: seq<Recv>): (r: Session)
    ensures |r.replies| == |r.shown| <= |arrivals|
    decreases |arrivals|
  {
    if arrivals == [] then Session(m, [], [], Open)
    else
      match arrivals[0]
      case RecvFailed => Session(m, [], [], Aborted)
      case Received(data, at, ackSent) =>
        if |data| == 0 then Session(m, [], [], PeerClosed)
        else
          var counted := CountChunk(m, |data|, at);
          var reply := AckText(counted.totalMessages);
          if ackSent then Prepend([reply], [Show(data)], Handle(counted, arrivals[1..]))
          else Session(counted, [reply], [Show(data)], Aborted)
  }

  /** Total bytes of the chunks among `arrivals`. */
  function ChunkBytes(arrivals: seq<Recv>): nat
  {
    if arrivals == [] then 0
    else (if arrivals[0].Received? then |arrivals[0].data| else 0) + ChunkBytes(arrivals[1..])
  }

  /** Receive times of the chunks among `arrivals`. */
  function ArrivalTimes(arrivals: seq<Recv>): seq<int>
  {
    if arrivals == [] then []
    else (if arrivals[0].Received? then [arrivals[0].at] else []) + ArrivalTimes(arrivals[1..])
  }

  /** One answered chunk: counted, acknowledged with the new total, then
      the handler carries on with the remaining reads. */
  lemma HandleChunk(m: ServerMetrics, a: Recv, rest: seq<Recv>)
    requires a.Received? && |a.data| > 0 && a.ackSent
    ensures Handle(m, [a] + rest) ==
      Prepend([AckText(m.totalMessages + 1)], [Show(a.data)], Handle(CountChunk(m, |a.data|, a.at), rest))
  {
    assert ([a] + rest)[1..] == rest;
  }

  lemma PrependTwice(r1: seq<string>, s1: seq<Shown>, r2: seq<string>, s2: seq<Shown>, x: Session)
    ensures Prepend(r1, s1, Prepend(r2, s2, x)) == Prepend(r1 + r2, s1 + s2, x)
  {
    assert r1 + (r2 + x.replies) == (r1 + r2) + x.replies;
    assert s1 + (s2 + x.shown) == (s1 + s2) + x.shown;
  }

  /** A handler counts one message and sends one reply per non-empty chunk
      it processes; the chunks it processes are the first `|replies|`
      reads, all non-empty; the connection counter and the run's times are
      not touched; the record stays well formed. */
  lemma {:induction false} HandleCounts(m: ServerMetrics, arrivals: seq<Recv>)
    ensures var r := Handle(m, arrivals); var k := |r.replies|;
      k <= |arrivals| && |r.shown| == k &&
      r.metrics.totalMessages == m.totalMessages + k &&
      (forall j :: 0 <= j < k ==> arrivals[j].Received? && |arrivals[j].data| > 0) &&
      r.metrics.totalConnections == m.totalConnections &&
      r.metrics.startTime == m.startTime && r.metrics.endTime == m.endTime &&
      (m.WellFormed() ==> r.metrics.WellFormed())
    decreases |arrivals|
  {
    if arrivals != [] && arrivals[0].Received? && |arrivals[0].data| > 0 && arrivals[0].ackSent {
      HandleCounts(CountChunk(m, |arrivals[0].data|, arrivals[0].at), arrivals[1..]);
    }
  }

  /** The read just before position `k` (if any) had its reply sent. */
  predicate RepliedBefore(arrivals: seq<Recv>, k: nat)
    requires k <= |arrivals|
  {
    k == 0 || (arrivals[k - 1].Received? && arrivals[k - 1].ackSent)
  }

  /** A handler goes on until the first empty read, failed read or failed
      reply, and its end says which: every processed read but the last had
      its reply sent; an open session consumed every read with all replies
      sent; a closed one stopped at an empty read; an aborted one stopped
      at a failed read, or its last processed read's reply failed. */
  lemma {:induction false} HandleStops(m: ServerMetrics, arrivals: seq<Recv>)
    ensures var r := Handle(m, arrivals); var k := |r.replies|;
      k <= |arrivals| &&
      (forall j :: 0 <= j < k - 1 ==> arrivals[j].Received? && arrivals[j].ackSent) &&
      (r.end == Open ==> k == |arrivals| && RepliedBefore(arrivals, k)) &&
      (r.end == PeerClosed ==> k < |arrivals| && arrivals[k].Received? && |arrivals[k].data| == 0 && RepliedBefore(arrivals, k)) &&
      (r.end == Aborted ==> (k < |arrivals| && arrivals[k].RecvFailed? && RepliedBefore(arrivals, k)) ||
                            (k > 0 && arrivals[k - 1].Received? && !arrivals[k - 1].ackSent))
    decreases |arrivals|
  {
    if arrivals != [] && arrivals[0].Received? && |arrivals[0].data| > 0 && arrivals[0].ackSent {
      var a := arrivals[0];
      var rest := arrivals[1..];
      HandleStops(CountChunk(m, |a.data|, a.at), rest);
      var k := |Handle(m, arrivals).replies|;
      assert k == |Handle(CountChunk(m, |a.data|, a.at), rest).replies| + 1;
      assert forall j :: 1 <= j <= |rest| ==> arrivals[j] == rest[j - 1];
    }
  }

  /** The byte total grows by the sizes of the chunks the handler processed. */
  lemma {:induction false} HandleBytes(m: ServerMetrics, arrivals: seq<Recv>)
    ensures var r := Handle(m, arrivals);
      |r.replies| <= |arrivals| &&
      r.metrics.totalBytesReceived == m.totalBytesReceived + ChunkBytes(arrivals[..|r.replies|])
    decreases |arrivals|
  {
    if arrivals != [] && arrivals[0].Received? && |arrivals[0].data| > 0 {
      var a := arrivals[0];
      var k := |Handle(m, arrivals).replies|;
      if a.ackSent {
        HandleBytes(CountChunk(m, |a.data|, a.at), arrivals[1..]);
        assert arrivals[..k] == [a] + arrivals[1..][..k - 1];
      } else {
        assert arrivals[..k] == [a];
      }
    }
  }

  /** The timestamp list gains the receive times of the chunks the
      handler processed, in order. */
  lemma {:induction false} HandleTimestamps(m: ServerMetrics, arrivals: seq<Recv>)
    ensures var r := Handle(m, arrivals);
      |r.replies| <= |arrivals| &&
      r.metrics.messageTimestamps == m.messageTimestamps + ArrivalTimes(arrivals[..|r.replies|])
    decreases |arrivals|
  {
    if arrivals != [] && arrivals[0].Received? && |arrivals[0].data| > 0 {
      var a := arrivals[0];
      var k := |Handle(m, arrivals).replies|;
      if a.ackSent {
        HandleTimestamps(CountChunk(m, |a.data|, a.at), arrivals[1..]);
        assert arrivals[..k] == [a] + arrivals[1..][..k - 1];
      } else {
        assert arrivals[..k] == [a];
      }
    }
  }

  /** The replies of a handler are `ACK:m+1`, `ACK:m+2`, ... where `m` is
      the server-wide message total it started from. */
  lemma {:induction false} RepliesCountUp(m: ServerMetrics, arrivals: seq<Recv>)
    ensures forall j :: 0 <= j < |Handle(m, arrivals).replies| ==>
      Handle(m, arrivals).replies[j] == AckText(m.totalMessages + j + 1)
    decreases |arrivals|
  {
    if arrivals != [] && arrivals[0].Received? && |arrivals[0].data| > 0 && arrivals[0].ackSent {
      var a := arrivals[0];
      var counted := CountChunk(m, |a.data|, a.at);
      var tail := Handle(counted, arrivals[1..]);
      RepliesCountUp(counted, arrivals[1..]);
      assert arrivals == [a] + arrivals[1..];
      HandleChunk(m, a, arrivals[1..]);
      var replies := Handle(m, arrivals).replies;
      assert replies == [AckText(m.totalMessages + 1)] + tail.replies;
      forall j | 1 <= j < |replies|
        ensures replies[j] == AckText(m.totalMessages + j + 1)
      {
        assert replies[j] == tail.replies[j - 1];
      }
    }
  }

  /** The numbers read back from a handler's replies rise by exactly one
      per chunk, starting just above the total it started from. */
  lemma AckNumbersRise(m: ServerMetrics, arrivals: seq<Recv>)
    ensures forall j :: 0 <= j < |Handle(m, arrivals).replies| ==>
      ParseAck(Handle(m, arrivals).replies[j]) == Some(m.totalMessages + j + 1)
  {
    var r := Handle(m, arrivals);
    RepliesCountUp(m, arrivals);
    forall j | 0 <= j < |r.replies|
      ensures ParseAck(r.replies[j]) == Some(m.totalMessages + j + 1)
    {
      assert r.replies[j] == AckText(m.totalMessages + j + 1);
      AckRoundTrip(m.totalMessages + j + 1);
    }
  }

  /** An empty read ends the handler at once, with no change to any metric and no reply. */
  lemma EmptyReadEndsSession(m: ServerMetrics, at: int, ackSent: bool, rest: seq<Recv>)
    ensures Handle(m, [Received([], at, ackSent)] + rest) == Session(m, [], [], PeerClosed)
  {
  }

  /** Two reads agree in everything the accounting looks at. */
  predicate SameShape(a: Recv, b: Recv)
  {
    match a
    case RecvFailed => b.RecvFailed?
    case Received(d, t, s) => b.Received? && |b.data| == |d| && b.at == t && b.ackSent == s
  }

  /** Whether a chunk decodes as UTF-8 changes only how it is shown: reads
      of the same lengths, times and reply outcomes give the same metrics,
      replies and end, whatever their bytes. */
  lemma {:induction false} DecodingDoesNotAffectAccounting(m: ServerMetrics, a: seq<Recv>, b: seq<Recv>)
    requires |a| == |b|
    requires forall i :: 0 <= i < |a| ==> SameShape(a[i], b[i])
    ensures Handle(m, a).metrics == Handle(m, b).metrics
    ensures Handle(m, a).replies == Handle(m, b).replies
    ensures Handle(m, a).end == Handle(m, b).end
    ensures |Handle(m, a).shown| == |Handle(m, b).shown|
    decreases |a|
  {
    if a != [] && a[0].Received? && |a[0].data| > 0 && a[0].ackSent {
      var counted := CountChunk(m, |a[0].data|, a[0].at);
      assert CountChunk(m, |b[0].data|, b[0].at) == counted;
      DecodingDoesNotAffectAccounting(counted, a[1..], b[1..]);
    }
  }

  /** All the replies of several connections, in order. */
  function Flatten(replies: seq<seq<string>>): seq<string>
  {
    if replies == [] then [] else Flatten(replies[..|replies| - 1]) + replies[|replies| - 1]
  }

  /** Where the accept loop stands: the metrics and each connection's replies. */
  datatype Run = Run(metrics: ServerMetrics, replies: seq<seq<string>>)

  /** The accept loop over `connections`, from metrics `m`: each accepted
      connection is counted, then its reads are handled, before the next
      one is accepted. */
  function Serve(m: ServerMetrics, connections: seq<seq<Recv>>): (r: Run)
    ensures |r.replies| == |connections|
  {
    if connections == [] then Run(m, [])
    else Admit(Serve(m, connections[..|connections| - 1]), connections[|connections| - 1])
  }

  /** One accepted connection whose reads are `arrivals`. */
  function Admit(prior: Run, arrivals: seq<Recv>): Run
  {
    var session := Handle(Accepted(prior.metrics), arrivals);
    Run(session.metrics, prior.replies + [session.replies])
  }

  /** The metrics once one more connection is accepted. */
  function Accepted(m: ServerMetrics): ServerMetrics
  {
    m.(totalConnections := m.totalConnections + 1)
  }

  lemma ServeStep(m: ServerMetrics, connections: seq<seq<Recv>>, c: nat)
    requires c < |connections|
    ensures Serve(m, connections[..c + 1]) == Admit(Serve(m, connections[..c]), connections[c])
  {
    assert connections[..c + 1][..c] == connections[..c];
  }

  /** The accept loop counts one connection per accepted connection and
      leaves the run's times alone; the record stays well formed. */
  lemma {:induction false} ServeCounts(m: ServerMetrics, connections: seq<seq<Recv>>)
    ensures var r := Serve(m, connections);
      r.metrics.totalConnections == m.totalConnections + |connections| &&
      r.metrics.startTime == m.startTime && r.metrics.endTime == m.endTime &&
      (m.WellFormed() ==> r.metrics.WellFormed())
  {
    if connections != [] {
      var init := connections[..|connections| - 1];
      ServeCounts(m, init);
      HandleCounts(Accepted(Serve(m, init).metrics), connections[|connections| - 1]);
    }
  }

  /** Acknowledgment numbers run on across connections: all replies of the
      loop, in order, are `ACK:m+1`, `ACK:m+2`, ..., and the message total
      grows by their number. */
  lemma {:induction false} ServeAcks(m: ServerMetrics, connections: seq<seq<Recv>>)
    ensures var r := Serve(m, connections);
      r.metrics.totalMessages == m.totalMessages + |Flatten(r.replies)| &&
      forall j :: 0 <= j < |Flatten(r.replies)| ==> Flatten(r.replies)[j] == AckText(m.totalMessages + j + 1)
  {
    if connections != [] {
      var init := connections[..|connections| - 1];
      ServeAcks(m, init);
      var prior := Serve(m, init);
      var accepted := Accepted(prior.metrics);
      var session := Handle(accepted, connections[|connections| - 1]);
      HandleCounts(accepted, connections[|connections| - 1]);
      RepliesCountUp(accepted, connections[|connections| - 1]);
      var all := prior.replies + [session.replies];
      assert all[..|all| - 1] == prior.replies;
      assert Flatten(all) == Flatten(prior.replies) + session.replies;
    }
  }

  class Server {
    /** The `metrics` dictionary. */
    var metrics: ServerMetrics
    /** Sizes of the counted chunks, in order. */
    ghost var chunkSizes: seq<nat>

    /** The record is well formed and its byte total is the sum of the
        counted chunks. */
    ghost predicate Valid()
      reads this
    {
      metrics.WellFormed() &&
      |chunkSizes| == metrics.totalMessages &&
      metrics.totalBytesReceived == Sum(chunkSizes)
    }

    constructor ()
      ensures Valid()
      ensures metrics == InitialMetrics() && chunkSizes == []
    {
      metrics := InitialMetrics();
      chunkSizes := [];
    }

    /** One accepted connection: the connection counter goes up by one
        and nothing else changes. */
    method Accept()
      requires Valid()
      modifies this
      ensures Valid()
      ensures metrics == old(metrics).(totalConnections := old(metrics.totalConnections) + 1)
      ensures chunkSizes == old(chunkSizes)
    {
      metrics := metrics.(totalConnections := metrics.totalConnections + 1);
    }

    /** The receive-and-acknowledge loop of one connection whose reads
        are `arrivals`. */
    method HandleClient(arrivals: seq<Recv>) returns (replies: seq<string>, shown: seq<Shown>, end: SessionEnd)
      requires Valid()
      modifies this
      ensures Valid()
      ensures Session(metrics, replies, shown, end) == Handle(old(metrics), arrivals)
    {
      ghost var begin := metrics;
      replies, shown, end := [], [], Open;
      var i := 0;
      while i < |arrivals|
        invariant 0 <= i <= |arrivals|
        invariant Valid()
        invariant Handle(begin, arrivals) == Prepend(replies, shown, Handle(metrics, arrivals[i..]))
      {
        var a := arrivals[i];
        assert arrivals[i..] == [a] + arrivals[i + 1..];
        if a.RecvFailed? {
          end := Aborted;
          break;
        }
        var data := a.data;
        if |data| == 0 {
          end := PeerClosed;
          break;
        }
        ghost var before := metrics;
        metrics := metrics.(messageTimestamps := metrics.messageTimestamps + [a.at]);
        metrics := metrics.(totalBytesReceived := metrics.totalBytesReceived + |data|);
        metrics := metrics.(totalMessages := metrics.totalMessages + 1);
        assert metrics == CountChunk(before, |data|, a.at);
        SumAppend(chunkSizes, |data|);
        chunkSizes := chunkSizes + [|data|];
        var ack := AckText(metrics.totalMessages);
        if !a.ackSent {
          replies, shown, end := replies + [ack], shown + [Show(data)], Aborted;
          break;
        }
        HandleChunk(before, a, arrivals[i + 1..]);
        PrependTwice(replies, shown, [ack], [Show(data)], Handle(metrics, arrivals[i + 1..]));
        replies, shown := replies + [ack], shown + [Show(data)];
        i := i + 1;
      }
    }

    /** `start` then `cleanup`: if the socket could be bound, record the
        start time `t0`, then accept the connections in `connections` one
        after another, counting each and handling its reads; finally record
        the end time `tEnd`. Returns each connection's replies. */
    method Start(bound: bool, t0: int, connections: seq<seq<Recv>>, tEnd: int) returns (replies: seq<seq<string>>)
      requires Valid()
      modifies this
      ensures Valid()
      ensures bound ==> var run := Serve(old(metrics).(startTime := Some(t0)), connections);
        metrics == run.metrics.(endTime := Some(tEnd)) && replies == run.replies
      ensures !bound ==> metrics == old(metrics).(endTime := Some(tEnd)) && replies == []
      ensures metrics.totalConnections == old(metrics.totalConnections) + |replies|
      ensures |replies| == (if bound then |connections| else 0)
      ensures metrics.startTime == (if bound then Some(t0) else old(metrics.startTime))
      ensures metrics.endTime == Some(tEnd)
      ensures var all := Flatten(replies);
        metrics.totalMessages == old(metrics.totalMessages) + |all| &&
        forall j :: 0 <= j < |all| ==> all[j] == AckText(old(metrics.totalMessages) + j + 1)
    {
      replies := [];
      if bound {
        metrics := metrics.(startTime := Some(t0));
        ghost var begin := metrics;
        replies := AcceptLoop(connections);
        ServeCounts(begin, connections);
        ServeAcks(begin, connections);
      }
      metrics := metrics.(endTime := Some(tEnd));
    }

    /** The `while True` accept loop of `start`, over the connections that
        arrive before it stops: each is counted by `Accept`, then handled. */
    method AcceptLoop(connections: seq<seq<Recv>>) returns (replies: seq<seq<string>>)
      requires Valid()
      modifies this
      ensures Valid()
      ensures Run(metrics, replies) == Serve(old(metrics), connections)
    {
      ghost var begin := metrics;
      replies := [];
      var c := 0;
      while c < |connections|
        invariant 0 <= c <= |connections|
        invariant Valid()
        invariant Serve(begin, connections[..c]) == Run(metrics, replies)
      {
        ServeStep(begin, connections, c);
        Accept();
        var r, shown, end := HandleClient(connections[c]);
        replies := replies + [r];
        c := c + 1;
      }
      assert connections[..c] == connections;
    }
  }

  /** What `display_metrics` reports. */
  datatype Report = Report(duration: Option<int>, connections: nat, messages: nat, bytes: nat, rates: Option<Rates>)

  /** The server report, produced by `cleanup` once the end time is set:
      counters as recorded; rates only when a message was counted, the
      start time is set and the run lasted a positive time, so no division
      by zero occurs. */
  function DisplayMetrics(m: ServerMetrics): (r: Report)
    requires m.endTime.Some?
    ensures r.connections == m.totalConnections && r.messages == m.totalMessages && r.bytes == m.totalBytesReceived
    ensures r.duration.Some? <==> Truthy(m.startTime) && Truthy(m.endTime)
    ensures r.rates.Some? <==> m.totalMessages > 0 && Truthy(m.startTime) && m.endTime.value - m.startTime.value > 0
    ensures r.rates.Some? ==> r.rates.value.averageMessageSize * (m.totalMessages as real) == m.totalBytesReceived as real
    ensures r.rates.Some? ==> r.rates.value == RatesOf(m.totalMessages, m.totalBytesReceived, m.endTime.value - m.startTime.value)
    ensures r.duration == Duration(m.startTime, m.endTime)
  {
    Report(
      Duration(m.startTime, m.endTime),
      m.totalConnections,
      m.totalMessages,
      m.totalBytesReceived,
      GuardedRates(m.totalMessages, m.totalBytesReceived, m.startTime, m.endTime.value))
  }
}
