# TCP benchmark client and server — a Dafny model

This project models the core of a small TCP benchmarking pair written in Python.

- **`TCPServer`** accepts connections. For each connection it runs a receive-and-acknowledge loop. It counts the messages and bytes received and the receive timestamps. It answers every non-empty chunk with `ACK:<n>`, and at shutdown it prints a metrics report.
- **`TCPClient`** drives load against the server in two patterns:
  - a bulk run of a fixed number of messages;
  - a rate-limited run over a duration, which sleeps out the rest of each inter-message delay.

  The client records per-message round-trip latency. Its report gives the average, minimum, maximum and percentile latency, plus the message rate, throughput and average message size.

The model is split into four modules, one file each.

- `reporting.dfy` (`Reporting`) holds what both reports share:
  - `Option` and `Result`;
  - `Sum`, used by the byte totals and the latency average;
  - Python's truth value of an optional timestamp (`Truthy`). `None` and `0` are both false.
  - the three rate figures and the guard under which a report computes them;
  - the guarded duration line.
- `latency_stats.dfy` (`LatencyStats`) holds the latency block of the client report:
  - minimum, maximum and mean;
  - an insertion sort proved sorted and a permutation;
  - the percentile indices;
  - the summary, with its ordering `min <= p50 <= p95 <= p99 <= max` and `min <= average <= max`.
- `tcp_client.dfy` (`TcpClient`) holds the client side:
  - the metrics record;
  - `Record`, the accounting of one send-and-acknowledge attempt;
  - the specification functions `Replay` (bulk run) and `PacedRun` (rate-limited run), with lemmas about them;
  - `class Client`, whose methods update the `metrics` field as the Python methods update `self.metrics`;
  - the report.
- `tcp_server.dfy` (`TcpServer`) holds the server side:
  - the metrics record;
  - the accounting of one chunk;
  - `Handle`, the specification function of one connection's loop, with lemmas about its counters and acknowledgments;
  - the acknowledgment text, with a decimal round trip;
  - the UTF-8 validity test that decides the display branch;
  - `Serve`, the specification function of the accept loop, with lemmas about its counters and acknowledgments;
  - `class Server`, whose methods are `Accept`, `HandleClient`, `AcceptLoop` and `Start`;
  - the report.

Time is an integer count of abstract ticks. The outcome of every socket call is an input to the model:

- **Client.** An attempt is an `Exchange`: either `Acked(roundTrip)` or `Failed(spent)`, together with the ticks it took.
- **Server.** A read is a `Recv`: either the bytes received, with the time they were read and whether the reply could be sent, or a failed read.

The server's acknowledgment number is the **server-wide** message total after the increment (`tcp_server.py:94`). It is not a per-connection counter. Acknowledgments therefore continue across connections rather than restarting at 1. The model follows the code:

- `TcpServer.RepliesCountUp` states that a connection's replies are `ACK:m+1, ACK:m+2, ...`, where `m` is the total before the connection started.
- `TcpServer.ServeAcks` and `TcpServer.Server.Start` state that numbering carries on across connections.

## Model

| member | source | states |
|---|---|---|
| Reporting.RatesOf | tcp_server.py:130-134 | messages per second times the duration gives the message count back; Mbps times the duration times 10^6 gives the bits; average size times the count gives the bytes |
| Reporting.GuardedRates | tcp_server.py:127-134 | rates exist exactly when at least one message was counted, the start time is truthy and the duration is positive, so no division by zero; when present they are the rates of that count, byte total and duration |
| Reporting.Duration | tcp_server.py:119-121 | the duration line exists exactly when both timestamps are truthy; start plus duration is the end |
| LatencyStats.Min | tcp_client.py:164 | the minimum is one of the samples and no sample is smaller |
| LatencyStats.Max | tcp_client.py:165 | the maximum is one of the samples and no sample is larger |
| LatencyStats.Sort | tcp_client.py:173 | the sorted copy is ascending and a permutation of the samples |
| LatencyStats.MeanBetweenMinAndMax | tcp_client.py:163-165 | the average of a non-empty sample list lies between its minimum and maximum |
| LatencyStats.Mean | tcp_client.py:163 | the average times the sample count gives back the sum |
| LatencyStats.PercentileIndex | tcp_client.py:175-176 | the index is the floor of n·p/100, so it is below n and in bounds |
| LatencyStats.MedianIndexIsPercentile50 | tcp_client.py:174 | the median index `n // 2` is the 50th-percentile index |
| LatencyStats.PercentileIndexMonotone | tcp_client.py:174-176 | a higher percentile never reads from a lower index |
| LatencyStats.SortedPicks | tcp_client.py:173-176 | the three percentile reads from the ascending copy are samples, ordered, between minimum and maximum |
| LatencyStats.Summarize | tcp_client.py:161-180 | the average is the mean; p50, p95 and p99 are the ascending copy read at `n // 2`, `int(n*0.95)` and `int(n*0.99)`; min and max are samples; min <= p50 <= p95 <= p99 <= max; min <= average <= max; every sample lies in [min, max] |
| TcpClient.Utf8Length | tcp_client.py:52-53 | a text payload encodes to between one and four bytes per character |
| TcpClient.AsciiUtf8Length | tcp_client.py:52-53 | an ASCII text encodes to one byte per character |
| TcpClient.Repeat | tcp_client.py:87 | `c * k` has k characters, none when k <= 0, all equal to c |
| TcpClient.TestMessageLength | tcp_client.py:87 | the test message `"X" * size` (or `"Y" * size`) is counted as exactly max(size, 0) bytes |
| TcpClient.EncodedLength | tcp_client.py:52-55 | bytes are counted as their length; a text is counted as its UTF-8 length, between one and four bytes per character |
| TcpClient.InitialMetrics | tcp_client.py:18-26 | a new record has zero counters and empty lists, and is well formed |
| TcpClient.Record | tcp_client.py:45-77 | exactly one of sent/failed rises by one (sent iff acknowledged); a failure changes nothing else; a success adds the payload's bytes, one latency and one send time; timestamps untouched; list lengths stay equal to the sent count |
| TcpClient.Replay | tcp_client.py:89-91 | the bulk run's record is `Record` applied once per attempt, each started at the clock after the previous attempts; every attempt is counted once, as sent or as failed |
| TcpClient.ReplayAccounting | tcp_client.py:89-91 | after a bulk run of n attempts, sent+failed rose by n; bytes rose by size per acknowledged attempt; the latencies and send times gained are those of the acknowledged attempts in order; record stays well formed |
| TcpClient.PacingSleep | tcp_client.py:133-135 | the sleep is non-negative, positive exactly when the cycle was shorter than the delay, brings the cycle up to exactly the delay, and never exceeds the delay |
| TcpClient.PacedRun | tcp_client.py:121-135 | the rate-limited loop's record, clock and `message_count`: while the clock is before the deadline, one attempt recorded by `Record`, then the pacing sleep; it stops at or after the deadline with the count not decreased |
| TcpClient.PacedRunCounts | tcp_client.py:119-125 | `message_count` rises by exactly the change in sent+failed; the record stays well formed; timestamps untouched |
| TcpClient.PacedRunBytes | tcp_client.py:121-124 | bytes rise by the payload size per acknowledged attempt of the rate-limited run |
| TcpClient.PacedRunTiming | tcp_client.py:121-135 | the loop stops at or after the deadline; no attempt is made iff it starts at or past the deadline; each attempt takes at least one delay; the last attempt started before the deadline; with every cycle within the delay the run lasts exactly count·delay (no catch-up) |
| TcpClient.PacedRunSpacing | tcp_client.py:121-135 | recorded send times keep the earlier ones as a prefix, fall in [start, deadline), are at least one delay apart, and each is followed by at least one delay before the loop ends |
| TcpClient.Client.constructor | tcp_client.py:14-26 | a new client holds the initial record |
| TcpClient.Client.SendMessage | tcp_client.py:45-77 | the new record is `Record` of the old one for the payload's encoded length; returns success iff acknowledged, and the latency (0 on failure); the byte total stays the sum of the sizes sent |
| TcpClient.Client.SendBulkMessages | tcp_client.py:79-102 | the new record is the start time set, then the bulk `Replay` of the attempts, then the end time set at the clock after the last attempt |
| TcpClient.Client.SendVariableLoad | tcp_client.py:104-139 | the new record and the returned message count are those of `PacedRun` from the start time to start plus duration, with the end time set to the clock when the loop stopped |
| TcpClient.RatesAsWritten | tcp_client.py:182-191 | the rate block as written fails exactly when messages were sent, the start time is truthy and the end time was never set |
| TcpClient.InterruptedBulkRunBreaksReport | tcp_client.py:182-183 | a bulk run stopped after its first acknowledged message makes the report as written fail |
| TcpClient.ClientRates | tcp_client.py:182-191 | rates exist exactly when messages were sent, both timestamps are set and the duration is positive; they agree with the as-written block whenever that one completes |
| TcpClient.DisplayMetrics | tcp_client.py:147-193 | counters reported as recorded; the duration line is `Duration` of the two times; the latency block exists iff any latency was recorded and is then `Summarize` of the samples, with ordered percentiles and average between min and max; the rates are `ClientRates`, the corrected guard of the Findings row, so the report completes on the interrupted-run input where tcp_client.py:183 raises `TypeError` |
| TcpServer.CodePointLength | tcp_server.py:88 | the well-formed UTF-8 sequence at the head is at most four bytes and within the data; an ASCII byte is a sequence of one |
| TcpServer.ValidUtf8 | tcp_server.py:88 | `decode('utf-8')` succeeds when the bytes split into well-formed sequences; a decodable chunk starts with an ASCII byte or a lead byte C2-F4 |
| TcpServer.AsciiIsValidUtf8 | tcp_server.py:87-89 | ASCII bytes always decode, so ASCII payloads take the text branch |
| TcpServer.Show | tcp_server.py:87-91 | a chunk is shown as text exactly when it is valid UTF-8, else as binary; either way with its byte count |
| TcpServer.Decimal | tcp_server.py:94 | `str(n)` is a non-empty string of digits beginning with `0` only for 0 |
| TcpServer.AckText | tcp_server.py:94 | the acknowledgment is `ACK:` followed by at least one decimal digit and only digits |
| TcpServer.DecimalRoundTrip | tcp_server.py:94 | reading back the digits of `str(n)` gives n |
| TcpServer.AckRoundTrip | tcp_server.py:94 | `ACK:<n>` parses back to n, so distinct totals give distinct acknowledgments |
| TcpServer.InitialMetrics | tcp_server.py:18-25 | a new record has zero counters and no timestamps, and is well formed |
| TcpServer.CountChunk | tcp_server.py:79-84 | one chunk adds one message, its length in bytes and its receive time, and nothing else |
| TcpServer.Handle | tcp_server.py:70-95 | the loop of one connection: a failed or empty read stops it; a non-empty chunk is counted by `CountChunk`, shown, answered with the new total, and the loop stops if the reply fails; one reply and one display branch per counted chunk |
| TcpServer.HandleChunk | tcp_server.py:73-95 | a non-empty chunk whose reply was sent is counted, answered with the new total, and the loop continues |
| TcpServer.HandleCounts | tcp_server.py:68-101 | a connection's handler adds one message and one reply per processed chunk; the processed chunks are the first reads, all non-empty; connection count and run times unchanged; timestamps stay one per message |
| TcpServer.HandleStops | tcp_server.py:70-98 | the loop goes on until the first empty read, failed read or failed reply: every processed read but the last had its reply sent; open means every read was consumed; closed means the next read was empty; aborted means the next read failed or the last reply failed |
| TcpServer.HandleBytes | tcp_server.py:83 | the byte total rises by the sizes of the processed chunks |
| TcpServer.HandleTimestamps | tcp_server.py:79-80 | the timestamp list gains the receive times of the processed chunks, in order |
| TcpServer.RepliesCountUp | tcp_server.py:93-95 | the j-th reply of a connection is `ACK:` followed by the total before it plus j+1 |
| TcpServer.AckNumbersRise | tcp_server.py:93-95 | the numbers read back from a connection's replies rise by exactly one per chunk |
| TcpServer.EmptyReadEndsSession | tcp_server.py:73-76 | an empty read ends the loop with no reply and no metric changed |
| TcpServer.DecodingDoesNotAffectAccounting | tcp_server.py:86-91 | reads that differ only in their bytes (not lengths, times or reply outcome) give the same metrics, replies and end of loop |
| TcpServer.Serve | tcp_server.py:46-57 | the accept loop: each accepted connection counted, then handled by `Handle`, before the next; one reply list per connection |
| TcpServer.ServeCounts | tcp_server.py:48-49 | the accept loop adds one connection per accepted connection, leaves the run's times alone, and keeps the record well formed |
| TcpServer.ServeAcks | tcp_server.py:93-95 | the replies of all connections, in order, are `ACK:m+1`, `ACK:m+2`, ..., and the message total grows by their number |
| TcpServer.Server.constructor | tcp_server.py:14-25 | a new server holds the initial record |
| TcpServer.Server.Accept | tcp_server.py:48-49 | an accepted connection raises the connection count by one and changes nothing else |
| TcpServer.Server.HandleClient | tcp_server.py:68-101 | the new record, replies, display branches and end of loop are those of `Handle`; the byte total stays the sum of the counted chunk sizes |
| TcpServer.Server.AcceptLoop | tcp_server.py:46-57 | the new record and the replies are those of `Serve` over the connections; the byte total stays the sum of the counted chunk sizes |
| TcpServer.Server.Start | tcp_server.py:27-66 | when the socket is bound: the new record is `Serve` of the record with the start time set, then the end time set by the cleanup, and the replies are `Serve`'s; one connection counted per accepted connection; every reply over all connections numbered consecutively from the earlier total; when not bound, only the end time is set |
| TcpServer.DisplayMetrics | tcp_server.py:113-134 | counters reported as recorded; the duration line is `Duration` of the two times; rates exactly under the guard, and then equal to `RatesOf` the message total, byte total and duration |

## Left out

- Sockets, connecting, binding and closing are not modelled. Each socket call's result is an input (`Exchange` on the client, `Recv` and `ackSent` on the server). A failed bind means `Start` is called with `bound == false`.
- Threads are not modelled. The server's handlers run concurrently in the original and update the shared counters with unsynchronised `+=`, so increments can be lost. The model runs connections one after another, so it captures neither lost updates nor interleaved timestamps.
- Wall-clock time and floating point are replaced:
  - Times and durations are integer ticks.
  - Rates are exact reals.
  - The conversion of latencies to milliseconds is left out; it is a positive scaling and does not change order, min, max or percentile positions.
- `LatencyStats.PercentileIndex`: the floor of `n*95/100` and `n*99/100` is computed exactly. The source multiplies by the float `0.95` or `0.99`, whose rounding is not modelled.
- Printing and progress messages are left out. So are `save_metrics` (JSON file output), the command-line `main` functions and `connect`/`disconnect`.
- `TcpClient.Client.SendVariableLoad`: the rate parameter is given as the delay in ticks and must be positive. With a rate of 0 the source raises `ZeroDivisionError` at `1.0 / messages_per_second`, which is not modelled. The progress print's `message_count % messages_per_second` is not modelled either.
- `TcpClient.Client.SendVariableLoad`: the latencies recorded by a rate-limited run are stated through `PacedRun` and its lemmas (counts, bytes, send-time spacing). No lemma lists them individually.
- `time.sleep` is assumed to sleep exactly the requested time.
- `TcpClient.Client.SendMessage`: `socket.send` may send only part of the payload. The source counts the full payload anyway, and so does the model. The 1024-byte acknowledgment read and its content are not inspected, as in the source.
- The 4096-byte server receive buffer is not modelled. A `Recv` is whatever one read returned, of any length.
- An interrupt during the client's load loops is not modelled as an operation. Its effect on the report (start time set, end time unset) is what `TcpClient.InterruptedBulkRunBreaksReport` covers.
- The server's accept loop ends after the given connections. The source runs until interrupted or until `accept` raises.

## Findings

| source | as written | input that shows it | evidently intended | confidence | as-written member | corrected member |
|---|---|---|---|---|---|---|
| tcp_client.py:182-183 | the rate block is guarded by `total_messages_sent > 0 and start_time` only, then computes `end_time - start_time` | a bulk run interrupted after one acknowledged message: `start_time` set, `end_time` still `None`, so `None - float` raises `TypeError` and the report stops before its summary and the metrics file | the rates are skipped when the end time is unset, as the duration line at tcp_client.py:153 already does, so the report always completes | not executed | TcpClient.RatesAsWritten, TcpClient.InterruptedBulkRunBreaksReport | TcpClient.ClientRates |
