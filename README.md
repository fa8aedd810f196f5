# A verified model of a UDP request/response traffic tester

The tool under study measures a network path with UDP. It has three programs:

- a **client** (`udp_client.py`) runs one or more flows. Each flow sends 16-byte requests
  (`!Qd`: a big-endian u64 sequence number and an 8-byte timestamp) on an additive pacing
  deadline. It keeps a table of pending requests and logs every 24-byte response.
  It also acknowledges each response with a 16-byte datagram.
- a **server** (`udp_server.py`) echoes every request as a 24-byte response (`!Qdd`). The
  response holds the request's two fields and the server's own timestamp. The server also
  counts traffic globally and per `"ip:port"` flow, and warns when a flow's sequence
  number goes backwards.
- an **offline analysis** (`analyze_results.py`) reads the two CSV logs. It computes RTT
  statistics, loss rate, throughput, per-second series and per-flow packet counts.

Both endpoints also report window rates every five seconds and then zero their window
counters.

This project is a Dafny model of that logic, organised as follows:

- `wire.dfy` (module `Wire`) holds the byte layouts and their round trips.
  - Timestamps travel as opaque 8-byte images of IEEE 754 binary64 values. The server
    only copies them. The client also subtracts the echoed value from its clock to get
    the RTT (`udp_client.py:92`); that RTT is left out (see below), so no floating-point
    reasoning is needed.
  - A clock reading is an `Instant`: whole microseconds, used where the code compares or
    subtracts times, together with the image that goes on the wire.
- `client.dfy` (module `Client`) models the client.
  - `UdpClient` is a class that holds the shared counters and the log.
  - `ClientProtocol` is a class for one flow, with the fields that `request_data` and
    `datagram_received` update in place.
  - The `while` loop of `request_data` is a Dafny `while` loop (`SendLoop`, one pass
    of which is `SendPass`). It keeps the flow's `Valid()`:
    - there is one send time per sequence number allocated so far;
    - every pending entry holds its own send time;
    - the deadline is exactly `start + sequenceNumber * interval`.
  - The loop is also proved to make exactly the passes of `Schedule`, a pure function of
    the clock readings it sees. The properties of the loop (when it stops, when it fails,
    which readings send) are lemmas about `Schedule`.
- `server.dfy` (module `Server`) models the server.
  - It has `UdpServer` and `ServerProtocol` classes, and the `"ip:port"` flow key.
  - The per-flow update and its replay over a whole flow are pure functions.
  - `UdpServer.Valid()` states that the window counters never exceed the flow table's
    totals.
- `reporting.dfy` (module `Reporting`) holds the five-second report test that client and
  server share.
- `exchange.dfy` (module `Exchange`) composes the two endpoints over the wire.
- `analysis.dfy` (module `Analysis`) models the offline analysis as pure functions over
  the logged rows.
- `sums.dfy` (module `Sums`) sums the values of a finite map, with the lemmas the flow
  table and the tallies need.
- `options.dfy` (module `Options`) defines the `Option` result type.

The clock (`time.time()`, `datetime.now()`) is a parameter of every operation that reads
it.

Where the code departs from the usual definition of a metric or behaviour, the model
follows the code:

- **Jitter.** The reported jitter is the sample standard deviation of the RTTs, the very
  expression used for `rtt_std`. It is not the mean absolute difference of consecutive
  RTTs. `Analysis.JitterIsNotSuccessiveDifference` shows that the two differ on the RTTs
  10, 12, 11, 15.
- **Loss rate.** Loss is computed from the row counts of the two logs, with no join on
  sequence numbers. It goes negative when the server logged more rows.
- **Pending table.** Nothing ever evicts an entry of the pending table. Only a response
  carrying an entry's sequence number removes it.
- **Pacing.** There is no cap on back-to-back catch-up sends. A late loop sends one request
  per pass, and the deadline moves by one interval per send.
- **RTT.** The RTT is computed from the timestamp echoed inside the response, not from the
  pending table.
- **Malformed datagrams.** A short datagram is dropped and only logged as an error. No
  decode-error counter exists.
- **Unmatched responses.** Duplicate and unknown responses are counted and logged like any
  other response.

## Model

| member | source | states |
|---|---|---|
| Wire.EncodeU64 | udp_client.py:133 | the `Q` field of a sequence number is 8 bytes, and decoding them gives the number back |
| Wire.DecodeU64 | udp_server.py:70 | the `Q` decoding of 8 bytes; `Wire.EncodeDecodeU64` states that any 8 bytes are the encoding of the number they decode to |
| Wire.EncodeDecodeU64 | udp_server.py:70 | any 8 bytes are the encoding of the number they decode to, so `Q` decoding is injective |
| Wire.PackHeader | udp_client.py:133 | a request (and an ACK) in the `!Qd` layout is exactly 16 bytes |
| Wire.UnpackHeader | udp_server.py:70 | the `!Qd` unpack of `data[:16]` fails exactly when the datagram has fewer than 16 bytes; otherwise it yields the header whose packing is the first 16 bytes |
| Wire.PackResponse | udp_server.py:77 | a response in the `!Qdd` layout is exactly 24 bytes |
| Wire.UnpackResponse | udp_client.py:87 | the `!Qdd` unpack of `data[:24]` fails exactly when the datagram has fewer than 24 bytes; otherwise it yields the response whose packing is the first 24 bytes |
| Wire.UnpackPackHeader | udp_server.py:70-71 | a packed header followed by any payload unpacks to the same header |
| Wire.UnpackPackResponse | udp_client.py:87-88 | a packed response followed by any payload unpacks to the same response |
| Reporting.Due | udp_client.py:229-231 | the five-second report fires exactly when the time since the last report is positive; `Client.UdpClient.ReportStats` and `Server.UdpServer.ReportStats` (`udp_server.py:175-177`) state what follows on each branch |
| Client.ClientReply | udp_client.py:113 | the ACK exists exactly for datagrams of 24 bytes or more, and it unpacks, in the request layout, to the response's sequence number and the receive time |
| Client.UdpClient.constructor | udp_client.py:38-44 | all counters start at zero, both times unset, the log empty |
| Client.UdpClient.Start | udp_client.py:179-180 | `start_time` and `last_stats_time` are both set to the same clock reading |
| Client.UdpClient.ReportStats | udp_client.py:228-241 | when the time since the last report is positive, the window's counts and length are reported, both counters become 0 and `last_stats_time` becomes now; otherwise nothing at all changes |
| Client.ClientProtocol.constructor | udp_client.py:67-75 | a new flow is unconnected and not running, with sequence number 0 and an empty pending table |
| Client.ClientProtocol.ConnectionMade | udp_client.py:77-81 | the flow becomes connected and running, with the start time and the first deadline both at the connection time |
| Client.ClientProtocol.DatagramReceived | udp_client.py:84-117 | a datagram under 24 bytes changes nothing and sends nothing; any other adds 1 packet and its full length to the counters whether or not it is pending, logs the echoed fields with the receive time, removes only its own sequence number from the pending table, and is acknowledged when a transport exists |
| Client.ClientProtocol.RequestTick | udp_client.py:129-145 | before the deadline nothing changes; at or after it either packing fails on a sequence number outside u64 and nothing changes, or the request `(seq, now)` goes out as 16 bytes, `pending[seq] = now`, `seq` grows by exactly 1 and the deadline by exactly one interval, keeping the flow invariant |
| Client.ClientProtocol.RequestData | udp_client.py:119-154 | an unconnected flow consumes no reading, sends nothing and changes nothing; otherwise the readings consumed, the send times and the failure are exactly those of `Schedule` from the flow's start, sequence number and deadline, and the requests sent carry consecutive sequence numbers from the current one, each stamped with its own send time, join the pending table, and leave every earlier entry as it was |
| Client.Schedule | udp_client.py:128-147 | the loop never sends more requests than it consumes readings, nor consumes more readings than it is given |
| Client.ScheduleSendsAreReadings | udp_client.py:129-137 | every request goes out at one of the readings the loop consumed |
| Client.ScheduleStops | udp_client.py:128 | every consumed reading met the loop's guard, and a loop that did not fail stopped at the end of the readings or at the first reading past the test duration |
| Client.ScheduleFails | udp_client.py:131-133 | the loop fails only at a reading that was due, the last one it consumed, once the sequence number has left the u64 range |
| Client.ScheduleSlots | udp_client.py:131-147 | request j goes out no earlier than the first deadline plus j intervals |
| Client.ScheduleAllDue | udp_client.py:128-147 | when every reading meets the guard and is due at its own slot, with sequence numbers to spare, the loop sends at every reading and does not fail |
| Client.ScheduleNoneDue | udp_client.py:128-131 | when every reading meets the guard but comes before the deadline, the loop consumes them all and sends nothing |
| Server.Decimal | udp_server.py:87 | the port is written as a non-empty string of decimal digits |
| Server.FlowKey | udp_server.py:87 | the `"ip:port"` key of an address; `Server.FlowKeyInjective` states that no two addresses share it |
| Server.FlowKeyInjective | udp_server.py:87 | two addresses with the same `"ip:port"` key are the same address |
| Server.UpdateFlow | udp_server.py:88-102 | one datagram's update of its flow's entry; `Server.ReplayMeaning` states what the updates of a whole flow amount to |
| Server.Replay | udp_server.py:88-102 | the entry after a flow's datagrams, through `UpdateFlow`; `Server.ReplayMeaning` states its counts, `last_seq` and flags |
| Server.ReplayMeaning | udp_server.py:88-102 | after a flow's datagrams its entry counts them and their total length, `last_seq` is the latest sequence number, and datagram i is flagged exactly when its number is below that of datagram i-1 (so a duplicate is not flagged); no entry exists before the first datagram |
| Server.LatestNotMaximum | udp_server.py:100-102 | for sequence numbers 5, 3, 4 only 3 is flagged, and `last_seq` ends at 4, not at the maximum 5 |
| Server.RecordRaisesTotals | udp_server.py:88-97 | recording a datagram under one key raises the table's packet total by exactly 1 and its byte total by exactly the datagram's length |
| Server.ServerReply | udp_server.py:70-77 | the echo exists exactly for datagrams of 16 bytes or more, and it unpacks to the request's sequence number and client timestamp, unchanged, followed by the server time |
| Server.UdpServer.constructor | udp_server.py:29-36 | all counters start at zero, both times unset, the flow table and the log empty |
| Server.UdpServer.Start | udp_server.py:150-151 | `start_time` and `last_stats_time` are both set to the same clock reading |
| Server.UdpServer.ReportStats | udp_server.py:174-187 | when the time since the last report is positive, the window is reported and its counters zeroed and `last_stats_time` becomes now, otherwise nothing changes; the flow table is never touched, so the window stays within the table's totals |
| Server.ServerProtocol.constructor | udp_server.py:59-61 | a new protocol has no transport |
| Server.ServerProtocol.ConnectionMade | udp_server.py:63-64 | the protocol becomes connected |
| Server.ServerProtocol.DatagramReceived | udp_server.py:67-108 | a datagram under 16 bytes, or one arriving without a transport, changes nothing and sends nothing; any other is echoed, adds 1 packet and its full length globally, updates only its own `"ip:port"` entry, reports reordering as the flow update decides, and logs its full length as `payload_length` |
| Exchange.RequestEchoRoundTrip | udp_server.py:70-77 | the server's echo of a packed request, with any payload, unpacks at the client to the request's own sequence number and timestamp |
| Exchange.AckIsAnswered | udp_client.py:113-114 | the client's ACK of a response is a 16-byte request that the server answers with the same sequence number and the ACK's timestamp |
| Exchange.Conversation | udp_server.py:80 | the exchange started by one request, as the server's echo and the client's ACK (`udp_client.py:114`) alternate; `Exchange.ExchangeNeverEnds` states that it lasts as long as the clocks allow |
| Exchange.ExchangeNeverEnds | udp_server.py:67-80 | one request starts an exchange that lasts as many turns as the clocks allow: every response carries the original sequence number, the first echoes the request's timestamp and each later one the previous ACK's |
| Analysis.LossRate | analyze_results.py:39-41 | the loss rate is undefined exactly for an empty client log, 0 exactly when the counts agree, negative exactly when the server logged more rows, and never above 100 |
| Analysis.CountSequenced | analyze_results.py:45 | `count()` of the sequence column never exceeds the number of rows |
| Analysis.CountSequencedAll | analyze_results.py:45 | when every row carries a sequence number, `count()` is the number of rows |
| Analysis.TotalBytes | analyze_results.py:45 | the byte total is 1400 per counted row, hence at most 1400 per row |
| Analysis.MinOf | analyze_results.py:33 | the minimum is an element of the column and no element is below it |
| Analysis.MaxOf | analyze_results.py:34 | the maximum is an element of the column and no element is above it |
| Analysis.RangeOf | analyze_results.py:33-34 | min and max are undefined exactly for an empty column; otherwise both are elements and every element lies between them |
| Analysis.Duration | analyze_results.py:44 | the duration is undefined exactly for an empty log, is never negative and bounds the difference of any two timestamps |
| Analysis.Rate | analyze_results.py:46 | a rate times its span gives back the amount |
| Analysis.Throughput | analyze_results.py:44-46 | the throughput is undefined exactly when the duration is undefined or zero; otherwise it is non-negative and is the rate of the assumed bits over the duration |
| Analysis.Mean | analyze_results.py:31 | the mean is undefined exactly for an empty column, and multiplied by the number of values it gives their sum |
| Analysis.SampleStdDev | analyze_results.py:32 | the standard deviation is undefined below two samples, and otherwise its square is non-negative |
| Analysis.CalculateMetrics | analyze_results.py:26-51 | the metrics fail exactly for an empty client log, the jitter is always equal to the RTT standard deviation, the loss is the loss rate of the two row counts, and every RTT lies between the reported min and max |
| Analysis.JitterIsNotSuccessiveDifference | analyze_results.py:48-49 | for RTTs 10, 12, 11, 15 the reported jitter squared is 14/3, whereas the mean successive difference is 7/3, whose square is 49/9 |
| Analysis.Tally | analyze_results.py:92-93 | a group-by count has one group per distinct key, each holding the number of counted rows under its key, and no row is counted under a missing key |
| Analysis.TallySum | analyze_results.py:92-93 | the group counts sum to the number of counted rows |
| Analysis.TallyAllCounted | analyze_results.py:92-93 | with `size()` every group holds at least one row |
| Analysis.Second | analyze_results.py:75 | flooring a timestamp to the second gives the second that contains it |
| Analysis.BucketBySecond | analyze_results.py:89-93 | `groupby('second').size()`; `Analysis.BucketsMeaning` states its keys and counts |
| Analysis.BucketsMeaning | analyze_results.py:89-93 | the per-second buckets are the floored seconds of the rows, each counts at least one row, together they count every row, and there are never more buckets than rows |
| Analysis.ThroughputSeries | analyze_results.py:75-76 | the throughput series covers exactly the seconds with client rows, each at least one packet's worth of Mbps |
| Analysis.Reindex | analyze_results.py:97-98 | `reindex(all_seconds, fill_value=0)`; `Analysis.AlignedSeries` states its keys and values |
| Analysis.AlignedSeries | analyze_results.py:96-98 | after reindexing onto the union of seconds both series have that key set, each keeps its counts where it had them and is 0 elsewhere, and neither loses a row |
| Analysis.LossSeries | analyze_results.py:100 | the per-second loss rate; `Analysis.LossSeriesMeaning` states where it is defined and what it is |
| Analysis.LossSeriesMeaning | analyze_results.py:96-100 | the loss series covers exactly the union of seconds, is undefined exactly at seconds with server rows and no client row, and elsewhere is the loss rate of the two per-second counts |
| Analysis.FlowCounts | analyze_results.py:113-116 | the per-flow `count()` of sequence numbers; `Analysis.FlowCountsMeaning` states its groups and their sum |
| Analysis.FlowCountsMeaning | analyze_results.py:113-116 | there is one group per distinct flow id, and the groups' counts sum to the number of rows carrying a sequence number |

## Left out

- asyncio and sockets are not modelled: the event loop, socket setup, endpoint creation,
  task creation and `asyncio.sleep` are I/O and concurrency. Each callback is one atomic
  step, and races between callbacks are not modelled.
- The CSV logs are not written. A log is a sequence of rows that only grows. The
  `datetime.now()` timestamp column, file errors and `os.makedirs` are not modelled.
- The `main` functions, argparse and logging configuration are left out as command-line
  plumbing.
- Rendering is left out: plotting, base64 encoding, HTML report generation and loading the
  CSVs with pandas. The analysis starts from already parsed rows, with timestamps in
  microseconds.
- The floating-point division that turns bandwidth and packet size into `packet_interval`
  is left out. The interval is a given positive integer number of microseconds.
- The packets/s and Mbps figures of `report_stats` are left out. What they are computed
  from (packets, bytes, elapsed time) is returned as a `Window`.
- `print_final_stats` is left out: it formats floating-point averages. It reads
  `packets_received` and `bytes_received`, which `report_stats` zeroes every five seconds
  (`udp_client.py:239-240`, stated by `Client.UdpClient.ReportStats`), so its "total"
  figures cover only the last window.
- Client.ClientProtocol.ConnectionMade: requires a flow that is not running yet. The event
  loop calls `connection_made` once per transport, and a second call would move the
  deadline back while keeping the sequence number.
- Client.ClientProtocol.DatagramReceived: the `rtt_ms` float is not computed. The logged
  record keeps its two operands: the echoed request time and the receive time.
- Analysis.SampleStdDev: kept as its square (the sample variance), because square roots of
  reals are not modelled.
- Analysis.CalculateMetrics: the 95th and 99th percentiles (`quantile` interpolation) are
  not modelled.
- Analysis.Mean: the value is exact real division, with no floating-point rounding.
- Analysis.LossRate: exact real arithmetic, with no float64 rounding (`analyze_results.py:41`).
- Analysis.Throughput: exact real arithmetic, with no float64 rounding (`analyze_results.py:46`).
- Analysis.ThroughputSeries: exact real arithmetic, with no float64 rounding (`analyze_results.py:76`).
- Analysis.LossSeries: exact real arithmetic, with no float64 rounding (`analyze_results.py:100`).
- Analysis.Throughput: a zero or missing duration is reported as undefined, where numpy
  yields `inf` or `nan`.
- Analysis.LossSeriesMeaning: the value at a second with no client row is undefined, where
  pandas yields `-inf`.
- The per-flow RTT mean, standard deviation, minimum and maximum of `plot_flow_metrics` are
  left out: they only feed a bar chart. The per-flow counts are modelled.
- `UDPServer.stats['packets_sent']` is initialised to 0 and never updated. The model keeps
  the field and never writes it.
- Cooperative cancellation and `asyncio.gather` at the end of the run are not modelled.
  The request loop stops when its readings run out, the test duration elapses, or packing
  fails.
