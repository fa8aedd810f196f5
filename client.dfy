/**
 * The measuring client of udp_client.py: a `UdpClient` holds the counters shared by all
 * flows, and each flow is a `ClientProtocol` that paces 16-byte requests, keeps a table of
 * pending requests, and answers every response with a 16-byte acknowledgement.
 */
module Client {

  import opened Options
  import opened Wire
  import opened Reporting

  /**
   * The acknowledgement `datagram_received` sends back for `data` at the clock reading
   * `now`: the response's sequence number and `now`, in the request layout `!Qd`.
   */
  function ClientReply(data: Bytes, now: Double): (ack: Option<Bytes>)
    ensures ack.Some? <==> |data| >= RESPONSE_SIZE
    ensures ack.Some? ==>
      UnpackHeader(ack.value) == Some(Header(UnpackResponse(data).value.sequenceNumber, now))
  {
    match UnpackResponse(data)
    case None => None
    case Some(r) =>
      var ack := PackHeader(Header(r.sequenceNumber, now));
      UnpackPackHeader(Header(r.sequenceNumber, now), []);
      assert ack + [] == ack;
      Some(ack)
  }

  /**
   * One row written by `log_packet`. Its `rtt_ms` column is
   * `(receiveTime - requestTime) * 1000` in floating point; the row keeps both operands,
   * and `requestTime` is the timestamp echoed inside the response.
   */
  datatype ClientRecord = ClientRecord(
    flowId: int,
    sequenceNumber: u64,
    requestTime: Double,
    serverSendTime: Double,
    receiveTime: Instant)

  /** The two clock reads of one pass of the request loop: the loop guard's and `current_time`. */
  datatype LoopReading = LoopReading(guard: int, now: Instant)

  /** What one pass of the request loop does. */
  datatype TickOutcome =
    | Idle                  // the deadline has not been reached
    | Sent(header: Header, datagram: Bytes)  // the request `header` went out as `datagram`
    | PackError             // `struct.pack('!Qd', …)` raised: the sequence number left the u64 range

  const MICROS_PER_SECOND: nat := 1_000_000

  /** `UDPClient`: the configuration and the `stats` counters every flow updates. */
  class UdpClient {
    /** `packet_interval`, in microseconds. */
    const packetInterval: nat
    /** `duration`, in seconds. */
    const duration: int

    var packetsReceived: nat
    var bytesReceived: nat
    var startTime: Option<int>
    var lastStatsTime: Option<int>
    /** The rows appended to the client log, oldest first. */
    var log: seq<ClientRecord>

    ghost predicate Valid()
      reads this
    {
      && packetInterval > 0
      && bytesReceived >= RESPONSE_SIZE * packetsReceived
    }

    constructor (packetInterval: nat, duration: int)
      requires packetInterval > 0
      ensures Valid()
      ensures this.packetInterval == packetInterval && this.duration == duration
      ensures packetsReceived == 0 && bytesReceived == 0
      ensures startTime == None && lastStatsTime == None && log == []
    {
      this.packetInterval := packetInterval;
      this.duration := duration;
      packetsReceived, bytesReceived := 0, 0;
      startTime, lastStatsTime := None, None;
      log := [];
    }

    /** The clock bookkeeping at the head of `start`. */
    method Start(now: int)
      modifies this`startTime, this`lastStatsTime
      ensures startTime == Some(now) && lastStatsTime == Some(now)
    {
      startTime := Some(now);
      lastStatsTime := Some(now);
    }

    /** One pass of the `report_stats` loop, after its sleep. */
    method ReportStats(now: int) returns (window: Option<Window>)
      requires Valid()
      modifies this`packetsReceived, this`bytesReceived, this`lastStatsTime
      ensures Valid()
      ensures window == if Due(old(lastStatsTime), now)
        then Some(Window(old(packetsReceived), old(bytesReceived), now - old(lastStatsTime).value))
        else None
      ensures window.Some? ==>
        packetsReceived == 0 && bytesReceived == 0 && lastStatsTime == Some(now)
      ensures window.None? ==> unchanged(this)
    {
      if Due(lastStatsTime, now) {
        window := Some(Window(packetsReceived, bytesReceived, now - lastStatsTime.value));
        packetsReceived := 0;
        bytesReceived := 0;
        lastStatsTime := Some(now);
      } else {
        window := None;
      }
    }
  }

  /** `ClientProtocol`: one flow. */
  class ClientProtocol {
    const client: UdpClient
    const flowId: int

    /** `transport is not None`. */
    var connected: bool
    var sequenceNumber: nat
    /** `pending_requests`: sequence number to the clock reading it was sent at. */
    var pending: map<nat, Instant>
    var startTime: Option<int>
    var isRunning: bool
    /** `next_request_time`, in microseconds. */
    var nextRequestTime: int

    /** The clock reading at which each request so far was sent, indexed by sequence number. */
    ghost var sendTimes: seq<Instant>

    /**
     * The flow's invariant: one request per sequence number below `sequenceNumber`, each
     * pending entry holding its own send time; once running, the deadline is exactly
     * `start + sequenceNumber * packet_interval`, and request `i` left no earlier than its
     * slot `start + i * packet_interval`.
     */
    ghost predicate Valid()
      reads this
    {
      && |sendTimes| == sequenceNumber
      && (forall k :: k in pending ==> k < sequenceNumber && pending[k] == sendTimes[k])
      && connected == isRunning
      && (isRunning ==>
            && startTime.Some?
            && nextRequestTime == startTime.value + sequenceNumber * client.packetInterval
            && forall i :: 0 <= i < |sendTimes| ==>
                 sendTimes[i].micros >= startTime.value + i * client.packetInterval)
      && (!isRunning ==> sequenceNumber == 0 && startTime == None && nextRequestTime == 0)
    }

    constructor (client: UdpClient, flowId: int)
      ensures Valid()
      ensures this.client == client && this.flowId == flowId
      ensures !connected && !isRunning && sequenceNumber == 0 && pending == map[]
    {
      this.client := client;
      this.flowId := flowId;
      connected := false;
      sequenceNumber := 0;
      pending := map[];
      startTime := None;
      isRunning := false;
      nextRequestTime := 0;
      sendTimes := [];
    }

    /** `connection_made`, which the event loop calls once per transport. */
    method ConnectionMade(now: Instant)
      requires Valid() && !isRunning
      modifies this`connected, this`startTime, this`nextRequestTime, this`isRunning
      ensures Valid()
      ensures connected && isRunning
      ensures startTime == Some(now.micros) && nextRequestTime == now.micros
    {
      connected := true;
      startTime := Some(now.micros);
      nextRequestTime := now.micros;
      isRunning := true;
    }

    /**
     * `datagram_received`: a datagram of 24 bytes or more is counted, logged, taken out of
     * the pending table if its sequence number is there, and acknowledged; anything shorter
     * raises inside the `try` and changes nothing. Duplicates and unknown sequence numbers
     * are counted and logged like any other response.
     */
    method DatagramReceived(data: Bytes, now: Instant) returns (ack: Option<Bytes>)
      requires Valid() && client.Valid()
      modifies this`pending, client`packetsReceived, client`bytesReceived, client`log
      ensures Valid() && client.Valid()
      ensures ack == if connected then ClientReply(data, now.image) else None
      ensures UnpackResponse(data).None? ==> pending == old(pending) && unchanged(client)
      ensures UnpackResponse(data).Some? ==>
        var r := UnpackResponse(data).value;
        && client.packetsReceived == old(client.packetsReceived) + 1
        && client.bytesReceived == old(client.bytesReceived) + |data|
        && client.log == old(client.log)
             + [ClientRecord(flowId, r.sequenceNumber, r.requestTime, r.serverSendTime, now)]
        && pending == old(pending) - {r.sequenceNumber}
    {
      ack := None;
      var unpacked := UnpackResponse(data);
      if unpacked.Some? {
        var r := unpacked.value;
        client.packetsReceived := client.packetsReceived + 1;
        client.bytesReceived := client.bytesReceived + |data|;
        client.log := client.log
          + [ClientRecord(flowId, r.sequenceNumber, r.requestTime, r.serverSendTime, now)];
        if r.sequenceNumber in pending {
          pending := pending - {r.sequenceNumber};
        }
        if connected {
          ack := Some(PackHeader(Header(r.sequenceNumber, now.image)));
        }
      }
    }

    /** The body of the `while` loop of `request_data`, at the clock reading `now`. */
    method RequestTick(now: Instant) returns (outcome: TickOutcome)
      requires Valid() && isRunning
      modifies this`sequenceNumber, this`pending, this`nextRequestTime, this`sendTimes
      ensures Valid()
      ensures outcome.Idle? <==> now.micros < old(nextRequestTime)
      ensures outcome.PackError? <==>
        now.micros >= old(nextRequestTime) && old(sequenceNumber) >= U64_BOUND
      ensures !outcome.Sent? ==> unchanged(this)
      ensures outcome.Sent? ==>
        && outcome.header == Header(old(sequenceNumber), now.image)
        && outcome.datagram == PackHeader(outcome.header)
        && sequenceNumber == old(sequenceNumber) + 1
        && pending == old(pending)[old(sequenceNumber) := now]
        && nextRequestTime == old(nextRequestTime) + client.packetInterval
        && sendTimes == old(sendTimes) + [now]
    {
      if now.micros < nextRequestTime {
        return Idle;
      }
      if sequenceNumber >= U64_BOUND {
        return PackError;
      }
      ghost var n, p, start := sequenceNumber, client.packetInterval, startTime.value;
      PendingExtended(pending, sendTimes, now);
      SlotsExtended(sendTimes, now, start, p);
      NextSlot(start, n, p);
      var header := Header(sequenceNumber, now.image);
      pending := pending[sequenceNumber := now];
      sequenceNumber := sequenceNumber + 1;
      nextRequestTime := nextRequestTime + client.packetInterval;
      sendTimes := sendTimes + [now];
      outcome := Sent(header, PackHeader(header));
    }

    /**
     * `request_data` run over the clock readings `readings`: it returns at once when the
     * flow is not running; otherwise it loops while the test duration has not elapsed,
     * the flow runs and readings remain, and stops at a packing error, which it re-raises.
     * The passes it makes are exactly those of `Schedule` from the flow's state: the same
     * readings are consumed, the requests go out at the same readings, and it fails exactly
     * when `Schedule` does. It returns the headers of the requests it sent, each of which
     * left as `PackHeader` of it (see `RequestTick`); they carry consecutive sequence
     * numbers, each with the timestamp of its own send, and every one of them joins the
     * pending table.
     */
    method RequestData(readings: seq<LoopReading>)
      returns (requests: seq<Header>, consumed: nat, failed: bool)
      requires Valid()
      modifies this`sequenceNumber, this`pending, this`nextRequestTime, this`sendTimes
      ensures Valid()
      ensures !old(isRunning) ==> requests == [] && consumed == 0 && !failed && unchanged(this)
      ensures old(isRunning) ==>
        var run := Schedule(readings, 0, old(startTime).value, old(sequenceNumber),
                            old(nextRequestTime), client.packetInterval,
                            client.duration * MICROS_PER_SECOND);
        && sendTimes == old(sendTimes) + run.sends
        && consumed == run.consumed
        && failed == run.failed
      ensures sequenceNumber == old(sequenceNumber) + |requests|
      ensures |requests| > 0 ==> sequenceNumber <= U64_BOUND
      ensures old(sendTimes) <= sendTimes
      ensures forall j :: 0 <= j < |requests| ==>
        requests[j] == Header(old(sequenceNumber) + j, sendTimes[old(sequenceNumber) + j].image)
      ensures forall k :: k in pending <==>
        k in old(pending) || old(sequenceNumber) <= k < sequenceNumber
      ensures forall k :: k in old(pending) ==> pending[k] == old(pending)[k]
    {
      requests, consumed, failed := [], 0, false;
      if !isRunning {
        return;
      }
      ghost var sent;
      requests, consumed, failed, sent := SendLoop(readings);
      ProgressEnded(readings, old(startTime).value, old(sequenceNumber), old(nextRequestTime),
                    client.packetInterval, client.duration * MICROS_PER_SECOND,
                    old(sendTimes), old(pending), consumed, failed, sequenceNumber,
                    nextRequestTime, sent, sendTimes, pending, requests);
    }

    /**
     * The `while` loop of `request_data`, on a running flow: it ends as `Ended` says, with
     * the readings `sent` at which it sent requests.
     */
    method SendLoop(readings: seq<LoopReading>)
      returns (requests: seq<Header>, consumed: nat, failed: bool, ghost sent: seq<Instant>)
      requires Valid() && isRunning
      modifies this`sequenceNumber, this`pending, this`nextRequestTime, this`sendTimes
      ensures Valid() && isRunning
      ensures Ended(readings, old(startTime).value, old(sequenceNumber), old(nextRequestTime),
                    client.packetInterval, client.duration * MICROS_PER_SECOND,
                    old(sendTimes), old(pending), consumed, failed, sequenceNumber,
                    nextRequestTime, sent, sendTimes, pending, requests)
    {
      requests, consumed, failed, sent := [], 0, false, [];
      ghost var start, first, deadline := startTime.value, sequenceNumber, nextRequestTime;
      ghost var limit := client.duration * MICROS_PER_SECOND;
      var i := 0;
      while i < |readings|
        && readings[i].guard - startTime.value < client.duration * MICROS_PER_SECOND
        && isRunning
        invariant 0 <= i <= |readings|
        invariant Valid() && isRunning && startTime == Some(start)
        invariant Progress(readings, start, first, deadline, client.packetInterval, limit,
                           old(sendTimes), old(pending), i, sequenceNumber, nextRequestTime,
                           sent, sendTimes, pending, requests)
      {
        var stop;
        requests, stop, sent := SendPass(readings, i, start, first, deadline, limit,
                                         old(sendTimes), old(pending), sent, requests);
        if stop {
          failed, consumed := true, i + 1;
          return;
        }
        i := i + 1;
      }
      consumed := i;
    }

    /**
     * One pass of that loop at reading `i`, which meets the loop's guard: `RequestTick` at
     * the reading, and the loop's state carried past it; `stop` when the pass raised.
     */
    method SendPass(readings: seq<LoopReading>, i: nat, ghost start: int, ghost first: nat,
                    ghost deadline: int, ghost limit: int, ghost before: seq<Instant>,
                    ghost table: map<nat, Instant>, ghost sent: seq<Instant>, requests: seq<Header>)
      returns (requests': seq<Header>, stop: bool, ghost sent': seq<Instant>)
      requires Valid() && isRunning && startTime == Some(start)
      requires i < |readings| && readings[i].guard - start < limit
      requires Progress(readings, start, first, deadline, client.packetInterval, limit,
                        before, table, i, sequenceNumber, nextRequestTime,
                        sent, sendTimes, pending, requests)
      modifies this`sequenceNumber, this`pending, this`nextRequestTime, this`sendTimes
      ensures Valid() && isRunning
      ensures stop ==>
        Ended(readings, start, first, deadline, client.packetInterval, limit, before, table,
              i + 1, true, sequenceNumber, nextRequestTime, sent', sendTimes, pending, requests')
      ensures !stop ==>
        Progress(readings, start, first, deadline, client.packetInterval, limit, before, table,
                 i + 1, sequenceNumber, nextRequestTime, sent', sendTimes, pending, requests')
    {
      ghost var n, next, times, table' := sequenceNumber, nextRequestTime, sendTimes, pending;
      requests', stop, sent' := requests, false, sent;
      var outcome := RequestTick(readings[i].now);
      match outcome {
        case Sent(header, _) =>
          ProgressAfterSend(readings, start, first, deadline, client.packetInterval, limit,
                            before, table, i, n, next, sent, times, table', requests);
          requests' := requests + [header];
          sent' := sent + [readings[i].now];
        case PackError =>
          stop := true;
        case Idle =>
          ProgressAfterIdle(readings, start, first, deadline, client.packetInterval, limit,
                            before, table, i, n, next, sent, times, table', requests);
      }
    }
  }

  /** Recording request `|sendTimes|` at `now` keeps pending entries matched to send times. */
  lemma PendingExtended(pending: map<nat, Instant>, sendTimes: seq<Instant>, now: Instant)
    requires forall k :: k in pending ==> k < |sendTimes| && pending[k] == sendTimes[k]
    ensures var pending', sendTimes' := pending[|sendTimes| := now], sendTimes + [now];
      forall k :: k in pending' ==> k < |sendTimes'| && pending'[k] == sendTimes'[k]
  {
  }

  /** A request sent no earlier than its slot extends the send times slot by slot. */
  lemma SlotsExtended(sendTimes: seq<Instant>, now: Instant, start: int, interval: nat)
    requires forall i :: 0 <= i < |sendTimes| ==> sendTimes[i].micros >= start + i * interval
    requires now.micros >= start + |sendTimes| * interval
    ensures forall i :: 0 <= i < |sendTimes| + 1 ==>
      (sendTimes + [now])[i].micros >= start + i * interval
  {
  }

  lemma NextSlot(start: int, n: nat, interval: nat)
    ensures start + n * interval + interval == start + (n + 1) * interval
  {
  }

  /** The passes of `request_data`'s loop: the readings it sent at, how many it used, and whether it raised. */
  datatype Run = Run(sends: seq<Instant>, consumed: nat, failed: bool)

  /**
   * The loop of `request_data` stated on values, from sequence number `n` and deadline
   * `next`, for a flow started at `start` with the given interval and a test length of
   * `limit` microseconds. A pass whose guard reading is past the test length ends the loop;
   * otherwise a reading before the deadline sends nothing, and a reading at or after it
   * either sends request `n` and moves the deadline by one interval, or, when `n` is not a
   * u64, raises and ends the loop.
   */
  function Schedule(readings: seq<LoopReading>, from: nat, start: int, n: nat, next: int,
                    interval: nat, limit: int): (run: Run)
    requires from <= |readings|
    ensures |run.sends| <= run.consumed <= |readings| - from
    decreases |readings| - from
  {
    if from == |readings| || readings[from].guard - start >= limit then Run([], 0, false)
    else
      var now := readings[from].now;
      if now.micros < next then
        var later := Schedule(readings, from + 1, start, n, next, interval, limit);
        Run(later.sends, later.consumed + 1, later.failed)
      else if n >= U64_BOUND then Run([], 1, true)
      else
        var later := Schedule(readings, from + 1, start, n + 1, next + interval, interval, limit);
        Run([now] + later.sends, later.consumed + 1, later.failed)
  }

  /** Every request `Schedule` sends goes out at one of the readings it consumed. */
  lemma {:induction false} ScheduleSendsAreReadings(readings: seq<LoopReading>, from: nat, start: int,
                                                    n: nat, next: int, interval: nat, limit: int, run: Run)
    requires from <= |readings| && run == Schedule(readings, from, start, n, next, interval, limit)
    ensures forall j :: 0 <= j < |run.sends| ==>
        exists i :: from <= i < from + run.consumed && run.sends[j] == readings[i].now
    decreases |readings| - from
  {
    if from < |readings| && readings[from].guard - start < limit {
      var now := readings[from].now;
      if now.micros < next {
        var later := Schedule(readings, from + 1, start, n, next, interval, limit);
        ScheduleSendsAreReadings(readings, from + 1, start, n, next, interval, limit, later);
        forall j | 0 <= j < |run.sends|
          ensures exists i :: from <= i < from + run.consumed && run.sends[j] == readings[i].now
        {
          var i :| from + 1 <= i < from + 1 + later.consumed && later.sends[j] == readings[i].now;
          assert run.sends[j] == readings[i].now;
        }
      } else if n < U64_BOUND {
        var later := Schedule(readings, from + 1, start, n + 1, next + interval, interval, limit);
        ScheduleSendsAreReadings(readings, from + 1, start, n + 1, next + interval, interval, limit, later);
        forall j | 0 <= j < |run.sends|
          ensures exists i :: from <= i < from + run.consumed && run.sends[j] == readings[i].now
        {
          if j == 0 {
            assert run.sends[0] == readings[from].now;
          } else {
            var i :| from + 1 <= i < from + 1 + later.consumed
              && later.sends[j - 1] == readings[i].now;
            assert run.sends[j] == readings[i].now;
          }
        }
      }
    }
  }

  /**
   * `Schedule` consumes only readings that meet the loop's guard, and stops either at the
   * end of the readings, at the first reading past the test length, or at a failure.
   */
  lemma {:induction false} ScheduleStops(readings: seq<LoopReading>, from: nat, start: int,
                                         n: nat, next: int, interval: nat, limit: int)
    requires from <= |readings|
    ensures var run := Schedule(readings, from, start, n, next, interval, limit);
      && (forall i :: from <= i < from + run.consumed ==> readings[i].guard - start < limit)
      && (!run.failed ==>
            from + run.consumed == |readings| || readings[from + run.consumed].guard - start >= limit)
    decreases |readings| - from
  {
    if from < |readings| && readings[from].guard - start < limit {
      if readings[from].now.micros < next {
        ScheduleStops(readings, from + 1, start, n, next, interval, limit);
      } else if n < U64_BOUND {
        ScheduleStops(readings, from + 1, start, n + 1, next + interval, interval, limit);
      }
    }
  }

  /**
   * `Schedule` fails only at a due reading, the last it consumed, once the sequence number
   * has passed the u64 range.
   */
  lemma {:induction false} ScheduleFails(readings: seq<LoopReading>, from: nat, start: int,
                                         n: nat, next: int, interval: nat, limit: int)
    requires from <= |readings|
    ensures var run := Schedule(readings, from, start, n, next, interval, limit);
      run.failed ==>
        && run.consumed > 0
        && n + |run.sends| >= U64_BOUND
        && readings[from + run.consumed - 1].now.micros >= next + |run.sends| * interval
    decreases |readings| - from
  {
    if from < |readings| && readings[from].guard - start < limit {
      if readings[from].now.micros < next {
        ScheduleFails(readings, from + 1, start, n, next, interval, limit);
      } else if n < U64_BOUND {
        ScheduleFails(readings, from + 1, start, n + 1, next + interval, interval, limit);
        var later := Schedule(readings, from + 1, start, n + 1, next + interval, interval, limit);
        assert next + interval + |later.sends| * interval == next + (|later.sends| + 1) * interval;
      }
    }
  }

  /** Request `j` of a `Schedule` from deadline `next` goes out no earlier than its slot. */
  lemma {:induction false} ScheduleSlots(readings: seq<LoopReading>, from: nat, start: int,
                                         n: nat, next: int, interval: nat, limit: int, run: Run)
    requires from <= |readings| && run == Schedule(readings, from, start, n, next, interval, limit)
    ensures forall j :: 0 <= j < |run.sends| ==> run.sends[j].micros >= next + j * interval
    decreases |readings| - from
  {
    if from < |readings| && readings[from].guard - start < limit {
      if readings[from].now.micros < next {
        var later := Schedule(readings, from + 1, start, n, next, interval, limit);
        ScheduleSlots(readings, from + 1, start, n, next, interval, limit, later);
      } else if n < U64_BOUND {
        var later := Schedule(readings, from + 1, start, n + 1, next + interval, interval, limit);
        ScheduleSlots(readings, from + 1, start, n + 1, next + interval, interval, limit, later);
        forall j | 0 <= j < |run.sends|
          ensures run.sends[j].micros >= next + j * interval
        {
          if j > 0 {
            assert run.sends[j] == later.sends[j - 1];
            assert later.sends[j - 1].micros >= next + interval + (j - 1) * interval;
            assert next + interval + (j - 1) * interval == next + j * interval;
          }
        }
      }
    }
  }

  /**
   * When every remaining reading meets the guard and each is due at its own slot, with
   * sequence numbers to spare, `Schedule` sends at every one of them and does not fail.
   */
  lemma {:induction false} ScheduleAllDue(readings: seq<LoopReading>, from: nat, start: int,
                                          n: nat, next: int, interval: nat, limit: int)
    requires from <= |readings|
    requires forall i :: from <= i < |readings| ==>
      readings[i].guard - start < limit && readings[i].now.micros >= next + (i - from) * interval
    requires n + (|readings| - from) < U64_BOUND
    ensures var run := Schedule(readings, from, start, n, next, interval, limit);
      && !run.failed
      && run.consumed == |readings| - from
      && |run.sends| == |readings| - from
      && forall j :: 0 <= j < |run.sends| ==> run.sends[j] == readings[from + j].now
    decreases |readings| - from
  {
    if from < |readings| {
      assert readings[from].now.micros >= next + 0 * interval;
      forall i | from + 1 <= i < |readings|
        ensures readings[i].now.micros >= next + interval + (i - (from + 1)) * interval
      {
        assert next + (i - from) * interval == next + interval + (i - (from + 1)) * interval;
      }
      ScheduleAllDue(readings, from + 1, start, n + 1, next + interval, interval, limit);
      var run := Schedule(readings, from, start, n, next, interval, limit);
      var later := Schedule(readings, from + 1, start, n + 1, next + interval, interval, limit);
      assert run.sends == [readings[from].now] + later.sends;
    }
  }

  /**
   * When every remaining reading meets the guard but comes before the deadline,
   * `Schedule` consumes them all and sends nothing.
   */
  lemma {:induction false} ScheduleNoneDue(readings: seq<LoopReading>, from: nat, start: int,
                                           n: nat, next: int, interval: nat, limit: int)
    requires from <= |readings|
    requires forall i :: from <= i < |readings| ==>
      readings[i].guard - start < limit && readings[i].now.micros < next
    ensures Schedule(readings, from, start, n, next, interval, limit)
      == Run([], |readings| - from, false)
    decreases |readings| - from
  {
    if from < |readings| {
      ScheduleNoneDue(readings, from + 1, start, n, next, interval, limit);
    }
  }

  /**
   * After `i` passes of the loop, `Schedule` over all readings is what was sent so far
   * followed by `Schedule` over the rest from the current sequence number and deadline.
   */
  ghost predicate Resumes(readings: seq<LoopReading>, start: int, first: nat, deadline: int,
                          interval: nat, limit: int, i: nat, n: nat, next: int, sent: seq<Instant>)
    requires i <= |readings|
  {
    var rest := Schedule(readings, i, start, n, next, interval, limit);
    Schedule(readings, 0, start, first, deadline, interval, limit)
      == Run(sent + rest.sends, i + rest.consumed, rest.failed)
  }

  /** A pass at a reading before the deadline sends nothing and leaves the state as it was. */
  lemma ResumesAfterIdle(readings: seq<LoopReading>, start: int, first: nat, deadline: int,
                         interval: nat, limit: int, i: nat, n: nat, next: int, sent: seq<Instant>)
    requires i < |readings| && readings[i].guard - start < limit && readings[i].now.micros < next
    requires Resumes(readings, start, first, deadline, interval, limit, i, n, next, sent)
    ensures Resumes(readings, start, first, deadline, interval, limit, i + 1, n, next, sent)
  {
  }

  /** A pass at a due reading with a u64 sequence number sends at that reading. */
  lemma ResumesAfterSend(readings: seq<LoopReading>, start: int, first: nat, deadline: int,
                         interval: nat, limit: int, i: nat, n: nat, next: int, sent: seq<Instant>)
    requires i < |readings| && readings[i].guard - start < limit
    requires readings[i].now.micros >= next && n < U64_BOUND
    requires Resumes(readings, start, first, deadline, interval, limit, i, n, next, sent)
    ensures Resumes(readings, start, first, deadline, interval, limit, i + 1, n + 1,
                    next + interval, sent + [readings[i].now])
  {
    var later := Schedule(readings, i + 1, start, n + 1, next + interval, interval, limit);
    assert sent + [readings[i].now] + later.sends == sent + ([readings[i].now] + later.sends);
  }

  /** The headers of requests `n`, `n + 1`, … sent at the readings `sent`. */
  function Headers(n: nat, sent: seq<Instant>): seq<Header>
    requires sent != [] ==> n + |sent| <= U64_BOUND
  {
    if sent == [] then []
    else Headers(n, sent[..|sent| - 1]) + [Header(n + |sent| - 1, sent[|sent| - 1].image)]
  }

  /** Header `j` is request `n + j`, stamped with the timestamp of its own send. */
  lemma {:induction false} HeadersMeaning(n: nat, sent: seq<Instant>)
    requires sent != [] ==> n + |sent| <= U64_BOUND
    ensures |Headers(n, sent)| == |sent|
    ensures forall j :: 0 <= j < |sent| ==> Headers(n, sent)[j] == Header(n + j, sent[j].image)
  {
    if sent != [] {
      HeadersMeaning(n, sent[..|sent| - 1]);
    }
  }

  /** The pending table `m` after requests `n`, `n + 1`, … were recorded at the readings `sent`. */
  function Recorded(m: map<nat, Instant>, n: nat, sent: seq<Instant>): map<nat, Instant>
  {
    if sent == [] then m
    else Recorded(m, n, sent[..|sent| - 1])[n + |sent| - 1 := sent[|sent| - 1]]
  }

  /**
   * Recording adds exactly the keys `n` to `n + |sent| - 1`, each holding its own reading,
   * and leaves every other entry as it was.
   */
  lemma {:induction false} RecordedMeaning(m: map<nat, Instant>, n: nat, sent: seq<Instant>)
    ensures forall k :: k in Recorded(m, n, sent) <==> k in m || n <= k < n + |sent|
    ensures forall k :: k in m && !(n <= k < n + |sent|) ==> Recorded(m, n, sent)[k] == m[k]
    ensures forall j :: 0 <= j < |sent| ==> Recorded(m, n, sent)[n + j] == sent[j]
  {
    if sent != [] {
      RecordedMeaning(m, n, sent[..|sent| - 1]);
    }
  }

  /**
   * The state of `request_data`'s loop after `i` passes from sequence number `first`, with
   * send times `before` and pending table `table` on entry: the readings `sent` at which it
   * sent have been appended to the send times and recorded as pending, one header each, and
   * `Schedule` resumes from the current sequence number `n` and deadline `next`.
   */
  ghost predicate Progress(readings: seq<LoopReading>, start: int, first: nat, deadline: int,
                           interval: nat, limit: int, before: seq<Instant>,
                           table: map<nat, Instant>, i: nat, n: nat, next: int,
                           sent: seq<Instant>, sendTimes: seq<Instant>,
                           pending: map<nat, Instant>, requests: seq<Header>)
  {
    && i <= |readings|
    && sendTimes == before + sent
    && n == first + |sent|
    && (sent != [] ==> n <= U64_BOUND)
    && requests == Headers(first, sent)
    && pending == Recorded(table, first, sent)
    && Resumes(readings, start, first, deadline, interval, limit, i, n, next, sent)
  }

  /** A pass at a reading before the deadline keeps the loop's state. */
  lemma ProgressAfterIdle(readings: seq<LoopReading>, start: int, first: nat, deadline: int,
                          interval: nat, limit: int, before: seq<Instant>,
                          table: map<nat, Instant>, i: nat, n: nat, next: int,
                          sent: seq<Instant>, sendTimes: seq<Instant>,
                          pending: map<nat, Instant>, requests: seq<Header>)
    requires Progress(readings, start, first, deadline, interval, limit, before, table,
                      i, n, next, sent, sendTimes, pending, requests)
    requires i < |readings| && readings[i].guard - start < limit && readings[i].now.micros < next
    ensures Progress(readings, start, first, deadline, interval, limit, before, table,
                     i + 1, n, next, sent, sendTimes, pending, requests)
  {
    ResumesAfterIdle(readings, start, first, deadline, interval, limit, i, n, next, sent);
  }

  /** A pass at a due reading with a u64 sequence number sends request `n` at that reading. */
  lemma ProgressAfterSend(readings: seq<LoopReading>, start: int, first: nat, deadline: int,
                          interval: nat, limit: int, before: seq<Instant>,
                          table: map<nat, Instant>, i: nat, n: nat, next: int,
                          sent: seq<Instant>, sendTimes: seq<Instant>,
                          pending: map<nat, Instant>, requests: seq<Header>)
    requires Progress(readings, start, first, deadline, interval, limit, before, table,
                      i, n, next, sent, sendTimes, pending, requests)
    requires i < |readings| && readings[i].guard - start < limit
    requires readings[i].now.micros >= next && n < U64_BOUND
    ensures var now := readings[i].now;
      Progress(readings, start, first, deadline, interval, limit, before, table,
               i + 1, n + 1, next + interval, sent + [now], sendTimes + [now],
               pending[n := now], requests + [Header(n, now.image)])
  {
    var now := readings[i].now;
    ResumesAfterSend(readings, start, first, deadline, interval, limit, i, n, next, sent);
    assert (sent + [now])[..|sent|] == sent;
  }

  /**
   * What the loop's state says about the flow: the requests sent so far carry consecutive
   * sequence numbers from `first`, each stamped with its own send time, and each joins the
   * pending table, whose earlier entries stay as they were.
   */
  lemma ProgressMeaning(readings: seq<LoopReading>, start: int, first: nat, deadline: int,
                        interval: nat, limit: int, before: seq<Instant>,
                        table: map<nat, Instant>, i: nat, n: nat, next: int,
                        sent: seq<Instant>, sendTimes: seq<Instant>,
                        pending: map<nat, Instant>, requests: seq<Header>)
    requires Progress(readings, start, first, deadline, interval, limit, before, table,
                      i, n, next, sent, sendTimes, pending, requests)
    requires |before| == first && forall k :: k in table ==> k < first
    ensures before <= sendTimes && n == first + |requests|
    ensures |requests| > 0 ==> n <= U64_BOUND
    ensures forall j :: 0 <= j < |requests| ==>
      requests[j] == Header(first + j, sendTimes[first + j].image)
    ensures forall k :: k in pending <==> k in table || first <= k < n
    ensures forall k :: k in table ==> pending[k] == table[k]
  {
    HeadersMeaning(first, sent);
    RecordedMeaning(table, first, sent);
  }

  /**
   * How the loop ended after `consumed` readings: either its guard failed there, or the
   * last reading it consumed was due while the sequence number was no longer a u64.
   */
  ghost predicate Ended(readings: seq<LoopReading>, start: int, first: nat, deadline: int,
                        interval: nat, limit: int, before: seq<Instant>,
                        table: map<nat, Instant>, consumed: nat, failed: bool, n: nat, next: int,
                        sent: seq<Instant>, sendTimes: seq<Instant>,
                        pending: map<nat, Instant>, requests: seq<Header>)
  {
    if failed then
      && 0 < consumed <= |readings|
      && Progress(readings, start, first, deadline, interval, limit, before, table,
                  consumed - 1, n, next, sent, sendTimes, pending, requests)
      && readings[consumed - 1].guard - start < limit
      && readings[consumed - 1].now.micros >= next && n >= U64_BOUND
    else
      && Progress(readings, start, first, deadline, interval, limit, before, table,
                  consumed, n, next, sent, sendTimes, pending, requests)
      && (consumed == |readings| || readings[consumed].guard - start >= limit)
  }

  /** A loop that ended has made exactly the passes of `Schedule`. */
  lemma ProgressEnded(readings: seq<LoopReading>, start: int, first: nat, deadline: int,
                      interval: nat, limit: int, before: seq<Instant>,
                      table: map<nat, Instant>, consumed: nat, failed: bool, n: nat, next: int,
                      sent: seq<Instant>, sendTimes: seq<Instant>,
                      pending: map<nat, Instant>, requests: seq<Header>)
    requires Ended(readings, start, first, deadline, interval, limit, before, table,
                   consumed, failed, n, next, sent, sendTimes, pending, requests)
    requires |before| == first && forall k :: k in table ==> k < first
    ensures Schedule(readings, 0, start, first, deadline, interval, limit) == Run(sent, consumed, failed)
    ensures before <= sendTimes && n == first + |requests|
    ensures |requests| > 0 ==> n <= U64_BOUND
    ensures forall j :: 0 <= j < |requests| ==>
      requests[j] == Header(first + j, sendTimes[first + j].image)
    ensures forall k :: k in pending <==> k in table || first <= k < n
    ensures forall k :: k in table ==> pending[k] == table[k]
  {
    var i := if failed then consumed - 1 else consumed;
    ProgressMeaning(readings, start, first, deadline, interval, limit, before, table,
                    i, n, next, sent, sendTimes, pending, requests);
    if failed {
      assert Schedule(readings, i, start, n, next, interval, limit) == Run([], 1, true);
    } else {
      assert Schedule(readings, i, start, n, next, interval, limit) == Run([], 0, false);
    }
    assert sent + [] == sent;
  }
}
