/**
 * The responder of udp_server.py: `ServerProtocol.datagram_received` echoes every datagram
 * of at least 16 bytes as a 24-byte response, counts it globally and in a per-address flow
 * table keyed "ip:port", and warns when a flow's sequence number goes backwards;
 * `UDPServer.report_stats` zeroes the global window counters.
 */
module Server {

  import opened Options
  import opened Wire
  import opened Sums
  import opened Reporting

  /** A peer address as the event loop passes it: `(ip, port)`. */
  datatype Address = Address(host: string, port: nat)

  function Digit(d: nat): (c: char)
    requires d < 10
    ensures '0' <= c <= '9'
  {
    ('0' as int + d) as char
  }

  /** Python's `str` of a non-negative integer: decimal digits, no leading zeros. */
  function Decimal(n: nat): (s: string)
    ensures |s| >= 1
    ensures forall i :: 0 <= i < |s| ==> '0' <= s[i] <= '9'
    decreases n
  {
    if n < 10 then [Digit(n)] else Decimal(n / 10) + [Digit(n % 10)]
  }

  /** The value of a string of decimal digits. */
  function ParseDecimal(s: string): nat
    requires forall i :: 0 <= i < |s| ==> '0' <= s[i] <= '9'
  {
    if s == [] then 0
    else ParseDecimal(s[..|s| - 1]) * 10 + (s[|s| - 1] as int - '0' as int)
  }

  lemma {:induction false} ParseDecimalOf(n: nat)
    ensures ParseDecimal(Decimal(n)) == n
    decreases n
  {
    if n >= 10 {
      var s := Decimal(n);
      assert s[..|s| - 1] == Decimal(n / 10);
      ParseDecimalOf(n / 10);
    }
  }

  /** `f"{addr[0]}:{addr[1]}"`. */
  function FlowKey(a: Address): string
  {
    a.host + ":" + Decimal(a.port)
  }

  /** The position of the last ':' in `s`, or -1 when there is none. */
  function LastColon(s: string): (i: int)
    ensures -1 <= i < |s|
  {
    if s == [] then -1
    else if s[|s| - 1] == ':' then |s| - 1
    else LastColon(s[..|s| - 1])
  }

  lemma {:induction false} LastColonBefore(x: string, p: string)
    requires forall i :: 0 <= i < |p| ==> p[i] != ':'
    ensures LastColon(x + ":" + p) == |x|
    decreases |p|
  {
    var s := x + ":" + p;
    if p != [] {
      assert s[..|s| - 1] == x + ":" + p[..|p| - 1];
      LastColonBefore(x, p[..|p| - 1]);
    }
  }

  /** Distinct addresses have distinct flow keys: the port's digits hold no ':'. */
  lemma FlowKeyInjective(a: Address, b: Address)
    requires FlowKey(a) == FlowKey(b)
    ensures a == b
  {
    var s := FlowKey(a);
    var pa, pb := Decimal(a.port), Decimal(b.port);
    LastColonBefore(a.host, pa);
    LastColonBefore(b.host, pb);
    assert a.host == s[..|a.host|] == b.host;
    assert pa == s[|a.host| + 1..] == pb;
    ParseDecimalOf(a.port);
    ParseDecimalOf(b.port);
  }

  /** One entry of `flow_stats`. */
  datatype FlowStats = FlowStats(packetsReceived: nat, bytesReceived: nat, lastSeq: Option<u64>)

  /** The entry created on the first datagram from an address. */
  const NEW_FLOW: FlowStats := FlowStats(0, 0, None)

  function Lookup(flows: map<string, FlowStats>, key: string): Option<FlowStats>
  {
    if key in flows then Some(flows[key]) else None
  }

  /** The new entry for one flow, and whether the reordering warning is logged. */
  datatype FlowUpdate = FlowUpdate(entry: FlowStats, reordered: bool)

  /**
   * Lines 88-102 for one key: create the entry if absent, count the datagram, warn when
   * the sequence number is below the previous one, and then record it as `last_seq`.
   */
  function UpdateFlow(prior: Option<FlowStats>, sequenceNumber: u64, length: nat): FlowUpdate
  {
    var e := GetOr(prior, NEW_FLOW);
    FlowUpdate(
      FlowStats(e.packetsReceived + 1, e.bytesReceived + length, Some(sequenceNumber)),
      e.lastSeq.Some? && sequenceNumber < e.lastSeq.value)
  }

  /** One datagram of a flow, as far as the flow table sees it. */
  datatype Arrival = Arrival(sequenceNumber: u64, length: nat)

  function TotalLength(arrivals: seq<Arrival>): nat
  {
    if arrivals == [] then 0
    else TotalLength(arrivals[..|arrivals| - 1]) + arrivals[|arrivals| - 1].length
  }

  /** The entry of one flow and the warnings logged, after its datagrams `arrivals`. */
  datatype History = History(entry: Option<FlowStats>, warnings: seq<bool>)

  function Replay(arrivals: seq<Arrival>): History
  {
    if arrivals == [] then History(None, [])
    else
      var h := Replay(arrivals[..|arrivals| - 1]);
      var a := arrivals[|arrivals| - 1];
      var u := UpdateFlow(h.entry, a.sequenceNumber, a.length);
      History(Some(u.entry), h.warnings + [u.reordered])
  }

  /** Datagram `i` carries a smaller sequence number than the one before it. */
  predicate BelowPrevious(arrivals: seq<Arrival>, i: nat)
    requires i < |arrivals|
  {
    0 < i && arrivals[i].sequenceNumber < arrivals[i - 1].sequenceNumber
  }

  /**
   * What the flow table knows of a flow after its datagrams: their number and total size,
   * `last_seq` is the latest sequence number (not the largest), and datagram `i` is
   * flagged exactly when its sequence number is below that of datagram `i - 1`; an equal
   * one (a duplicate) is not flagged.
   */
  lemma {:induction false} ReplayMeaning(arrivals: seq<Arrival>)
    ensures var h := Replay(arrivals);
      && |h.warnings| == |arrivals|
      && (arrivals == [] <==> h.entry.None?)
      && (arrivals != [] ==>
            && h.entry.value.packetsReceived == |arrivals|
            && h.entry.value.bytesReceived == TotalLength(arrivals)
            && h.entry.value.lastSeq == Some(arrivals[|arrivals| - 1].sequenceNumber))
      && forall i :: 0 <= i < |arrivals| ==> (h.warnings[i] <==> BelowPrevious(arrivals, i))
  {
    if arrivals != [] {
      var n := |arrivals|;
      var prefix := arrivals[..n - 1];
      ReplayMeaning(prefix);
      var h := Replay(arrivals);
      forall i | 0 <= i < n
        ensures h.warnings[i] <==> BelowPrevious(arrivals, i)
      {
        if i < n - 1 {
          assert h.warnings[i] == Replay(prefix).warnings[i];
          assert arrivals[i] == prefix[i];
          if 0 < i { assert arrivals[i - 1] == prefix[i - 1]; }
        } else {
          var p := Replay(prefix);
          assert h.warnings[i] == UpdateFlow(p.entry, arrivals[i].sequenceNumber, arrivals[i].length).reordered;
          if 0 < i {
            assert arrivals[i - 1] == prefix[n - 2];
            assert p.entry.value.lastSeq == Some(arrivals[i - 1].sequenceNumber);
          } else {
            assert p.entry.None?;
          }
        }
      }
    }
  }

  /** Sequence 5, 3, 4: only 3 is flagged, and `last_seq` ends at 4, below the 5 seen. */
  lemma LatestNotMaximum()
    ensures var h := Replay([Arrival(5, 16), Arrival(3, 16), Arrival(4, 16)]);
      h.warnings == [false, true, false] && h.entry.value.lastSeq == Some(4)
  {
    var a := [Arrival(5, 16), Arrival(3, 16), Arrival(4, 16)];
    assert a[..2][..1] == [Arrival(5, 16)];
    assert a[..2] == [Arrival(5, 16), Arrival(3, 16)];
    assert [Arrival(5, 16)][..0] == [];
  }

  function FlowPackets(flows: map<string, FlowStats>): map<string, nat>
  {
    map k | k in flows :: flows[k].packetsReceived
  }

  function FlowBytes(flows: map<string, FlowStats>): map<string, nat>
  {
    map k | k in flows :: flows[k].bytesReceived
  }

  /**
   * Recording a datagram under one key raises the table's packet total by exactly one and
   * its byte total by exactly the datagram's length.
   */
  lemma RecordRaisesTotals(flows: map<string, FlowStats>, key: string, sequenceNumber: u64, length: nat)
    ensures var next := flows[key := UpdateFlow(Lookup(flows, key), sequenceNumber, length).entry];
      && Sum(FlowPackets(next)) == Sum(FlowPackets(flows)) + 1
      && Sum(FlowBytes(next)) == Sum(FlowBytes(flows)) + length
  {
    var e := UpdateFlow(Lookup(flows, key), sequenceNumber, length).entry;
    var before := if key in flows then flows[key] else NEW_FLOW;
    assert e.packetsReceived == before.packetsReceived + 1;
    assert e.bytesReceived == before.bytesReceived + length;
    assert Sum(FlowPackets(flows[key := e])) + (if key in flows then flows[key].packetsReceived else 0)
        == Sum(FlowPackets(flows)) + e.packetsReceived by {
      PacketsUpdate(flows, key, e);
      SumUpdate(FlowPackets(flows), key, e.packetsReceived);
    }
    assert Sum(FlowBytes(flows[key := e])) + (if key in flows then flows[key].bytesReceived else 0)
        == Sum(FlowBytes(flows)) + e.bytesReceived by {
      BytesUpdate(flows, key, e);
      SumUpdate(FlowBytes(flows), key, e.bytesReceived);
    }
  }

  lemma PacketsUpdate(flows: map<string, FlowStats>, key: string, e: FlowStats)
    ensures FlowPackets(flows[key := e]) == FlowPackets(flows)[key := e.packetsReceived]
  {
  }

  lemma BytesUpdate(flows: map<string, FlowStats>, key: string, e: FlowStats)
    ensures FlowBytes(flows[key := e]) == FlowBytes(flows)[key := e.bytesReceived]
  {
  }

  /** The reply `datagram_received` sends: `!Qdd` of the request's two fields and `now`. */
  function ServerReply(data: Bytes, now: Double): (ack: Option<Bytes>)
    ensures ack.Some? <==> |data| >= HEADER_SIZE
    ensures ack.Some? ==>
      var h := UnpackHeader(data).value;
      UnpackResponse(ack.value) == Some(Response(h.sequenceNumber, h.timestamp, now))
  {
    match UnpackHeader(data)
    case None => None
    case Some(h) =>
      var r := Response(h.sequenceNumber, h.timestamp, now);
      UnpackPackResponse(r, []);
      assert PackResponse(r) + [] == PackResponse(r);
      Some(PackResponse(r))
  }

  /** One row written by `log_packet`. */
  datatype ServerRecord = ServerRecord(
    source: Address,
    sequenceNumber: u64,
    clientTimestamp: Double,
    serverTimestamp: Double,
    payloadLength: nat)

  ghost predicate WellFormedFlow(f: FlowStats)
  {
    f.packetsReceived >= 1 && f.bytesReceived >= HEADER_SIZE * f.packetsReceived && f.lastSeq.Some?
  }

  /** `UDPServer`: the `stats` counters and the flow table. */
  class UdpServer {
    var packetsReceived: nat
    /** Initialised to 0 and never updated by the server. */
    var packetsSent: nat
    var bytesReceived: nat
    var startTime: Option<int>
    var lastStatsTime: Option<int>
    var flowStats: map<string, FlowStats>
    /** The rows appended to the server log, oldest first. */
    var log: seq<ServerRecord>

    /**
     * The window counters never exceed the flow table's totals, which the window reset
     * does not touch, and every entry of the table has seen at least one datagram.
     */
    ghost predicate Valid()
      reads this
    {
      && packetsReceived <= Sum(FlowPackets(flowStats))
      && bytesReceived <= Sum(FlowBytes(flowStats))
      && bytesReceived >= HEADER_SIZE * packetsReceived
      && forall k :: k in flowStats ==> WellFormedFlow(flowStats[k])
    }

    constructor ()
      ensures Valid()
      ensures packetsReceived == 0 && packetsSent == 0 && bytesReceived == 0
      ensures startTime == None && lastStatsTime == None && flowStats == map[] && log == []
    {
      packetsReceived, packetsSent, bytesReceived := 0, 0, 0;
      startTime, lastStatsTime := None, None;
      flowStats := map[];
      log := [];
    }

    /** The clock bookkeeping of `start` once the endpoint exists. */
    method Start(now: int)
      modifies this`startTime, this`lastStatsTime
      ensures startTime == Some(now) && lastStatsTime == Some(now)
    {
      startTime := Some(now);
      lastStatsTime := Some(now);
    }

    /** One pass of the `report_stats` loop, after its sleep. */
    method ReportStats(now: int) returns (window: Option<Window>)
      requires Valid()
      modifies this`packetsReceived, this`bytesReceived, this`lastStatsTime
      ensures Valid()
      ensures window == if Due(old(lastStatsTime), now)
        then Some(Window(old(packetsReceived), old(bytesReceived), now - old(lastStatsTime).value))
        else None
      ensures window.Some? ==>
        packetsReceived == 0 && bytesReceived == 0 && lastStatsTime == Some(now)
      ensures window.None? ==> unchanged(this)
      ensures flowStats == old(flowStats)
    {
      if Due(lastStatsTime, now) {
        window := Some(Window(packetsReceived, bytesReceived, now - lastStatsTime.value));
        packetsReceived := 0;
        bytesReceived := 0;
        lastStatsTime := Some(now);
      } else {
        window := None;
      }
    }
  }

  /** `ServerProtocol`. */
  class ServerProtocol {
    const server: UdpServer
    /** `transport is not None`. */
    var connected: bool

    constructor (server: UdpServer)
      ensures this.server == server && !connected
    {
      this.server := server;
      connected := false;
    }

    method ConnectionMade()
      modifies this
      ensures connected
    {
      connected := true;
    }

    /**
     * `datagram_received` from `addr` at the clock reading `now`. A datagram shorter than
     * 16 bytes raises at the unpack, and without a transport `sendto` raises before any
     * counter moves: in both cases nothing changes and nothing is sent. Otherwise the echo
     * goes out, the datagram's full length is counted globally and under its address's
     * key alone, and a row is logged.
     */
    method DatagramReceived(data: Bytes, addr: Address, now: Instant)
      returns (ack: Option<Bytes>, reordered: bool)
      requires server.Valid()
      modifies server`packetsReceived, server`bytesReceived, server`flowStats, server`log
      ensures server.Valid()
      ensures UnpackHeader(data).None? || !connected ==>
        ack == None && !reordered && unchanged(server)
      ensures UnpackHeader(data).Some? && connected ==>
        var h := UnpackHeader(data).value;
        var key := FlowKey(addr);
        var u := UpdateFlow(Lookup(old(server.flowStats), key), h.sequenceNumber, |data|);
        && ack == ServerReply(data, now.image)
        && reordered == u.reordered
        && server.packetsReceived == old(server.packetsReceived) + 1
        && server.bytesReceived == old(server.bytesReceived) + |data|
        && server.flowStats == old(server.flowStats)[key := u.entry]
        && server.log == old(server.log)
             + [ServerRecord(addr, h.sequenceNumber, h.timestamp, now.image, |data|)]
    {
      ack, reordered := None, false;
      var unpacked := UnpackHeader(data);
      if unpacked.None? || !connected {
        return;
      }
      var h := unpacked.value;
      ack := Some(PackResponse(Response(h.sequenceNumber, h.timestamp, now.image)));
      var key := FlowKey(addr);
      var u := UpdateFlow(Lookup(server.flowStats, key), h.sequenceNumber, |data|);
      RecordRaisesTotals(server.flowStats, key, h.sequenceNumber, |data|);
      server.packetsReceived := server.packetsReceived + 1;
      server.bytesReceived := server.bytesReceived + |data|;
      server.flowStats := server.flowStats[key := u.entry];
      reordered := u.reordered;
      server.log := server.log + [ServerRecord(addr, h.sequenceNumber, h.timestamp, now.image, |data|)];
    }
  }
}
