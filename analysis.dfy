/**
 * The offline analysis of analyze_results.py, on the two loaded logs: the summary metrics
 * of `calculate_metrics`, the per-second series that `plot_throughput_over_time` and
 * `plot_packet_loss` compute before plotting, and the per-flow packet counts of
 * `plot_flow_metrics`. Every operation is a pure function of the rows.
 */
module Analysis {

  import opened Options
  import opened Sums

  /**
   * The client-log columns the analysis reads. `timestamp` is the row's write time in
   * microseconds since the epoch; `sequenceNumber` is `None` where the cell is empty.
   */
  datatype ClientRow = ClientRow(timestamp: int, flowId: int, sequenceNumber: Option<int>, rttMs: real)

  /** The server-log column the analysis reads. */
  datatype ServerRow = ServerRow(timestamp: int)

  /** The packet size the analysis assumes for every row, whatever was configured. */
  const ASSUMED_PACKET_BYTES: nat := 1400
  const MICROS_PER_SECOND: nat := 1_000_000

  // ---------------------------------------------------------------- loss rate

  /**
   * `(total_packets - received_packets) / total_packets * 100`. Both counts are Python
   * ints, so an empty client log raises `ZeroDivisionError` (`None`). The rate is zero
   * exactly when the counts agree, negative exactly when the server logged more rows, and
   * never above 100.
   */
  function LossRate(sent: nat, received: nat): (r: Option<real>)
    ensures r.None? <==> sent == 0
    ensures r.Some? ==> (r.value == 0.0 <==> received == sent)
    ensures r.Some? ==> (r.value < 0.0 <==> received > sent)
    ensures r.Some? ==> r.value <= 100.0
  {
    if sent == 0 then None
    else Some((sent - received) as real / sent as real * 100.0)
  }

  // ---------------------------------------------------------------- bytes and duration

  /** `client_df['sequence_number'].count()`: the rows whose sequence number is present. */
  function CountSequenced(rows: seq<ClientRow>): (n: nat)
    ensures n <= |rows|
  {
    if rows == [] then 0
    else CountSequenced(rows[..|rows| - 1]) + (if rows[|rows| - 1].sequenceNumber.Some? then 1 else 0)
  }

  lemma {:induction false} CountSequencedAll(rows: seq<ClientRow>)
    requires forall i :: 0 <= i < |rows| ==> rows[i].sequenceNumber.Some?
    ensures CountSequenced(rows) == |rows|
  {
    if rows != [] {
      CountSequencedAll(rows[..|rows| - 1]);
    }
  }

  /** `count() * 1400`. */
  function TotalBytes(rows: seq<ClientRow>): (b: nat)
    ensures b <= ASSUMED_PACKET_BYTES * |rows|
  {
    CountSequenced(rows) * ASSUMED_PACKET_BYTES
  }

  /** The least element of a non-empty column. */
  function MinOf(xs: seq<real>): (m: real)
    requires |xs| > 0
    ensures m in xs
    ensures forall x :: x in xs ==> m <= x
  {
    if |xs| == 1 then xs[0]
    else
      var rest := MinOf(xs[1..]);
      assert forall x :: x in xs ==> x == xs[0] || x in xs[1..];
      if xs[0] <= rest then xs[0] else rest
  }

  /** The greatest element of a non-empty column. */
  function MaxOf(xs: seq<real>): (m: real)
    requires |xs| > 0
    ensures m in xs
    ensures forall x :: x in xs ==> x <= m
  {
    if |xs| == 1 then xs[0]
    else
      var rest := MaxOf(xs[1..]);
      assert forall x :: x in xs ==> x == xs[0] || x in xs[1..];
      if xs[0] >= rest then xs[0] else rest
  }

  function Rtts(rows: seq<ClientRow>): (xs: seq<real>)
    ensures |xs| == |rows|
    ensures forall i :: 0 <= i < |rows| ==> xs[i] == rows[i].rttMs
  {
    seq(|rows|, i requires 0 <= i < |rows| => rows[i].rttMs)
  }

  function Timestamps(rows: seq<ClientRow>): (xs: seq<real>)
    ensures |xs| == |rows|
    ensures forall i :: 0 <= i < |rows| ==> xs[i] == rows[i].timestamp as real
  {
    seq(|rows|, i requires 0 <= i < |rows| => rows[i].timestamp as real)
  }

  /** `col.min()` and `col.max()`: `None` (NaN) on an empty column. */
  datatype Range = Range(low: real, high: real)

  function RangeOf(xs: seq<real>): (r: Option<Range>)
    ensures r.None? <==> xs == []
    ensures r.Some? ==> r.value.low in xs && r.value.high in xs
    ensures r.Some? ==> forall x :: x in xs ==> r.value.low <= x <= r.value.high
  {
    if xs == [] then None else Some(Range(MinOf(xs), MaxOf(xs)))
  }

  /** `timestamp.max() - timestamp.min()`, in microseconds; never negative. */
  function Duration(rows: seq<ClientRow>): (d: Option<real>)
    ensures d.None? <==> rows == []
    ensures d.Some? ==> d.value >= 0.0
    ensures d.Some? ==> forall i, j :: 0 <= i < |rows| && 0 <= j < |rows| ==>
      (rows[i].timestamp - rows[j].timestamp) as real <= d.value
  {
    match RangeOf(Timestamps(rows))
    case None => None
    case Some(r) =>
      var ts := Timestamps(rows);
      assert forall i :: 0 <= i < |rows| ==> ts[i] in ts;
      Some(r.high - r.low)
  }

  /**
   * `total_bytes * 8 / (duration * 1_000_000)` in Mbps, which is bits per microsecond of
   * the `Duration`. Undefined (`None`) when there is no row or every row has the same
   * timestamp.
   */
  function Throughput(rows: seq<ClientRow>): (t: Option<real>)
    ensures t.None? <==> Duration(rows).None? || Duration(rows).value == 0.0
    ensures t.Some? ==> t.value >= 0.0
    ensures t.Some? ==> Duration(rows).Some? && t.value == Rate(Bits(rows), Duration(rows).value)
  {
    var d := Duration(rows);
    if d.None? || d.value == 0.0 then None
    else
      Some(Rate(Bits(rows), d.value))
  }

  /** The assumed payload of the sequenced rows, in bits. */
  function Bits(rows: seq<ClientRow>): (b: real)
    ensures b >= 0.0
  {
    (TotalBytes(rows) * 8) as real
  }

  /** `amount` spread evenly over `span`. */
  function Rate(amount: real, span: real): (r: real)
    requires amount >= 0.0 && span > 0.0
    ensures r >= 0.0
    ensures r * span == amount
  {
    amount / span
  }

  // ---------------------------------------------------------------- RTT spread

  function SumOf(xs: seq<real>): real
  {
    if xs == [] then 0.0 else SumOf(xs[..|xs| - 1]) + xs[|xs| - 1]
  }

  /** `col.mean()`, exactly. */
  function Mean(xs: seq<real>): (m: Option<real>)
    ensures m.None? <==> xs == []
    ensures m.Some? ==> m.value * |xs| as real == SumOf(xs)
  {
    if xs == [] then None else Some(SumOf(xs) / |xs| as real)
  }

  function SquaredDeviations(xs: seq<real>, center: real): (s: real)
    ensures s >= 0.0
  {
    if xs == [] then 0.0
    else
      var d := xs[|xs| - 1] - center;
      SquaredDeviations(xs[..|xs| - 1], center) + d * d
  }

  /**
   * `col.std()` is the sample standard deviation (divisor n - 1), NaN below two samples.
   * Square roots are not modelled: the value is kept as its square, the sample variance.
   */
  datatype StdDev = StdDevOf(variance: real)

  function SampleStdDev(xs: seq<real>): (s: Option<StdDev>)
    ensures s.None? <==> |xs| < 2
    ensures s.Some? ==> s.value.variance >= 0.0
  {
    if |xs| < 2 then None
    else
      var mean := SumOf(xs) / |xs| as real;
      Some(StdDevOf(SquaredDeviations(xs, mean) / (|xs| - 1) as real))
  }

  /** What `calculate_metrics` returns; the 95th and 99th percentiles are not modelled. */
  datatype Metrics = Metrics(
    rttMean: Option<real>,
    rttStd: Option<StdDev>,
    rttRange: Option<Range>,
    packetLossRate: real,
    throughputMbps: Option<real>,
    jitterMs: Option<StdDev>)

  /**
   * `calculate_metrics`. The loss rate's division raises on an empty client log, which
   * aborts the whole call (`None`). The jitter is computed by the very expression of the
   * RTT standard deviation, so the two always agree.
   */
  function CalculateMetrics(client: seq<ClientRow>, server: seq<ServerRow>): (m: Option<Metrics>)
    ensures m.None? <==> client == []
    ensures m.Some? ==> m.value.jitterMs == m.value.rttStd
    ensures m.Some? ==> LossRate(|client|, |server|) == Some(m.value.packetLossRate)
    ensures m.Some? ==> m.value.rttRange.Some? && forall i :: 0 <= i < |client| ==>
      m.value.rttRange.value.low <= client[i].rttMs <= m.value.rttRange.value.high
  {
    var rtts := Rtts(client);
    match LossRate(|client|, |server|)
    case None => None
    case Some(loss) =>
      assert forall i :: 0 <= i < |client| ==> rtts[i] in rtts;
      Some(Metrics(
        Mean(rtts),
        SampleStdDev(rtts),
        RangeOf(rtts),
        loss,
        Throughput(client),
        SampleStdDev(rtts)))
  }

  /**
   * The mean absolute difference of consecutive samples, the usual definition of jitter,
   * stated only to compare with what `calculate_metrics` reports under that name.
   */
  function MeanSuccessiveDifference(xs: seq<real>): Option<real>
  {
    if |xs| < 2 then None else Some(SuccessiveDifferences(xs) / (|xs| - 1) as real)
  }

  function SuccessiveDifferences(xs: seq<real>): real
  {
    if |xs| < 2 then 0.0
    else
      var d := xs[|xs| - 1] - xs[|xs| - 2];
      SuccessiveDifferences(xs[..|xs| - 1]) + (if d < 0.0 then -d else d)
  }

  /**
   * For the RTTs 10, 12, 11, 15 the reported jitter is the standard deviation, whose
   * square is 14/3, while the mean successive difference is 7/3, whose square is 49/9:
   * the two statistics differ.
   */
  lemma JitterIsNotSuccessiveDifference()
    ensures var xs := [10.0, 12.0, 11.0, 15.0];
      && SampleStdDev(xs) == Some(StdDevOf(14.0 / 3.0))
      && MeanSuccessiveDifference(xs) == Some(7.0 / 3.0)
      && (7.0 / 3.0) * (7.0 / 3.0) != 14.0 / 3.0
  {
    var xs := [10.0, 12.0, 11.0, 15.0];
    assert xs[..3] == [10.0, 12.0, 11.0];
    assert xs[..3][..2] == [10.0, 12.0];
    assert xs[..3][..2][..1] == [10.0];
    assert [10.0][..0] == [];
    assert SumOf([10.0]) == 10.0;
    assert SumOf([10.0, 12.0]) == 22.0;
    assert SumOf([10.0, 12.0, 11.0]) == 33.0;
    assert SumOf(xs) == 48.0;
    assert SquaredDeviations([10.0], 12.0) == 4.0;
    assert SquaredDeviations([10.0, 12.0], 12.0) == 4.0;
    assert SquaredDeviations([10.0, 12.0, 11.0], 12.0) == 5.0;
    assert SquaredDeviations(xs, 12.0) == 14.0;
    assert SuccessiveDifferences([10.0, 12.0]) == 2.0;
    assert SuccessiveDifferences([10.0, 12.0, 11.0]) == 3.0;
    assert SuccessiveDifferences(xs) == 7.0;
  }

  // ---------------------------------------------------------------- group-by tallies

  /** One row as `groupby(key)` sees it, and whether the aggregation counts it. */
  datatype Entry = Entry(key: int, counted: bool)

  /** The number of counted entries under `key`. */
  function Occurrences(entries: seq<Entry>, key: int): nat
  {
    if entries == [] then 0
    else
      var e := entries[|entries| - 1];
      Occurrences(entries[..|entries| - 1], key) + (if e.key == key && e.counted then 1 else 0)
  }

  function CountCounted(entries: seq<Entry>): nat
  {
    if entries == [] then 0
    else CountCounted(entries[..|entries| - 1]) + (if entries[|entries| - 1].counted then 1 else 0)
  }

  /**
   * `groupby(key)` followed by a counting aggregation: one group per distinct key, holding
   * the number of counted entries under it.
   */
  function Tally(entries: seq<Entry>): (m: map<int, nat>)
    ensures m.Keys == (set e | e in entries :: e.key)
    ensures forall k :: k in m ==> m[k] == Occurrences(entries, k)
    ensures forall k :: k !in m ==> Occurrences(entries, k) == 0
  {
    if entries == [] then map[]
    else
      var prefix := entries[..|entries| - 1];
      var e := entries[|entries| - 1];
      var m := Tally(prefix);
      assert entries == prefix + [e];
      assert forall x :: x in entries <==> x in prefix || x == e;
      var before := if e.key in m then m[e.key] else 0;
      assert forall k :: Occurrences(entries, k) == Occurrences(prefix, k) + (if e.key == k && e.counted then 1 else 0);
      m[e.key := before + (if e.counted then 1 else 0)]
  }

  /** The groups together hold every counted entry. */
  lemma {:induction false} TallySum(entries: seq<Entry>)
    ensures Sum(Tally(entries)) == CountCounted(entries)
  {
    if entries != [] {
      var prefix := entries[..|entries| - 1];
      var e := entries[|entries| - 1];
      TallySum(prefix);
      var m := Tally(prefix);
      SumUpdate(m, e.key, Tally(entries)[e.key]);
      assert Tally(entries) == m[e.key := Tally(entries)[e.key]];
    }
  }

  /** When every entry is counted (`size()`), every group holds at least one. */
  lemma {:induction false} TallyAllCounted(entries: seq<Entry>)
    requires forall i :: 0 <= i < |entries| ==> entries[i].counted
    ensures forall k :: k in Tally(entries) ==> Tally(entries)[k] >= 1
    ensures CountCounted(entries) == |entries|
  {
    if entries != [] {
      var prefix := entries[..|entries| - 1];
      TallyAllCounted(prefix);
    }
  }

  // ---------------------------------------------------------------- per-second series

  /** `dt.floor('s')`: Euclidean division floors for a positive divisor. */
  function Second(timestamp: int): (s: int)
    ensures s * MICROS_PER_SECOND <= timestamp < (s + 1) * MICROS_PER_SECOND
  {
    timestamp / MICROS_PER_SECOND
  }

  function SecondEntries(timestamps: seq<int>): (es: seq<Entry>)
    ensures |es| == |timestamps|
    ensures forall i :: 0 <= i < |es| ==> es[i] == Entry(Second(timestamps[i]), true)
  {
    seq(|timestamps|, i requires 0 <= i < |timestamps| => Entry(Second(timestamps[i]), true))
  }

  /** `groupby('second').size()` over rows with these timestamps. */
  function BucketBySecond(timestamps: seq<int>): map<int, nat>
  {
    Tally(SecondEntries(timestamps))
  }

  /**
   * The buckets are the floored seconds of the rows, each counts its rows and at least
   * one, and together they count every row; so there are never more buckets than rows.
   */
  lemma BucketsMeaning(timestamps: seq<int>)
    ensures var b := BucketBySecond(timestamps);
      && b.Keys == (set t | t in timestamps :: Second(t))
      && (forall s :: s in b ==> b[s] >= 1)
      && Sum(b) == |timestamps|
      && |b| <= |timestamps|
  {
    var es := SecondEntries(timestamps);
    TallyAllCounted(es);
    TallySum(es);
    SumAtLeastSize(Tally(es));
    assert forall t :: t in timestamps ==> Entry(Second(t), true) in es by {
      forall t | t in timestamps ensures Entry(Second(t), true) in es {
        var i :| 0 <= i < |timestamps| && timestamps[i] == t;
        assert es[i] == Entry(Second(t), true);
      }
    }
  }

  function ClientTimestamps(rows: seq<ClientRow>): (ts: seq<int>)
    ensures |ts| == |rows| && forall i :: 0 <= i < |rows| ==> ts[i] == rows[i].timestamp
  {
    seq(|rows|, i requires 0 <= i < |rows| => rows[i].timestamp)
  }

  function ServerTimestamps(rows: seq<ServerRow>): (ts: seq<int>)
    ensures |ts| == |rows| && forall i :: 0 <= i < |rows| ==> ts[i] == rows[i].timestamp
  {
    seq(|rows|, i requires 0 <= i < |rows| => rows[i].timestamp)
  }

  /**
   * `plot_throughput_over_time` before plotting: `size() * 1400 * 8 / 1_000_000` Mbps per
   * second. Every plotted second carries at least one assumed packet.
   */
  function ThroughputSeries(rows: seq<ClientRow>): (r: map<int, real>)
    ensures r.Keys == BucketBySecond(ClientTimestamps(rows)).Keys
    ensures forall s :: s in r ==> r[s] >= (ASSUMED_PACKET_BYTES * 8) as real / MICROS_PER_SECOND as real
  {
    var b := BucketBySecond(ClientTimestamps(rows));
    BucketsMeaning(ClientTimestamps(rows));
    map s | s in b :: (b[s] * ASSUMED_PACKET_BYTES * 8) as real / MICROS_PER_SECOND as real
  }

  /** `series.reindex(keys, fill_value=0)`. */
  function Reindex(m: map<int, nat>, keys: set<int>): map<int, nat>
  {
    map k | k in keys :: if k in m then m[k] else 0
  }

  /**
   * Reindexing both series onto the union of their seconds gives them that same key set;
   * each keeps its counts where it had them, is 0 elsewhere, and loses no rows.
   */
  lemma AlignedSeries(c: map<int, nat>, s: map<int, nat>)
    ensures var all := c.Keys + s.Keys;
      var c', s' := Reindex(c, all), Reindex(s, all);
      && c'.Keys == all && s'.Keys == all
      && (forall k :: k in all ==> c'[k] == (if k in c then c[k] else 0))
      && (forall k :: k in all ==> s'[k] == (if k in s then s[k] else 0))
      && Sum(c') == Sum(c) && Sum(s') == Sum(s)
  {
    var all := c.Keys + s.Keys;
    SumZeroExtension(c, Reindex(c, all));
    SumZeroExtension(s, Reindex(s, all));
  }

  /** `plot_packet_loss` before plotting: the loss rate of each second of the union. */
  function LossSeries(client: seq<ClientRow>, server: seq<ServerRow>): map<int, Option<real>>
  {
    var c := BucketBySecond(ClientTimestamps(client));
    var s := BucketBySecond(ServerTimestamps(server));
    var all := c.Keys + s.Keys;
    var c', s' := Reindex(c, all), Reindex(s, all);
    map k | k in all :: LossRate(c'[k], s'[k])
  }

  /**
   * The loss series covers exactly the seconds either log has rows in; its value is
   * undefined (pandas' -inf) exactly at the seconds with server rows and no client row,
   * and elsewhere it is the loss rate of the two per-second counts.
   */
  lemma LossSeriesMeaning(client: seq<ClientRow>, server: seq<ServerRow>)
    ensures var c := BucketBySecond(ClientTimestamps(client));
      var s := BucketBySecond(ServerTimestamps(server));
      var loss := LossSeries(client, server);
      && loss.Keys == c.Keys + s.Keys
      && (forall k :: k in loss ==> (loss[k].None? <==> k !in c))
      && (forall k :: k in c ==> loss[k] == LossRate(c[k], if k in s then s[k] else 0))
  {
    BucketsMeaning(ClientTimestamps(client));
  }

  // ---------------------------------------------------------------- per-flow counts

  function FlowEntries(rows: seq<ClientRow>): (es: seq<Entry>)
    ensures |es| == |rows|
    ensures forall i :: 0 <= i < |es| ==>
      es[i] == Entry(rows[i].flowId, rows[i].sequenceNumber.Some?)
  {
    seq(|rows|, i requires 0 <= i < |rows| => Entry(rows[i].flowId, rows[i].sequenceNumber.Some?))
  }

  /** `groupby('flow_id').agg({'sequence_number': 'count'})`. */
  function FlowCounts(rows: seq<ClientRow>): map<int, nat>
  {
    Tally(FlowEntries(rows))
  }

  /** One group per distinct flow id; together the groups count every sequenced row. */
  lemma {:induction false} FlowCountsMeaning(rows: seq<ClientRow>)
    ensures FlowCounts(rows).Keys == (set r | r in rows :: r.flowId)
    ensures Sum(FlowCounts(rows)) == CountSequenced(rows)
  {
    var es := FlowEntries(rows);
    TallySum(es);
    CountedIsSequenced(rows);
    FlowKeys(rows);
  }

  lemma FlowKeys(rows: seq<ClientRow>)
    ensures (set e | e in FlowEntries(rows) :: e.key) == (set r | r in rows :: r.flowId)
  {
    var es := FlowEntries(rows);
    var keys, ids := (set e | e in es :: e.key), (set r | r in rows :: r.flowId);
    forall k | k in keys ensures k in ids {
      var e :| e in es && e.key == k;
      var i :| 0 <= i < |es| && es[i] == e;
      assert rows[i] in rows;
    }
    forall k | k in ids ensures k in keys {
      var r :| r in rows && r.flowId == k;
      var i :| 0 <= i < |rows| && rows[i] == r;
      assert es[i] in es;
    }
  }

  lemma {:induction false} CountedIsSequenced(rows: seq<ClientRow>)
    ensures CountCounted(FlowEntries(rows)) == CountSequenced(rows)
  {
    if rows != [] {
      var prefix := rows[..|rows| - 1];
      assert FlowEntries(rows)[..|rows| - 1] == FlowEntries(prefix);
      CountedIsSequenced(prefix);
    }
  }
}
