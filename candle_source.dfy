/** Where the dashboard's candles come from: a materialized view when one is
    registered for the bar length and the existence probe confirms it,
    otherwise an on-the-fly query over `minute_aggregates` (stride sampling up
    to 15 minutes, true bucketing above). The database is a record of
    functions from query parameters to replies; the SQL this layer writes is
    modelled, what the database computes on its own (range filtering,
    ordering, `time_bucket` grouping, the views' contents) is the oracle's. */
module CandleSource {
  import opened Common
  import opened Timeframes

  /** A row of `minute_aggregates`: a one-minute bar at epoch second `time`;
      a NULL column is `None`. */
  datatype MinuteRow = MinuteRow(time: int, open: Option<real>, high: Option<real>, low: Option<real>,
                                 close: Option<real>, volume: Option<real>)

  /** A row of the candle SELECT: (time, open, high, low, close, volume),
      where NULL is `None`. */
  datatype CandleRow = CandleRow(time: int, open: Option<real>, high: Option<real>,
                                 low: Option<real>, close: Option<real>, volume: Option<real>)

  /** A candle as the dashboard payload carries it. */
  datatype Candle = Candle(time: int, open: real, high: real, low: real, close: real, volume: real)

  /** A `GROUP BY` group is never empty. */
  type Group = rows: seq<MinuteRow> | |rows| > 0 witness [MinuteRow(0, None, None, None, None, None)]

  /** One `time_bucket` group: its bucket start and the minute rows in it. */
  datatype Bucket = Bucket(start: int, rows: Group)

  /** The queries `_fetch_candles` can send, as functions of their
      parameters (symbol id, start and end in epoch seconds). */
  datatype CandleDb = CandleDb(
    matviewExists: string -> Reply<bool>,
    matviewRows: (string, int, int, int) -> Reply<seq<CandleRow>>,
    minuteRows: (int, int, int) -> Reply<seq<MinuteRow>>,
    buckets: (int, int, int, int) -> Reply<seq<Bucket>>
  )

  /** The two-variant strategy, with the aggregation variant split by bar
      length. */
  datatype Source = Matview(name: string) | StrideSample | Bucketed

  /** Largest bar length served by stride sampling. */
  const StrideLimit: int := 15

  function SelectSource(minutes: int, exists_: string -> Reply<bool>): Source
  {
    var useMatview := match MatviewName(minutes)
                      case None => false
                      case Some(name) => exists_(name) == Ok(true);
    if useMatview then Matview(MatviewName(minutes).value)
    else if minutes <= StrideLimit then StrideSample
    else Bucketed
  }

  /** The view is used iff one is registered and the probe answers true; a
      probe that answers false or raises falls back to aggregation, stride
      sampling exactly up to 15 minutes. */
  lemma SelectSourceSpec(minutes: int, exists_: string -> Reply<bool>)
    ensures SelectSource(minutes, exists_).Matview? <==>
              MatviewName(minutes).Some? && exists_(MatviewName(minutes).value) == Ok(true)
    ensures SelectSource(minutes, exists_).Matview? ==>
              Some(SelectSource(minutes, exists_).name) == MatviewName(minutes)
    ensures SelectSource(minutes, exists_).StrideSample? <==>
              !SelectSource(minutes, exists_).Matview? && minutes <= 15
    ensures SelectSource(minutes, exists_).Bucketed? <==>
              !SelectSource(minutes, exists_).Matview? && minutes > 15
  {
  }

  /** For every configured timeframe the view is registered, so aggregation
      is reached only when the probe does not answer true. */
  lemma ConfiguredFallbackOnlyOnProbe(marketType: string, i: nat, exists_: string -> Reply<bool>)
    requires i < |TimeframesFor(marketType)|
    ensures var minutes := TimeframesFor(marketType)[i].1;
            !SelectSource(minutes, exists_).Matview? <==>
              exists_(MatviewName(minutes).value) != Ok(true)
  {
    EveryTimeframeHasMatview(marketType, i);
  }

  // ---------------------------------------------------------------------
  // Stride sampling
  // ---------------------------------------------------------------------

  /** `EXTRACT(MINUTE FROM timestamp)` for an epoch second, in UTC. */
  function MinuteOfHour(t: int): int
  {
    (t / 60) % 60
  }

  predicate OnStride(r: MinuteRow, minutes: int)
    requires minutes != 0
  {
    MinuteOfHour(r.time) % minutes == 0
  }

  function AsCandleRow(r: MinuteRow): CandleRow
  {
    CandleRow(r.time, r.open, r.high, r.low, r.close, r.volume)
  }

  /** The positions of the rows the stride query keeps: exactly the rows
      whose minute of the hour is a multiple of the bar length, in input
      order. */
  function StridePositions(rows: seq<MinuteRow>, minutes: int): (pos: seq<nat>)
    requires minutes != 0
    ensures forall k :: 0 <= k < |pos| ==> pos[k] < |rows| && OnStride(rows[pos[k]], minutes)
    ensures forall k, l :: 0 <= k < l < |pos| ==> pos[k] < pos[l]
    ensures forall j :: 0 <= j < |rows| && OnStride(rows[j], minutes) ==> j in pos
    decreases |rows|
  {
    if |rows| == 0 then []
    else
      var init := rows[..|rows| - 1];
      var p := StridePositions(init, minutes);
      assert forall k :: 0 <= k < |p| ==> rows[p[k]] == init[p[k]];
      assert forall j :: 0 <= j < |init| ==> rows[j] == init[j];
      if OnStride(rows[|rows| - 1], minutes) then p + [|rows| - 1] else p
  }

  /** The rows the stride query returns, in their order. */
  function StrideRows(rows: seq<MinuteRow>, minutes: int): (out: seq<CandleRow>)
    requires minutes != 0
  {
    var pos := StridePositions(rows, minutes);
    seq(|pos|, k requires 0 <= k < |pos| => AsCandleRow(rows[pos[k]]))
  }

  // ---------------------------------------------------------------------
  // Bucketing
  // ---------------------------------------------------------------------

  /** Position of the earliest row (the first one, among equal times). */
  function EarliestIndex(rows: Group): (i: nat)
    ensures i < |rows|
    ensures forall j :: 0 <= j < |rows| ==> rows[i].time <= rows[j].time
    decreases |rows|
  {
    if |rows| == 1 then 0
    else
      var k := EarliestIndex(rows[..|rows| - 1]);
      if rows[|rows| - 1].time < rows[k].time then |rows| - 1 else k
  }

  /** Position of the latest row (the last one, among equal times). */
  function LatestIndex(rows: Group): (i: nat)
    ensures i < |rows|
    ensures forall j :: 0 <= j < |rows| ==> rows[j].time <= rows[i].time
    decreases |rows|
  {
    if |rows| == 1 then 0
    else
      var k := LatestIndex(rows[..|rows| - 1]);
      if rows[|rows| - 1].time >= rows[k].time then |rows| - 1 else k
  }

  /** `MAX(high)`: NULLs are skipped, the maximum of only NULLs is NULL;
      otherwise it is some row's high and bounds every present high. */
  function MaxHigh(rows: seq<MinuteRow>): (h: Option<real>)
    ensures h.None? <==> forall j :: 0 <= j < |rows| ==> rows[j].high.None?
    ensures h.Some? ==> exists i :: 0 <= i < |rows| && rows[i].high == h
    ensures h.Some? ==> forall j :: 0 <= j < |rows| && rows[j].high.Some? ==> rows[j].high.value <= h.value
    decreases |rows|
  {
    if |rows| == 0 then None
    else
      var m := MaxHigh(rows[..|rows| - 1]);
      match rows[|rows| - 1].high
      case None => m
      case Some(x) => if m.None? || x > m.value then Some(x) else m
  }

  /** `MIN(low)`: NULLs are skipped, the minimum of only NULLs is NULL;
      otherwise it is some row's low and is below every present low. */
  function MinLow(rows: seq<MinuteRow>): (l: Option<real>)
    ensures l.None? <==> forall j :: 0 <= j < |rows| ==> rows[j].low.None?
    ensures l.Some? ==> exists i :: 0 <= i < |rows| && rows[i].low == l
    ensures l.Some? ==> forall j :: 0 <= j < |rows| && rows[j].low.Some? ==> l.value <= rows[j].low.value
    decreases |rows|
  {
    if |rows| == 0 then None
    else
      var m := MinLow(rows[..|rows| - 1]);
      match rows[|rows| - 1].low
      case None => m
      case Some(x) => if m.None? || x < m.value then Some(x) else m
  }

  /** `SUM(volume)`: NULLs are skipped, and the sum of only NULLs is NULL. */
  function SumVolume(rows: seq<MinuteRow>): (v: Option<real>)
    ensures v.None? <==> forall j :: 0 <= j < |rows| ==> rows[j].volume.None?
    ensures (forall j :: 0 <= j < |rows| && rows[j].volume.Some? ==> rows[j].volume.value >= 0.0)
            ==> (v.Some? ==> v.value >= 0.0)
    decreases |rows|
  {
    if |rows| == 0 then None
    else
      var s := SumVolume(rows[..|rows| - 1]);
      match rows[|rows| - 1].volume
      case None => s
      case Some(x) => Some(x + (if s.Some? then s.value else 0.0))
  }

  /** One aggregated row per bucket: the open of the earliest row and the
      close of the latest (NULL when that row's price is NULL, as
      `array_agg(...)[1]` keeps NULLs), and MAX, MIN and SUM, which skip
      NULLs. */
  function Aggregate(b: Bucket): (r: CandleRow)
    ensures r.time == b.start
    ensures exists i :: 0 <= i < |b.rows| && r.open == b.rows[i].open &&
                        forall j :: 0 <= j < |b.rows| ==> b.rows[i].time <= b.rows[j].time
    ensures exists i :: 0 <= i < |b.rows| && r.close == b.rows[i].close &&
                        forall j :: 0 <= j < |b.rows| ==> b.rows[j].time <= b.rows[i].time
    ensures r.high.None? <==> forall j :: 0 <= j < |b.rows| ==> b.rows[j].high.None?
    ensures r.high.Some? ==> (exists i :: 0 <= i < |b.rows| && r.high == b.rows[i].high) &&
                             forall j :: 0 <= j < |b.rows| && b.rows[j].high.Some? ==>
                               b.rows[j].high.value <= r.high.value
    ensures r.low.None? <==> forall j :: 0 <= j < |b.rows| ==> b.rows[j].low.None?
    ensures r.low.Some? ==> (exists i :: 0 <= i < |b.rows| && r.low == b.rows[i].low) &&
                            forall j :: 0 <= j < |b.rows| && b.rows[j].low.Some? ==>
                              r.low.value <= b.rows[j].low.value
    ensures r.volume == SumVolume(b.rows)
    ensures r.volume.None? <==> forall j :: 0 <= j < |b.rows| ==> b.rows[j].volume.None?
  {
    var first := EarliestIndex(b.rows);
    var last := LatestIndex(b.rows);
    CandleRow(b.start, b.rows[first].open, MaxHigh(b.rows), MinLow(b.rows), b.rows[last].close,
              SumVolume(b.rows))
  }

  function AggregateAll(bs: seq<Bucket>): (out: seq<CandleRow>)
    ensures |out| == |bs| && forall i :: 0 <= i < |bs| ==> out[i] == Aggregate(bs[i])
  {
    seq(|bs|, i requires 0 <= i < |bs| => Aggregate(bs[i]))
  }

  // ---------------------------------------------------------------------
  // The query and the normalisation loop
  // ---------------------------------------------------------------------

  /** The rows the chosen query returns. The stride query's `%% 0` is a
      division by zero in SQL and raises. */
  function QueryRows(db: CandleDb, source: Source, symbolId: int, start: int, end: int,
                     minutes: int): Reply<seq<CandleRow>>
  {
    match source
    case Matview(name) => db.matviewRows(name, symbolId, start, end)
    case StrideSample =>
      if minutes == 0 then Raised
      else (match db.minuteRows(symbolId, start, end)
            case Raised => Raised
            case Ok(rows) => Ok(StrideRows(rows, minutes)))
    case Bucketed =>
      match db.buckets(minutes, symbolId, start, end)
      case Raised => Raised
      case Ok(bs) => Ok(AggregateAll(bs))
  }

  /** One candle per row: a NULL price makes `float(None)` raise; a NULL (or
      zero) volume becomes 0.0. */
  function ToCandle(r: CandleRow): Option<Candle>
  {
    if r.open.Some? && r.high.Some? && r.low.Some? && r.close.Some? then
      Some(Candle(r.time, r.open.value, r.high.value, r.low.value, r.close.value,
                  if r.volume.Some? then r.volume.value else 0.0))
    else None
  }

  /** What `_fetch_candles` returns: its handler turns every raise into []. */
  function CandlesFor(db: CandleDb, symbolId: int, start: int, end: int, minutes: int): seq<Candle>
  {
    match QueryRows(db, SelectSource(minutes, db.matviewExists), symbolId, start, end, minutes)
    case Raised => []
    case Ok(rows) =>
      match MapAll(ToCandle, rows)
      case None => []
      case Some(candles) => candles
  }

  method FetchCandles(db: CandleDb, symbolId: int, start: int, end: int, minutes: int)
    returns (candles: seq<Candle>)
    ensures candles == CandlesFor(db, symbolId, start, end, minutes)
  {
    var source := SelectSource(minutes, db.matviewExists);
    var reply := QueryRows(db, source, symbolId, start, end, minutes);
    if reply.Raised? {
      return [];
    }
    var converted := CollectAll(ToCandle, reply.value);
    candles := if converted.Some? then converted.value else [];
  }

  /** When the query answers and no price is NULL, there is one candle per
      row, in order, with the row's time and prices and a NULL volume read as
      0.0; otherwise the result is empty. */
  lemma CandlesNormalised(db: CandleDb, symbolId: int, start: int, end: int, minutes: int)
    ensures var reply := QueryRows(db, SelectSource(minutes, db.matviewExists), symbolId, start, end, minutes);
            var candles := CandlesFor(db, symbolId, start, end, minutes);
            && (reply.Raised? ==> candles == [])
            && (reply.Ok? && (exists i :: 0 <= i < |reply.value| && ToCandle(reply.value[i]).None?)
                ==> candles == [])
            && (reply.Ok? && (forall i :: 0 <= i < |reply.value| ==> ToCandle(reply.value[i]).Some?)
                ==> |candles| == |reply.value| &&
                    forall i :: 0 <= i < |candles| ==>
                      var r := reply.value[i];
                      && candles[i].time == r.time
                      && Some(candles[i].open) == r.open && Some(candles[i].high) == r.high
                      && Some(candles[i].low) == r.low && Some(candles[i].close) == r.close
                      && candles[i].volume == (if r.volume.Some? then r.volume.value else 0.0))
  {
    var reply := QueryRows(db, SelectSource(minutes, db.matviewExists), symbolId, start, end, minutes);
    if reply.Ok? {
      MapAllSpec(ToCandle, reply.value);
    }
  }

  // ---------------------------------------------------------------------
  // Ordering
  // ---------------------------------------------------------------------

  predicate CandlesAscending(cs: seq<Candle>)
  {
    forall i, j :: 0 <= i < j < |cs| ==> cs[i].time <= cs[j].time
  }

  predicate RowsAscending(rs: seq<CandleRow>)
  {
    forall i, j :: 0 <= i < j < |rs| ==> rs[i].time <= rs[j].time
  }

  predicate MinutesAscending(rs: seq<MinuteRow>)
  {
    forall i, j :: 0 <= i < j < |rs| ==> rs[i].time <= rs[j].time
  }

  predicate BucketsAscending(bs: seq<Bucket>)
  {
    forall i, j :: 0 <= i < j < |bs| ==> bs[i].start <= bs[j].start
  }

  /** The database keeps its `ORDER BY` for these parameters. */
  ghost predicate DbOrdered(db: CandleDb, symbolId: int, start: int, end: int, minutes: int)
  {
    && (forall name :: db.matviewRows(name, symbolId, start, end).Ok? ==>
          RowsAscending(db.matviewRows(name, symbolId, start, end).value))
    && (db.minuteRows(symbolId, start, end).Ok? ==> MinutesAscending(db.minuteRows(symbolId, start, end).value))
    && (db.buckets(minutes, symbolId, start, end).Ok? ==>
          BucketsAscending(db.buckets(minutes, symbolId, start, end).value))
  }

  /** Whatever the source, the candles come back in ascending time order. */
  lemma CandlesFetchedAscending(db: CandleDb, symbolId: int, start: int, end: int, minutes: int)
    requires DbOrdered(db, symbolId, start, end, minutes)
    ensures CandlesAscending(CandlesFor(db, symbolId, start, end, minutes))
  {
    var source := SelectSource(minutes, db.matviewExists);
    var reply := QueryRows(db, source, symbolId, start, end, minutes);
    if reply.Ok? {
      RowsFetchedAscending(db, source, symbolId, start, end, minutes);
      CandlesKeepOrder(reply.value);
    }
  }

  /** Each of the three queries returns its rows in ascending time order. */
  lemma RowsFetchedAscending(db: CandleDb, source: Source, symbolId: int, start: int, end: int, minutes: int)
    requires DbOrdered(db, symbolId, start, end, minutes)
    ensures QueryRows(db, source, symbolId, start, end, minutes).Ok? ==>
              RowsAscending(QueryRows(db, source, symbolId, start, end, minutes).value)
  {
    if source.StrideSample? && minutes != 0 && db.minuteRows(symbolId, start, end).Ok? {
      var rows := QueryRows(db, source, symbolId, start, end, minutes).value;
      var mrows := db.minuteRows(symbolId, start, end).value;
      var pos := StridePositions(mrows, minutes);
      forall i, j | 0 <= i < j < |rows| ensures rows[i].time <= rows[j].time {
        assert rows[i].time == mrows[pos[i]].time && rows[j].time == mrows[pos[j]].time;
      }
    }
  }

  /** Converting rows to candles keeps their order. */
  lemma CandlesKeepOrder(rows: seq<CandleRow>)
    requires RowsAscending(rows)
    ensures MapAll(ToCandle, rows).Some? ==> CandlesAscending(MapAll(ToCandle, rows).value)
  {
    MapAllSpec(ToCandle, rows);
  }
}
