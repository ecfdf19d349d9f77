/** Zones of one symbol and timeframe label, as `_fetch_zones` shapes them:
    the label is resolved to a timeframe id, the zones query returns at
    most 30 rows ranked by score then start time (the database's promise),
    and each row becomes a zone record tagged with the label and with no
    exit data. The active/broken split is computed beside the list. */
module ZoneFetch {
  import opened Common

  /** A row of the zones query; NULL columns are `None`, and the score is
      already `COALESCE(zone_score, 0.0)`. */
  datatype ZoneRow = ZoneRow(zoneId: int, zoneType: string, bottom: Option<real>, top: Option<real>,
                             start: Option<int>, end: Option<int>, score: real, isBroken: Option<bool>)

  /** A zone as the dashboard payload carries it. */
  datatype Zone = Zone(zoneId: int, zoneType: string, bottomPrice: real, topPrice: real,
                       startTime: Option<int>, endTime: Option<int>, zoneScore: real,
                       isBroken: Option<bool>, exitPrice: Option<real>, exitTime: Option<int>,
                       timeframe: string)

  /** The two queries: label -> timeframe id (`None` when no row), and
      (symbol id, timeframe id) -> ranked rows. */
  datatype ZoneDb = ZoneDb(timeframeId: string -> Reply<Option<int>>,
                           zoneRows: (int, int) -> Reply<seq<ZoneRow>>)

  /** The `LIMIT` of the zones query. */
  const ZoneLimit: nat := 30

  /** One zone per row; `float(None)` on a NULL price raises. */
  function ToZone(r: ZoneRow, tf: string): Option<Zone>
  {
    if r.bottom.Some? && r.top.Some? then
      Some(Zone(r.zoneId, r.zoneType, r.bottom.value, r.top.value, r.start, r.end, r.score,
                r.isBroken, None, None, tf))
    else None
  }

  /** What `_fetch_zones` returns: an unknown label, a raise anywhere, or a
      NULL price gives []. */
  function ZonesFor(db: ZoneDb, symbolId: int, tf: string): seq<Zone>
  {
    match db.timeframeId(tf)
    case Raised => []
    case Ok(None) => []
    case Ok(Some(tfId)) =>
      match db.zoneRows(symbolId, tfId)
      case Raised => []
      case Ok(rows) =>
        match MapAll(r => ToZone(r, tf), rows)
        case None => []
        case Some(zones) => zones
  }

  method FetchZones(db: ZoneDb, symbolId: int, tf: string) returns (zones: seq<Zone>)
    ensures zones == ZonesFor(db, symbolId, tf)
  {
    var tfId := db.timeframeId(tf);
    if tfId.Raised? || tfId.value.None? {
      return [];
    }
    var reply := db.zoneRows(symbolId, tfId.value.value);
    if reply.Raised? {
      return [];
    }
    var converted := CollectAll(r => ToZone(r, tf), reply.value);
    zones := if converted.Some? then converted.value else [];
  }

  /** An unknown label yields no zones. */
  lemma UnknownLabelNoZones(db: ZoneDb, symbolId: int, tf: string)
    requires db.timeframeId(tf) == Ok(None)
    ensures ZonesFor(db, symbolId, tf) == []
  {
  }

  /** Every zone carries the requested label and no exit data, and when all
      prices are present there is one zone per row with the row's fields. */
  lemma ZonesShaped(db: ZoneDb, symbolId: int, tf: string)
    ensures forall z :: z in ZonesFor(db, symbolId, tf) ==>
              z.timeframe == tf && z.exitPrice.None? && z.exitTime.None?
    ensures db.timeframeId(tf).Ok? && db.timeframeId(tf).value.Some? ==>
              var reply := db.zoneRows(symbolId, db.timeframeId(tf).value.value);
              reply.Ok? && (forall i :: 0 <= i < |reply.value| ==>
                              reply.value[i].bottom.Some? && reply.value[i].top.Some?) ==>
                var zones := ZonesFor(db, symbolId, tf);
                |zones| == |reply.value| &&
                forall i :: 0 <= i < |zones| ==>
                  var r := reply.value[i];
                  && zones[i].zoneId == r.zoneId && zones[i].zoneType == r.zoneType
                  && Some(zones[i].bottomPrice) == r.bottom && Some(zones[i].topPrice) == r.top
                  && zones[i].startTime == r.start && zones[i].endTime == r.end
                  && zones[i].zoneScore == r.score && zones[i].isBroken == r.isBroken
  {
    match db.timeframeId(tf)
    case Raised =>
    case Ok(None) =>
    case Ok(Some(tfId)) =>
      match db.zoneRows(symbolId, tfId)
      case Raised =>
      case Ok(rows) =>
        var f := r => ToZone(r, tf);
        MapAllSpec(f, rows);
        if MapAll(f, rows).Some? {
          var zones := MapAll(f, rows).value;
          forall z | z in zones ensures z.timeframe == tf && z.exitPrice.None? && z.exitTime.None? {
            var i :| 0 <= i < |zones| && zones[i] == z;
            assert f(rows[i]).Some?;
          }
        }
  }

  // ---------------------------------------------------------------------
  // Ranking
  // ---------------------------------------------------------------------

  /** `start_time DESC` with PostgreSQL's default of NULLs first. */
  predicate StartAtLeast(a: Option<int>, b: Option<int>)
  {
    a.None? || (b.Some? && a.value >= b.value)
  }

  /** `ORDER BY zone_score DESC, start_time DESC` between two rows. */
  predicate RankedBefore(s1: real, t1: Option<int>, s2: real, t2: Option<int>)
  {
    s1 > s2 || (s1 == s2 && StartAtLeast(t1, t2))
  }

  predicate RowsRanked(rows: seq<ZoneRow>)
  {
    |rows| <= ZoneLimit &&
    forall i, j :: 0 <= i < j < |rows| ==>
      RankedBefore(rows[i].score, rows[i].start, rows[j].score, rows[j].start)
  }

  predicate ZonesRanked(zones: seq<Zone>)
  {
    |zones| <= ZoneLimit &&
    forall i, j :: 0 <= i < j < |zones| ==>
      RankedBefore(zones[i].zoneScore, zones[i].startTime, zones[j].zoneScore, zones[j].startTime)
  }

  /** When the database keeps its ORDER BY and LIMIT, the zone list is
      ranked and holds at most 30 zones. */
  lemma ZonesKeepRanking(db: ZoneDb, symbolId: int, tf: string)
    requires forall tfId :: db.zoneRows(symbolId, tfId).Ok? ==> RowsRanked(db.zoneRows(symbolId, tfId).value)
    ensures ZonesRanked(ZonesFor(db, symbolId, tf))
  {
    match db.timeframeId(tf)
    case Raised =>
    case Ok(None) =>
    case Ok(Some(tfId)) =>
      match db.zoneRows(symbolId, tfId)
      case Raised =>
      case Ok(rows) =>
        MapAllSpec(r => ToZone(r, tf), rows);
  }

  // ---------------------------------------------------------------------
  // Active / broken split
  // ---------------------------------------------------------------------

  /** `z['is_broken']` is truthy only for TRUE; FALSE and NULL are active. */
  predicate IsBroken(z: Zone) { z.isBroken == Some(true) }

  function ActiveZones(zones: seq<Zone>): seq<Zone>
    decreases |zones|
  {
    if |zones| == 0 then []
    else
      var rest := ActiveZones(zones[..|zones| - 1]);
      if IsBroken(zones[|zones| - 1]) then rest else rest + [zones[|zones| - 1]]
  }

  function BrokenZones(zones: seq<Zone>): seq<Zone>
    decreases |zones|
  {
    if |zones| == 0 then []
    else
      var rest := BrokenZones(zones[..|zones| - 1]);
      if IsBroken(zones[|zones| - 1]) then rest + [zones[|zones| - 1]] else rest
  }

  /** The two lists partition the zones: every zone is in exactly one of
      them, according to its flag, and together they hold the zones with
      their multiplicities. */
  lemma {:induction false} SplitPartitions(zones: seq<Zone>)
    ensures forall z :: z in ActiveZones(zones) ==> !IsBroken(z)
    ensures forall z :: z in BrokenZones(zones) ==> IsBroken(z)
    ensures multiset(ActiveZones(zones)) + multiset(BrokenZones(zones)) == multiset(zones)
    ensures |ActiveZones(zones)| + |BrokenZones(zones)| == |zones|
    decreases |zones|
  {
    if |zones| > 0 {
      var init, z := zones[..|zones| - 1], zones[|zones| - 1];
      SplitPartitions(init);
      assert zones == init + [z];
      assert multiset(zones) == multiset(init) + multiset{z};
    }
  }

  /** Appending a zone appends it to exactly one list and leaves the other
      unchanged. */
  lemma SplitAppend(zones: seq<Zone>, z: Zone)
    ensures ActiveZones(zones + [z]) == if IsBroken(z) then ActiveZones(zones) else ActiveZones(zones) + [z]
    ensures BrokenZones(zones + [z]) == if IsBroken(z) then BrokenZones(zones) + [z] else BrokenZones(zones)
  {
    assert (zones + [z])[..|zones|] == zones;
  }

  /** The split distributes over concatenation: the zones of an earlier
      part come before those of a later part in both lists. */
  lemma {:induction false} SplitConcat(a: seq<Zone>, b: seq<Zone>)
    ensures ActiveZones(a + b) == ActiveZones(a) + ActiveZones(b)
    ensures BrokenZones(a + b) == BrokenZones(a) + BrokenZones(b)
    decreases |b|
  {
    if |b| == 0 {
      assert a + b == a;
    } else {
      var init, z := b[..|b| - 1], b[|b| - 1];
      assert b == init + [z];
      assert a + b == (a + init) + [z];
      SplitConcat(a, init);
      SplitAppend(a + init, z);
      SplitAppend(init, z);
    }
  }

  /** Both lists hold only zones of the zone list. */
  lemma {:induction false} SplitFromZones(zones: seq<Zone>)
    ensures forall z :: z in ActiveZones(zones) ==> z in zones
    ensures forall z :: z in BrokenZones(zones) ==> z in zones
    decreases |zones|
  {
    if |zones| > 0 {
      var init := zones[..|zones| - 1];
      SplitFromZones(init);
      assert forall z :: z in init ==> z in zones;
    }
  }

  /** A ranked zone list splits into two ranked lists: each list keeps the
      score-then-start order and the limit of 30. */
  lemma {:induction false} SplitKeepsRanking(zones: seq<Zone>)
    requires ZonesRanked(zones)
    ensures ZonesRanked(ActiveZones(zones))
    ensures ZonesRanked(BrokenZones(zones))
    decreases |zones|
  {
    SplitPartitions(zones);
    if |zones| > 0 {
      var init, z := zones[..|zones| - 1], zones[|zones| - 1];
      assert ZonesRanked(init) by {
        assert forall i :: 0 <= i < |init| ==> init[i] == zones[i];
      }
      SplitKeepsRanking(init);
      SplitFromZones(init);
      forall x | x in init
        ensures RankedBefore(x.zoneScore, x.startTime, z.zoneScore, z.startTime)
      {
        var i :| 0 <= i < |init| && init[i] == x;
        assert zones[i] == x;
      }
    }
  }
}
