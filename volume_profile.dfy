/** The volume profile of a symbol over a window, as `_fetch_volume_profile`
    shapes it: the date column and the type of its bounds depend on the
    schema, the query groups by price level and returns at most 50 levels
    by total volume (the database's promise), and each row becomes a node
    with NULL volume read as 0.0 and NULL flags read as false. */
module VolumeProfile {
  import opened Common

  /** A row of the profile query: (price, total_volume, is_hvn, is_lvn). */
  datatype ProfileRow = ProfileRow(price: Option<real>, totalVolume: Option<real>,
                                   isHvn: Option<bool>, isLvn: Option<bool>)

  /** A node as the dashboard payload carries it. */
  datatype ProfileNode = ProfileNode(price: real, dollarVolume: real, isHvn: bool, isLvn: bool)

  /** The date filter of the query: the stock schema compares the
      `period_start` timestamp with the window's instants (epoch seconds);
      every other schema compares the `date` column with the window's
      calendar dates (days since the epoch). */
  datatype DateFilter = ByPeriodStart(lo: int, hi: int) | ByDate(loDay: int, hiDay: int)

  const SecondsPerDay: int := 86400

  /** `datetime.date()` of an epoch second, in UTC. */
  function DayOf(t: int): int { t / SecondsPerDay }

  function ProfileFilter(schema: string, start: int, end: int): DateFilter
  {
    if schema == "stocks" then ByPeriodStart(start, end) else ByDate(DayOf(start), DayOf(end))
  }

  /** The stock filter is exactly the window. The date filter covers every
      instant of the window, and more: it admits the whole first and last
      calendar days. */
  lemma ProfileFilterCovers(schema: string, start: int, end: int, t: int)
    ensures schema == "stocks" ==> ProfileFilter(schema, start, end) == ByPeriodStart(start, end)
    ensures schema != "stocks" && start <= t <= end ==>
              var f := ProfileFilter(schema, start, end);
              f.ByDate? && f.loDay <= DayOf(t) <= f.hiDay
    ensures schema != "stocks" && start <= end && (DayOf(t) == DayOf(start) || DayOf(t) == DayOf(end)) ==>
              var f := ProfileFilter(schema, start, end);
              f.ByDate? && f.loDay <= DayOf(t) <= f.hiDay
  {
    if start <= end {
      DayOfMonotone(start, end);
    }
    if start <= t {
      DayOfMonotone(start, t);
    }
    if t <= end {
      DayOfMonotone(t, end);
    }
  }

  lemma DayOfMonotone(a: int, b: int)
    requires a <= b
    ensures DayOf(a) <= DayOf(b)
  {
  }

  /** The profile query, as a function of (symbol id, date filter). */
  type ProfileDb = (int, DateFilter) -> Reply<seq<ProfileRow>>

  /** The `LIMIT` of the profile query. */
  const ProfileLimit: nat := 50

  /** One node per row: `float(None)` on a NULL price raises; a NULL (or
      zero) volume is 0.0; a NULL flag is false. */
  function ToNode(r: ProfileRow): Option<ProfileNode>
  {
    if r.price.None? then None
    else Some(ProfileNode(r.price.value,
                          if r.totalVolume.Some? then r.totalVolume.value else 0.0,
                          r.isHvn == Some(true), r.isLvn == Some(true)))
  }

  /** What `_fetch_volume_profile` returns: a raise or a NULL price gives []. */
  function ProfileFor(schema: string, db: ProfileDb, symbolId: int, start: int, end: int): seq<ProfileNode>
  {
    match db(symbolId, ProfileFilter(schema, start, end))
    case Raised => []
    case Ok(rows) =>
      match MapAll(ToNode, rows)
      case None => []
      case Some(nodes) => nodes
  }

  method FetchVolumeProfile(schema: string, db: ProfileDb, symbolId: int, start: int, end: int)
    returns (nodes: seq<ProfileNode>)
    ensures nodes == ProfileFor(schema, db, symbolId, start, end)
  {
    var filter := ProfileFilter(schema, start, end);
    var reply := db(symbolId, filter);
    if reply.Raised? {
      return [];
    }
    var converted := CollectAll(ToNode, reply.value);
    nodes := if converted.Some? then converted.value else [];
  }

  /** With every price present there is one node per row, in order, with
      NULLs normalised; a NULL price empties the profile. */
  lemma ProfileNormalised(schema: string, db: ProfileDb, symbolId: int, start: int, end: int)
    ensures var reply := db(symbolId, ProfileFilter(schema, start, end));
            var nodes := ProfileFor(schema, db, symbolId, start, end);
            && (reply.Ok? && (exists i :: 0 <= i < |reply.value| && reply.value[i].price.None?) ==> nodes == [])
            && (reply.Ok? && (forall i :: 0 <= i < |reply.value| ==> reply.value[i].price.Some?) ==>
                  |nodes| == |reply.value| &&
                  forall i :: 0 <= i < |nodes| ==>
                    var r := reply.value[i];
                    && Some(nodes[i].price) == r.price
                    && nodes[i].dollarVolume == (if r.totalVolume.Some? then r.totalVolume.value else 0.0)
                    && (nodes[i].isHvn <==> r.isHvn == Some(true))
                    && (nodes[i].isLvn <==> r.isLvn == Some(true)))
  {
    var reply := db(symbolId, ProfileFilter(schema, start, end));
    if reply.Ok? {
      MapAllSpec(ToNode, reply.value);
    }
  }

  // ---------------------------------------------------------------------
  // Ranking
  // ---------------------------------------------------------------------

  /** `ORDER BY total_volume DESC` with PostgreSQL's default of NULLs first. */
  predicate VolumeAtLeast(a: Option<real>, b: Option<real>)
  {
    a.None? || (b.Some? && a.value >= b.value)
  }

  predicate RowsRanked(rows: seq<ProfileRow>)
  {
    |rows| <= ProfileLimit &&
    forall i, j :: 0 <= i < j < |rows| ==> VolumeAtLeast(rows[i].totalVolume, rows[j].totalVolume)
  }

  predicate NodesByVolume(nodes: seq<ProfileNode>)
  {
    |nodes| <= ProfileLimit &&
    forall i, j :: 0 <= i < j < |nodes| ==> nodes[i].dollarVolume >= nodes[j].dollarVolume
  }

  /** When the database keeps its ORDER BY and LIMIT and no level has a NULL
      total, the nodes are sorted by volume, largest first, and number at
      most 50. */
  lemma ProfileKeepsRanking(schema: string, db: ProfileDb, symbolId: int, start: int, end: int)
    requires var reply := db(symbolId, ProfileFilter(schema, start, end));
             reply.Ok? ==> RowsRanked(reply.value) &&
                           forall i :: 0 <= i < |reply.value| ==> reply.value[i].totalVolume.Some?
    ensures NodesByVolume(ProfileFor(schema, db, symbolId, start, end))
  {
    ProfileNormalised(schema, db, symbolId, start, end);
  }

  /** A NULL total sorts first and is then read as 0.0, so a ranked reply
      can yield nodes that are not sorted by volume. */
  lemma NullTotalBreaksOrder()
    ensures var rows := [ProfileRow(Some(10.0), None, None, None),
                         ProfileRow(Some(11.0), Some(5.0), Some(true), None)];
            var db: ProfileDb := (id, f) => Ok(rows);
            RowsRanked(rows) && !NodesByVolume(ProfileFor("stocks", db, 1, 0, 0))
  {
    var rows := [ProfileRow(Some(10.0), None, None, None),
                 ProfileRow(Some(11.0), Some(5.0), Some(true), None)];
    var db: ProfileDb := (id, f) => Ok(rows);
    ProfileNormalised("stocks", db, 1, 0, 0);
  }
}
