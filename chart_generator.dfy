/** The decision and naming logic of the zone-alert chart generator: the
    query window and view of `_fetch_chart_data`, the penetration figure,
    the colours and labels of the drawn marks, the "no data" and "not
    enough data" outcomes, and the names of the HTML files and their PNG
    thumbnails. Times are microseconds since the epoch (naive datetimes);
    plotting, file writes and the clock are inputs or left out. */
module ChartGenerator {
  import opened Common
  import opened Text
  import opened Timeframes

  // ---------------------------------------------------------------------
  // Time
  // ---------------------------------------------------------------------

  const MicrosPerDay: int := 86_400_000_000

  /** 09:30:00.000000 as an offset into the day. */
  const MarketOpenMicros: int := 34_200_000_000

  /** The calendar date of an instant (`datetime.date()`), as a day number. */
  function DateOf(t: int): int { t / MicrosPerDay }

  /** The double nearest to 0.1 is exactly TenthNumerator / TenthDenominator;
      `timedelta * 0.1` multiplies by this ratio. */
  const TenthNumerator: int := 3602879701896397
  const TenthDenominator: int := 36028797018963968

  /** `time_range * 0.1` for a range of `us` microseconds: the exact
      product with the double, rounded to the nearest microsecond, ties to
      even, as `timedelta` rounds. */
  function TenthOf(us: int): int
  {
    var n := us * TenthNumerator;
    RoundTenth(n / TenthDenominator, n % TenthDenominator)
  }

  /** Round-half-even of `q + r / TenthDenominator`. */
  function RoundTenth(q: int, r: int): int
  {
    if 2 * r > TenthDenominator || (2 * r == TenthDenominator && q % 2 == 1) then q + 1 else q
  }

  /** The rounded value is within half a unit of `q + r / TenthDenominator`,
      and an exact tie goes to the even neighbour. */
  lemma RoundTenthNearest(q: int, r: int)
    requires 0 <= r < TenthDenominator
    ensures var n := q * TenthDenominator + r;
            var k := RoundTenth(q, r);
            && 2 * (n - k * TenthDenominator) <= TenthDenominator
            && 2 * (k * TenthDenominator - n) <= TenthDenominator
            && ((2 * (n - k * TenthDenominator) == TenthDenominator ||
                 2 * (k * TenthDenominator - n) == TenthDenominator) ==> k % 2 == 0)
  {
  }

  /** The rounded tenth is within half a microsecond of the exact product,
      and an exact tie goes to the even neighbour. */
  lemma TenthOfNearest(us: int)
    ensures var n := us * TenthNumerator;
            var q := TenthOf(us);
            && 2 * (n - q * TenthDenominator) <= TenthDenominator
            && 2 * (q * TenthDenominator - n) <= TenthDenominator
            && ((2 * (n - q * TenthDenominator) == TenthDenominator ||
                 2 * (q * TenthDenominator - n) == TenthDenominator) ==> q % 2 == 0)
  {
    var n := us * TenthNumerator;
    var q, r := n / TenthDenominator, n % TenthDenominator;
    assert n == q * TenthDenominator + r && 0 <= r < TenthDenominator;
    RoundTenthNearest(q, r);
  }

  /** A tenth of a non-negative range is non-negative and no longer than
      the range. */
  lemma TenthOfBounds(us: int)
    requires us >= 0
    ensures 0 <= TenthOf(us) <= us
  {
    var n := us * TenthNumerator;
    var q := n / TenthDenominator;
    assert q * TenthDenominator <= n;
    assert 5 * n <= us * TenthDenominator;
    assert 5 * q <= us;
    if us == 1 {
      assert n % TenthDenominator == TenthNumerator;
    }
  }

  /** A whole number of days (up to a million) is padded by exactly a tenth
      of itself: the float error of 0.1 stays below half a microsecond. */
  lemma TenthOfDays(days: int)
    requires 0 <= days <= 1_000_000
    ensures TenthOf(days * MicrosPerDay) == days * (MicrosPerDay / 10)
  {
    var n := days * MicrosPerDay * TenthNumerator;
    var exact := days * (MicrosPerDay / 10);
    assert n == exact * TenthDenominator + days * 17280000000;
    assert 0 <= days * 17280000000 < TenthDenominator / 2;
    assert n / TenthDenominator == exact && n % TenthDenominator == days * 17280000000;
  }

  /** The start of the query window: on a single calendar day the chart
      starts at that day's 09:30, otherwise 10% of the span earlier. */
  function PaddedStart(start: int, end: int): int
  {
    if DateOf(start) == DateOf(end) then DateOf(start) * MicrosPerDay + MarketOpenMicros
    else start - TenthOf(end - start)
  }

  /** On a single day the padded start is that day at 09:30. */
  lemma PaddedStartSameDay(start: int, end: int)
    requires DateOf(start) == DateOf(end)
    ensures DateOf(PaddedStart(start, end)) == DateOf(start)
    ensures PaddedStart(start, end) % MicrosPerDay == MarketOpenMicros
  {
  }

  /** Across days, with the end not before the start, the padded start is
      not later than the start and at most the span earlier. */
  lemma PaddedStartAcrossDays(start: int, end: int)
    requires DateOf(start) != DateOf(end) && start <= end
    ensures start - (end - start) <= PaddedStart(start, end) <= start
  {
    TenthOfBounds(end - start);
  }

  /** On a single day the padded start is later than the start exactly when
      the start is before 09:30: a zone formed at 08:00 is charted from
      09:30. */
  lemma PaddedStartCanBeLater(start: int, end: int)
    requires DateOf(start) == DateOf(end)
    ensures PaddedStart(start, end) > start <==> start % MicrosPerDay < MarketOpenMicros
  {
  }

  /** The worked example: a zone formed 2025-01-15 10:00 and charted at
      14:30 the same day is charted from 09:30 that day. */
  lemma PaddedStartExample()
    ensures PaddedStart(20103 * MicrosPerDay + 36_000_000_000, 20103 * MicrosPerDay + 52_200_000_000)
            == 20103 * MicrosPerDay + MarketOpenMicros
  {
  }

  // ---------------------------------------------------------------------
  // The chart query
  // ---------------------------------------------------------------------

  /** `f"stocks.candles_{minutes}m"`. */
  function ViewName(minutes: int): string
  {
    "stocks.candles_" + IntToString(minutes) + "m"
  }

  /** Different bar lengths read different views. */
  lemma ViewNameInjective(m1: int, m2: int)
    requires ViewName(m1) == ViewName(m2)
    ensures m1 == m2
  {
    var a := IntToString(m1);
    var b := IntToString(m2);
    assert |a| == |b|;
    assert a == ViewName(m1)[15..15 + |a|];
    assert b == ViewName(m2)[15..15 + |b|];
    IntToStringInjective(m1, m2);
  }

  /** For the intraday stock timeframes the view name is the dashboard's
      materialized view in the stock schema. */
  lemma ViewNameMatchesIntradayViews(i: nat)
    requires i < |StockTimeframes| && StockLabels[i].1 == Min
    ensures MatviewName(StockTimeframes[i].1).Some?
    ensures ViewName(StockTimeframes[i].1) == "stocks." + MatviewName(StockTimeframes[i].1).value
  {
    StockMatviewsFollowLabels();
    StockLabelsDocumented();
    var n := StockLabels[i].0;
    assert StockTimeframes[i].1 == n;
    assert IntToString(n) == NatToString(n);
  }

  /** A multi-day stock timeframe has no "...m" view: 5 sessions (1950
      minutes) is `candles_5d` in the dashboard and `candles_1950m` here. */
  lemma ViewNameMissesDayViews()
    ensures MatviewName(1950) == Some("candles_5d")
    ensures ViewName(1950) != "stocks.candles_5d"
  {
    assert ViewName(1950)[15] == '1';
  }

  /** A row of the chart query: (bucket, open, high, low, close, volume). */
  datatype ChartRow = ChartRow(bucket: int, open: Option<real>, high: Option<real>, low: Option<real>,
                               close: Option<real>, volume: Option<real>)

  /** A chart candle; the volume is an `int`. */
  datatype ChartCandle = ChartCandle(timestamp: int, open: real, high: real, low: real, close: real,
                                     volume: int)

  /** `int(x)`: truncation toward zero. */
  function Truncate(x: real): (n: int)
    ensures 0.0 <= x ==> n as real <= x < n as real + 1.0
    ensures x < 0.0 ==> n as real - 1.0 < x <= n as real
  {
    if x >= 0.0 then x.Floor else -((-x).Floor)
  }

  /** One candle per row; a NULL price or volume makes `float`/`int` raise. */
  function ToChartCandle(r: ChartRow): Option<ChartCandle>
  {
    if r.open.Some? && r.high.Some? && r.low.Some? && r.close.Some? && r.volume.Some? then
      Some(ChartCandle(r.bucket, r.open.value, r.high.value, r.low.value, r.close.value,
                       Truncate(r.volume.value)))
    else None
  }

  /** The chart query as a function of (view, symbol id, start, end). */
  type ChartDb = (string, int, int, int) -> Reply<seq<ChartRow>>

  /** What `_fetch_chart_data` returns. The symbol id comes from a cache
      outside this model; `not symbol_id` rejects a missing id and id 0. */
  function ChartDataFor(symbolId: Option<int>, db: ChartDb, minutes: int, start: int, end: int): seq<ChartCandle>
  {
    if symbolId.None? || symbolId.value == 0 then []
    else
      match db(ViewName(minutes), symbolId.value, PaddedStart(start, end), end)
      case Raised => []
      case Ok(rows) =>
        match MapAll(ToChartCandle, rows)
        case None => []
        case Some(candles) => candles
  }

  predicate RowsAscending(rows: seq<ChartRow>)
  {
    forall i, j :: 0 <= i < j < |rows| ==> rows[i].bucket <= rows[j].bucket
  }

  predicate CandlesAscending(candles: seq<ChartCandle>)
  {
    forall i, j :: 0 <= i < j < |candles| ==> candles[i].timestamp <= candles[j].timestamp
  }

  /** An unknown symbol gives no candles; otherwise the view and padded
      window are queried, and a reply without NULLs gives one candle per
      row, in order, with the volume truncated; a NULL gives none. When the
      view keeps its `ORDER BY bucket ASC`, so do the candles. */
  lemma ChartDataShape(symbolId: Option<int>, db: ChartDb, minutes: int, start: int, end: int)
    ensures symbolId.None? || symbolId == Some(0) ==> ChartDataFor(symbolId, db, minutes, start, end) == []
    ensures symbolId.Some? && symbolId.value != 0 ==>
              var reply := db(ViewName(minutes), symbolId.value, PaddedStart(start, end), end);
              var candles := ChartDataFor(symbolId, db, minutes, start, end);
              && (reply.Raised? ==> candles == [])
              && (reply.Ok? && (forall i :: 0 <= i < |reply.value| ==> ToChartCandle(reply.value[i]).Some?) ==>
                    |candles| == |reply.value| &&
                    forall i :: 0 <= i < |candles| ==>
                      var r := reply.value[i];
                      && candles[i].timestamp == r.bucket
                      && Some(candles[i].open) == r.open && Some(candles[i].close) == r.close
                      && Some(candles[i].high) == r.high && Some(candles[i].low) == r.low
                      && candles[i].volume == Truncate(r.volume.value))
              && (reply.Ok? && (exists i :: 0 <= i < |reply.value| && ToChartCandle(reply.value[i]).None?) ==>
                    candles == [])
              && (reply.Ok? && RowsAscending(reply.value) ==> CandlesAscending(candles))
  {
    if symbolId.Some? && symbolId.value != 0 {
      var reply := db(ViewName(minutes), symbolId.value, PaddedStart(start, end), end);
      if reply.Ok? {
        MapAllSpec(ToChartCandle, reply.value);
      }
    }
  }

  // ---------------------------------------------------------------------
  // Penetration, colours, labels
  // ---------------------------------------------------------------------

  /** Python's `max(0, x)`. */
  function Max0(x: real): real { if x > 0.0 then x else 0.0 }

  /** How far the price has pushed through the zone, in percent of its
      height: below the bottom for 'demand', above the top for anything
      else (read as supply). A zone of zero height divides by zero. */
  function Penetration(zoneType: string, top: real, bottom: real, price: real): (p: Reply<real>)
    ensures p.Raised? <==> top == bottom
    ensures p.Ok? ==> p.value >= 0.0
  {
    var height := top - bottom;
    if height == 0.0 then Raised
    else if zoneType == "demand" then Ok(Max0((bottom - price) / height * 100.0))
    else Ok(Max0((price - top) / height * 100.0))
  }

  /** For a proper zone (top above bottom) the penetration is zero exactly
      while the price has not passed the zone's far edge, and otherwise it
      is the distance past that edge in percent of the zone's height. */
  lemma PenetrationSpec(zoneType: string, top: real, bottom: real, price: real)
    requires top > bottom
    ensures var p := Penetration(zoneType, top, bottom, price).value;
            && (zoneType == "demand" ==> (p == 0.0 <==> price >= bottom))
            && (zoneType == "demand" && price < bottom ==> p * (top - bottom) == (bottom - price) * 100.0)
            && (zoneType != "demand" ==> (p == 0.0 <==> price <= top))
            && (zoneType != "demand" && price > top ==> p * (top - bottom) == (price - top) * 100.0)
  {
    if zoneType == "demand" {
      ScaledShare(bottom - price, top - bottom);
    } else {
      ScaledShare(price - top, top - bottom);
    }
  }

  /** `x / h * 100` has the sign of `x` and undoes to `x * 100`. */
  lemma ScaledShare(x: real, h: real)
    requires h > 0.0
    ensures x / h * 100.0 > 0.0 <==> x > 0.0
    ensures x / h * 100.0 * h == x * 100.0
  {
    var q := x / h;
    assert q * h == x;
    if x > 0.0 {
      assert q > 0.0;
    } else {
      assert q <= 0.0;
    }
  }

  /** The worked example: a demand zone 149.00-150.50 at price 149.25 is
      not penetrated; at 148.00 it is penetrated by two thirds of its height. */
  lemma PenetrationExample()
    ensures Penetration("demand", 150.50, 149.00, 149.25) == Ok(0.0)
    ensures Penetration("demand", 150.50, 149.00, 148.00) == Ok(200.0 / 3.0)
  {
  }

  const ZoneUpColour: string := "#26a69a"
  const ZoneDownColour: string := "#ef5350"
  const ActionUpColour: string := "#4CAF50"
  const ActionDownColour: string := "#FF5252"

  /** One bar colour per candle: `up` where the close is not below the
      open. */
  function VolumeColours(candles: seq<ChartCandle>, up: string, down: string): (colours: seq<string>)
    ensures |colours| == |candles|
  {
    seq(|candles|, i requires 0 <= i < |candles| => if candles[i].close >= candles[i].open then up else down)
  }

  /** With distinct colours, a bar is `up` exactly when its candle closed
      at or above its open, so a doji counts as up. */
  lemma VolumeColoursSpec(candles: seq<ChartCandle>, up: string, down: string)
    requires up != down
    ensures forall i :: 0 <= i < |candles| ==>
              (VolumeColours(candles, up, down)[i] == up <==> candles[i].close >= candles[i].open)
    ensures forall i :: 0 <= i < |candles| ==>
              (VolumeColours(candles, up, down)[i] == down <==> candles[i].close < candles[i].open)
  {
  }

  /** The zone rectangle's (fill, border). */
  const SupplyTint: (string, string) := ("rgba(255, 82, 82, 0.2)", "#FF5252")
  const DemandTint: (string, string) := ("rgba(76, 175, 80, 0.2)", "#4CAF50")

  /** Red for 'supply', green for any other zone type. */
  function ZoneTint(zoneType: string): (tint: (string, string))
    ensures tint == SupplyTint <==> zoneType == "supply"
    ensures tint == DemandTint <==> zoneType != "supply"
  {
    if zoneType == "supply" then SupplyTint else DemandTint
  }

  /** A volume node handed to the targets chart; a missing attribute or key
      is `None`. */
  datatype VolumeNode = VolumeNode(priceLevel: Option<real>, nodeType: Option<string>)

  /** A node line as drawn: price, label and line colour. */
  datatype NodeMark = NodeMark(price: real, markLabel: string, colour: string)

  const HvnColour: string := "#FFC107"
  const LvnColour: string := "#2196F3"

  /** A missing node type reads as 'UNKNOWN'. */
  function NodeTypeOf(n: VolumeNode): string
  {
    if n.nodeType.Some? then n.nodeType.value else "UNKNOWN"
  }

  /** 'HVN' for a node of type 'HVN', 'LVN' for every other type. */
  function NodeLabel(nodeType: string): (l: string)
    ensures l == "HVN" <==> nodeType == "HVN"
    ensures l == "LVN" <==> nodeType != "HVN"
  {
    if nodeType == "HVN" then "HVN" else "LVN"
  }

  /** The mark of one node; formatting a missing price with `:.2f` raises. */
  function ToMark(n: VolumeNode): Option<NodeMark>
  {
    if n.priceLevel.None? then None
    else
      var t := NodeTypeOf(n);
      Some(NodeMark(n.priceLevel.value, NodeLabel(t), if t == "HVN" then HvnColour else LvnColour))
  }

  /** The loop over `volume_nodes`: one mark per node, in order. */
  method MarkNodes(nodes: seq<VolumeNode>) returns (marks: Option<seq<NodeMark>>)
    ensures marks == MapAll(ToMark, nodes)
  {
    marks := CollectAll(ToMark, nodes);
  }

  /** Every node gets a mark at its price, labelled HVN (amber) when its
      type is 'HVN' and LVN (blue) otherwise, a missing type included; one
      node without a price makes the whole chart raise. */
  lemma MarksSpec(nodes: seq<VolumeNode>)
    ensures MapAll(ToMark, nodes).None? <==> exists i :: 0 <= i < |nodes| && nodes[i].priceLevel.None?
    ensures MapAll(ToMark, nodes).Some? ==>
              var marks := MapAll(ToMark, nodes).value;
              |marks| == |nodes| &&
              forall i :: 0 <= i < |nodes| ==>
                && Some(marks[i].price) == nodes[i].priceLevel
                && (marks[i].markLabel == "HVN" <==> nodes[i].nodeType == Some("HVN"))
                && (marks[i].colour == HvnColour <==> nodes[i].nodeType == Some("HVN"))
                && (nodes[i].nodeType != Some("HVN") ==> marks[i].markLabel == "LVN" && marks[i].colour == LvnColour)
  {
    MapAllSpec(ToMark, nodes);
    if MapAll(ToMark, nodes).Some? {
      var marks := MapAll(ToMark, nodes).value;
      forall i | 0 <= i < |nodes| && nodes[i].nodeType != Some("HVN")
        ensures marks[i].markLabel == "LVN" && marks[i].colour == LvnColour
      {
        assert ToMark(nodes[i]) == Some(marks[i]);
        assert NodeTypeOf(nodes[i]) != "HVN";
      }
    }
  }

  // ---------------------------------------------------------------------
  // File names
  // ---------------------------------------------------------------------

  /** The constructor's default `output_dir`. */
  const DefaultOutputDir: string := "data/temp/alert_charts"

  /** `self.output_dir / filename`, for the directory the generator was
      constructed with. */
  function ChartPath(dir: string, filename: string): string { dir + "/" + filename }

  function ZoneAlertFilename(symbol: string, zoneType: string, minutes: int, stamp: string): string
  {
    symbol + "_" + zoneType + "_" + IntToString(minutes) + "min_" + stamp + ".html"
  }

  function TargetsFilename(symbol: string, zoneType: string, stamp: string): string
  {
    symbol + "_" + zoneType + "_with_targets_" + stamp + ".html"
  }

  function PriceActionFilename(symbol: string, minutes: int, stamp: string): string
  {
    symbol + "_price_action_" + IntToString(minutes) + "min_" + stamp + ".html"
  }

  /** Price-action files of one symbol and stamp differ by timeframe. */
  lemma PriceActionFilenameInjective(symbol: string, m1: int, m2: int, stamp: string)
    requires PriceActionFilename(symbol, m1, stamp) == PriceActionFilename(symbol, m2, stamp)
    ensures m1 == m2
  {
    var prefix := symbol + "_price_action_";
    var suffix := "min_" + stamp + ".html";
    var a, b := IntToString(m1), IntToString(m2);
    assert PriceActionFilename(symbol, m1, stamp) == prefix + a + suffix;
    assert PriceActionFilename(symbol, m2, stamp) == prefix + b + suffix;
    MiddleOf(prefix, a, suffix);
    MiddleOf(prefix, b, suffix);
    IntToStringInjective(m1, m2);
  }

  /** The middle part of a three-part concatenation. */
  lemma MiddleOf(x: string, y: string, z: string)
    ensures (x + y + z)[|x|..|x| + |y|] == y
  {
    assert (x + y + z)[|x|..|x| + |y|] == (x + y)[|x|..];
  }

  /** `html_path.replace('.html', '.png')` on a string path. */
  function PngPath(html: string): string
  {
    ReplaceAll(html, ".html", ".png")
  }

  predicate NoDot(s: string) { forall i :: 0 <= i < |s| ==> s[i] != '.' }

  /** Without a '.', ".html" cannot occur. */
  lemma NoDotNoHtml(s: string)
    requires NoDot(s)
    ensures !Occurs(s, ".html")
  {
    forall i | 0 <= i <= |s|
      ensures !OccursAt(s, ".html", i)
    {
      if i + 5 <= |s| {
        assert s[i..i + 5][0] == s[i];
      }
    }
  }

  /** A string without ".html" does not start with it. */
  lemma HtmlNotAtStart(stem: string)
    requires |stem| > 0 && !Occurs(stem, ".html")
    ensures (stem + ".html")[..5] != ".html"
  {
    var s := stem + ".html";
    if |stem| >= 5 {
      assert !OccursAt(stem, ".html", 0);
      assert stem[0..5] == s[..5];
    } else {
      assert s[|stem|] == '.';
      assert s[..5][|stem|] == s[|stem|];
    }
  }

  /** A string without ".html" has no ".html" in its tail either. */
  lemma HtmlNotInTail(stem: string)
    requires |stem| > 0 && !Occurs(stem, ".html")
    ensures !Occurs(stem[1..], ".html")
  {
    if Occurs(stem[1..], ".html") {
      var i :| 0 <= i <= |stem[1..]| && OccursAt(stem[1..], ".html", i);
      assert stem[1..][i..i + 5] == stem[i + 1..i + 6];
      assert OccursAt(stem, ".html", i + 1);
    }
  }

  /** When ".html" occurs only as the suffix, the PNG path is the same
      name with ".png" instead: ".html" overlaps no shifted copy of itself. */
  lemma {:induction false} PngPathOfSuffix(stem: string)
    requires !Occurs(stem, ".html")
    ensures PngPath(stem + ".html") == stem + ".png"
    decreases |stem|
  {
    var s := stem + ".html";
    if |stem| == 0 {
      assert s == ".html";
      ReplaceWhole(".html", ".png");
    } else {
      HtmlNotAtStart(stem);
      HtmlNotInTail(stem);
      PngPathOfSuffix(stem[1..]);
      assert s[1..] == stem[1..] + ".html";
      assert PngPath(s) == [s[0]] + PngPath(s[1..]);
      assert stem == [stem[0]] + stem[1..];
    }
  }

  lemma NoDotJoin(a: string, b: string)
    requires NoDot(a) && NoDot(b)
    ensures NoDot(a + b)
  {
    forall i | 0 <= i < |a + b| ensures (a + b)[i] != '.' {
      if i < |a| { assert (a + b)[i] == a[i]; } else { assert (a + b)[i] == b[i - |a|]; }
    }
  }

  /** A name without '.' gets its PNG beside it. */
  lemma PngBeside(stem: string)
    requires NoDot(stem)
    ensures PngPath(stem + ".html") == stem + ".png"
  {
    NoDotNoHtml(stem);
    PngPathOfSuffix(stem);
  }

  /** In any output directory, a name whose path has ".html" only as its
      suffix gets its PNG under the same name in the same directory. */
  lemma PngInOutputDir(dir: string, name: string)
    requires !Occurs(dir + "/" + name, ".html")
    ensures PngPath(ChartPath(dir, name + ".html")) == ChartPath(dir, name + ".png")
  {
    PngPathOfSuffix(dir + "/" + name);
    assert ChartPath(dir, name + ".html") == (dir + "/" + name) + ".html";
    assert ChartPath(dir, name + ".png") == (dir + "/" + name) + ".png";
  }

  /** In the default directory, a name without '.' gets its PNG under the
      same name. */
  lemma PngInDefaultDir(name: string)
    requires NoDot(name)
    ensures PngPath(ChartPath(DefaultOutputDir, name + ".html")) == ChartPath(DefaultOutputDir, name + ".png")
  {
    var dir := DefaultOutputDir + "/";
    assert NoDot(dir);
    NoDotJoin(dir, name);
    NoDotNoHtml(dir + name);
    PngInOutputDir(DefaultOutputDir, name);
  }

  lemma IntToStringNoDot(i: int)
    ensures NoDot(IntToString(i))
  {
    var m := IntToString(i);
    if i < 0 {
      assert m == "-" + NatToString(-i);
      assert forall k :: 1 <= k < |m| ==> m[k] == NatToString(-i)[k - 1];
    }
  }

  /** Each chart's PNG sits beside its HTML under the same name whenever
      ".html" occurs in the HTML path only as its suffix (so for any
      directory, and for dotted tickers such as BRK.B). */
  lemma ZoneAlertPngName(dir: string, symbol: string, zoneType: string, minutes: int, stamp: string)
    requires !Occurs(dir + "/" + symbol + "_" + zoneType + "_" + IntToString(minutes) + "min_" + stamp, ".html")
    ensures PngPath(ChartPath(dir, ZoneAlertFilename(symbol, zoneType, minutes, stamp)))
            == ChartPath(dir, symbol + "_" + zoneType + "_" + IntToString(minutes) + "min_" + stamp + ".png")
  {
    var name := symbol + "_" + zoneType + "_" + IntToString(minutes) + "min_" + stamp;
    assert dir + "/" + name == dir + "/" + symbol + "_" + zoneType + "_" + IntToString(minutes) + "min_" + stamp;
    PngInOutputDir(dir, name);
  }

  lemma TargetsPngName(dir: string, symbol: string, zoneType: string, stamp: string)
    requires !Occurs(dir + "/" + symbol + "_" + zoneType + "_with_targets_" + stamp, ".html")
    ensures PngPath(ChartPath(dir, TargetsFilename(symbol, zoneType, stamp)))
            == ChartPath(dir, symbol + "_" + zoneType + "_with_targets_" + stamp + ".png")
  {
    var name := symbol + "_" + zoneType + "_with_targets_" + stamp;
    assert dir + "/" + name == dir + "/" + symbol + "_" + zoneType + "_with_targets_" + stamp;
    PngInOutputDir(dir, name);
  }

  lemma PriceActionPngName(dir: string, symbol: string, minutes: int, stamp: string)
    requires !Occurs(dir + "/" + symbol + "_price_action_" + IntToString(minutes) + "min_" + stamp, ".html")
    ensures PngPath(ChartPath(dir, PriceActionFilename(symbol, minutes, stamp)))
            == ChartPath(dir, symbol + "_price_action_" + IntToString(minutes) + "min_" + stamp + ".png")
  {
    var name := symbol + "_price_action_" + IntToString(minutes) + "min_" + stamp;
    assert dir + "/" + name == dir + "/" + symbol + "_price_action_" + IntToString(minutes) + "min_" + stamp;
    PngInOutputDir(dir, name);
  }

  /** In the default directory, with no '.' in the symbol, the zone type
      and the stamp, the zone-alert PNG sits beside its HTML. */
  lemma ZoneAlertPngNameDotFree(symbol: string, zoneType: string, minutes: int, stamp: string)
    requires NoDot(symbol) && NoDot(zoneType) && NoDot(stamp)
    ensures PngPath(ChartPath(DefaultOutputDir, ZoneAlertFilename(symbol, zoneType, minutes, stamp)))
            == ChartPath(DefaultOutputDir, symbol + "_" + zoneType + "_" + IntToString(minutes) + "min_" + stamp + ".png")
  {
    var m := IntToString(minutes);
    IntToStringNoDot(minutes);
    assert NoDot("_") && NoDot("min_");
    NoDotJoin(symbol, "_");
    NoDotJoin(symbol + "_", zoneType);
    NoDotJoin(symbol + "_" + zoneType, "_");
    NoDotJoin(symbol + "_" + zoneType + "_", m);
    NoDotJoin(symbol + "_" + zoneType + "_" + m, "min_");
    NoDotJoin(symbol + "_" + zoneType + "_" + m + "min_", stamp);
    PngInDefaultDir(symbol + "_" + zoneType + "_" + m + "min_" + stamp);
  }

  // ---------------------------------------------------------------------
  // The thumbnail and the three charts
  // ---------------------------------------------------------------------

  /** What `_generate_png_thumbnail` is handed: a `str`, or a
      `pathlib.Path`, whose `replace` takes a single target argument. */
  datatype HtmlPath = PathString(path: string) | PathObject(path: string)

  /** `_generate_png_thumbnail`. The PNG name is derived before the `try`;
      `kaleido` says whether the import and the read inside it succeed. */
  function Thumbnail(html: HtmlPath, kaleido: bool): (png: Reply<Option<string>>)
  {
    match html
    case PathString(path) => Ok(if kaleido then Some(PngPath(path)) else None)
    case PathObject(_) => Raised
  }

  lemma ThumbnailSpec(html: HtmlPath, kaleido: bool)
    ensures Thumbnail(html, kaleido).Raised? <==> html.PathObject?
    ensures html.PathString? && kaleido ==> Thumbnail(html, kaleido) == Ok(Some(PngPath(html.path)))
    ensures html.PathString? && !kaleido ==> Thumbnail(html, kaleido) == Ok(None)
  {
  }

  /** `generate_zone_alert_chart`: (html path, png path). No candles gives
      (None, None); a zone of zero height raises while drawing. */
  function ZoneAlertChart(dir: string, symbol: string, zoneType: string, top: real, bottom: real, zoneMinutes: int,
                          formedAt: int, price: real, now: int, chartMinutes: int, symbolId: Option<int>,
                          db: ChartDb, stamp: string, kaleido: bool): Reply<(Option<string>, Option<string>)>
  {
    var candles := ChartDataFor(symbolId, db, chartMinutes, formedAt, now);
    if |candles| == 0 then Ok((None, None))
    else if Penetration(zoneType, top, bottom, price).Raised? then Raised
    else
      var html := ChartPath(dir, ZoneAlertFilename(symbol, zoneType, zoneMinutes, stamp));
      match Thumbnail(PathString(html), kaleido)
      case Raised => Raised
      case Ok(png) => Ok((Some(html), png))
  }

  /** No candles gives (None, None); otherwise the chart raises exactly for
      a zone of zero height, and else reports its HTML path and, when a PNG
      could be made, the PNG path derived from it. */
  lemma ZoneAlertChartSpec(dir: string, symbol: string, zoneType: string, top: real, bottom: real, zoneMinutes: int,
                           formedAt: int, price: real, now: int, chartMinutes: int, symbolId: Option<int>,
                           db: ChartDb, stamp: string, kaleido: bool)
    ensures var r := ZoneAlertChart(dir, symbol, zoneType, top, bottom, zoneMinutes, formedAt, price, now,
                                    chartMinutes, symbolId, db, stamp, kaleido);
            var candles := ChartDataFor(symbolId, db, chartMinutes, formedAt, now);
            var html := ChartPath(dir, ZoneAlertFilename(symbol, zoneType, zoneMinutes, stamp));
            && (|candles| == 0 ==> r == Ok((None, None)))
            && (|candles| > 0 ==> (r.Raised? <==> top == bottom))
            && (|candles| > 0 && top != bottom ==>
                  r == Ok((Some(html), if kaleido then Some(PngPath(html)) else None)))
  {
  }

  /** `generate_zone_alert_chart_with_targets`: the HTML path, or a raise
      when a volume node has no price. */
  function TargetsChart(dir: string, symbol: string, zoneType: string, nodes: seq<VolumeNode>, stamp: string): Reply<string>
  {
    if MapAll(ToMark, nodes).None? then Raised
    else Ok(ChartPath(dir, TargetsFilename(symbol, zoneType, stamp)))
  }

  lemma TargetsChartSpec(dir: string, symbol: string, zoneType: string, nodes: seq<VolumeNode>, stamp: string)
    ensures TargetsChart(dir, symbol, zoneType, nodes, stamp).Raised? <==>
            exists i :: 0 <= i < |nodes| && nodes[i].priceLevel.None?
    ensures TargetsChart(dir, symbol, zoneType, nodes, stamp).Ok? ==>
            TargetsChart(dir, symbol, zoneType, nodes, stamp).value == ChartPath(dir, TargetsFilename(symbol, zoneType, stamp))
  {
    MarksSpec(nodes);
  }

  /** Fewer candles than this and the price-action chart is not drawn. */
  const MinPriceActionCandles: nat := 10

  /** The window the price-action chart asks for before padding. */
  function PriceActionStart(now: int, lookbackDays: int): int
  {
    now - lookbackDays * MicrosPerDay
  }

  /** The price line of the price-action chart: the last close, when there
      is a candle. */
  function CurrentPrice(candles: seq<ChartCandle>): (p: Option<real>)
    ensures p.Some? <==> |candles| > 0
    ensures |candles| > 0 ==> p == Some(candles[|candles| - 1].close)
  {
    if |candles| > 0 then Some(candles[|candles| - 1].close) else None
  }

  /** `generate_price_action_chart` as written: `_generate_price_action_html`
      returns a `Path`, so the thumbnail call raises once the chart is
      drawn. */
  function PriceActionChartAsWritten(dir: string, symbol: string, minutes: int, lookbackDays: int, now: int,
                                     symbolId: Option<int>, db: ChartDb, stamp: string,
                                     kaleido: bool): Reply<(Option<string>, Option<string>)>
  {
    var candles := ChartDataFor(symbolId, db, minutes, PriceActionStart(now, lookbackDays), now);
    if |candles| < MinPriceActionCandles then Ok((None, None))
    else
      var html := ChartPath(dir, PriceActionFilename(symbol, minutes, stamp));
      match Thumbnail(PathObject(html), kaleido)
      case Raised => Raised
      case Ok(png) => Ok((Some(html), png))
  }

  /** As written, every price-action chart with enough data raises. */
  lemma PriceActionAlwaysRaises(dir: string, symbol: string, minutes: int, lookbackDays: int, now: int,
                                symbolId: Option<int>, db: ChartDb, stamp: string, kaleido: bool)
    requires |ChartDataFor(symbolId, db, minutes, PriceActionStart(now, lookbackDays), now)| >= MinPriceActionCandles
    ensures PriceActionChartAsWritten(dir, symbol, minutes, lookbackDays, now, symbolId, db, stamp, kaleido).Raised?
  {
  }

  /** `generate_price_action_chart` with the thumbnail handed the path as a
      string, as for the zone-alert chart. */
  function PriceActionChart(dir: string, symbol: string, minutes: int, lookbackDays: int, now: int,
                            symbolId: Option<int>, db: ChartDb, stamp: string,
                            kaleido: bool): Reply<(Option<string>, Option<string>)>
  {
    var candles := ChartDataFor(symbolId, db, minutes, PriceActionStart(now, lookbackDays), now);
    if |candles| < MinPriceActionCandles then Ok((None, None))
    else
      var html := ChartPath(dir, PriceActionFilename(symbol, minutes, stamp));
      match Thumbnail(PathString(html), kaleido)
      case Raised => Raised
      case Ok(png) => Ok((Some(html), png))
  }

  /** The corrected chart never raises: too few candles give (None, None);
      otherwise it reports the HTML path and, with kaleido, the PNG beside
      it; its price line is the last close; and for a lookback of whole
      days the query starts a tenth of the lookback before the window. */
  lemma PriceActionChartSpec(dir: string, symbol: string, minutes: int, lookbackDays: int, now: int,
                             symbolId: Option<int>, db: ChartDb, stamp: string, kaleido: bool)
    ensures var r := PriceActionChart(dir, symbol, minutes, lookbackDays, now, symbolId, db, stamp, kaleido);
            var candles := ChartDataFor(symbolId, db, minutes, PriceActionStart(now, lookbackDays), now);
            var html := ChartPath(dir, PriceActionFilename(symbol, minutes, stamp));
            && r.Ok?
            && (|candles| < MinPriceActionCandles <==> r.value == (None, None))
            && (|candles| >= MinPriceActionCandles ==>
                  && r.value == (Some(html), if kaleido then Some(PngPath(html)) else None)
                  && CurrentPrice(candles) == Some(candles[|candles| - 1].close))
    ensures 1 <= lookbackDays <= 1_000_000 ==>
              PaddedStart(PriceActionStart(now, lookbackDays), now)
              == now - lookbackDays * MicrosPerDay - lookbackDays * (MicrosPerDay / 10)
  {
    if 1 <= lookbackDays <= 1_000_000 {
      var start := PriceActionStart(now, lookbackDays);
      assert DateOf(start) != DateOf(now) by {
        assert now - start == lookbackDays * MicrosPerDay >= MicrosPerDay;
      }
      assert now - start == lookbackDays * MicrosPerDay;
      TenthOfDays(lookbackDays);
    }
  }
}
