/** The dashboard generator itself: the per-timeframe fetch loop that builds
    the payload, the template filling, the output name, the choice between a
    local file and an upload, and the batch over every stock symbol. The
    database, the clock, the template file, the JSON encoder and the blob
    store are inputs. */
module Dashboard {
  import opened Common
  import opened Text
  import opened Timeframes
  import opened CandleSource
  import opened ZoneFetch
  import opened VolumeProfile

  /** The bucket of one timeframe in the payload. */
  datatype TimeframeData = TimeframeData(candles: seq<Candle>, zones: seq<Zone>,
                                         volumeProfile: seq<ProfileNode>)

  /** The placeholder a failed timeframe gets. */
  const EmptyTimeframe: TimeframeData := TimeframeData([], [], [])

  /** The payload: symbol, upper-cased market type, and one bucket per
      timeframe label in table order. */
  datatype DashboardData = DashboardData(symbol: string, marketType: string,
                                         timeframes: Table<TimeframeData>)

  /** The queries of one market schema: symbol -> id (`None` when no row),
      and the three fetchers' queries. */
  datatype DashboardDb = DashboardDb(symbolId: string -> Reply<Option<int>>, candles: CandleDb,
                                     zones: ZoneDb, profile: ProfileDb)

  /** How one iteration of the timeframe loop ends. The three fetchers
      absorb their own errors, so an exception reaching the loop's handler
      comes from elsewhere; the handler then reconnects, and a failing
      reconnect escapes to the outer handler. */
  datatype Fault = Completes | Raises | RaisesAndReconnectFails

  /** Everything one `generate_dashboard` call reads from outside: the clock
      (epoch seconds) and the formatted stamp, the loop's faults, the
      template file (`None` when it cannot be read), the JSON encoder, the
      local write (whether the directory and file could be written) and the
      blob upload (html, filename) -> URL. */
  datatype Env = Env(now: int, faults: string -> Fault, stamp: string, template: Option<string>,
                     toJson: DashboardData -> string, saved: bool,
                     upload: (string, string) -> Reply<Option<string>>)

  // ---------------------------------------------------------------------
  // The payload
  // ---------------------------------------------------------------------

  /** `end_date - timedelta(days=...)` with the timeframe's own lookback,
      or the caller's when the label is not in the table. */
  function WindowStart(lookbacks: Table<int>, now: int, tf: string, lookbackDays: int): int
  {
    now - LookupOr(lookbacks, tf, lookbackDays) * SecondsPerDay
  }

  /** The bucket of a timeframe whose iteration completes. */
  function TimeframeFor(marketType: string, db: DashboardDb, symbolId: int, now: int,
                        lookbackDays: int, tf: string, minutes: int): TimeframeData
  {
    var start := WindowStart(LookbackDaysFor(marketType), now, tf, lookbackDays);
    TimeframeData(CandlesFor(db.candles, symbolId, start, now, minutes),
                  ZonesFor(db.zones, symbolId, tf),
                  ProfileFor(marketType, db.profile, symbolId, start, now))
  }

  /** What a completing iteration fetches, as a function of (label, minutes). */
  function Fetcher(marketType: string, db: DashboardDb, symbolId: int, now: int,
                   lookbackDays: int): (string, int) -> TimeframeData
  {
    (tf, minutes) => TimeframeFor(marketType, db, symbolId, now, lookbackDays, tf, minutes)
  }

  /** The buckets the loop builds over `tfs`, or `None` when a reconnect
      fails. */
  function BucketsFor(fetch: (string, int) -> TimeframeData, faults: string -> Fault,
                      tfs: Table<int>): Option<Table<TimeframeData>>
    decreases |tfs|
  {
    if |tfs| == 0 then Some([])
    else
      match BucketsFor(fetch, faults, tfs[..|tfs| - 1])
      case None => None
      case Some(prev) =>
        var (tf, minutes) := tfs[|tfs| - 1];
        match faults(tf)
        case Completes => Some(prev + [(tf, fetch(tf, minutes))])
        case Raises => Some(prev + [(tf, EmptyTimeframe)])
        case RaisesAndReconnectFails => None
  }

  /** What `_fetch_dashboard_data` returns. `if not result` tests the row,
      not the id, so any id found counts. */
  function DashboardDataFor(marketType: string, db: DashboardDb, symbol: string, now: int,
                            lookbackDays: int, faults: string -> Fault): Option<DashboardData>
  {
    match db.symbolId(symbol)
    case Raised => None
    case Ok(None) => None
    case Ok(Some(symbolId)) =>
      match BucketsFor(Fetcher(marketType, db, symbolId, now, lookbackDays), faults, TimeframesFor(marketType))
      case None => None
      case Some(buckets) => Some(DashboardData(symbol, ToUpper(marketType), buckets))
  }

  /** The loop gives up exactly when some reconnect fails. */
  lemma {:induction false} BucketsFailIff(fetch: (string, int) -> TimeframeData, faults: string -> Fault,
                                          tfs: Table<int>)
    ensures BucketsFor(fetch, faults, tfs).None? <==>
            exists i :: 0 <= i < |tfs| && faults(tfs[i].0) == RaisesAndReconnectFails
    decreases |tfs|
  {
    if |tfs| > 0 {
      var init := tfs[..|tfs| - 1];
      BucketsFailIff(fetch, faults, init);
      assert forall i :: 0 <= i < |init| ==> init[i] == tfs[i];
      if exists i :: 0 <= i < |tfs| && faults(tfs[i].0) == RaisesAndReconnectFails {
        var i :| 0 <= i < |tfs| && faults(tfs[i].0) == RaisesAndReconnectFails;
        if i < |init| {
          assert faults(init[i].0) == RaisesAndReconnectFails;
        }
      }
    }
  }

  /** The loop builds one bucket per timeframe, in order, under the
      timeframe's own label: the empty placeholder where the iteration
      raised, the fetched data otherwise. */
  lemma {:induction false} BucketsPointwise(fetch: (string, int) -> TimeframeData, faults: string -> Fault,
                                            tfs: Table<int>)
    ensures var r := BucketsFor(fetch, faults, tfs);
            r.Some? ==>
              |r.value| == |tfs| &&
              forall i :: 0 <= i < |tfs| ==>
                && r.value[i].0 == tfs[i].0
                && r.value[i].1 == (if faults(tfs[i].0) == Raises then EmptyTimeframe
                                    else fetch(tfs[i].0, tfs[i].1))
    decreases |tfs|
  {
    if |tfs| > 0 {
      var init := tfs[..|tfs| - 1];
      BucketsPointwise(fetch, faults, init);
      assert forall i :: 0 <= i < |init| ==> init[i] == tfs[i];
    }
  }

  /** An unknown symbol, or a lookup that raises, gives no payload. */
  lemma UnknownSymbolNoData(marketType: string, db: DashboardDb, symbol: string, now: int,
                            lookbackDays: int, faults: string -> Fault)
    requires db.symbolId(symbol).Raised? || db.symbolId(symbol) == Ok(None)
    ensures DashboardDataFor(marketType, db, symbol, now, lookbackDays, faults).None?
  {
  }

  /** A found symbol whose loop completes gets a payload with its symbol,
      the upper-cased market type and exactly one bucket per configured
      timeframe, in table order: the placeholder where the iteration
      raised, and otherwise the data fetched over a window that starts the
      timeframe's table lookback before `now`, whatever the caller's
      default. A reconnect that fails loses the whole payload. */
  lemma DashboardShape(marketType: string, db: DashboardDb, symbol: string, now: int,
                       lookbackDays: int, faults: string -> Fault)
    requires db.symbolId(symbol).Ok? && db.symbolId(symbol).value.Some?
    ensures var d := DashboardDataFor(marketType, db, symbol, now, lookbackDays, faults);
            var tfs := TimeframesFor(marketType);
            d.None? <==> exists i :: 0 <= i < |tfs| && faults(tfs[i].0) == RaisesAndReconnectFails
    ensures var d := DashboardDataFor(marketType, db, symbol, now, lookbackDays, faults);
            var tfs := TimeframesFor(marketType);
            var lookbacks := LookbackDaysFor(marketType);
            var symbolId := db.symbolId(symbol).value.value;
            d.Some? ==>
              && d.value.symbol == symbol && d.value.marketType == ToUpper(marketType)
              && |d.value.timeframes| == |tfs|
              && forall i :: 0 <= i < |tfs| ==>
                   && d.value.timeframes[i].0 == tfs[i].0
                   && d.value.timeframes[i].1 ==
                        (if faults(tfs[i].0) == Raises then EmptyTimeframe
                         else TimeframeFor(marketType, db, symbolId, now, lookbackDays, tfs[i].0, tfs[i].1))
                   && WindowStart(lookbacks, now, tfs[i].0, lookbackDays) == now - lookbacks[i].1 * SecondsPerDay
  {
    var tfs := TimeframesFor(marketType);
    var symbolId := db.symbolId(symbol).value.value;
    var fetch := Fetcher(marketType, db, symbolId, now, lookbackDays);
    BucketsFailIff(fetch, faults, tfs);
    BucketsPointwise(fetch, faults, tfs);
    forall i | 0 <= i < |tfs|
      ensures WindowStart(LookbackDaysFor(marketType), now, tfs[i].0, lookbackDays) == now - LookbackDaysFor(marketType)[i].1 * SecondsPerDay
    {
      LookbackFromTable(marketType, i, lookbackDays);
    }
  }

  /** A failure in one timeframe leaves the others alone: two runs whose
      faults agree on a timeframe (and in which no reconnect fails) hold the
      same bucket for it. */
  lemma FailureIsolated(fetch: (string, int) -> TimeframeData, faults1: string -> Fault,
                        faults2: string -> Fault, tfs: Table<int>, i: nat)
    requires i < |tfs| && faults1(tfs[i].0) == faults2(tfs[i].0)
    requires BucketsFor(fetch, faults1, tfs).Some? && BucketsFor(fetch, faults2, tfs).Some?
    ensures var r1 := BucketsFor(fetch, faults1, tfs);
            var r2 := BucketsFor(fetch, faults2, tfs);
            i < |r1.value| && i < |r2.value| && r1.value[i] == r2.value[i]
  {
    BucketsPointwise(fetch, faults1, tfs);
    BucketsPointwise(fetch, faults2, tfs);
  }

  // ---------------------------------------------------------------------
  // The shared connection
  // ---------------------------------------------------------------------

  /** What the statements sent on one connection answer, in the order they
      are sent: `ok[k]` says whether statement k succeeds in a healthy
      transaction. PostgreSQL refuses every statement of an aborted
      transaction until it is rolled back; with `rollback`, the handler that
      sees a failure rolls back, so the next statement finds a healthy
      transaction again. */
  function Answers(ok: seq<bool>, aborted: bool, rollback: bool): (r: seq<bool>)
    ensures |r| == |ok|
    decreases |ok|
  {
    if |ok| == 0 then []
    else
      var answered := !aborted && ok[0];
      [answered] + Answers(ok[1..], !rollback && !answered, rollback)
  }

  /** Without a rollback, an aborted transaction refuses everything. */
  lemma {:induction false} AbortedRefusesAll(ok: seq<bool>)
    ensures forall k :: 0 <= k < |ok| ==> !Answers(ok, true, false)[k]
    decreases |ok|
  {
    if |ok| > 0 {
      AbortedRefusesAll(ok[1..]);
    }
  }

  /** As written, the three fetchers swallow a failed statement without
      rolling back, and they share the loop's cursor: once one statement
      fails, every later statement of the dashboard (the rest of this
      timeframe and every later timeframe) is refused, and its fetcher
      returns []. */
  lemma {:induction false} AbortedTransactionSilencesRest(ok: seq<bool>, i: nat, j: nat)
    requires i < j < |ok| && !ok[i]
    ensures !Answers(ok, false, false)[j]
    decreases i
  {
    var a := Answers(ok, false, false);
    assert a == [ok[0]] + Answers(ok[1..], !ok[0], false);
    if i == 0 {
      AbortedRefusesAll(ok[1..]);
      assert a[j] == Answers(ok[1..], true, false)[j - 1];
    } else if ok[0] {
      AbortedTransactionSilencesRest(ok[1..], i - 1, j - 1);
    } else {
      AbortedRefusesAll(ok[1..]);
    }
  }

  /** A failing zones query silences the volume-profile query after it and
      the next timeframe's candle query, though both would succeed. */
  lemma AbortedTransactionExample()
    ensures Answers([true, false, true, true], false, false) == [true, false, false, false]
  {
    assert Answers([true, false, true, true], false, false)
           == [true] + Answers([false, true, true], false, false);
    assert Answers([false, true, true], false, false) == [false] + Answers([true, true], true, false);
    AbortedRefusesAll([true, true]);
  }

  /** A view probe that raises silences the fallback query sent right after
      it in the same candle fetch, though the fallback would succeed. */
  lemma AbortedProbeExample()
    ensures Answers([false, true], false, false) == [false, false]
  {
    assert Answers([false, true], false, false) == [false] + Answers([true], true, false);
  }

  /** With a rollback after each failure, every statement answers as it
      would on its own: a failure affects nothing after it. This is the
      behaviour the fetchers above assume, each reading its own reply. */
  lemma {:induction false} RollbackKeepsAnswers(ok: seq<bool>)
    ensures Answers(ok, false, true) == ok
    decreases |ok|
  {
    if |ok| > 0 {
      RollbackKeepsAnswers(ok[1..]);
      assert ok == [ok[0]] + ok[1..];
    }
  }

  // ---------------------------------------------------------------------
  // Rendering and naming
  // ---------------------------------------------------------------------

  const SymbolSlot: string := "{{SYMBOL}}"
  const MarketTypeSlot: string := "{{MARKET_TYPE}}"
  const TimestampSlot: string := "{{TIMESTAMP}}"
  const DataSlot: string := "{{DASHBOARD_DATA}}"

  /** The template with its four placeholders replaced, in this order. */
  function Fill(template: string, symbol: string, marketType: string, stamp: string, json: string): string
  {
    ReplaceAll(ReplaceAll(ReplaceAll(ReplaceAll(template, SymbolSlot, symbol), MarketTypeSlot, marketType),
                          TimestampSlot, stamp), DataSlot, json)
  }

  /** A template without placeholders is served as it is. */
  lemma FillWithoutSlots(template: string, symbol: string, marketType: string, stamp: string, json: string)
    requires !Occurs(template, SymbolSlot) && !Occurs(template, MarketTypeSlot)
    requires !Occurs(template, TimestampSlot) && !Occurs(template, DataSlot)
    ensures Fill(template, symbol, marketType, stamp, json) == template
  {
    ReplaceAbsent(template, SymbolSlot, symbol);
    ReplaceAbsent(template, MarketTypeSlot, marketType);
    ReplaceAbsent(template, TimestampSlot, stamp);
    ReplaceAbsent(template, DataSlot, json);
  }

  /** A placeholder opens with "{{" and has no other '{', so another
      placeholder that differs in its third character does not occur in
      it. */
  lemma SlotNotInside(s: string, p: string)
    requires |p| >= 3 && p[0] == '{' && p[1] == '{'
    requires |s| >= 3 && s[0] == '{' && s[1] == '{' && s[2] != p[2]
    requires forall k :: 2 <= k < |s| ==> s[k] != '{'
    ensures !Occurs(s, p)
  {
    forall i | 0 <= i <= |s|
      ensures !OccursAt(s, p, i)
    {
    }
  }

  /** The placeholders are filled in order, so a value inserted early is
      itself searched for the later placeholders: a template that is just
      `{{SYMBOL}}` becomes the symbol only when the symbol holds none of the
      other three; the payload, substituted last, always arrives intact. */
  lemma FillSlotsInOrder(symbol: string, marketType: string, stamp: string, json: string)
    ensures !Occurs(symbol, MarketTypeSlot) && !Occurs(symbol, TimestampSlot) && !Occurs(symbol, DataSlot) ==>
              Fill(SymbolSlot, symbol, marketType, stamp, json) == symbol
    ensures Fill(DataSlot, symbol, marketType, stamp, json) == json
    ensures !Occurs(stamp, DataSlot) ==> Fill(SymbolSlot, TimestampSlot, marketType, stamp, json) == stamp
  {
    ReplaceWhole(SymbolSlot, symbol);
    if !Occurs(symbol, MarketTypeSlot) && !Occurs(symbol, TimestampSlot) && !Occurs(symbol, DataSlot) {
      ReplaceAbsent(symbol, MarketTypeSlot, marketType);
      ReplaceAbsent(symbol, TimestampSlot, stamp);
      ReplaceAbsent(symbol, DataSlot, json);
    }
    SlotNotInside(DataSlot, SymbolSlot);
    SlotNotInside(DataSlot, MarketTypeSlot);
    SlotNotInside(DataSlot, TimestampSlot);
    SlotNotInside(TimestampSlot, MarketTypeSlot);
    ReplaceAbsent(DataSlot, SymbolSlot, symbol);
    ReplaceAbsent(DataSlot, MarketTypeSlot, marketType);
    ReplaceAbsent(DataSlot, TimestampSlot, stamp);
    ReplaceWhole(DataSlot, json);
    ReplaceWhole(SymbolSlot, TimestampSlot);
    ReplaceAbsent(TimestampSlot, MarketTypeSlot, marketType);
    ReplaceWhole(TimestampSlot, stamp);
    if !Occurs(stamp, DataSlot) {
      ReplaceAbsent(stamp, DataSlot, json);
    }
  }

  /** The output name: market type, the symbol with every ':' made '_' and
      lower-cased, and a fixed suffix. */
  function DashboardFilename(marketType: string, symbol: string): string
  {
    marketType + "_" + ToLower(ReplaceAll(symbol, ":", "_")) + "_dashboard.html"
  }

  const LocalDir: string := "data/dashboards/"

  /** The middle of the name follows the symbol character by character: no
      ':' and no upper-case letter is left, and every other character is
      the symbol's. */
  lemma FilenameShape(marketType: string, symbol: string)
    ensures var name := DashboardFilename(marketType, symbol);
            var mid := name[|marketType| + 1..|name| - |"_dashboard.html"|];
            && name == marketType + "_" + mid + "_dashboard.html"
            && |mid| == |symbol|
            && forall i :: 0 <= i < |symbol| ==>
                 && mid[i] != ':' && !IsUpper(mid[i])
                 && (symbol[i] == ':' ==> mid[i] == '_')
                 && (symbol[i] != ':' && !IsUpper(symbol[i]) ==> mid[i] == symbol[i])
                 && (IsUpper(symbol[i]) ==> mid[i] == LowerChar(symbol[i]))
  {
    ReplaceOneChar(symbol, ':', '_');
    var mid := ToLower(ReplaceAll(symbol, ":", "_"));
    var name := DashboardFilename(marketType, symbol);
    assert name == marketType + "_" + mid + "_dashboard.html";
    assert name[|marketType| + 1..|name| - |"_dashboard.html"|] == mid;
  }

  // ---------------------------------------------------------------------
  // One dashboard
  // ---------------------------------------------------------------------

  /** What `generate_dashboard` returns: (url, was_uploaded). No payload, an
      unreadable template, a failed write or a raising upload give
      (None, false). The same name is used in both modes. */
  function DashboardOutcome(marketType: string, skipUpload: bool, db: DashboardDb, symbol: string,
                            lookbackDays: int, env: Env): (Option<string>, bool)
  {
    match DashboardDataFor(marketType, db, symbol, env.now, lookbackDays, env.faults)
    case None => (None, false)
    case Some(data) =>
      match env.template
      case None => (None, false)
      case Some(template) =>
        var html := Fill(template, data.symbol, data.marketType, env.stamp, env.toJson(data));
        var name := DashboardFilename(marketType, symbol);
        if skipUpload then
          (if env.saved then (Some(LocalDir + name), true) else (None, false))
        else
          match env.upload(html, name)
          case Raised => (None, false)
          case Ok(url) => (url, true)
  }

  /** A URL is only ever reported together with success; a local run
      reports the path of the named file; an upload run passes the filled
      template under the same name to the blob store and reports its URL. */
  lemma OutcomeSpec(marketType: string, skipUpload: bool, db: DashboardDb, symbol: string,
                    lookbackDays: int, env: Env)
    ensures var (url, done) := DashboardOutcome(marketType, skipUpload, db, symbol, lookbackDays, env);
            var data := DashboardDataFor(marketType, db, symbol, env.now, lookbackDays, env.faults);
            && (!done ==> url.None?)
            && (done <==> data.Some? && env.template.Some? &&
                          (if skipUpload then env.saved
                           else env.upload(Fill(env.template.value, symbol, ToUpper(marketType), env.stamp,
                                                env.toJson(data.value)),
                                           DashboardFilename(marketType, symbol)).Ok?))
            && (done && skipUpload ==> url == Some(LocalDir + DashboardFilename(marketType, symbol)))
            && (done && !skipUpload ==>
                  Ok(url) == env.upload(Fill(env.template.value, symbol, ToUpper(marketType), env.stamp,
                                             env.toJson(data.value)),
                                        DashboardFilename(marketType, symbol)))
  {
  }

  // ---------------------------------------------------------------------
  // The generator
  // ---------------------------------------------------------------------

  class DashboardGenerator {
    const marketType: string
    const skipUpload: bool
    /** The schema queried is named after the market type. */
    const schema: string := marketType
    const timeframes: Table<int> := TimeframesFor(marketType)
    const lookbackDaysMap: Table<int> := LookbackDaysFor(marketType)

    constructor(marketType: string, skipUpload: bool)
      ensures this.marketType == marketType && this.skipUpload == skipUpload
      ensures schema == marketType
      ensures timeframes == TimeframesFor(marketType) && lookbackDaysMap == LookbackDaysFor(marketType)
    {
      this.marketType := marketType;
      this.skipUpload := skipUpload;
    }

    /** `_fetch_dashboard_data`: look the symbol up, then fill one bucket
        per timeframe. */
    method FetchDashboardData(db: DashboardDb, symbol: string, now: int, lookbackDays: int,
                              faults: string -> Fault) returns (data: Option<DashboardData>)
      ensures data == DashboardDataFor(marketType, db, symbol, now, lookbackDays, faults)
    {
      var found := db.symbolId(symbol);
      if found.Raised? || found.value.None? {
        return None;
      }
      var symbolId := found.value.value;
      var buckets: Table<TimeframeData> := [];
      for i := 0 to |timeframes|
        invariant BucketsFor(Fetcher(marketType, db, symbolId, now, lookbackDays), faults, timeframes[..i]) == Some(buckets)
      {
        var (tf, minutes) := timeframes[i];
        assert timeframes[..i + 1][..i] == timeframes[..i];
        var fault := faults(tf);
        if fault == RaisesAndReconnectFails {
          BucketsFailIff(Fetcher(marketType, db, symbolId, now, lookbackDays), faults, timeframes);
          return None;
        }
        var bucket := EmptyTimeframe;
        if fault == Completes {
          bucket := FetchTimeframe(db, symbolId, now, lookbackDays, tf, minutes);
        }
        buckets := buckets + [(tf, bucket)];
      }
      assert timeframes[..|timeframes|] == timeframes;
      data := Some(DashboardData(symbol, ToUpper(marketType), buckets));
    }

    /** The body of one iteration that completes: the window, then the
        three fetchers. */
    method FetchTimeframe(db: DashboardDb, symbolId: int, now: int, lookbackDays: int, tf: string, minutes: int)
      returns (bucket: TimeframeData)
      ensures bucket == TimeframeFor(marketType, db, symbolId, now, lookbackDays, tf, minutes)
    {
      var start := WindowStart(lookbackDaysMap, now, tf, lookbackDays);
      var candles := FetchCandles(db.candles, symbolId, start, now, minutes);
      var zones := FetchZones(db.zones, symbolId, tf);
      var profile := FetchVolumeProfile(schema, db.profile, symbolId, start, now);
      bucket := TimeframeData(candles, zones, profile);
    }

    /** `_render_html`: fill the placeholders one after another; a template
        that cannot be read raises. */
    method RenderHtml(template: Option<string>, data: DashboardData, stamp: string, json: string)
      returns (html: Option<string>)
      ensures html == if template.None? then None
                      else Some(Fill(template.value, data.symbol, data.marketType, stamp, json))
    {
      if template.None? {
        return None;
      }
      var text := template.value;
      text := ReplaceAll(text, SymbolSlot, data.symbol);
      text := ReplaceAll(text, MarketTypeSlot, data.marketType);
      text := ReplaceAll(text, TimestampSlot, stamp);
      text := ReplaceAll(text, DataSlot, json);
      html := Some(text);
    }

    /** `generate_dashboard`: every failure is caught and reported as
        (None, false). */
    method GenerateDashboard(db: DashboardDb, symbol: string, lookbackDays: int, env: Env)
      returns (url: Option<string>, uploaded: bool)
      ensures (url, uploaded) == DashboardOutcome(marketType, skipUpload, db, symbol, lookbackDays, env)
    {
      var data := FetchDashboardData(db, symbol, env.now, lookbackDays, env.faults);
      if data.None? {
        return None, false;
      }
      var html := RenderHtml(env.template, data.value, env.stamp, env.toJson(data.value));
      if html.None? {
        return None, false;
      }
      var name := DashboardFilename(marketType, symbol);
      if skipUpload {
        if !env.saved {
          return None, false;
        }
        return Some(LocalDir + name), true;
      }
      var reply := env.upload(html.value, name);
      if reply.Raised? {
        return None, false;
      }
      return reply.value, true;
    }
  }

  // ---------------------------------------------------------------------
  // The batch
  // ---------------------------------------------------------------------

  /** `if url:` — a missing or empty URL is falsy. */
  predicate Truthy(url: Option<string>)
  {
    url.Some? && url.value != ""
  }

  /** The URL a stock symbol's dashboard is reported under in the batch. */
  function BatchUrl(skipUpload: bool, db: DashboardDb, lookbackDays: int, envOf: string -> Env,
                    symbol: string): Option<string>
  {
    DashboardOutcome("stocks", skipUpload, db, symbol, lookbackDays, envOf(symbol)).0
  }

  /** The results dictionary after the loop over `symbols`. */
  function BatchFor(skipUpload: bool, db: DashboardDb, lookbackDays: int, envOf: string -> Env,
                    symbols: seq<string>): map<string, string>
    decreases |symbols|
  {
    if |symbols| == 0 then map[]
    else
      var prev := BatchFor(skipUpload, db, lookbackDays, envOf, symbols[..|symbols| - 1]);
      var symbol := symbols[|symbols| - 1];
      var url := BatchUrl(skipUpload, db, lookbackDays, envOf, symbol);
      if Truthy(url) then prev[symbol := url.value] else prev
  }

  /** The results hold exactly the listed symbols whose dashboard reported
      a URL, each under that URL; every other symbol is skipped. */
  lemma {:induction false} BatchMembers(skipUpload: bool, db: DashboardDb, lookbackDays: int,
                                        envOf: string -> Env, symbols: seq<string>)
    ensures forall s :: s in BatchFor(skipUpload, db, lookbackDays, envOf, symbols) <==>
              s in symbols && Truthy(BatchUrl(skipUpload, db, lookbackDays, envOf, s))
    ensures forall s :: s in BatchFor(skipUpload, db, lookbackDays, envOf, symbols) ==>
              Some(BatchFor(skipUpload, db, lookbackDays, envOf, symbols)[s]) ==
              BatchUrl(skipUpload, db, lookbackDays, envOf, s)
    decreases |symbols|
  {
    if |symbols| > 0 {
      var init := symbols[..|symbols| - 1];
      BatchMembers(skipUpload, db, lookbackDays, envOf, init);
      assert symbols == init + [symbols[|symbols| - 1]];
    }
  }

  /** One more symbol adds its URL when it is truthy. */
  lemma BatchStep(skipUpload: bool, db: DashboardDb, lookbackDays: int, envOf: string -> Env,
                  symbols: seq<string>, i: nat)
    requires i < |symbols|
    ensures var prev := BatchFor(skipUpload, db, lookbackDays, envOf, symbols[..i]);
            var url := BatchUrl(skipUpload, db, lookbackDays, envOf, symbols[i]);
            BatchFor(skipUpload, db, lookbackDays, envOf, symbols[..i + 1])
            == if Truthy(url) then prev[symbols[i] := url.value] else prev
  {
    assert symbols[..i + 1][..i] == symbols[..i];
  }

  /** `generate_all_stock_dashboards`: list the stock symbols (a raising
      query leaves the results empty), then generate each dashboard and keep
      the truthy URLs. `generate_dashboard` catches everything, so the
      per-symbol handler never fires. */
  method GenerateAllStockDashboards(symbolList: Reply<seq<string>>, db: DashboardDb, lookbackDays: int,
                                    skipUpload: bool, envOf: string -> Env)
    returns (results: map<string, string>)
    ensures symbolList.Raised? ==> results == map[]
    ensures symbolList.Ok? ==> results == BatchFor(skipUpload, db, lookbackDays, envOf, symbolList.value)
  {
    results := map[];
    if symbolList.Raised? {
      return;
    }
    var symbols := symbolList.value;
    var generator := new DashboardGenerator("stocks", skipUpload);
    for i := 0 to |symbols|
      invariant results == BatchFor(skipUpload, db, lookbackDays, envOf, symbols[..i])
    {
      var symbol := symbols[i];
      BatchStep(skipUpload, db, lookbackDays, envOf, symbols, i);
      var url, uploaded := generator.GenerateDashboard(db, symbol, lookbackDays, envOf(symbol));
      assert url == BatchUrl(skipUpload, db, lookbackDays, envOf, symbol);
      if url.Some? && url.value != "" {
        results := results[symbol := url.value];
      }
    }
    assert symbols[..|symbols|] == symbols;
  }
}
