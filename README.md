# Zone dashboards and alert charts: a Dafny model

This project models two Python components of a trading-zone toolkit.

- `zaincandle/lightweight_dashboard_generator.py` builds one HTML dashboard
  per symbol. For every timeframe of its market (18 stock timeframes, 11
  crypto timeframes) it:
  - fetches candles from a materialised view, or by sampling 1-minute rows,
    or by `time_bucket` aggregation;
  - fetches the ranked supply/demand zones and the volume profile;
  - fills the four `{{...}}` slots of an HTML template;
  - saves the file locally or uploads it to blob storage.
  A batch entry point does this for every stock symbol.
- `volumeprofiletemplate/chart_generator.py` draws the Plotly charts sent
  with zone alerts:
  - the zone-alert chart;
  - the chart with volume-profile targets;
  - the price-action chart.
  It fetches candles from `stocks.candles_<n>m` with a padded window,
  computes the zone penetration, colours the volume bars and the HVN/LVN
  marks, names the files, and derives the PNG thumbnail's path.

The database, the clock, the template file, the JSON encoder, the blob store
and the PNG renderer are parameters: functions from a query's arguments to a
`Reply` (`Ok(value)` or `Raised`, an exception). Python dictionaries are
ordered association lists (`Table`). Times are integers: epoch seconds in the
dashboard, epoch microseconds (as `datetime` keeps them) in the chart
generator. Prices are `real`.

Each fetch routine is a method proved equal to a specification function.
The properties are stated as lemmas about those functions:
- the payload's shape and failure isolation;
- source selection;
- normalisation of NULL columns;
- ranking kept from the query;
- the active/broken partition;
- the filename's character-by-character shape;
- the outcome and batch contracts;
- the padding arithmetic;
- penetration bounds;
- the PNG naming round trip;
- the price-action chart's behaviour.

Modules:
- `Common`: `Option`, `Reply`, and convert-all-or-nothing.
- `Text`: `str(int)`, `lower`/`upper`, `replace`/`split`/`join`.
- `Timeframes`: the configuration tables.
- `CandleSource`, `ZoneFetch`, `VolumeProfile`: the three fetchers.
- `Dashboard`: the generator class and the batch.
- `ChartGenerator`: the alert charts.

## Model

| member | source | states |
|---|---|---|
| Common.MapAllSpec | zaincandle/lightweight_dashboard_generator.py:395-409 | a per-row conversion that may fail (`float(None)` raises inside the loop that appends each candle) yields a list exactly when every row converts, and then one converted item per row, in order |
| Common.MapAllPrefixFails | zaincandle/lightweight_dashboard_generator.py:451-466 | one failing row anywhere in the rows makes the whole conversion fail |
| Common.CollectAll | zaincandle/lightweight_dashboard_generator.py:514-521 | the appending loop over the rows computes the all-or-nothing conversion |
| Text.NatToString | volumeprofiletemplate/chart_generator.py:151 | an f-string's decimal rendering of a count is non-empty, all digits, with no leading zero |
| Text.ParseNatToString | volumeprofiletemplate/chart_generator.py:151 | reading the rendered digits back gives the number |
| Text.ParseIntToString | volumeprofiletemplate/chart_generator.py:344 | `str(int)` including the sign reads back to the integer |
| Text.IntToStringInjective | volumeprofiletemplate/chart_generator.py:344 | distinct integers render to distinct strings |
| Text.ToLower | zaincandle/lightweight_dashboard_generator.py:165 | `lower()` keeps the length, turns every upper-case letter into its lower-case partner and keeps every other character |
| Text.ToUpper | zaincandle/lightweight_dashboard_generator.py:212 | `upper()` keeps the length, turns every lower-case letter into its upper-case partner and keeps every other character |
| Text.Split | zaincandle/lightweight_dashboard_generator.py:544-547 | splitting on a pattern yields at least one piece; SplitPiecesFree and JoinSplitRoundTrip state that the pieces cut every occurrence and re-join to the string |
| Text.ReplaceAllIsJoinOfSplit | zaincandle/lightweight_dashboard_generator.py:544-547 | `s.replace(p, r)` equals `r.join(s.split(p))` |
| Text.SplitPiecesFree | zaincandle/lightweight_dashboard_generator.py:544-547 | no piece of `s.split(p)` contains `p`: every occurrence is cut |
| Text.ReplaceEveryOccurrence | zaincandle/lightweight_dashboard_generator.py:544-547 | `s.replace(p, r)` cuts `s` into pieces free of `p` that re-join to `s` with `p`, and joins those pieces with `r`, so every occurrence is replaced |
| Text.JoinSplitRoundTrip | zaincandle/lightweight_dashboard_generator.py:544-547 | joining the pieces of a split with the same pattern gives back the string |
| Text.ReplaceBySelf | zaincandle/lightweight_dashboard_generator.py:544-547 | replacing a pattern by itself changes nothing |
| Text.ReplaceWhole | zaincandle/lightweight_dashboard_generator.py:544-547 | a string that is exactly the slot becomes exactly the replacement |
| Text.ReplaceAbsent | zaincandle/lightweight_dashboard_generator.py:544-547 | a string without the pattern comes back unchanged |
| Text.ReplaceOneChar | zaincandle/lightweight_dashboard_generator.py:165 | replacing ':' by '_' keeps the length and substitutes exactly the ':' positions |
| Text.ReplaceAll | zaincandle/lightweight_dashboard_generator.py:544-547 | `str.replace`, left to right without overlaps; ReplaceEveryOccurrence states that it replaces every occurrence |
| Timeframes.LookupAt | zaincandle/lightweight_dashboard_generator.py:222 | in a table with distinct keys, `get` of the i-th key returns the i-th value |
| Timeframes.LookupMissing | zaincandle/lightweight_dashboard_generator.py:222 | `get(k, default)` of a missing key returns the default |
| Timeframes.StockTablesAgree | zaincandle/lightweight_dashboard_generator.py:56-99 | the stock timeframe and lookback tables have the same 18 distinct labels in the same order |
| Timeframes.CryptoTablesAgree | zaincandle/lightweight_dashboard_generator.py:102-131 | the crypto timeframe and lookback tables have the same 11 distinct labels in the same order |
| Timeframes.LabelTextInjective | zaincandle/lightweight_dashboard_generator.py:56-131 | a label determines its count and unit, so labels that spell strictly increasing bar lengths are distinct |
| Timeframes.StockLabelsDocumented | zaincandle/lightweight_dashboard_generator.py:56-77 | every stock label names its minutes, counting a trading day as 390 minutes |
| Timeframes.StockBarsDivideSession | zaincandle/lightweight_dashboard_generator.py:56-77 | no stock label is in hours, and every intraday bar length divides the 390-minute session |
| Timeframes.CryptoLabelsDocumented | zaincandle/lightweight_dashboard_generator.py:102-116 | every crypto label names its minutes, counting a day as 1440 minutes |
| Timeframes.LookbackFromTable | zaincandle/lightweight_dashboard_generator.py:217-223 | for every configured timeframe, the lookback used is the table's, never the caller's default |
| Timeframes.EveryTimeframeHasMatview | zaincandle/lightweight_dashboard_generator.py:290-320 | every configured minute count of either market has a materialised-view name |
| Timeframes.StockMatviewsFollowLabels | zaincandle/lightweight_dashboard_generator.py:290-318 | each stock timeframe's view is `candles_` plus its label in view spelling |
| Timeframes.CryptoMatviewsFollowLabels | zaincandle/lightweight_dashboard_generator.py:290-318 | each crypto timeframe's view is `candles_` plus its label in view spelling |
| CandleSource.SelectSourceSpec | zaincandle/lightweight_dashboard_generator.py:320-338 | the view is queried if and only if the minutes map to a view and the existence probe answers true; the view queried is the mapped one |
| CandleSource.ConfiguredFallbackOnlyOnProbe | zaincandle/lightweight_dashboard_generator.py:320-338 | for a configured timeframe, the fallback is taken exactly when the probe does not confirm the view (the fallback's reply is the database's own, as with a rollback; as written, a raising probe also empties the fallback, see Findings) |
| CandleSource.SelectSource | zaincandle/lightweight_dashboard_generator.py:320-371 | the choice between the view, stride sampling and bucketing; stated by SelectSourceSpec and ConfiguredFallbackOnlyOnProbe |
| CandleSource.QueryRows | zaincandle/lightweight_dashboard_generator.py:340-393 | the rows each of the three queries returns (a zero stride raises); its ordering is stated by RowsFetchedAscending |
| CandleSource.ToCandle | zaincandle/lightweight_dashboard_generator.py:395-409 | one candle per row, a NULL price failing and a NULL volume read as 0.0; stated by CandlesNormalised |
| CandleSource.CandlesFor | zaincandle/lightweight_dashboard_generator.py:279-413 | what `_fetch_candles` returns, a raise giving []; stated by CandlesNormalised and CandlesFetchedAscending |
| CandleSource.StridePositions | zaincandle/lightweight_dashboard_generator.py:358-371 | the sampled rows are exactly the on-stride 1-minute rows, in increasing order |
| CandleSource.EarliestIndex | zaincandle/lightweight_dashboard_generator.py:372-393 | `(array_agg(open ORDER BY timestamp))[1]` takes the open of a row with the least timestamp |
| CandleSource.LatestIndex | zaincandle/lightweight_dashboard_generator.py:372-393 | `(array_agg(close ORDER BY timestamp DESC))[1]` takes the close of a row with the greatest timestamp |
| CandleSource.MaxHigh | zaincandle/lightweight_dashboard_generator.py:372-393 | `MAX(high)` skips NULLs: NULL exactly when every high is NULL, otherwise one of the rows' highs and at least every present high |
| CandleSource.MinLow | zaincandle/lightweight_dashboard_generator.py:372-393 | `MIN(low)` skips NULLs: NULL exactly when every low is NULL, otherwise one of the rows' lows and at most every present low |
| CandleSource.SumVolume | zaincandle/lightweight_dashboard_generator.py:372-393 | `SUM(volume)` is NULL exactly when every volume is NULL, and is non-negative over non-negative volumes |
| CandleSource.Aggregate | zaincandle/lightweight_dashboard_generator.py:372-393 | a bucket's candle starts at the bucket; its open is the earliest row's open and its close the latest row's close, NULL included, as `array_agg(...)[1]` keeps them; its high and low are NULL only when every row's is, and otherwise are some row's value and bound every present one; its volume is the SQL sum of the volumes |
| CandleSource.FetchCandles | zaincandle/lightweight_dashboard_generator.py:279-413 | `_fetch_candles` computes the specified candle list |
| CandleSource.CandlesNormalised | zaincandle/lightweight_dashboard_generator.py:395-413 | a raising query or a NULL price gives []; otherwise one candle per row with the row's prices and NULL volume read as 0 |
| CandleSource.CandlesFetchedAscending | zaincandle/lightweight_dashboard_generator.py:340-393 | when each query keeps its ORDER BY, the candles are in ascending time |
| CandleSource.RowsFetchedAscending | zaincandle/lightweight_dashboard_generator.py:340-393 | each of the three queries (view, stride sample, buckets) returns rows in ascending time when the database keeps its ORDER BY |
| CandleSource.CandlesKeepOrder | zaincandle/lightweight_dashboard_generator.py:395-409 | converting rows to candles keeps their order |
| ZoneFetch.FetchZones | zaincandle/lightweight_dashboard_generator.py:415-476 | `_fetch_zones` computes the specified zone list |
| ZoneFetch.ToZone | zaincandle/lightweight_dashboard_generator.py:451-466 | one zone per row tagged with the label, a NULL price failing; stated by ZonesShaped |
| ZoneFetch.ZonesFor | zaincandle/lightweight_dashboard_generator.py:415-476 | what `_fetch_zones` returns; stated by UnknownLabelNoZones, ZonesShaped and ZonesKeepRanking |
| ZoneFetch.UnknownLabelNoZones | zaincandle/lightweight_dashboard_generator.py:419-426 | a label with no timeframe row yields no zones |
| ZoneFetch.ZonesShaped | zaincandle/lightweight_dashboard_generator.py:451-466 | every zone carries the requested label and no exit data; with all prices present, one zone per row with the row's fields |
| ZoneFetch.ZonesKeepRanking | zaincandle/lightweight_dashboard_generator.py:435-466 | the zones keep the query's score-then-start ranking and number at most 30 |
| ZoneFetch.SplitPartitions | zaincandle/lightweight_dashboard_generator.py:468-469 | active and broken zones partition the list (as multisets) by the truthiness of `is_broken` |
| ZoneFetch.ActiveZones | zaincandle/lightweight_dashboard_generator.py:468 | the zones whose `is_broken` is not truthy; stated by SplitPartitions, SplitConcat and SplitKeepsRanking |
| ZoneFetch.BrokenZones | zaincandle/lightweight_dashboard_generator.py:469 | the zones whose `is_broken` is truthy; stated by SplitPartitions, SplitConcat and SplitKeepsRanking |
| ZoneFetch.SplitConcat | zaincandle/lightweight_dashboard_generator.py:468-469 | the split distributes over concatenation, so each list keeps the zones' relative order |
| ZoneFetch.SplitKeepsRanking | zaincandle/lightweight_dashboard_generator.py:468-469 | a ranked zone list splits into two lists that are each ranked by score then start and hold at most 30 zones |
| VolumeProfile.ProfileFilterCovers | zaincandle/lightweight_dashboard_generator.py:488-495 | the stock filter is the exact window; the crypto date filter covers every instant of the window and admits the whole first and last calendar days |
| VolumeProfile.ProfileFilter | zaincandle/lightweight_dashboard_generator.py:488-495 | the time filter of the profile query per market; stated by ProfileFilterCovers |
| VolumeProfile.FetchVolumeProfile | zaincandle/lightweight_dashboard_generator.py:478-528 | `_fetch_volume_profile` computes the specified node list |
| VolumeProfile.ToNode | zaincandle/lightweight_dashboard_generator.py:512-521 | one node per row, a NULL price failing, NULL volume 0.0 and NULL flags false; stated by ProfileNormalised |
| VolumeProfile.ProfileFor | zaincandle/lightweight_dashboard_generator.py:478-528 | what `_fetch_volume_profile` returns; stated by ProfileNormalised and ProfileKeepsRanking |
| VolumeProfile.ProfileNormalised | zaincandle/lightweight_dashboard_generator.py:512-521 | a NULL price empties the profile; otherwise one node per row with NULL volume read as 0.0 and NULL flags as false |
| VolumeProfile.ProfileKeepsRanking | zaincandle/lightweight_dashboard_generator.py:496-521 | with no NULL totals, the nodes are sorted by volume, largest first, and number at most 50 |
| VolumeProfile.NullTotalBreaksOrder | zaincandle/lightweight_dashboard_generator.py:507-518 | a NULL total sorts first and becomes 0.0, so a ranked reply can give unsorted nodes |
| Dashboard.BucketsFailIff | zaincandle/lightweight_dashboard_generator.py:217-258 | the loop escapes to the outer handler exactly when some timeframe's reconnect fails |
| Dashboard.BucketsPointwise | zaincandle/lightweight_dashboard_generator.py:217-258 | otherwise there is one bucket per label in table order: the fetched data, or empty lists for a timeframe that raised |
| Dashboard.WindowStart | zaincandle/lightweight_dashboard_generator.py:221-222 | a timeframe's start is its table lookback (or the caller's default) days before now; stated by DashboardShape and LookbackFromTable |
| Dashboard.BucketsFor | zaincandle/lightweight_dashboard_generator.py:216-258 | the timeframe loop's buckets, None on an escaping failure; stated by BucketsFailIff, BucketsPointwise and FailureIsolated |
| Dashboard.DashboardDataFor | zaincandle/lightweight_dashboard_generator.py:182-277 | what `_fetch_dashboard_data` returns; stated by UnknownSymbolNoData and DashboardShape |
| Dashboard.UnknownSymbolNoData | zaincandle/lightweight_dashboard_generator.py:192-203 | an unknown symbol or a raising id lookup gives no payload |
| Dashboard.DashboardShape | zaincandle/lightweight_dashboard_generator.py:205-266 | the payload carries the symbol and the upper-cased market type; each timeframe uses its own lookback window |
| Dashboard.FailureIsolated | zaincandle/lightweight_dashboard_generator.py:240-258 | a timeframe that raises changes only its own bucket |
| Dashboard.Answers | zaincandle/lightweight_dashboard_generator.py:225-231 | what the statements sent on one connection answer in order, with or without a rollback after a failure; the same number of answers as statements |
| Dashboard.AbortedRefusesAll | zaincandle/lightweight_dashboard_generator.py:411-413 | an aborted transaction that is never rolled back refuses every later statement |
| Dashboard.AbortedTransactionSilencesRest | zaincandle/lightweight_dashboard_generator.py:411-413 | as written (fetchers swallow failures without a rollback), a failed statement makes every later statement on the connection fail, whatever the database would have answered |
| Dashboard.AbortedTransactionExample | zaincandle/lightweight_dashboard_generator.py:225-231 | a failing zones query silences the profile query after it and the next timeframe's candle query |
| Dashboard.AbortedProbeExample | zaincandle/lightweight_dashboard_generator.py:336-338 | as written, a view probe that raises silences the fallback query of the same candle fetch |
| Dashboard.RollbackKeepsAnswers | zaincandle/lightweight_dashboard_generator.py:240-245 | with a rollback after each failure, every statement answers as it would on its own, the isolation the fetchers' model assumes |
| Dashboard.FillWithoutSlots | zaincandle/lightweight_dashboard_generator.py:544-547 | a template without slots is returned as it is |
| Dashboard.FillSlotsInOrder | zaincandle/lightweight_dashboard_generator.py:544-547 | the slots are filled in order, so a symbol holding a later slot's text is itself replaced |
| Dashboard.Fill | zaincandle/lightweight_dashboard_generator.py:544-547 | the four replacements in order; stated by FillWithoutSlots and FillSlotsInOrder |
| Dashboard.FilenameShape | zaincandle/lightweight_dashboard_generator.py:165 | the name is the market type, the symbol with ':' as '_' and lower-cased character by character, and `_dashboard.html` |
| Dashboard.DashboardFilename | zaincandle/lightweight_dashboard_generator.py:165 | the dashboard's file name; stated by FilenameShape |
| Dashboard.OutcomeSpec | zaincandle/lightweight_dashboard_generator.py:133-180 | success with a local path or the upload's URL under the same name; any failure gives (None, False) |
| Dashboard.DashboardOutcome | zaincandle/lightweight_dashboard_generator.py:133-180 | what `generate_dashboard` returns; stated by OutcomeSpec |
| Dashboard.DashboardGenerator.constructor | zaincandle/lightweight_dashboard_generator.py:28-131 | the schema is the market type; stocks gets the stock tables and every other market the crypto tables |
| Dashboard.DashboardGenerator.FetchDashboardData | zaincandle/lightweight_dashboard_generator.py:182-277 | the timeframe loop computes the specified payload |
| Dashboard.DashboardGenerator.FetchTimeframe | zaincandle/lightweight_dashboard_generator.py:220-239 | one iteration fetches candles, zones and profile over the timeframe's window |
| Dashboard.DashboardGenerator.RenderHtml | zaincandle/lightweight_dashboard_generator.py:530-553 | the four replacements in order, and None when the template cannot be read |
| Dashboard.DashboardGenerator.GenerateDashboard | zaincandle/lightweight_dashboard_generator.py:133-180 | `generate_dashboard` returns the specified (url, uploaded) pair |
| Dashboard.BatchMembers | zaincandle/lightweight_dashboard_generator.py:606-625 | the results hold exactly the listed symbols whose dashboard reported a non-empty URL, each under that URL |
| Dashboard.BatchFor | zaincandle/lightweight_dashboard_generator.py:606-625 | the batch's result map built symbol by symbol; stated by BatchMembers |
| Dashboard.GenerateAllStockDashboards | zaincandle/lightweight_dashboard_generator.py:569-634 | a failing symbol query gives {}; otherwise the loop computes the specified results |
| ChartGenerator.TenthOfNearest | volumeprofiletemplate/chart_generator.py:146 | `timedelta * 0.1` rounds the exact product by the double nearest 0.1 to the nearest microsecond, ties to even |
| ChartGenerator.TenthOf | volumeprofiletemplate/chart_generator.py:146 | `timedelta * 0.1` in microseconds; stated by TenthOfNearest, TenthOfBounds and TenthOfDays |
| ChartGenerator.RoundTenthNearest | volumeprofiletemplate/chart_generator.py:146 | the rounding step lands within half a microsecond of the exact value, ties to even |
| ChartGenerator.TenthOfBounds | volumeprofiletemplate/chart_generator.py:146 | a tenth of a non-negative span is between 0 and the span |
| ChartGenerator.TenthOfDays | volumeprofiletemplate/chart_generator.py:146 | a tenth of a whole number of days (up to a million) is exact |
| ChartGenerator.PaddedStartSameDay | volumeprofiletemplate/chart_generator.py:138-143 | a same-day window starts at 09:30 of that day |
| ChartGenerator.PaddedStartAcrossDays | volumeprofiletemplate/chart_generator.py:144-146 | a multi-day window starts between one window-length and zero before the start |
| ChartGenerator.PaddedStartCanBeLater | volumeprofiletemplate/chart_generator.py:138-143 | on a single day the padded start is later than the start exactly when the start is before 09:30 |
| ChartGenerator.PaddedStartExample | volumeprofiletemplate/chart_generator.py:138-143 | 10:00 to 14:30 on one day pads to 09:30 |
| ChartGenerator.PaddedStart | volumeprofiletemplate/chart_generator.py:138-146 | the padded start of the chart window; stated by PaddedStartSameDay, PaddedStartAcrossDays and PaddedStartCanBeLater |
| ChartGenerator.ViewNameInjective | volumeprofiletemplate/chart_generator.py:151 | distinct minute counts name distinct views |
| ChartGenerator.ViewNameMatchesIntradayViews | volumeprofiletemplate/chart_generator.py:151 | for the 15 intraday stock timeframes the view name is the dashboard's view in the stocks schema |
| ChartGenerator.ViewNameMissesDayViews | volumeprofiletemplate/chart_generator.py:151 | for 1950 minutes the chart asks for `candles_1950m`, not the `candles_5d` view |
| ChartGenerator.ViewName | volumeprofiletemplate/chart_generator.py:151 | `stocks.candles_<n>m`; stated by ViewNameInjective, ViewNameMatchesIntradayViews and ViewNameMissesDayViews |
| ChartGenerator.Truncate | volumeprofiletemplate/chart_generator.py:182 | `int()` truncates toward zero |
| ChartGenerator.ChartDataShape | volumeprofiletemplate/chart_generator.py:112-192 | an unknown symbol gives []; otherwise a raise or a NULL gives [], else one candle per row with the volume truncated |
| ChartGenerator.ChartDataFor | volumeprofiletemplate/chart_generator.py:112-192 | what `_fetch_chart_data` returns; stated by ChartDataShape |
| ChartGenerator.Penetration | volumeprofiletemplate/chart_generator.py:226-230 | the penetration raises exactly on a zero-height zone and is otherwise non-negative |
| ChartGenerator.PenetrationSpec | volumeprofiletemplate/chart_generator.py:226-230 | it is how far the price lies beyond the far edge (below the bottom for demand, above the top otherwise) as a percentage of the zone's height, clipped at 0 |
| ChartGenerator.PenetrationExample | volumeprofiletemplate/chart_generator.py:750-759 | the file's example zone gives 0% at 149.25 and 200/3% at 148.00 |
| ChartGenerator.VolumeColours | volumeprofiletemplate/chart_generator.py:303-304 | one colour per candle |
| ChartGenerator.VolumeColoursSpec | volumeprofiletemplate/chart_generator.py:303-304 | a candle is coloured up exactly when its close is at least its open |
| ChartGenerator.ZoneTint | volumeprofiletemplate/chart_generator.py:279-280 | supply zones get the red tint and every other type the green tint |
| ChartGenerator.NodeLabel | volumeprofiletemplate/chart_generator.py:462-476 | a node is marked HVN exactly when its type is 'HVN', otherwise LVN |
| ChartGenerator.MarkNodes | volumeprofiletemplate/chart_generator.py:462-476 | the node loop computes the all-or-nothing conversion of the nodes into marks |
| ChartGenerator.MarksSpec | volumeprofiletemplate/chart_generator.py:462-476 | the marks fail exactly when some price level is NULL; otherwise one mark per node at its price, labelled HVN in the HVN colour exactly when its type is 'HVN', and LVN in the LVN colour for every other type or none |
| ChartGenerator.PriceActionFilenameInjective | volumeprofiletemplate/chart_generator.py:732-733 | different timeframes give different price-action file names |
| ChartGenerator.ZoneAlertFilename | volumeprofiletemplate/chart_generator.py:343-344 | the zone-alert file name; its thumbnail is stated by ZoneAlertPngName |
| ChartGenerator.TargetsFilename | volumeprofiletemplate/chart_generator.py:563 | the targets file name. The source draws no thumbnail for this chart: `generate_zone_alert_chart_with_targets` returns only the HTML path (570). TargetsPngName states the PNG name `_generate_png_thumbnail` (366) would derive from it |
| ChartGenerator.PriceActionFilename | volumeprofiletemplate/chart_generator.py:732-733 | the price-action file name; stated by PriceActionFilenameInjective and PriceActionPngName |
| ChartGenerator.PngPath | volumeprofiletemplate/chart_generator.py:366 | `html_path.replace('.html', '.png')`; stated by PngPathOfSuffix and the *PngName lemmas |
| ChartGenerator.PngPathOfSuffix | volumeprofiletemplate/chart_generator.py:366 | a path in which ".html" occurs only as the suffix maps `stem.html` to `stem.png` |
| ChartGenerator.PngBeside | volumeprofiletemplate/chart_generator.py:366 | a name without '.' gets its thumbnail beside the HTML file |
| ChartGenerator.PngInOutputDir | volumeprofiletemplate/chart_generator.py:366 | in any output directory, a file whose path has ".html" only as its suffix gets its PNG under the same name |
| ChartGenerator.PngInDefaultDir | volumeprofiletemplate/chart_generator.py:31 | in the default directory `data/temp/alert_charts`, a name without '.' gets its PNG under the same name |
| ChartGenerator.ZoneAlertPngName | volumeprofiletemplate/chart_generator.py:343-344 | in any directory, a zone-alert chart's thumbnail is the same path ending in `.png` whenever ".html" occurs in it only as the suffix (dotted tickers such as BRK.B included) |
| ChartGenerator.ZoneAlertPngNameDotFree | volumeprofiletemplate/chart_generator.py:343-344 | in the default directory, with no '.' in the symbol, zone type and stamp, the zone-alert thumbnail is the same path ending in `.png` |
| ChartGenerator.TargetsPngName | volumeprofiletemplate/chart_generator.py:563 | the PNG name `_generate_png_thumbnail` (366) would derive from a targets file name, in any directory, is the same path ending in `.png` whenever ".html" occurs in it only as the suffix. The source draws no thumbnail for this chart |
| ChartGenerator.PriceActionPngName | volumeprofiletemplate/chart_generator.py:732-733 | in any directory, a price-action chart's thumbnail is the same path ending in `.png` whenever ".html" occurs in it only as the suffix |
| ChartGenerator.Thumbnail | volumeprofiletemplate/chart_generator.py:353-385 | `_generate_png_thumbnail`; stated by ThumbnailSpec |
| ChartGenerator.ThumbnailSpec | volumeprofiletemplate/chart_generator.py:353-385 | a path object raises; a string path gives the `.png` path, or None when rendering fails |
| ChartGenerator.ZoneAlertChart | volumeprofiletemplate/chart_generator.py:42-110 | `generate_zone_alert_chart`; stated by ZoneAlertChartSpec |
| ChartGenerator.ZoneAlertChartSpec | volumeprofiletemplate/chart_generator.py:42-110 | no candles gives (None, None); a zero-height zone raises; otherwise the HTML path and the thumbnail's |
| ChartGenerator.TargetsChart | volumeprofiletemplate/chart_generator.py:387-570 | `generate_zone_alert_chart_with_targets`; stated by TargetsChartSpec |
| ChartGenerator.TargetsChartSpec | volumeprofiletemplate/chart_generator.py:387-570 | the chart raises exactly when some node has a NULL price level; otherwise it returns the named path |
| ChartGenerator.CurrentPrice | volumeprofiletemplate/chart_generator.py:694-695 | the current price exists exactly when there are candles, and is the last close |
| ChartGenerator.PriceActionChartAsWritten | volumeprofiletemplate/chart_generator.py:572-625 | `generate_price_action_chart` as written, handing a `Path` to the thumbnail; stated by PriceActionAlwaysRaises |
| ChartGenerator.PriceActionAlwaysRaises | volumeprofiletemplate/chart_generator.py:366 | as written, every price-action chart with at least 10 candles raises |
| ChartGenerator.PriceActionChart | volumeprofiletemplate/chart_generator.py:572-625 | `generate_price_action_chart` with the path handed on as a string; stated by PriceActionChartSpec |
| ChartGenerator.PriceActionChartSpec | volumeprofiletemplate/chart_generator.py:572-625 | with the path passed as a string: fewer than 10 candles gives (None, None), otherwise the HTML path and its thumbnail; it never raises |

## Left out

- SQL text and execution are not modelled: each query is an oracle on its arguments. The `time_bucket` grouping and alignment are the oracle's; the model only aggregates the buckets it is given.
- The fetchers are modelled with the rollback the source evidently intends: each reads its own reply. The aborted-transaction effect of the code as written is modelled on its own, on the sequence of statements (`Answers`, see Findings), not inside the payload. Reconnection is not modelled. An iteration's exception and a failing reconnect are oracle inputs (`Fault`).
- Logging, the command-line entry point and environment variables are left out. Constructing the blob manager (and its failure when the connection string is missing) is left out too.
- `generate_stock_dashboard` and `generate_crypto_dashboard` have no member of their own. Each is a `DashboardGenerator` constructor call followed by `GenerateDashboard`.
- The clock, `strftime` stamps and `json.dumps` are inputs. The template file read and the local write are booleans or options. The blob upload is a function.
- Plotly figure construction is left out: traces, layout, axes, annotations, and the entry/stop/target/current-price lines of the targets chart. Only the parts that decide data are modelled: marks, colours, tints, file names and thumbnail paths.
- ChartPath: the generator's `output_dir` is a parameter of every chart builder, joined to the file name as text with '/'. `Path`'s normalisation of the directory (a trailing '/', '.' components) and the `mkdir` of the constructor are left out.
- Actual PNG rasterisation is left out. Success or failure of the renderer is a boolean.
- `SymbolCache.get_id` is an input. So is the chart timeframe chosen for a zone.
- MinuteOfHour: stride sampling takes `EXTRACT(MINUTE FROM timestamp)` as the minute of the hour in UTC, which equals the wall-clock minute only for a time zone offset by whole hours.
- Floating point is modelled as exact reals. The one exception is `timedelta * 0.1`, modelled to the microsecond.
- Text.ToLower: maps ASCII letters only; Python's Unicode case mapping is not modelled.
- Text.ToUpper: maps ASCII letters only; Python's Unicode case mapping is not modelled.
- `generate_all_stock_dashboards`'s per-symbol `except` is unreachable. `generate_dashboard` catches every exception itself, so the model has no branch for it.

## Findings

| source | as written | input that shows it | evidently intended | confidence | as-written member | corrected member |
|---|---|---|---|---|---|---|
| zaincandle/lightweight_dashboard_generator.py:411-413 | `_fetch_candles` swallows a database error without `conn.rollback()`, both in its view probe (336-338) and in its own handler, and so do `_fetch_zones` (474-476) and `_fetch_volume_profile` (526-528). All three share the loop's cursor, so the transaction stays aborted and every later statement fails. The loop's own rollback (244) is never reached for a query error | a zones query that raises for the first timeframe: its profile and every later timeframe come back empty, though the database holds their data; a view probe that raises empties the fallback query of the same fetch | roll back in each fetcher's handler (or reach the loop's), so that one failed query empties only its own list | not executed; assumes the pool's connections are not in autocommit mode | Dashboard.AbortedTransactionSilencesRest | Dashboard.RollbackKeepsAnswers |
| volumeprofiletemplate/chart_generator.py:366 | `_generate_price_action_html` returns a `pathlib.Path` (line 740). `generate_price_action_chart` passes it on to `_generate_png_thumbnail` (line 622). There, `html_path.replace('.html', '.png')` runs outside the `try`. It calls `Path.replace`, which takes one target, so it raises `TypeError` | any call whose window holds at least 10 candles, e.g. 10 rows from `stocks.candles_5m` | pass `str(filepath)`, as the other two chart builders do, so that the thumbnail path is the HTML path ending in `.png` | not executed | ChartGenerator.PriceActionAlwaysRaises | ChartGenerator.PriceActionChartSpec |
