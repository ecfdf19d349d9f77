/** The fixed configuration of the dashboard generator: per market, the
    ordered table of timeframe label -> bar length in minutes and the table
    of timeframe label -> lookback days, and the table of materialized view
    names per bar length. Tables are ordered sequences of pairs because the
    source iterates its dictionaries in insertion order. */
module Timeframes {
  import opened Common
  import opened Text

  type Table<V> = seq<(string, V)>

  // ---------------------------------------------------------------------
  // Dictionary operations on ordered tables
  // ---------------------------------------------------------------------

  function Keys<V>(t: Table<V>): (ks: seq<string>)
    ensures |ks| == |t| && forall i :: 0 <= i < |t| ==> ks[i] == t[i].0
  {
    seq(|t|, i requires 0 <= i < |t| => t[i].0)
  }

  predicate DistinctKeys<V>(t: Table<V>)
  {
    forall i, j :: 0 <= i < j < |t| ==> t[i].0 != t[j].0
  }

  /** `d.get(k)`: the value stored under `k`, if any. */
  function Lookup<V>(t: Table<V>, k: string): Option<V>
    decreases |t|
  {
    if |t| == 0 then None else if t[0].0 == k then Some(t[0].1) else Lookup(t[1..], k)
  }

  /** `d.get(k, default)`. */
  function LookupOr<V>(t: Table<V>, k: string, default: V): V
  {
    match Lookup(t, k)
    case Some(v) => v
    case None => default
  }

  /** In a table with distinct keys, looking up the i-th key yields the
      i-th value. */
  lemma {:induction false} LookupAt<V>(t: Table<V>, i: nat)
    requires DistinctKeys(t) && i < |t|
    ensures Lookup(t, t[i].0) == Some(t[i].1)
    decreases |t|
  {
    if i > 0 {
      assert t[0].0 != t[i].0;
      assert DistinctKeys(t[1..]) by {
        forall a, b | 0 <= a < b < |t[1..]| ensures t[1..][a].0 != t[1..][b].0 {
          assert t[1..][a] == t[a + 1] && t[1..][b] == t[b + 1];
        }
      }
      LookupAt(t[1..], i - 1);
    }
  }

  /** A key that is not in the table is not found. */
  lemma {:induction false} LookupMissing<V>(t: Table<V>, k: string)
    requires forall i :: 0 <= i < |t| ==> t[i].0 != k
    ensures Lookup(t, k).None?
    decreases |t|
  {
    if |t| > 0 {
      assert forall i :: 0 <= i < |t[1..]| ==> t[1..][i] == t[i + 1];
      LookupMissing(t[1..], k);
    }
  }

  // ---------------------------------------------------------------------
  // The tables
  // ---------------------------------------------------------------------

  /** Trading minutes in one stock-market session (09:30 to 16:00). */
  const StockSessionMinutes: nat := 390
  /** Minutes in one calendar day, for the continuously traded market. */
  const CryptoDayMinutes: nat := 1440

  const StockTimeframes: Table<int> := [
    ("2min", 2), ("3min", 3), ("5min", 5), ("6min", 6), ("10min", 10),
    ("13min", 13), ("15min", 15), ("26min", 26), ("30min", 30), ("39min", 39),
    ("65min", 65), ("78min", 78), ("130min", 130), ("195min", 195), ("390min", 390),
    ("5day", 1950), ("22day", 8580), ("65day", 25350)
  ]

  const StockLookbackDays: Table<int> := [
    ("2min", 5), ("3min", 7), ("5min", 14), ("6min", 14), ("10min", 30),
    ("13min", 30), ("15min", 60), ("26min", 90), ("30min", 90), ("39min", 180),
    ("65min", 180), ("78min", 180), ("130min", 365), ("195min", 365), ("390min", 730),
    ("5day", 730), ("22day", 1095), ("65day", 1825)
  ]

  const CryptoTimeframes: Table<int> := [
    ("5min", 5), ("15min", 15), ("30min", 30), ("1hour", 60), ("2hour", 120),
    ("4hour", 240), ("8hour", 480), ("1day", 1440),
    ("7day", 10080), ("31day", 44640), ("93day", 133920)
  ]

  const CryptoLookbackDays: Table<int> := [
    ("5min", 7), ("15min", 14), ("30min", 30), ("1hour", 60), ("2hour", 90),
    ("4hour", 180), ("8hour", 365), ("1day", 730),
    ("7day", 1095), ("31day", 1825), ("93day", 2555)
  ]

  /** Materialized view per bar length, in minutes. */
  const MatviewMap: map<int, string> := map[
    2 := "candles_2m", 3 := "candles_3m", 5 := "candles_5m", 6 := "candles_6m",
    10 := "candles_10m", 13 := "candles_13m", 15 := "candles_15m", 26 := "candles_26m",
    30 := "candles_30m", 39 := "candles_39m", 65 := "candles_65m", 78 := "candles_78m",
    130 := "candles_130m", 195 := "candles_195m", 390 := "candles_390m", 1950 := "candles_5d",
    8580 := "candles_22d", 25350 := "candles_65d", 60 := "candles_1h", 120 := "candles_2h",
    240 := "candles_4h", 480 := "candles_8h", 1440 := "candles_1d", 10080 := "candles_7d",
    44640 := "candles_31d", 133920 := "candles_93d"
  ]

  /** The view registered for a bar length, if any (`matview_map.get`). */
  function MatviewName(minutes: int): Option<string>
  {
    if minutes in MatviewMap then Some(MatviewMap[minutes]) else None
  }

  /** The tables chosen for a market: 'stocks' gets the stock tables and
      every other market type the crypto tables. */
  function TimeframesFor(marketType: string): Table<int>
  {
    if marketType == "stocks" then StockTimeframes else CryptoTimeframes
  }

  function LookbackDaysFor(marketType: string): Table<int>
  {
    if marketType == "stocks" then StockLookbackDays else CryptoLookbackDays
  }

  // ---------------------------------------------------------------------
  // What the labels mean
  // ---------------------------------------------------------------------

  /** The unit a timeframe label is written in. */
  datatype Unit = Min | Hour | Day

  function UnitSuffix(u: Unit): string
  {
    match u
    case Min => "min"
    case Hour => "hour"
    case Day => "day"
  }

  /** The label for `n` units, as the tables write it ("15min", "4hour"). */
  function LabelText(n: nat, u: Unit): string
  {
    NatToString(n) + UnitSuffix(u)
  }

  /** The documented length of `n` units in minutes: an hour is 60 minutes
      and a "day" is one session, of `dayMinutes` minutes. */
  function UnitMinutes(n: nat, u: Unit, dayMinutes: nat): nat
  {
    match u
    case Min => n
    case Hour => n * 60
    case Day => n * dayMinutes
  }

  /** The numerals the labels use, computed once. */
  lemma OneDigitNumerals()
    ensures NatToString(1) == "1" && NatToString(2) == "2" && NatToString(3) == "3"
    ensures NatToString(4) == "4" && NatToString(5) == "5" && NatToString(6) == "6"
    ensures NatToString(7) == "7" && NatToString(8) == "8"
  {
  }

  lemma TwoDigitNumerals()
    ensures NatToString(10) == "10" && NatToString(13) == "13" && NatToString(15) == "15"
    ensures NatToString(22) == "22" && NatToString(26) == "26" && NatToString(30) == "30"
    ensures NatToString(31) == "31" && NatToString(39) == "39" && NatToString(65) == "65"
    ensures NatToString(78) == "78" && NatToString(93) == "93"
  {
    OneDigitNumerals();
  }

  lemma ThreeDigitNumerals()
    ensures NatToString(130) == "130" && NatToString(195) == "195" && NatToString(390) == "390"
  {
    TwoDigitNumerals();
    assert NatToString(19) == "19" by { OneDigitNumerals(); }
  }

  /** The (count, unit) reading of each label of the stock table. */
  const StockLabels: seq<(nat, Unit)> := [
    (2, Min), (3, Min), (5, Min), (6, Min), (10, Min), (13, Min), (15, Min),
    (26, Min), (30, Min), (39, Min), (65, Min), (78, Min), (130, Min), (195, Min),
    (390, Min), (5, Day), (22, Day), (65, Day)
  ]

  const CryptoLabels: seq<(nat, Unit)> := [
    (5, Min), (15, Min), (30, Min), (1, Hour), (2, Hour), (4, Hour), (8, Hour),
    (1, Day), (7, Day), (31, Day), (93, Day)
  ]

  /** Both stock tables have the same labels, in the same order, each
      once. */
  lemma StockTablesAgree()
    ensures Keys(StockTimeframes) == Keys(StockLookbackDays)
    ensures DistinctKeys(StockTimeframes) && DistinctKeys(StockLookbackDays)
  {
    StockLabelsDocumented();
    StockMinutesIncreasing();
    DistinctByLabels(StockTimeframes, StockLabels, StockSessionMinutes);
    StockKeysMatch();
    SameKeysDistinct(StockTimeframes, StockLookbackDays);
  }

  lemma StockMinutesIncreasing()
    ensures MinutesIncreasing(StockTimeframes)
  {
  }

  lemma StockKeysMatch()
    ensures Keys(StockTimeframes) == Keys(StockLookbackDays)
  {
  }

  lemma CryptoTablesAgree()
    ensures Keys(CryptoTimeframes) == Keys(CryptoLookbackDays)
    ensures DistinctKeys(CryptoTimeframes) && DistinctKeys(CryptoLookbackDays)
  {
    CryptoLabelsDocumented();
    CryptoMinutesIncreasing();
    DistinctByLabels(CryptoTimeframes, CryptoLabels, CryptoDayMinutes);
    CryptoKeysMatch();
    SameKeysDistinct(CryptoTimeframes, CryptoLookbackDays);
  }

  lemma CryptoMinutesIncreasing()
    ensures MinutesIncreasing(CryptoTimeframes)
  {
  }

  lemma CryptoKeysMatch()
    ensures Keys(CryptoTimeframes) == Keys(CryptoLookbackDays)
  {
  }

  /** Bar lengths strictly increase down the table. */
  predicate MinutesIncreasing(t: Table<int>)
  {
    forall i :: 0 <= i < |t| - 1 ==> t[i].1 < t[i + 1].1
  }

  lemma {:induction false} IncreasingApart(t: Table<int>, i: nat, j: nat)
    requires MinutesIncreasing(t) && i < j < |t|
    ensures t[i].1 < t[j].1
    decreases j - i
  {
    if i + 1 < j {
      IncreasingApart(t, i + 1, j);
    }
  }

  /** A label determines its count and its unit: the unit by the last
      character, then the count by its digits. */
  lemma LabelTextInjective(n1: nat, u1: Unit, n2: nat, u2: Unit)
    ensures LabelText(n1, u1) == LabelText(n2, u2) ==> n1 == n2 && u1 == u2
  {
    if LabelText(n1, u1) == LabelText(n2, u2) {
      var s := LabelText(n1, u1);
      var a, b := NatToString(n1), NatToString(n2);
      var x, y := UnitSuffix(u1), UnitSuffix(u2);
      assert s[|s| - 1] == x[|x| - 1] == y[|y| - 1];
      assert u1 == u2;
      assert a == s[..|a|] && b == s[..|b|];
      ParseNatToString(n1);
      ParseNatToString(n2);
    }
  }

  /** A table whose labels spell their bar lengths, which strictly
      increase, has no label twice. */
  lemma DistinctByLabels(t: Table<int>, labels: seq<(nat, Unit)>, dayMinutes: nat)
    requires |labels| == |t|
    requires forall i :: 0 <= i < |t| ==> Spelled(t[i], labels[i], dayMinutes)
    requires MinutesIncreasing(t)
    ensures DistinctKeys(t)
  {
    forall i, j | 0 <= i < j < |t| ensures t[i].0 != t[j].0 {
      LabelTextInjective(labels[i].0, labels[i].1, labels[j].0, labels[j].1);
      IncreasingApart(t, i, j);
    }
  }

  lemma SameKeysDistinct<V, W>(t: Table<V>, u: Table<W>)
    requires DistinctKeys(t) && Keys(t) == Keys(u)
    ensures DistinctKeys(u)
  {
    forall i, j | 0 <= i < j < |u| ensures u[i].0 != u[j].0 {
      assert Keys(t)[i] == u[i].0 && Keys(t)[j] == u[j].0;
    }
  }

  /** A table entry is spelled by a (count, unit) reading: its label is
      the count followed by the unit, and its bar length is that many
      units. */
  predicate Spelled(entry: (string, int), reading: (nat, Unit), dayMinutes: nat)
  {
    entry.0 == LabelText(reading.0, reading.1) && entry.1 == UnitMinutes(reading.0, reading.1, dayMinutes)
  }

  /** Every stock label is "<n>min" or "<n>day" and its minutes are n, or n
      sessions of 390 minutes. */
  lemma StockLabelsDocumented()
    ensures |StockLabels| == |StockTimeframes|
    ensures forall i :: 0 <= i < |StockTimeframes| ==>
              Spelled(StockTimeframes[i], StockLabels[i], StockSessionMinutes)
  {
    StockSpelledFrom0();
    StockSpelledFrom3();
    StockSpelledFrom6();
    StockSpelledFrom9();
    StockSpelledFrom12();
    StockSpelledFrom15();
  }

  /** No stock label is in hours, and every intraday bar length divides
      the session. */
  lemma StockBarsDivideSession()
    ensures forall i :: 0 <= i < |StockLabels| ==>
              && StockLabels[i].1 != Hour
              && (StockLabels[i].1 == Min ==> StockSessionMinutes % StockLabels[i].0 == 0)
  {
  }

  lemma StockSpelledFrom0()
    ensures forall i :: 0 <= i < 3 ==> Spelled(StockTimeframes[i], StockLabels[i], StockSessionMinutes)
  {
    OneDigitNumerals();
    assert Spelled(StockTimeframes[0], StockLabels[0], StockSessionMinutes);
    assert Spelled(StockTimeframes[1], StockLabels[1], StockSessionMinutes);
    assert Spelled(StockTimeframes[2], StockLabels[2], StockSessionMinutes);
  }

  lemma StockSpelledFrom3()
    ensures forall i :: 3 <= i < 6 ==> Spelled(StockTimeframes[i], StockLabels[i], StockSessionMinutes)
  {
    OneDigitNumerals();
    TwoDigitNumerals();
    assert Spelled(StockTimeframes[3], StockLabels[3], StockSessionMinutes);
    assert Spelled(StockTimeframes[4], StockLabels[4], StockSessionMinutes);
    assert Spelled(StockTimeframes[5], StockLabels[5], StockSessionMinutes);
  }

  lemma StockSpelledFrom6()
    ensures forall i :: 6 <= i < 9 ==> Spelled(StockTimeframes[i], StockLabels[i], StockSessionMinutes)
  {
    TwoDigitNumerals();
    assert Spelled(StockTimeframes[6], StockLabels[6], StockSessionMinutes);
    assert Spelled(StockTimeframes[7], StockLabels[7], StockSessionMinutes);
    assert Spelled(StockTimeframes[8], StockLabels[8], StockSessionMinutes);
  }

  lemma StockSpelledFrom9()
    ensures forall i :: 9 <= i < 12 ==> Spelled(StockTimeframes[i], StockLabels[i], StockSessionMinutes)
  {
    TwoDigitNumerals();
    assert Spelled(StockTimeframes[9], StockLabels[9], StockSessionMinutes);
    assert Spelled(StockTimeframes[10], StockLabels[10], StockSessionMinutes);
    assert Spelled(StockTimeframes[11], StockLabels[11], StockSessionMinutes);
  }

  lemma StockSpelledFrom12()
    ensures forall i :: 12 <= i < 15 ==> Spelled(StockTimeframes[i], StockLabels[i], StockSessionMinutes)
  {
    ThreeDigitNumerals();
    assert Spelled(StockTimeframes[12], StockLabels[12], StockSessionMinutes);
    assert Spelled(StockTimeframes[13], StockLabels[13], StockSessionMinutes);
    assert Spelled(StockTimeframes[14], StockLabels[14], StockSessionMinutes);
  }

  lemma StockSpelledFrom15()
    ensures forall i :: 15 <= i < 18 ==> Spelled(StockTimeframes[i], StockLabels[i], StockSessionMinutes)
  {
    OneDigitNumerals();
    TwoDigitNumerals();
    assert Spelled(StockTimeframes[15], StockLabels[15], StockSessionMinutes);
    assert Spelled(StockTimeframes[16], StockLabels[16], StockSessionMinutes);
    assert Spelled(StockTimeframes[17], StockLabels[17], StockSessionMinutes);
  }

  /** Every crypto label is "<n>min", "<n>hour" or "<n>day", with 60-minute
      hours and 1440-minute days. */
  lemma CryptoLabelsDocumented()
    ensures |CryptoLabels| == |CryptoTimeframes|
    ensures forall i :: 0 <= i < |CryptoTimeframes| ==>
              Spelled(CryptoTimeframes[i], CryptoLabels[i], CryptoDayMinutes)
  {
    CryptoSpelledFrom0();
    CryptoSpelledFrom3();
    CryptoSpelledFrom6();
    CryptoSpelledFrom9();
  }

  lemma CryptoSpelledFrom0()
    ensures forall i :: 0 <= i < 3 ==> Spelled(CryptoTimeframes[i], CryptoLabels[i], CryptoDayMinutes)
  {
    OneDigitNumerals();
    TwoDigitNumerals();
    assert Spelled(CryptoTimeframes[0], CryptoLabels[0], CryptoDayMinutes);
    assert Spelled(CryptoTimeframes[1], CryptoLabels[1], CryptoDayMinutes);
    assert Spelled(CryptoTimeframes[2], CryptoLabels[2], CryptoDayMinutes);
  }

  lemma CryptoSpelledFrom3()
    ensures forall i :: 3 <= i < 6 ==> Spelled(CryptoTimeframes[i], CryptoLabels[i], CryptoDayMinutes)
  {
    OneDigitNumerals();
    assert Spelled(CryptoTimeframes[3], CryptoLabels[3], CryptoDayMinutes);
    assert Spelled(CryptoTimeframes[4], CryptoLabels[4], CryptoDayMinutes);
    assert Spelled(CryptoTimeframes[5], CryptoLabels[5], CryptoDayMinutes);
  }

  lemma CryptoSpelledFrom6()
    ensures forall i :: 6 <= i < 9 ==> Spelled(CryptoTimeframes[i], CryptoLabels[i], CryptoDayMinutes)
  {
    OneDigitNumerals();
    assert Spelled(CryptoTimeframes[6], CryptoLabels[6], CryptoDayMinutes);
    assert Spelled(CryptoTimeframes[7], CryptoLabels[7], CryptoDayMinutes);
    assert Spelled(CryptoTimeframes[8], CryptoLabels[8], CryptoDayMinutes);
  }

  lemma CryptoSpelledFrom9()
    ensures forall i :: 9 <= i < 11 ==> Spelled(CryptoTimeframes[i], CryptoLabels[i], CryptoDayMinutes)
  {
    TwoDigitNumerals();
    assert Spelled(CryptoTimeframes[9], CryptoLabels[9], CryptoDayMinutes);
    assert Spelled(CryptoTimeframes[10], CryptoLabels[10], CryptoDayMinutes);
  }

  /** Whatever market type and default are given, the lookback of every
      configured timeframe comes from the lookback table, never from the
      default. */
  lemma LookbackFromTable(marketType: string, i: nat, default: int)
    requires i < |TimeframesFor(marketType)|
    ensures LookupOr(LookbackDaysFor(marketType), TimeframesFor(marketType)[i].0, default)
            == LookbackDaysFor(marketType)[i].1
  {
    StockTablesAgree();
    CryptoTablesAgree();
    var lb := LookbackDaysFor(marketType);
    assert Keys(lb)[i] == Keys(TimeframesFor(marketType))[i];
    LookupAt(lb, i);
  }

  /** Every configured bar length, of either market, has a materialized
      view, so on-the-fly aggregation happens only when the existence probe
      fails. */
  lemma EveryTimeframeHasMatview(marketType: string, i: nat)
    requires i < |TimeframesFor(marketType)|
    ensures MatviewName(TimeframesFor(marketType)[i].1).Some?
  {
    assert forall k :: 0 <= k < |StockTimeframes| ==> StockTimeframes[k].1 in MatviewMap;
    assert forall k :: 0 <= k < |CryptoTimeframes| ==> CryptoTimeframes[k].1 in MatviewMap;
  }

  /** The one-letter unit of a view name: "m", "h" or "d". */
  function UnitLetter(u: Unit): string
  {
    match u
    case Min => "m"
    case Hour => "h"
    case Day => "d"
  }

  /** The view registered for a bar length is "candles_" followed by the
      count and the unit's letter of the label's reading. */
  predicate ViewFollows(minutes: int, reading: (nat, Unit))
  {
    MatviewName(minutes) == Some("candles_" + NatToString(reading.0) + UnitLetter(reading.1))
  }

  /** The view of a stock timeframe "<n><unit>" is "candles_<n><letter>". */
  lemma StockMatviewsFollowLabels()
    ensures forall i :: 0 <= i < |StockTimeframes| ==> ViewFollows(StockTimeframes[i].1, StockLabels[i])
  {
    StockViewsFrom0();
    StockViewsFrom2();
    StockViewsFrom4();
    StockViewsFrom6();
    StockViewsFrom8();
    StockViewsFrom10();
    StockViewsFrom12();
    StockViewsFrom14();
    StockViewsFrom16();
  }

  lemma StockViewsFrom0()
    ensures forall i :: 0 <= i < 2 ==> ViewFollows(StockTimeframes[i].1, StockLabels[i])
  {
    OneDigitNumerals();
    assert StockTimeframes[0].1 == 2 && MatviewMap[2] == "candles_" + NatToString(2) + "m";
    assert ViewFollows(StockTimeframes[0].1, StockLabels[0]);
    assert StockTimeframes[1].1 == 3 && MatviewMap[3] == "candles_" + NatToString(3) + "m";
    assert ViewFollows(StockTimeframes[1].1, StockLabels[1]);
  }

  lemma StockViewsFrom2()
    ensures forall i :: 2 <= i < 4 ==> ViewFollows(StockTimeframes[i].1, StockLabels[i])
  {
    OneDigitNumerals();
    assert StockTimeframes[2].1 == 5 && MatviewMap[5] == "candles_" + NatToString(5) + "m";
    assert ViewFollows(StockTimeframes[2].1, StockLabels[2]);
    assert StockTimeframes[3].1 == 6 && MatviewMap[6] == "candles_" + NatToString(6) + "m";
    assert ViewFollows(StockTimeframes[3].1, StockLabels[3]);
  }

  lemma StockViewsFrom4()
    ensures forall i :: 4 <= i < 6 ==> ViewFollows(StockTimeframes[i].1, StockLabels[i])
  {
    TwoDigitNumerals();
    assert StockTimeframes[4].1 == 10 && MatviewMap[10] == "candles_" + NatToString(10) + "m";
    assert ViewFollows(StockTimeframes[4].1, StockLabels[4]);
    assert StockTimeframes[5].1 == 13 && MatviewMap[13] == "candles_" + NatToString(13) + "m";
    assert ViewFollows(StockTimeframes[5].1, StockLabels[5]);
  }

  lemma StockViewsFrom6()
    ensures forall i :: 6 <= i < 8 ==> ViewFollows(StockTimeframes[i].1, StockLabels[i])
  {
    TwoDigitNumerals();
    assert StockTimeframes[6].1 == 15 && MatviewMap[15] == "candles_" + NatToString(15) + "m";
    assert ViewFollows(StockTimeframes[6].1, StockLabels[6]);
    assert StockTimeframes[7].1 == 26 && MatviewMap[26] == "candles_" + NatToString(26) + "m";
    assert ViewFollows(StockTimeframes[7].1, StockLabels[7]);
  }

  lemma StockViewsFrom8()
    ensures forall i :: 8 <= i < 10 ==> ViewFollows(StockTimeframes[i].1, StockLabels[i])
  {
    TwoDigitNumerals();
    assert StockTimeframes[8].1 == 30 && MatviewMap[30] == "candles_" + NatToString(30) + "m";
    assert ViewFollows(StockTimeframes[8].1, StockLabels[8]);
    assert StockTimeframes[9].1 == 39 && MatviewMap[39] == "candles_" + NatToString(39) + "m";
    assert ViewFollows(StockTimeframes[9].1, StockLabels[9]);
  }

  lemma StockViewsFrom10()
    ensures forall i :: 10 <= i < 12 ==> ViewFollows(StockTimeframes[i].1, StockLabels[i])
  {
    TwoDigitNumerals();
    assert StockTimeframes[10].1 == 65 && MatviewMap[65] == "candles_" + NatToString(65) + "m";
    assert ViewFollows(StockTimeframes[10].1, StockLabels[10]);
    assert StockTimeframes[11].1 == 78 && MatviewMap[78] == "candles_" + NatToString(78) + "m";
    assert ViewFollows(StockTimeframes[11].1, StockLabels[11]);
  }

  lemma StockViewsFrom12()
    ensures forall i :: 12 <= i < 14 ==> ViewFollows(StockTimeframes[i].1, StockLabels[i])
  {
    ThreeDigitNumerals();
    assert StockTimeframes[12].1 == 130 && MatviewMap[130] == "candles_" + NatToString(130) + "m";
    assert ViewFollows(StockTimeframes[12].1, StockLabels[12]);
    assert StockTimeframes[13].1 == 195 && MatviewMap[195] == "candles_" + NatToString(195) + "m";
    assert ViewFollows(StockTimeframes[13].1, StockLabels[13]);
  }

  lemma StockViewsFrom14()
    ensures forall i :: 14 <= i < 16 ==> ViewFollows(StockTimeframes[i].1, StockLabels[i])
  {
    OneDigitNumerals();
    ThreeDigitNumerals();
    assert StockTimeframes[14].1 == 390 && MatviewMap[390] == "candles_" + NatToString(390) + "m";
    assert ViewFollows(StockTimeframes[14].1, StockLabels[14]);
    assert StockTimeframes[15].1 == 1950 && MatviewMap[1950] == "candles_" + NatToString(5) + "d";
    assert ViewFollows(StockTimeframes[15].1, StockLabels[15]);
  }

  lemma StockViewsFrom16()
    ensures forall i :: 16 <= i < 18 ==> ViewFollows(StockTimeframes[i].1, StockLabels[i])
  {
    TwoDigitNumerals();
    assert StockTimeframes[16].1 == 8580 && MatviewMap[8580] == "candles_" + NatToString(22) + "d";
    assert ViewFollows(StockTimeframes[16].1, StockLabels[16]);
    assert StockTimeframes[17].1 == 25350 && MatviewMap[25350] == "candles_" + NatToString(65) + "d";
    assert ViewFollows(StockTimeframes[17].1, StockLabels[17]);
  }

  lemma CryptoMatviewsFollowLabels()
    ensures forall i :: 0 <= i < |CryptoTimeframes| ==> ViewFollows(CryptoTimeframes[i].1, CryptoLabels[i])
  {
    CryptoViewsFrom0();
    CryptoViewsFrom2();
    CryptoViewsFrom4();
    CryptoViewsFrom6();
    CryptoViewsFrom8();
    CryptoViewsFrom10();
  }

  lemma CryptoViewsFrom0()
    ensures forall i :: 0 <= i < 2 ==> ViewFollows(CryptoTimeframes[i].1, CryptoLabels[i])
  {
    OneDigitNumerals();
    TwoDigitNumerals();
    assert CryptoTimeframes[0].1 == 5 && MatviewMap[5] == "candles_" + NatToString(5) + "m";
    assert ViewFollows(CryptoTimeframes[0].1, CryptoLabels[0]);
    assert CryptoTimeframes[1].1 == 15 && MatviewMap[15] == "candles_" + NatToString(15) + "m";
    assert ViewFollows(CryptoTimeframes[1].1, CryptoLabels[1]);
  }

  lemma CryptoViewsFrom2()
    ensures forall i :: 2 <= i < 4 ==> ViewFollows(CryptoTimeframes[i].1, CryptoLabels[i])
  {
    OneDigitNumerals();
    TwoDigitNumerals();
    assert CryptoTimeframes[2].1 == 30 && MatviewMap[30] == "candles_" + NatToString(30) + "m";
    assert ViewFollows(CryptoTimeframes[2].1, CryptoLabels[2]);
    assert CryptoTimeframes[3].1 == 60 && MatviewMap[60] == "candles_" + NatToString(1) + "h";
    assert ViewFollows(CryptoTimeframes[3].1, CryptoLabels[3]);
  }

  lemma CryptoViewsFrom4()
    ensures forall i :: 4 <= i < 6 ==> ViewFollows(CryptoTimeframes[i].1, CryptoLabels[i])
  {
    OneDigitNumerals();
    assert CryptoTimeframes[4].1 == 120 && MatviewMap[120] == "candles_" + NatToString(2) + "h";
    assert ViewFollows(CryptoTimeframes[4].1, CryptoLabels[4]);
    assert CryptoTimeframes[5].1 == 240 && MatviewMap[240] == "candles_" + NatToString(4) + "h";
    assert ViewFollows(CryptoTimeframes[5].1, CryptoLabels[5]);
  }

  lemma CryptoViewsFrom6()
    ensures forall i :: 6 <= i < 8 ==> ViewFollows(CryptoTimeframes[i].1, CryptoLabels[i])
  {
    OneDigitNumerals();
    assert CryptoTimeframes[6].1 == 480 && MatviewMap[480] == "candles_" + NatToString(8) + "h";
    assert ViewFollows(CryptoTimeframes[6].1, CryptoLabels[6]);
    assert CryptoTimeframes[7].1 == 1440 && MatviewMap[1440] == "candles_" + NatToString(1) + "d";
    assert ViewFollows(CryptoTimeframes[7].1, CryptoLabels[7]);
  }

  lemma CryptoViewsFrom8()
    ensures forall i :: 8 <= i < 10 ==> ViewFollows(CryptoTimeframes[i].1, CryptoLabels[i])
  {
    OneDigitNumerals();
    TwoDigitNumerals();
    assert CryptoTimeframes[8].1 == 10080 && MatviewMap[10080] == "candles_" + NatToString(7) + "d";
    assert ViewFollows(CryptoTimeframes[8].1, CryptoLabels[8]);
    assert CryptoTimeframes[9].1 == 44640 && MatviewMap[44640] == "candles_" + NatToString(31) + "d";
    assert ViewFollows(CryptoTimeframes[9].1, CryptoLabels[9]);
  }

  lemma CryptoViewsFrom10()
    ensures forall i :: 10 <= i < 11 ==> ViewFollows(CryptoTimeframes[i].1, CryptoLabels[i])
  {
    TwoDigitNumerals();
    assert CryptoTimeframes[10].1 == 133920 && MatviewMap[133920] == "candles_" + NatToString(93) + "d";
    assert ViewFollows(CryptoTimeframes[10].1, CryptoLabels[10]);
  }
}
