/**
 * The statistics engine behind the volume widget (components/VolumeWidget.tsx):
 * the query cutoff, the live/playback classification of a feed, the summary
 * of a bar list, the sparkline geometry and the bias colour.
 *
 * The bar list is the one the widget fetches, newest bar first. The clock
 * (`now`, in epoch milliseconds) and date parsing (`parse`) are parameters.
 */
module VolumeWidget {
  import opened Js
  import opened Text

  const HOUR_MS: int := 3600000
  const DAY_MS: int := 86400000
  /** A bar younger than this (5 * 60 * 1000 ms) counts as recent. */
  const RECENT_MS: int := 300000
  /** The sparkline shows at most this many bars. */
  const SPARKLINE_BARS: nat := 20

  /** A row of `volume_data` as the widget selects it; `source` may be null. */
  datatype VolumeBar = VolumeBar(
    bar_time: string,
    open_volume: real,
    close_volume: real,
    delta_volume: real,
    source: Option<string>)

  /** The answer of `detectDataMode`. */
  datatype DataMode = DataMode(isLive: bool, source: string)

  datatype VolumeStats = VolumeStats(
    totalDelta: real,
    avgDelta: real,
    barCount: nat,
    lastUpdate: string,
    sparklineData: seq<real>,
    isLive: bool,
    dataSource: string)

  /** One vertex of the sparkline in its 100 x 30 viewport. */
  datatype Point = Point(x: real, y: real)

  // ---------------------------------------------------------------------------
  // getTimeCutoff
  // ---------------------------------------------------------------------------

  /** The earliest bar_time the widget asks for, in epoch milliseconds. */
  function TimeCutoff(timeRange: string, now: int): (cutoff: int)
  {
    if timeRange == "all" then 0
    else
      var hours := if timeRange == "1h" then 1 else 24;
      now - hours * 60 * 60 * 1000
  }

  /**
   * "all" reaches back to the epoch, "1h" one hour and every other range one
   * day; so with the clock at least one day past the epoch the windows are
   * nested.
   */
  lemma TimeCutoffWindows(timeRange: string, now: int)
    ensures timeRange == "all" ==> TimeCutoff(timeRange, now) == 0
    ensures timeRange == "1h" ==> now - TimeCutoff(timeRange, now) == HOUR_MS
    ensures timeRange != "all" && timeRange != "1h" ==> now - TimeCutoff(timeRange, now) == DAY_MS
    ensures now >= DAY_MS ==>
      TimeCutoff("all", now) <= TimeCutoff(timeRange, now) <= TimeCutoff("1h", now) < now
  {
  }

  // ---------------------------------------------------------------------------
  // detectDataMode
  // ---------------------------------------------------------------------------

  /** `new Date(now).getUTCDay()`: 0 is Sunday; 1 January 1970 was a Thursday. */
  function UtcDay(now: int): (day: int)
    ensures 0 <= day < 7
  {
    (now / DAY_MS + 4) % 7
  }

  /** `new Date(now).getUTCHours()`. */
  function UtcHour(now: int): (hour: int)
    ensures 0 <= hour < 24
  {
    (now / HOUR_MS) % 24
  }

  /**
   * The market-hours test with the fixed five-hour offset to Eastern time;
   * `hourET` may be negative. No daily break is excluded.
   */
  predicate IsMarketHours(day: int, utcHour: int)
  {
    var hourET := utcHour - 5;
    || (day == 0 && hourET >= 18)
    || (1 <= day <= 4)
    || (day == 5 && hourET < 17)
  }

  /** Hours since the most recent Sunday 00:00 UTC. */
  function HourOfWeek(now: int): (h: int)
    ensures 0 <= h < 168
  {
    (now / HOUR_MS + 96) % 168
  }

  /** The day and hour of the week, read off the hour of the week. */
  lemma DayAndHourFromHourOfWeek(now: int)
    ensures UtcDay(now) == HourOfWeek(now) / 24
    ensures UtcHour(now) == HourOfWeek(now) % 24
  {
    var hours := now / HOUR_MS;
    var days, hour := hours / 24, hours % 24;
    assert now / DAY_MS == days;
    var day := (days + 4) % 7;
    assert hours + 96 == 168 * ((days + 4) / 7) + (24 * day + hour);
    assert HourOfWeek(now) == 24 * day + hour;
  }

  /**
   * The heuristic's market week is one window: from Sunday 23:00 UTC
   * (18:00 at the fixed offset) to Friday 22:00 UTC (17:00); Saturday never
   * qualifies.
   */
  lemma MarketHoursWeeklyWindow(now: int)
    ensures IsMarketHours(UtcDay(now), UtcHour(now)) <==> 23 <= HourOfWeek(now) < 142
    ensures UtcDay(now) == 6 ==> !IsMarketHours(UtcDay(now), UtcHour(now))
  {
    DayAndHourFromHourOfWeek(now);
  }

  /** `data[0].source?.toLowerCase() || ''`. */
  function SourceField(bar: VolumeBar): (field: string)
  {
    match bar.source
    case None => ""
    case Some(s) => Lower(s)
  }

  /** The source field names a replayed feed. */
  predicate SaysPlayback(field: string)
  {
    Contains(field, "playback") || Contains(field, "historical")
  }

  /** The source field names a live feed. */
  predicate SaysLive(field: string)
  {
    Contains(field, "live") || Contains(field, "realtime")
  }

  /** `now - new Date(bar_time).getTime() < 300000`; an unparseable time compares false. */
  predicate IsRecent(bar: VolumeBar, now: int, parse: string -> Option<int>)
  {
    match parse(bar.bar_time)
    case None => false
    case Some(t) => now - t < RECENT_MS
  }

  /** Classify the feed from the newest bar. */
  function DetectDataMode(data: seq<VolumeBar>, now: int, parse: string -> Option<int>): (mode: DataMode)
  {
    if |data| == 0 then DataMode(false, "no-data")
    else
      var field := SourceField(data[0]);
      if SaysPlayback(field) then DataMode(false, field)
      else if SaysLive(field) then DataMode(true, field)
      else
        var isLive := IsRecent(data[0], now, parse) && IsMarketHours(UtcDay(now), UtcHour(now));
        DataMode(isLive, if isLive then "live-detected" else "playback-detected")
  }

  /**
   * The source field decides when it names a mode, and a replay mention
   * wins over a live one; the reported source is then the lower-cased field.
   */
  lemma SourceFieldHasPriority(data: seq<VolumeBar>, now: int, parse: string -> Option<int>)
    requires |data| > 0
    ensures SaysPlayback(SourceField(data[0])) ==>
      DetectDataMode(data, now, parse) == DataMode(false, SourceField(data[0]))
    ensures !SaysPlayback(SourceField(data[0])) && SaysLive(SourceField(data[0])) ==>
      DetectDataMode(data, now, parse) == DataMode(true, SourceField(data[0]))
    ensures SaysPlayback(SourceField(data[0])) || SaysLive(SourceField(data[0])) ==>
      Lower(DetectDataMode(data, now, parse).source) == DetectDataMode(data, now, parse).source
  {
    match data[0].source
    case None =>
    case Some(s) => LowerIdempotent(s);
  }

  /**
   * Without a mode in the source field, the feed is live exactly when the
   * newest bar is recent and the clock is inside the weekly market window,
   * and the reported source says which way the heuristic went.
   */
  lemma FallbackNeedsRecencyAndMarketHours(data: seq<VolumeBar>, now: int, parse: string -> Option<int>)
    requires |data| > 0
    requires !SaysPlayback(SourceField(data[0])) && !SaysLive(SourceField(data[0]))
    ensures var mode := DetectDataMode(data, now, parse);
      && (mode.isLive <==> IsRecent(data[0], now, parse) && 23 <= HourOfWeek(now) < 142)
      && (mode.source == "live-detected" <==> mode.isLive)
      && (mode.source == "playback-detected" <==> !mode.isLive)
  {
    MarketHoursWeeklyWindow(now);
  }

  lemma LiveLabelIsLowerCase()
    ensures Lower("live-detected") == "live-detected"
  {
    assert forall i :: 0 <= i < |"live-detected"| ==> !('A' <= "live-detected"[i] <= 'Z');
    LowerFixed("live-detected");
  }

  lemma PlaybackLabelIsLowerCase()
    ensures Lower("playback-detected") == "playback-detected"
  {
    assert forall i :: 0 <= i < |"playback-detected"| ==> !('A' <= "playback-detected"[i] <= 'Z');
    LowerFixed("playback-detected");
  }

  lemma NoDataLabelIsLowerCase()
    ensures Lower("no-data") == "no-data"
  {
    assert forall i :: 0 <= i < |"no-data"| ==> !('A' <= "no-data"[i] <= 'Z');
    LowerFixed("no-data");
  }

  /** Every reported source is in lower case. */
  lemma DataSourceIsLowerCase(data: seq<VolumeBar>, now: int, parse: string -> Option<int>)
    ensures Lower(DetectDataMode(data, now, parse).source) == DetectDataMode(data, now, parse).source
  {
    if |data| > 0 {
      SourceFieldHasPriority(data, now, parse);
      var field := SourceField(data[0]);
      if !SaysPlayback(field) && !SaysLive(field) {
        LiveLabelIsLowerCase();
        PlaybackLabelIsLowerCase();
      }
    } else {
      NoDataLabelIsLowerCase();
    }
  }

  /** A live feed is live because its source says so or because the heuristic found it recent in market hours. */
  lemma LiveHasEvidence(data: seq<VolumeBar>, now: int, parse: string -> Option<int>)
    requires DetectDataMode(data, now, parse).isLive
    ensures |data| > 0
    ensures var field := SourceField(data[0]);
      || (!SaysPlayback(field) && SaysLive(field))
      || (IsRecent(data[0], now, parse) && 23 <= HourOfWeek(now) < 142)
  {
    MarketHoursWeeklyWindow(now);
  }

  /** A source tagged "LIVE" is live whatever the clock says. */
  lemma TaggedLiveSourceIsLive(bar: VolumeBar, now: int, parse: string -> Option<int>)
    requires bar.source == Some("LIVE")
    ensures DetectDataMode([bar], now, parse) == DataMode(true, "live")
  {
    LiveTagFacts();
  }

  lemma LiveTagFacts()
    ensures Lower("LIVE") == "live"
    ensures Contains("live", "live") && !SaysPlayback("live")
  {
    LowerAt("LIVE");
    assert OccursAt("live", "live", 0);
    MissingCharExcludes("live", "playback", 0);
    MissingCharExcludes("live", "historical", 0);
  }

  /** "Replay playback, live feed" mentions both modes; the replay mention wins. */
  lemma ReplayMentionWins(bar: VolumeBar, now: int, parse: string -> Option<int>)
    requires bar.source == Some("playback-live")
    ensures DetectDataMode([bar], now, parse) == DataMode(false, "playback-live")
  {
    PlaybackLiveIsLowerCase();
    PlaybackSourcesSayPlayback();
  }

  lemma PlaybackLiveIsLowerCase()
    ensures Lower("playback-live") == "playback-live"
  {
    assert forall i :: 0 <= i < |"playback-live"| ==> !('A' <= "playback-live"[i] <= 'Z');
    LowerFixed("playback-live");
  }

  /** Both replay sources of the examples carry a replay marker. */
  lemma PlaybackSourcesSayPlayback()
    ensures SaysPlayback("playback-live")
    ensures SaysPlayback("historical-playback")
  {
    assert OccursAt("playback-live", "playback", 0);
    assert OccursAt("historical-playback", "historical", 0);
  }

  /** A source "historical-playback" is a replay even for a bar that is recent in market hours. */
  lemma HistoricalPlaybackIsNotLive(bar: VolumeBar, now: int, parse: string -> Option<int>)
    requires bar.source == Some("historical-playback")
    ensures DetectDataMode([bar], now, parse) == DataMode(false, "historical-playback")
  {
    HistoricalPlaybackIsLowerCase();
    PlaybackSourcesSayPlayback();
  }

  lemma HistoricalPlaybackIsLowerCase()
    ensures Lower("historical-playback") == "historical-playback"
  {
    assert forall i :: 0 <= i < |"historical-playback"| ==> !('A' <= "historical-playback"[i] <= 'Z');
    LowerFixed("historical-playback");
  }

  // ---------------------------------------------------------------------------
  // calculateStats
  // ---------------------------------------------------------------------------

  /** `data.reduce((sum, bar) => sum + bar.delta_volume, 0)`, folded from the left. */
  function TotalDelta(data: seq<VolumeBar>): (total: real)
  {
    if |data| == 0 then 0.0 else TotalDelta(data[..|data| - 1]) + data[|data| - 1].delta_volume
  }

  /** The sum of a list of reals, folded from the left. */
  function Sum(xs: seq<real>): (total: real)
  {
    if |xs| == 0 then 0.0 else Sum(xs[..|xs| - 1]) + xs[|xs| - 1]
  }

  /** `.map(bar => bar.delta_volume)`. */
  function Deltas(data: seq<VolumeBar>): (ds: seq<real>)
    ensures |ds| == |data|
    ensures forall i :: 0 <= i < |data| ==> ds[i] == data[i].delta_volume
  {
    seq(|data|, i requires 0 <= i < |data| => data[i].delta_volume)
  }

  function Reverse<T>(xs: seq<T>): (rs: seq<T>)
    ensures |rs| == |xs|
  {
    if |xs| == 0 then [] else [xs[|xs| - 1]] + Reverse(xs[..|xs| - 1])
  }

  /** `data.slice(0, 20).reverse().map(bar => bar.delta_volume)`. */
  function Sparkline(data: seq<VolumeBar>): (series: seq<real>)
  {
    Deltas(Reverse(data[..if |data| < SPARKLINE_BARS then |data| else SPARKLINE_BARS]))
  }

  function CalculateStats(data: seq<VolumeBar>, now: int, parse: string -> Option<int>): (stats: VolumeStats)
  {
    if |data| == 0 then VolumeStats(0.0, 0.0, 0, "", [], false, "no-data")
    else
      var mode := DetectDataMode(data, now, parse);
      var totalDelta := TotalDelta(data);
      VolumeStats(totalDelta, totalDelta / |data| as real, |data|, data[0].bar_time, Sparkline(data),
                  mode.isLive, mode.source)
  }

  lemma {:induction false} ReverseAt<T>(xs: seq<T>)
    ensures forall i :: 0 <= i < |xs| ==> Reverse(xs)[i] == xs[|xs| - 1 - i]
  {
    if |xs| > 0 {
      ReverseAt(xs[..|xs| - 1]);
    }
  }

  /** Summing a concatenation sums the parts. */
  lemma {:induction false} SumAppend(xs: seq<real>, ys: seq<real>)
    ensures Sum(xs + ys) == Sum(xs) + Sum(ys)
  {
    if |ys| > 0 {
      assert (xs + ys)[..|xs + ys| - 1] == xs + ys[..|ys| - 1];
      SumAppend(xs, ys[..|ys| - 1]);
    } else {
      assert xs + ys == xs;
    }
  }

  /** The order of the terms does not change the sum. */
  lemma {:induction false} SumReverse(xs: seq<real>)
    ensures Sum(Reverse(xs)) == Sum(xs)
  {
    if |xs| > 0 {
      var last, init := xs[|xs| - 1], xs[..|xs| - 1];
      SumReverse(init);
      SumAppend([last], Reverse(init));
      assert Sum([last]) == last by {
        assert [last][..0] == [];
      }
    }
  }

  /** The fold over bars is the sum of their deltas. */
  lemma {:induction false} TotalDeltaIsSumOfDeltas(data: seq<VolumeBar>)
    ensures TotalDelta(data) == Sum(Deltas(data))
  {
    if |data| > 0 {
      TotalDeltaIsSumOfDeltas(data[..|data| - 1]);
      assert Deltas(data)[..|data| - 1] == Deltas(data[..|data| - 1]);
    }
  }

  /** Splitting the bar list splits the total. */
  lemma TotalDeltaAppend(older: seq<VolumeBar>, newer: seq<VolumeBar>)
    ensures TotalDelta(older + newer) == TotalDelta(older) + TotalDelta(newer)
  {
    TotalDeltaIsSumOfDeltas(older + newer);
    TotalDeltaIsSumOfDeltas(older);
    TotalDeltaIsSumOfDeltas(newer);
    assert Deltas(older + newer) == Deltas(older) + Deltas(newer);
    SumAppend(Deltas(older), Deltas(newer));
  }

  /**
   * The sparkline holds the deltas of the newest min(20, n) bars, oldest
   * first, so it ends with the newest bar's delta.
   */
  lemma SparklineShape(data: seq<VolumeBar>)
    ensures var series := Sparkline(data);
      && |series| == (if |data| < SPARKLINE_BARS then |data| else SPARKLINE_BARS)
      && (forall i :: 0 <= i < |series| ==> series[i] == data[|series| - 1 - i].delta_volume)
      && (|data| > 0 ==> series[|series| - 1] == data[0].delta_volume)
  {
    var n := if |data| < SPARKLINE_BARS then |data| else SPARKLINE_BARS;
    ReverseAt(data[..n]);
  }

  /** With at most 20 bars the sparkline shows every bar, so its values add up to the total. */
  lemma SparklineSumsToTotal(data: seq<VolumeBar>)
    requires |data| <= SPARKLINE_BARS
    ensures Sum(Sparkline(data)) == TotalDelta(data)
  {
    assert data[..|data|] == data;
    var rev := Reverse(data);
    TotalDeltaIsSumOfDeltas(rev);
    TotalDeltaIsSumOfDeltas(data);
    ReverseAt(data);
    ReverseAt(Deltas(data));
    assert Deltas(rev) == Reverse(Deltas(data));
    SumReverse(Deltas(data));
  }

  /** No bars: every figure is zero or empty and the source is "no-data". */
  lemma EmptyStats(now: int, parse: string -> Option<int>)
    ensures CalculateStats([], now, parse) == VolumeStats(0.0, 0.0, 0, "", [], false, "no-data")
  {
  }

  /**
   * With bars: the total is the sum of the deltas, the count the number of
   * bars, the average their quotient, the last update the newest bar's time,
   * and the mode that of `DetectDataMode`.
   */
  lemma StatsSummarise(data: seq<VolumeBar>, now: int, parse: string -> Option<int>)
    requires |data| > 0
    ensures var stats := CalculateStats(data, now, parse);
      && stats.totalDelta == Sum(Deltas(data))
      && stats.barCount == |data|
      && stats.avgDelta * stats.barCount as real == stats.totalDelta
      && stats.lastUpdate == data[0].bar_time
      && stats.sparklineData == Sparkline(data)
      && stats.isLive == DetectDataMode(data, now, parse).isLive
      && stats.dataSource == DetectDataMode(data, now, parse).source
  {
    TotalDeltaIsSumOfDeltas(data);
  }

  /** Two bars, newest first, with deltas 10 and -4: total 6, average 3, sparkline oldest first. */
  lemma StatsExample(now: int, parse: string -> Option<int>)
    ensures var newer := VolumeBar("2025-01-15T14:31:00Z", 30.0, 20.0, 10.0, Some("NinjaTrader"));
      var older := VolumeBar("2025-01-15T14:30:00Z", 6.0, 10.0, -4.0, Some("NinjaTrader"));
      var stats := CalculateStats([newer, older], now, parse);
      && stats.totalDelta == 6.0 && stats.avgDelta == 3.0 && stats.barCount == 2
      && stats.lastUpdate == "2025-01-15T14:31:00Z"
      && stats.sparklineData == [-4.0, 10.0]
  {
    var newer := VolumeBar("2025-01-15T14:31:00Z", 30.0, 20.0, 10.0, Some("NinjaTrader"));
    var older := VolumeBar("2025-01-15T14:30:00Z", 6.0, 10.0, -4.0, Some("NinjaTrader"));
    var data := [newer, older];
    assert data[..1] == [newer] && [newer][..0] == [];
    assert TotalDelta([newer]) == 10.0;
    assert TotalDelta(data) == 6.0;
    SparklineShape(data);
    var series := Sparkline(data);
    assert |series| == 2 && series[0] == -4.0 && series[1] == 10.0;
    assert series == [-4.0, 10.0];
  }

  // ---------------------------------------------------------------------------
  // getSparklinePath
  // ---------------------------------------------------------------------------

  const VIEW_WIDTH: real := 100.0
  const VIEW_HEIGHT: real := 30.0
  const PADDING: real := 2.0

  function Max(a: real, b: real): real
  {
    if a < b then b else a
  }

  function Min(a: real, b: real): real
  {
    if a < b then a else b
  }

  /** `Math.max(...values, 0)`. */
  function MaxWithZero(values: seq<real>): (hi: real)
    ensures hi >= 0.0
    ensures forall i :: 0 <= i < |values| ==> values[i] <= hi
    ensures hi == 0.0 || exists i :: 0 <= i < |values| && values[i] == hi
  {
    if |values| == 0 then 0.0 else Max(MaxWithZero(values[..|values| - 1]), values[|values| - 1])
  }

  /** `Math.min(...values, 0)`. */
  function MinWithZero(values: seq<real>): (lo: real)
    ensures lo <= 0.0
    ensures forall i :: 0 <= i < |values| ==> lo <= values[i]
    ensures lo == 0.0 || exists i :: 0 <= i < |values| && values[i] == lo
  {
    if |values| == 0 then 0.0 else Min(MinWithZero(values[..|values| - 1]), values[|values| - 1])
  }

  /** `max - min || 1`: a zero range becomes 1. */
  function Range(values: seq<real>): (range: real)
    ensures range > 0.0
  {
    var range := MaxWithZero(values) - MinWithZero(values);
    if range == 0.0 then 1.0 else range
  }

  /** The horizontal position of the i-th of n >= 2 values. */
  function SparkX(i: nat, n: nat): real
    requires n >= 2
  {
    (i as real / (n - 1) as real) * (VIEW_WIDTH - 2.0 * PADDING) + PADDING
  }

  /** The vertical position of value v when the band spans [lo, lo + range]; larger values sit higher (smaller y). */
  function SparkY(v: real, lo: real, range: real): real
    requires range > 0.0
  {
    VIEW_HEIGHT - ((v - lo) / range) * (VIEW_HEIGHT - 2.0 * PADDING) - PADDING
  }

  function PointAt(values: seq<real>, i: nat): Point
    requires i < |values| && |values| >= 2
  {
    Point(SparkX(i, |values|), SparkY(values[i], MinWithZero(values), Range(values)))
  }

  /** The vertices of the sparkline path, one per value; none for no values. */
  function SparklinePoints(values: seq<real>): (points: seq<Point>)
    requires |values| != 1
    ensures |points| == |values|
  {
    if |values| == 0 then []
    else seq(|values|, i requires 0 <= i < |values| => PointAt(values, i))
  }

  lemma DivideBelow(a: real, b: real, c: real)
    requires c > 0.0 && a <= b
    ensures a / c <= b / c
  {
    assert a / c * c == a;
    assert b / c * c == b;
  }

  lemma DivideStrictlyBelow(a: real, b: real, c: real)
    requires c > 0.0 && a < b
    ensures a / c < b / c
  {
    assert a / c * c == a;
    assert b / c * c == b;
  }

  /** A part of a positive whole is a fraction in [0, 1]. */
  lemma UnitFraction(part: real, whole: real)
    requires 0.0 <= part <= whole && whole > 0.0
    ensures 0.0 <= part / whole <= 1.0
  {
    DivideBelow(0.0, part, whole);
    DivideBelow(part, whole, whole);
  }

  /** A value between the zero-extended minimum and maximum sits at a fraction in [0, 1] of the range. */
  lemma FractionOfRange(values: seq<real>, v: real)
    requires MinWithZero(values) <= v <= MaxWithZero(values)
    ensures 0.0 <= (v - MinWithZero(values)) / Range(values) <= 1.0
  {
    var lo, hi, range := MinWithZero(values), MaxWithZero(values), Range(values);
    if hi - lo == 0.0 {
      assert range == 1.0 && v - lo == 0.0;
    } else {
      assert range == hi - lo;
      UnitFraction(v - lo, range);
    }
  }

  /** The first value sits at the left padding and the last at the right one, moving right at every step. */
  lemma SparkXSpansWidth(n: nat)
    requires n >= 2
    ensures SparkX(0, n) == PADDING
    ensures SparkX(n - 1, n) == VIEW_WIDTH - PADDING
    ensures forall i, j :: 0 <= i < j < n ==> SparkX(i, n) < SparkX(j, n)
  {
    var d := (n - 1) as real;
    assert d / d == 1.0;
    forall i, j | 0 <= i < j < n
      ensures SparkX(i, n) < SparkX(j, n)
    {
      DivideStrictlyBelow(i as real, j as real, d);
    }
  }

  /** The path starts at the left padding and ends at the right one, moving right at every step. */
  lemma SparklineSpansWidth(values: seq<real>)
    requires |values| >= 2
    ensures var points := SparklinePoints(values);
      && points[0].x == PADDING
      && points[|values| - 1].x == VIEW_WIDTH - PADDING
      && forall i, j :: 0 <= i < j < |values| ==> points[i].x < points[j].x
  {
    var points := SparklinePoints(values);
    SparkXSpansWidth(|values|);
    assert forall i :: 0 <= i < |values| ==> points[i].x == SparkX(i, |values|);
  }

  /** Every vertex lies inside the padded band: 2 <= y <= 28. */
  lemma SparklineWithinBand(values: seq<real>)
    requires |values| >= 2
    ensures forall i :: 0 <= i < |values| ==>
      PADDING <= SparklinePoints(values)[i].y <= VIEW_HEIGHT - PADDING
  {
    forall i | 0 <= i < |values|
      ensures PADDING <= SparklinePoints(values)[i].y <= VIEW_HEIGHT - PADDING
    {
      assert SparklinePoints(values)[i] == PointAt(values, i);
      FractionOfRange(values, values[i]);
    }
  }

  /** A larger value is drawn no lower: y never increases with the value. */
  lemma SparklineOrdersHeights(values: seq<real>, i: nat, j: nat)
    requires |values| >= 2 && i < |values| && j < |values|
    requires values[i] <= values[j]
    ensures SparklinePoints(values)[j].y <= SparklinePoints(values)[i].y
  {
    assert SparklinePoints(values)[i] == PointAt(values, i);
    assert SparklinePoints(values)[j] == PointAt(values, j);
    DivideBelow(values[i] - MinWithZero(values), values[j] - MinWithZero(values), Range(values));
  }

  /** The range always takes in zero, and is 1 when every value is zero. */
  lemma RangeIncludesZero(values: seq<real>)
    ensures MinWithZero(values) <= 0.0 <= MaxWithZero(values)
    ensures (forall i :: 0 <= i < |values| ==> values[i] == 0.0) ==> Range(values) == 1.0
  {
    if forall i :: 0 <= i < |values| ==> values[i] == 0.0 {
      assert MaxWithZero(values) == 0.0;
      assert MinWithZero(values) == 0.0;
    }
  }

  /** [5, -5] spans the whole band: from the top left to the bottom right. */
  lemma SparklineExample()
    ensures SparklinePoints([5.0, -5.0]) == [Point(2.0, 2.0), Point(98.0, 28.0)]
  {
    var values := [5.0, -5.0];
    assert values[..1] == [5.0];
    assert MaxWithZero(values) == 5.0;
    assert MinWithZero(values) == -5.0;
    assert Range(values) == 10.0;
  }

  // ---------------------------------------------------------------------------
  // getBiasColor / getBiasBackground
  // ---------------------------------------------------------------------------

  /** The text colour class for the net delta. */
  function BiasColor(totalDelta: real): (cls: string)
  {
    if totalDelta > 0.0 then "text-green-400"
    else if totalDelta < 0.0 then "text-red-400"
    else "text-gray-400"
  }

  /** The panel background classes for the net delta. */
  function BiasBackground(totalDelta: real): (cls: string)
  {
    if totalDelta > 0.0 then "bg-green-500/10 border-green-500/30"
    else if totalDelta < 0.0 then "bg-red-500/10 border-red-500/30"
    else "bg-gray-500/10 border-gray-500/30"
  }

  /**
   * Green exactly for net buying, red exactly for net selling, gray exactly
   * for a flat total; the background follows the same three-way split.
   */
  lemma BiasFollowsSign(totalDelta: real)
    ensures BiasColor(totalDelta) == "text-green-400" <==> totalDelta > 0.0
    ensures BiasColor(totalDelta) == "text-red-400" <==> totalDelta < 0.0
    ensures BiasColor(totalDelta) == "text-gray-400" <==> totalDelta == 0.0
    ensures BiasBackground(totalDelta) == "bg-green-500/10 border-green-500/30" <==> totalDelta > 0.0
    ensures BiasBackground(totalDelta) == "bg-red-500/10 border-red-500/30" <==> totalDelta < 0.0
    ensures BiasBackground(totalDelta) == "bg-gray-500/10 border-gray-500/30" <==> totalDelta == 0.0
  {
  }
}
