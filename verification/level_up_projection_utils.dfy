/** Turning the raw level-progression history into chart points: find the
    latest reset, drop the progressions it invalidated, format the rest as
    level-ordered points, compute average and median days per level, and
    extend the timeline to level 60 at those two paces. */
module LevelUpProjectionUtils {
  import opened Wrappers
  import opened WaniKaniTypes
  import opened Sorting

  /** Milliseconds in one (UTC) day. */
  const DayMs: real := 86400000.0

  datatype ChartType = Average | Recorded | Median

  /** One point of the chart. Recorded points carry `level`; projected
      points carry `averageLevel` or `medianLevel` instead. Instants are epoch
      milliseconds, as reals because projections add fractional days.
      `time` is 0 on a recorded point whose level is not yet passed. */
  datatype ChartPoint = ChartPoint(
    level: Option<int>,
    averageLevel: Option<int>,
    medianLevel: Option<int>,
    startedAt: real,
    completedAt: real,
    time: real,
    kind: ChartType)

  /** What the latest reset tells the filter. */
  datatype ResetContext = ResetContext(
    mostRecentResetTimeStamp: Instant, targetLevel: int, originalLevel: int)

  /** The ways the analysis stops instead of producing a timeline. */
  datatype AnalysisError =
    | MissingReset     // no reset record: the first one is read anyway
    | NoProgressions   // no progression survives: the seed point is read anyway
    | UndefinedMedian  // no completed level: the median pace is not a number

  datatype Analysis = Analysis(
    formattedDataWithProjections: seq<ChartPoint>, averageLevelUpInDays: real)

  // ---------------------------------------------------------------------
  // Reset resolution

  /** Index `i` holds the first reset with the greatest confirmation time:
      every earlier one is strictly older, none later is newer. */
  ghost predicate IsFirstLatest(resets: seq<Reset>, i: int)
  {
    && 0 <= i < |resets|
    && (forall j :: 0 <= j < i ==> resets[j].confirmedAt < resets[i].confirmedAt)
    && (forall j :: i <= j < |resets| ==> resets[j].confirmedAt <= resets[i].confirmedAt)
  }

  /** At most one index is the first latest reset. */
  lemma FirstLatestUnique(resets: seq<Reset>, i: int, j: int)
    requires IsFirstLatest(resets, i) && IsFirstLatest(resets, j)
    ensures i == j
  {
    LatestBound(resets, i, j);
    LatestBound(resets, j, i);
  }

  lemma LatestBound(resets: seq<Reset>, i: int, j: int)
    requires IsFirstLatest(resets, j) && 0 <= i < |resets|
    ensures resets[i].confirmedAt <= resets[j].confirmedAt
    ensures i < j ==> resets[i].confirmedAt < resets[j].confirmedAt
  {
  }

  function ContextOf(reset: Reset): (r: ResetContext)
  {
    ResetContext(reset.confirmedAt, reset.targetLevel, reset.originalLevel)
  }

  /** Scans the resets for the latest confirmation; a later reset replaces
      the current pick only when it is strictly newer, so ties keep the
      earliest-listed one. With no resets the source reads a field of
      `undefined`, which the model reports as `MissingReset`. */
  method AnalyzeResetData(resets: seq<Reset>) returns (r: Result<ResetContext, AnalysisError>)
    ensures r.Failure? <==> resets == []
    ensures r.Failure? ==> r.error == MissingReset
    ensures r.Success? ==>
      exists i :: IsFirstLatest(resets, i) && r.value == ContextOf(resets[i])
  {
    if |resets| == 0 {
      return Failure(MissingReset);
    }
    var mostRecentReset := resets[0];
    ghost var at := 0;
    for k := 0 to |resets|
      invariant 0 <= at < |resets| && at <= k
      invariant mostRecentReset == resets[at]
      invariant forall j :: 0 <= j < at ==> resets[j].confirmedAt < resets[at].confirmedAt
      invariant forall j :: at <= j < k ==> resets[j].confirmedAt <= resets[at].confirmedAt
    {
      var reset := resets[k];
      if mostRecentReset.confirmedAt < reset.confirmedAt {
        mostRecentReset := reset;
        at := k;
      }
    }
    assert IsFirstLatest(resets, at);
    r := Success(ContextOf(mostRecentReset));
  }

  // ---------------------------------------------------------------------
  // History filter

  /** A progression survives the reset if it was created after the reset,
      or at or before it on a level no higher than the reset's target. */
  predicate Keep(p: LevelProgression, targetLevel: int, resetAt: Instant)
  {
    (p.createdAt <= resetAt && p.level <= targetLevel) || p.createdAt > resetAt
  }

  /** `sub` is `s` with some elements left out and the rest in order. */
  ghost predicate IsSubsequence<T>(sub: seq<T>, s: seq<T>)
    decreases |s|
  {
    if sub == [] then true
    else if s == [] then false
    else (sub[0] == s[0] && IsSubsequence(sub[1..], s[1..])) || IsSubsequence(sub, s[1..])
  }

  function FilterLevelProgressions(progressions: seq<LevelProgression>, targetLevel: int, resetAt: Instant)
    : (r: seq<LevelProgression>)
    ensures |r| <= |progressions|
    ensures forall p :: p in r <==> p in progressions && Keep(p, targetLevel, resetAt)
    ensures forall p :: multiset(r)[p] == (if Keep(p, targetLevel, resetAt) then multiset(progressions)[p] else 0)
  {
    if progressions == [] then []
    else
      var rest := FilterLevelProgressions(progressions[1..], targetLevel, resetAt);
      assert forall p :: p in progressions <==> p == progressions[0] || p in progressions[1..];
      assert progressions == [progressions[0]] + progressions[1..];
      assert multiset(progressions) == multiset([progressions[0]]) + multiset(progressions[1..]);
      if Keep(progressions[0], targetLevel, resetAt) then [progressions[0]] + rest else rest
  }

  /** The filter keeps order and adds nothing: its output is a subsequence
      of its input. */
  lemma {:induction false} FilterIsSubsequence(progressions: seq<LevelProgression>, targetLevel: int, resetAt: Instant)
    ensures IsSubsequence(FilterLevelProgressions(progressions, targetLevel, resetAt), progressions)
  {
    if progressions != [] {
      FilterIsSubsequence(progressions[1..], targetLevel, resetAt);
      var rest := FilterLevelProgressions(progressions[1..], targetLevel, resetAt);
      if !Keep(progressions[0], targetLevel, resetAt) && rest != [] {
        assert IsSubsequence(rest, progressions[1..]);
      }
    }
  }

  /** A record created after the reset always survives; one created at or
      before it survives exactly when its level is at most the target. */
  lemma FilterRule(progressions: seq<LevelProgression>, targetLevel: int, resetAt: Instant, i: int)
    requires 0 <= i < |progressions|
    ensures progressions[i].createdAt > resetAt ==>
      progressions[i] in FilterLevelProgressions(progressions, targetLevel, resetAt)
    ensures progressions[i].createdAt <= resetAt ==>
      ((progressions[i] in FilterLevelProgressions(progressions, targetLevel, resetAt))
       <==> progressions[i].level <= targetLevel)
  {
  }

  // ---------------------------------------------------------------------
  // Timeline formatter

  /** The chart point of one progression. A missing start or pass time is
      replaced by `now`, and `time` is 0 when the completion instant is that
      placeholder. */
  function ToChartPoint(p: LevelProgression, now: Instant): (r: ChartPoint)
  {
    var startedAt := if p.startedAt.Some? then p.startedAt.value else now;
    var completedAt := if p.passedAt.Some? then p.passedAt.value else now;
    ChartPoint(Some(p.level), None, None, startedAt as real, completedAt as real,
      if completedAt != now then completedAt as real else 0.0, Recorded)
  }

  /** `time` is the pass instant of a level passed before `now`, and 0 for a
      level not passed yet; a recorded point never carries a projected label. */
  lemma RecordedTime(p: LevelProgression, now: Instant)
    ensures p.passedAt.Some? && p.passedAt.value < now ==>
      ToChartPoint(p, now).time == p.passedAt.value as real
    ensures p.passedAt.None? ==> ToChartPoint(p, now).time == 0.0
    ensures ToChartPoint(p, now).time != 0.0 ==>
      p.passedAt.Some? && ToChartPoint(p, now).time == p.passedAt.value as real
    ensures ToChartPoint(p, now).level == Some(p.level) && ToChartPoint(p, now).kind == Recorded
  {
  }

  function RecordedPoints(progressions: seq<LevelProgression>, now: Instant): (r: seq<ChartPoint>)
  {
    seq(|progressions|, i requires 0 <= i < |progressions| => ToChartPoint(progressions[i], now))
  }

  /** The sort key of the source's comparator `a.level - b.level`. */
  function LevelKey(p: ChartPoint): (r: real)
  {
    if p.level.Some? then p.level.value as real else 0.0
  }

  /** The formatted timeline: recorded points stably sorted by level. */
  function FormattedPoints(progressions: seq<LevelProgression>, now: Instant): (r: seq<ChartPoint>)
  {
    StableSort(RecordedPoints(progressions, now), LevelKey)
  }

  /** Maps every progression to a recorded point and sorts the points in
      place by ascending level. */
  method FormatLevelProgressions(progressions: seq<LevelProgression>, now: Instant)
    returns (points: seq<ChartPoint>)
    ensures points == FormattedPoints(progressions, now)
    ensures |points| == |progressions|
    ensures SortedBy(points, LevelKey)
    ensures SameOrderPerKey(points, RecordedPoints(progressions, now), LevelKey)
    ensures multiset(points) == multiset(RecordedPoints(progressions, now))
  {
    var recorded := RecordedPoints(progressions, now);
    var formattedData := new ChartPoint[|recorded|](i requires 0 <= i < |recorded| => recorded[i]);
    assert formattedData[..] == recorded;
    SortByKey(formattedData, LevelKey);
    points := formattedData[..];
    StableSortCorrect(recorded, LevelKey);
  }

  /** Every formatted point is a recorded point of one of the progressions. */
  lemma FormattedPointsAreRecorded(progressions: seq<LevelProgression>, now: Instant, q: ChartPoint)
    requires q in FormattedPoints(progressions, now)
    ensures exists i :: 0 <= i < |progressions| && q == ToChartPoint(progressions[i], now)
    ensures q.kind == Recorded && q.level.Some?
  {
    var recorded := RecordedPoints(progressions, now);
    StableSortCorrect(recorded, LevelKey);
    assert q in multiset(StableSort(recorded, LevelKey));
    assert q in recorded;
    var i :| 0 <= i < |recorded| && recorded[i] == q;
  }

  // ---------------------------------------------------------------------
  // Statistics

  /** The point's level-up duration in days (`completedAt.diff(startedAt)`). */
  function DurationDays(p: ChartPoint): (r: real)
  {
    (p.completedAt - p.startedAt) / DayMs
  }

  function SumDays(points: seq<ChartPoint>): (r: real)
  {
    if points == [] then 0.0 else DurationDays(points[0]) + SumDays(points[1..])
  }

  lemma {:induction false} SumDaysAppend(a: seq<ChartPoint>, b: seq<ChartPoint>)
    ensures SumDays(a + b) == SumDays(a) + SumDays(b)
  {
    if a == [] {
      assert a + b == b;
    } else {
      assert (a + b)[1..] == a[1..] + b;
      SumDaysAppend(a[1..], b);
    }
  }

  /** Mean days per level: the summed durations divided by the number of
      ALL points, placeholders included. With no points the source divides
      0 by 0 (NaN), modelled as `None`. */
  function AverageLevelUpInDays(points: seq<ChartPoint>): (r: Option<real>)
    ensures r.None? <==> points == []
    ensures r.Some? ==> r.value * (|points| as real) == SumDays(points)
  {
    if points == [] then None else Some(SumDays(points) / (|points| as real))
  }

  /** A point that adds no duration (a level with neither start nor pass
      time) still counts in the divisor and pulls the average towards 0. */
  lemma AverageCountsPlaceholders(points: seq<ChartPoint>, p: ChartPoint)
    requires DurationDays(p) == 0.0
    ensures AverageLevelUpInDays(points + [p]).Some?
    ensures AverageLevelUpInDays(points + [p]).value == SumDays(points) / ((|points| + 1) as real)
  {
    SumDaysAppend(points, [p]);
    assert SumDays([p]) == DurationDays(p) + SumDays([]);
    assert SumDays(points + [p]) == SumDays(points);
    assert |points + [p]| == |points| + 1;
  }

  /** A level with neither start nor pass time gives a placeholder point:
      zero duration and `time` 0. */
  lemma PlaceholderPoint(p: LevelProgression, now: Instant)
    requires p.startedAt.None? && p.passedAt.None?
    ensures DurationDays(ToChartPoint(p, now)) == 0.0 && ToChartPoint(p, now).time == 0.0
  {
  }

  /** The durations, in days, of the points whose `time` is not 0, in order. */
  function CompletedDurations(points: seq<ChartPoint>): (r: seq<real>)
    ensures |r| <= |points|
  {
    if points == [] then []
    else (if points[0].time != 0.0 then [DurationDays(points[0])] else []) + CompletedDurations(points[1..])
  }

  lemma {:induction false} CompletedDurationsEmpty(points: seq<ChartPoint>)
    ensures CompletedDurations(points) == [] <==> forall i :: 0 <= i < |points| ==> points[i].time == 0.0
  {
    if points != [] {
      CompletedDurationsEmpty(points[1..]);
      assert forall i :: 1 <= i < |points| ==> points[i] == points[1..][i - 1];
    }
  }

  function Identity(x: real): (r: real) { x }

  /** The source's median of ascending durations: the middle one for an odd
      count, and `d[n/2] + d[n/2 - 1] / 2` for an even count. */
  function MedianOfSortedAsWritten(d: seq<real>): (r: Option<real>)
  {
    if |d| == 0 then None
    else if |d| % 2 == 0 then Some(d[|d| / 2] + d[|d| / 2 - 1] / 2.0)
    else Some(d[|d| / 2])
  }

  /** The median of ascending durations: the middle one for an odd count,
      the mean of the two middle ones for an even count. */
  function MedianOfSorted(d: seq<real>): (r: Option<real>)
  {
    if |d| == 0 then None
    else if |d| % 2 == 0 then Some((d[|d| / 2] + d[|d| / 2 - 1]) / 2.0)
    else Some(d[|d| / 2])
  }

  /** The median splits sorted values in half: the lower half is at most
      the median, the upper half at least. */
  lemma MedianSplitsSortedInHalf(d: seq<real>)
    requires SortedBy(d, Identity) && |d| > 0
    ensures MedianOfSorted(d).Some?
    ensures forall i :: 0 <= i < (|d| + 1) / 2 ==> d[i] <= MedianOfSorted(d).value
    ensures forall i :: |d| / 2 <= i < |d| ==> MedianOfSorted(d).value <= d[i]
  {
    var h := |d| / 2;
    assert forall i, j :: 0 <= i < j < |d| ==> Identity(d[i]) <= Identity(d[j]);
    if |d| % 2 == 0 {
      assert d[h - 1] <= d[h];
      forall i | 0 <= i < h ensures d[i] <= d[h - 1] { if i < h - 1 { assert Identity(d[i]) <= Identity(d[h - 1]); } }
      forall i | h <= i < |d| ensures d[h] <= d[i] { if h < i { assert Identity(d[h]) <= Identity(d[i]); } }
    } else {
      forall i | 0 <= i < h + 1 ensures d[i] <= d[h] { if i < h { assert Identity(d[i]) <= Identity(d[h]); } }
      forall i | h <= i < |d| ensures d[h] <= d[i] { if h < i { assert Identity(d[h]) <= Identity(d[i]); } }
    }
  }

  /** For an even count the source's value exceeds the median by half the
      upper middle value; for an odd count the two agree. */
  lemma AsWrittenMedianOvershoots(d: seq<real>)
    requires |d| > 0
    ensures MedianOfSortedAsWritten(d).Some? && MedianOfSorted(d).Some?
    ensures |d| % 2 == 0 ==>
      MedianOfSortedAsWritten(d).value == MedianOfSorted(d).value + d[|d| / 2] / 2.0
    ensures |d| % 2 == 1 ==> MedianOfSortedAsWritten(d) == MedianOfSorted(d)
  {
  }

  /** Durations 1, 2, 3, 4 days: the source reports 4, the median is 2.5. */
  lemma AsWrittenMedianCounterexample()
    ensures MedianOfSortedAsWritten([1.0, 2.0, 3.0, 4.0]) == Some(4.0)
    ensures MedianOfSorted([1.0, 2.0, 3.0, 4.0]) == Some(2.5)
  {
  }

  /** The corrected median of the completed levels' durations. */
  function MedianSpec(points: seq<ChartPoint>): (r: Option<real>)
  {
    MedianOfSorted(StableSort(CompletedDurations(points), Identity))
  }

  /** Collects the durations of completed levels into an array, sorts it in
      place and picks the middle, exactly as the source does. */
  method MedianLevelUpInDaysAsWritten(points: seq<ChartPoint>) returns (r: Option<real>)
    ensures r == MedianOfSortedAsWritten(StableSort(CompletedDurations(points), Identity))
    ensures r.None? <==> forall i :: 0 <= i < |points| ==> points[i].time == 0.0
  {
    var durations := CompletedDurations(points);
    var levelUpTimeInDays := new real[|durations|](i requires 0 <= i < |durations| => durations[i]);
    assert levelUpTimeInDays[..] == durations;
    SortByKey(levelUpTimeInDays, Identity);
    var n := levelUpTimeInDays.Length;
    if n % 2 == 0 {
      if n == 0 {
        r := None;
      } else {
        var middleLeft := n / 2;
        var middleRight := middleLeft - 1;
        r := Some(levelUpTimeInDays[middleLeft] + levelUpTimeInDays[middleRight] / 2.0);
      }
    } else {
      r := Some(levelUpTimeInDays[n / 2]);
    }
    CompletedDurationsEmpty(points);
  }

  /** The same computation with the even-count branch taking the mean of
      the two middle durations. */
  method MedianLevelUpInDays(points: seq<ChartPoint>) returns (r: Option<real>)
    ensures r == MedianSpec(points)
    ensures r.None? <==> forall i :: 0 <= i < |points| ==> points[i].time == 0.0
  {
    var durations := CompletedDurations(points);
    var levelUpTimeInDays := new real[|durations|](i requires 0 <= i < |durations| => durations[i]);
    assert levelUpTimeInDays[..] == durations;
    SortByKey(levelUpTimeInDays, Identity);
    var n := levelUpTimeInDays.Length;
    if n % 2 == 0 {
      if n == 0 {
        r := None;
      } else {
        var middleLeft := n / 2;
        var middleRight := middleLeft - 1;
        r := Some((levelUpTimeInDays[middleLeft] + levelUpTimeInDays[middleRight]) / 2.0);
      }
    } else {
      r := Some(levelUpTimeInDays[n / 2]);
    }
    CompletedDurationsEmpty(points);
  }

  // ---------------------------------------------------------------------
  // Projection

  /** A projected point of the given kind for level `levelLabel`. */
  function ProjectedPoint(kind: ChartType, levelLabel: int, startedAt: real, completedAt: real): (r: ChartPoint)
  {
    ChartPoint(None,
      if kind == Average then Some(levelLabel) else None,
      if kind == Median then Some(levelLabel) else None,
      startedAt, completedAt, completedAt, kind)
  }

  /** `k` rates, in milliseconds. */
  function Offset(k: int, rateMs: real): (r: real)
  {
    (k as real) * rateMs
  }

  /** `count` projected levels from `first` on: the k-th starts `k` rates
      after `start` and lasts one rate. */
  function Series(kind: ChartType, start: real, rateMs: real, first: int, count: nat): (r: seq<ChartPoint>)
    ensures |r| == count
  {
    seq(count, k requires 0 <= k < count =>
      ProjectedPoint(kind, first + k, start + Offset(k, rateMs), start + Offset(k, rateMs) + rateMs))
  }

  lemma NextMultiple(k: int, rateMs: real)
    ensures Offset(k, rateMs) + rateMs == Offset(k + 1, rateMs)
  {
  }

  /** Each projected level starts when the previous one completes and
      lasts exactly the rate; the first starts at the seed's completion. */
  lemma SeriesChained(kind: ChartType, start: real, rateMs: real, first: int, count: nat, k: int)
    requires 0 <= k < count
    ensures Series(kind, start, rateMs, first, count)[k].completedAt
      == Series(kind, start, rateMs, first, count)[k].startedAt + rateMs
    ensures k + 1 < count ==>
      (Series(kind, start, rateMs, first, count)[k + 1].startedAt
       == Series(kind, start, rateMs, first, count)[k].completedAt)
    ensures k == 0 ==> Series(kind, start, rateMs, first, count)[0].startedAt == start
    ensures Series(kind, start, rateMs, first, count)[k].time
      == Series(kind, start, rateMs, first, count)[k].completedAt
  {
    NextMultiple(k, rateMs);
  }

  lemma MultipleMonotone(i: int, j: int, rateMs: real)
    requires i <= j && rateMs >= 0.0
    ensures Offset(i, rateMs) <= Offset(j, rateMs)
  {
    assert Offset(j, rateMs) - Offset(i, rateMs) == Offset(j - i, rateMs);
  }

  /** With a non-negative rate the projected completion times never decrease. */
  lemma SeriesMonotone(kind: ChartType, start: real, rateMs: real, first: int, count: nat, i: int, j: int)
    requires rateMs >= 0.0 && 0 <= i <= j < count
    ensures Series(kind, start, rateMs, first, count)[i].completedAt
      <= Series(kind, start, rateMs, first, count)[j].completedAt
  {
    MultipleMonotone(i, j, rateMs);
  }

  /** Every projected point carries its level under its own kind's label. */
  lemma SeriesLabels(kind: ChartType, start: real, rateMs: real, first: int, count: nat, k: int)
    requires 0 <= k < count
    ensures Series(kind, start, rateMs, first, count)[k].kind == kind
    ensures Series(kind, start, rateMs, first, count)[k].level.None?
    ensures kind == Average ==> Series(kind, start, rateMs, first, count)[k].averageLevel == Some(first + k)
    ensures kind == Median ==> Series(kind, start, rateMs, first, count)[k].medianLevel == Some(first + k)
  {
  }

  /** One more round of the loop: the point built from the last one of a
      seeded series extends the series by one level. */
  lemma {:induction false} ExtendSeries(kind: ChartType, seed: ChartPoint, rateMs: real, first: int, count: nat)
    ensures var prev := ([seed] + Series(kind, seed.completedAt, rateMs, first, count))[count];
      [seed] + Series(kind, seed.completedAt, rateMs, first, count + 1)
      == [seed] + Series(kind, seed.completedAt, rateMs, first, count)
         + [ProjectedPoint(kind, first + count, prev.completedAt, prev.completedAt + rateMs)]
  {
    var start := seed.completedAt;
    var long := Series(kind, start, rateMs, first, count + 1);
    var short := Series(kind, start, rateMs, first, count);
    var prev := ([seed] + short)[count];
    if count == 0 {
      assert prev == seed;
      assert Offset(0, rateMs) == 0.0;
    } else {
      assert prev == short[count - 1];
      NextMultiple(count - 1, rateMs);
    }
    assert forall k :: 0 <= k < count ==> long[k] == short[k];
    assert long == short + [long[count]];
  }

  /** How many levels each projection adds for `n` formatted points: one per
      loop index from `n` to 60. */
  function GeneratedCount(n: int): (r: nat)
  {
    if n <= 60 then 61 - n else 0
  }

  /** The loop of the analysis: starting from the last formatted point, the
      `n`-th formatted level, each round reads the previous projected point
      through its index counter and appends one level at each pace, for every
      level from `n` to 60. The seed stays at the front of both series. */
  method ProjectToLevel60(seed: ChartPoint, n: int, averageRateMs: real, medianRateMs: real)
    returns (averageProjection: seq<ChartPoint>, medianProjection: seq<ChartPoint>)
    ensures averageProjection == [seed] + Series(Average, seed.completedAt, averageRateMs, n, GeneratedCount(n))
    ensures medianProjection == [seed] + Series(Median, seed.completedAt, medianRateMs, n, GeneratedCount(n))
  {
    averageProjection := [seed];
    medianProjection := [seed];
    var previousAverageIdx := 0;
    var previousMedianIdx := 0;
    var i := n;
    while i <= 60
      invariant n <= i && (n <= 61 ==> i <= 61) && (n > 61 ==> i == n)
      invariant previousAverageIdx == i - n && previousMedianIdx == i - n
      invariant averageProjection == [seed] + Series(Average, seed.completedAt, averageRateMs, n, i - n)
      invariant medianProjection == [seed] + Series(Median, seed.completedAt, medianRateMs, n, i - n)
    {
      var previousAverageProjection := averageProjection[previousAverageIdx];
      var previousMedianProjection := medianProjection[previousMedianIdx];
      ExtendSeries(Average, seed, averageRateMs, n, i - n);
      ExtendSeries(Median, seed, medianRateMs, n, i - n);
      averageProjection := averageProjection + [ProjectedPoint(Average, i,
        previousAverageProjection.completedAt,
        previousAverageProjection.completedAt + averageRateMs)];
      medianProjection := medianProjection + [ProjectedPoint(Median, i,
        previousMedianProjection.completedAt,
        previousMedianProjection.completedAt + medianRateMs)];
      previousAverageIdx := previousAverageIdx + 1;
      previousMedianIdx := previousMedianIdx + 1;
      i := i + 1;
    }
  }

  /** The timeline the analysis returns for formatted points `formatted`
      (at least one) and the two paces in days. */
  function Timeline(formatted: seq<ChartPoint>, averageDays: real, medianDays: real): (r: seq<ChartPoint>)
    requires |formatted| > 0
    ensures |r| == (|formatted| - 1) + 2 * GeneratedCount(|formatted|)
  {
    var n := |formatted|;
    var seedAt := formatted[n - 1].completedAt;
    formatted[..n - 1]
      + Series(Average, seedAt, averageDays * DayMs, n, GeneratedCount(n))
      + Series(Median, seedAt, medianDays * DayMs, n, GeneratedCount(n))
  }

  /** The whole analysis: filter by the reset, format, compute both paces,
      project to level 60, then drop the last recorded point and the seed
      copies and join the three parts. The median is the corrected one (see
      `MedianLevelUpInDays`); a missing median is only an error when the
      loop runs. */
  method AnalyzeLevelProgressions(progressions: seq<LevelProgression>, reset: ResetContext, now: Instant)
    returns (r: Result<Analysis, AnalysisError>)
    ensures
      var formatted := FormattedPoints(FilterLevelProgressions(progressions, reset.targetLevel, reset.mostRecentResetTimeStamp), now);
      && (r.Failure? <==> formatted == [] || (|formatted| <= 60 && MedianSpec(formatted).None?))
      && (r.Failure? ==> r.error == (if formatted == [] then NoProgressions else UndefinedMedian))
      && (r.Success? ==>
        && r.value.averageLevelUpInDays == AverageLevelUpInDays(formatted).value
        && r.value.formattedDataWithProjections == Timeline(formatted,
             AverageLevelUpInDays(formatted).value,
             if MedianSpec(formatted).Some? then MedianSpec(formatted).value else 0.0))
  {
    var filteredLevelProgressions := FilterLevelProgressions(progressions, reset.targetLevel, reset.mostRecentResetTimeStamp);
    var formattedData := FormatLevelProgressions(filteredLevelProgressions, now);
    var averageLevelUpInDays := AverageLevelUpInDays(formattedData);
    var medianLevelUpInDays := MedianLevelUpInDays(formattedData);
    var n := |formattedData|;
    if n == 0 {
      return Failure(NoProgressions);
    }
    if n <= 60 && medianLevelUpInDays.None? {
      return Failure(UndefinedMedian);
    }
    var averageDays := averageLevelUpInDays.value;
    var medianDays := if medianLevelUpInDays.Some? then medianLevelUpInDays.value else 0.0;
    var seed := formattedData[n - 1];
    var averageProjection, medianProjection :=
      ProjectToLevel60(seed, n, averageDays * DayMs, medianDays * DayMs);
    var observed := formattedData[..n - 1];
    averageProjection := averageProjection[1..];
    medianProjection := medianProjection[1..];
    assert averageProjection == Series(Average, seed.completedAt, averageDays * DayMs, n, GeneratedCount(n));
    assert medianProjection == Series(Median, seed.completedAt, medianDays * DayMs, n, GeneratedCount(n));
    assert observed + averageProjection + medianProjection == Timeline(formattedData, averageDays, medianDays);
    r := Success(Analysis(observed + averageProjection + medianProjection, averageDays));
  }

  /** The timeline keeps the history minus its last point, then the average
      series and the median series, each covering levels `n` to 60 and
      chained from the last recorded completion (see `SeriesChained`,
      `SeriesLabels`). */
  lemma TimelineShape(formatted: seq<ChartPoint>, averageDays: real, medianDays: real)
    requires 1 <= |formatted| <= 60
    ensures var t := Timeline(formatted, averageDays, medianDays);
      var n := |formatted|;
      var seedAt := formatted[n - 1].completedAt;
      && |t| == 121 - n
      && t[..n - 1] == formatted[..n - 1]
      && t[n - 1..60] == Series(Average, seedAt, averageDays * DayMs, n, 61 - n)
      && t[60..] == Series(Median, seedAt, medianDays * DayMs, n, 61 - n)
      && t[59].averageLevel == Some(60) && t[120 - n].medianLevel == Some(60)
  {
    var n := |formatted|;
    var seedAt := formatted[n - 1].completedAt;
    var avg := Series(Average, seedAt, averageDays * DayMs, n, 61 - n);
    var med := Series(Median, seedAt, medianDays * DayMs, n, 61 - n);
    var t := Timeline(formatted, averageDays, medianDays);
    assert t == formatted[..n - 1] + avg + med;
    assert t[n - 1..60] == avg;
    assert t[60..] == med;
    assert t[59] == avg[60 - n];
    assert t[120 - n] == med[60 - n];
  }
}
