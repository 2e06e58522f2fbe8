/** The quick statistics shown beside the chart: when the current level
    started, how long ago that was, and when the median pace says it ends. */
module ProjectionQuickStats {
  import opened Wrappers
  import opened WaniKaniTypes
  import opened LevelUpProjectionUtils
  import Constants

  /** The median days per level on the normal and the accelerated schedule. */
  datatype MedianDays = MedianDays(normal: real, accelerated: real)

  /** Instants and durations in milliseconds. */
  datatype QuickStatDates = QuickStatDates(levelStartDate: real, timeOnLevelDate: real, medianDate: real)

  predicate IsRecordedLevel(p: ChartPoint, level: int)
  {
    p.level == Some(level) && p.kind == Recorded
  }

  /** The first index at or after `i` holding the recorded point of `level`. */
  function FindRecordedLevelFrom(chartData: seq<ChartPoint>, level: int, i: nat): (r: Option<nat>)
    requires i <= |chartData|
    ensures r.Some? ==>
      && i <= r.value < |chartData| && IsRecordedLevel(chartData[r.value], level)
      && forall j :: i <= j < r.value ==> !IsRecordedLevel(chartData[j], level)
    ensures r.None? ==> forall j :: i <= j < |chartData| ==> !IsRecordedLevel(chartData[j], level)
    decreases |chartData| - i
  {
    if i == |chartData| then None
    else if IsRecordedLevel(chartData[i], level) then Some(i)
    else FindRecordedLevelFrom(chartData, level, i + 1)
  }

  /** `Array.prototype.find` for the recorded point of `level`. */
  function FindRecordedLevel(chartData: seq<ChartPoint>, level: int): (r: Option<nat>)
    ensures r.Some? ==>
      && r.value < |chartData| && IsRecordedLevel(chartData[r.value], level)
      && forall j :: 0 <= j < r.value ==> !IsRecordedLevel(chartData[j], level)
    ensures r.None? ==> forall j :: 0 <= j < |chartData| ==> !IsRecordedLevel(chartData[j], level)
  {
    FindRecordedLevelFrom(chartData, level, 0)
  }

  /** The median days for the current level: the accelerated figure on the
      fast levels 1, 2, 43, 44, 46, 47 and 49 to 60, the normal one elsewhere. */
  function MedianProjectionDays(currentLevel: int, median: MedianDays): (r: real)
    ensures (currentLevel in {1, 2, 43, 44, 46, 47} || 49 <= currentLevel <= 60) ==> r == median.accelerated
    ensures !(currentLevel in {1, 2, 43, 44, 46, 47} || 49 <= currentLevel <= 60) ==> r == median.normal
  {
    Constants.FastLevelsExactly(currentLevel);
    if Constants.IsFastLevel(currentLevel) then median.accelerated else median.normal
  }

  /** The start of the current level is the completion `time` of the first
      recorded point of the previous level, or of the first point when there
      is none; an empty chart has no first point (`None`). The time on the
      level is measured from `now`, and the median date adds the median days
      that `MedianProjectionDays` picks. */
  function GetQuickStatDates(chartData: seq<ChartPoint>, currentLevel: int, median: MedianDays, now: Instant)
    : (r: Option<QuickStatDates>)
    ensures r.None? <==> chartData == []
    ensures r.Some? ==>
      forall i :: (0 <= i < |chartData| && IsRecordedLevel(chartData[i], currentLevel - 1)
                   && (forall j :: 0 <= j < i ==> !IsRecordedLevel(chartData[j], currentLevel - 1)))
                  ==> r.value.levelStartDate == chartData[i].time
    ensures r.Some? && (forall i :: 0 <= i < |chartData| ==> !IsRecordedLevel(chartData[i], currentLevel - 1))
      ==> r.value.levelStartDate == chartData[0].time
    ensures r.Some? ==> r.value.timeOnLevelDate == r.value.levelStartDate - now as real
    ensures r.Some? ==>
      r.value.medianDate == r.value.levelStartDate + MedianProjectionDays(currentLevel, median) * DayMs
  {
    var found := FindRecordedLevel(chartData, currentLevel - 1);
    if found.None? && chartData == [] then None
    else
      var latestObservedLevel := if found.Some? then chartData[found.value] else chartData[0];
      var levelStartDate := latestObservedLevel.time;
      Some(QuickStatDates(levelStartDate, levelStartDate - now as real,
        levelStartDate + (if Constants.IsFastLevel(currentLevel) then median.accelerated else median.normal) * DayMs))
  }
}
