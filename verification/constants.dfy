/** The static tables of the dashboard: which levels are "fast" (their SRS
    intervals are accelerated) and the per-stage SRS waiting times. */
module Constants {

  /** Levels whose early SRS stages run on accelerated intervals. Levels not
      listed are absent from the table, so a lookup of them is falsy. */
  const FastLevels: map<int, bool> := map[
    1 := true, 2 := true, 43 := true, 44 := true, 46 := true, 47 := true,
    49 := true, 50 := true, 51 := true, 52 := true, 53 := true, 54 := true,
    55 := true, 56 := true, 57 := true, 58 := true, 59 := true, 60 := true]

  /** `FAST_LEVELS[level]` read as a condition. */
  predicate IsFastLevel(level: int)
  {
    level in FastLevels && FastLevels[level]
  }

  /** The fast levels are exactly 1, 2, 43, 44, 46, 47 and 49 to 60. */
  lemma FastLevelsExactly(level: int)
    ensures IsFastLevel(level) <==>
      level in {1, 2, 43, 44, 46, 47} || 49 <= level <= 60
  {
  }

  /** One row of the SRS stage table; intervals are in seconds. */
  datatype SrsStageInfo = SrsStageInfo(
    srsStage: int, srsStageName: string, interval: nat, acceleratedInterval: nat)

  const SrsStages: seq<SrsStageInfo> := [
    SrsStageInfo(0, "Initiate", 0, 0),
    SrsStageInfo(1, "Apprentice I", 14400, 7200),
    SrsStageInfo(2, "Apprentice II", 28800, 14400),
    SrsStageInfo(3, "Apprentice III", 82800, 28800),
    SrsStageInfo(4, "Apprentice IV", 169200, 82800),
    SrsStageInfo(5, "Guru I", 601200, 601200),
    SrsStageInfo(6, "Guru II", 1206000, 1206000),
    SrsStageInfo(7, "Master", 2588400, 2588400),
    SrsStageInfo(8, "Enlightened", 10364400, 10364400),
    SrsStageInfo(9, "Burned", 0, 0)]

  /** The first stage that counts as passed (Guru I). */
  const GuruStage := 5

  /** The waiting time of `stage`, accelerated or normal, in seconds. */
  function StageInterval(stage: int, accelerated: bool): (r: nat)
    requires 0 <= stage < |SrsStages|
    ensures r <= SrsStages[stage].interval
    ensures !accelerated ==> r == SrsStages[stage].interval
  {
    if accelerated then SrsStages[stage].acceleratedInterval else SrsStages[stage].interval
  }

  /** The table has one row per stage 0..9, in stage order; the accelerated
      interval never exceeds the normal one; Initiate and Burned have no
      wait; the Guru, Master and Enlightened stages are not accelerated. */
  lemma SrsStagesShape()
    ensures |SrsStages| == 10
    ensures forall i :: 0 <= i < |SrsStages| ==> SrsStages[i].srsStage == i
    ensures forall i :: 0 <= i < |SrsStages| ==>
      SrsStages[i].acceleratedInterval <= SrsStages[i].interval
    ensures SrsStages[0].interval == SrsStages[0].acceleratedInterval == 0
    ensures SrsStages[9].interval == SrsStages[9].acceleratedInterval == 0
    ensures forall i :: 5 <= i <= 8 ==>
      SrsStages[i].acceleratedInterval == SrsStages[i].interval
  {
  }

  /** From Apprentice I to Enlightened, each stage waits strictly longer than
      the one before, on both schedules. */
  lemma SrsIntervalsIncrease(i: int, j: int, accelerated: bool)
    requires 1 <= i < j <= 8
    ensures StageInterval(i, accelerated) < StageInterval(j, accelerated)
  {
  }

  /** The summed waiting time of stages `lo` up to, not including, `hi`. */
  function IntervalSum(lo: int, hi: int, accelerated: bool): (r: nat)
    requires 0 <= lo <= hi <= |SrsStages|
    decreases hi - lo
  {
    if lo == hi then 0 else StageInterval(lo, accelerated) + IntervalSum(lo + 1, hi, accelerated)
  }

  /** Accelerated waits never add up to more than the normal ones. */
  lemma {:induction false} AcceleratedSumNotLonger(lo: int, hi: int)
    requires 0 <= lo <= hi <= |SrsStages|
    ensures IntervalSum(lo, hi, true) <= IntervalSum(lo, hi, false)
    decreases hi - lo
  {
    if lo < hi {
      AcceleratedSumNotLonger(lo + 1, hi);
    }
  }

  /** Seconds from Apprentice I to Guru I: the stages 1 to 4 that gate the
      passed threshold. */
  function TimeToGuruSeconds(accelerated: bool): (r: nat)
  {
    IntervalSum(1, GuruStage, accelerated)
  }

  /** The optimal time for one level in milliseconds: the radicals and then
      the kanji they unlock each wait out stages 1 to 4. */
  function OptimalLevelUpMs(accelerated: bool): (r: nat)
  {
    2 * TimeToGuruSeconds(accelerated) * 1000
  }

  /** The normal optimum is 2 * (14400 + 28800 + 82800 + 169200) seconds and the
      accelerated one 2 * (7200 + 14400 + 28800 + 82800) seconds; fast levels are
      strictly quicker. */
  lemma OptimalLevelUpValues()
    ensures OptimalLevelUpMs(false) == 2 * (14400 + 28800 + 82800 + 169200) * 1000
    ensures OptimalLevelUpMs(true) == 2 * (7200 + 14400 + 28800 + 82800) * 1000
    ensures OptimalLevelUpMs(true) < OptimalLevelUpMs(false)
  {
    assert IntervalSum(5, 5, false) == 0 && IntervalSum(5, 5, true) == 0;
  }

  /** The optimal time for `level`, on the schedule its classification picks. */
  function OptimalLevelUpMsFor(level: int): (r: nat)
  {
    OptimalLevelUpMs(IsFastLevel(level))
  }

  /** A fast level never has a longer optimum than a normal one. */
  lemma FastLevelNotSlower(fast: int, normal: int)
    requires IsFastLevel(fast) && !IsFastLevel(normal)
    ensures OptimalLevelUpMsFor(fast) < OptimalLevelUpMsFor(normal)
  {
    OptimalLevelUpValues();
  }
}
