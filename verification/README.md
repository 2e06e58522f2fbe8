# WaniKani dashboard: level-progression projections in Dafny

This project models the computational core of a WaniKani dashboard and proves
properties of that model. It covers three parts.

The level timeline (`LevelUpProjectionUtils`):
- find the latest reset;
- drop the level progressions that the reset invalidated;
- turn the remaining progressions into chart points sorted by level;
- compute the average and median days per level;
- extend the timeline to level 60 at both paces.

The preparation for the fastest level-up estimate (`Projections`):
- keep the current level's kanji and radical assignments below Guru, ordered by availability;
- group them by SRS stage;
- find the current level's subjects;
- compute the 90 % kanji requirement;
- model the commented "Case A" plan as a separately labelled loop.

Other parts:
- `Constants` holds the static SRS interval table and the fast-level classification.
- `ProjectionQuickStats` picks the level start and the median date shown beside the chart.
- `Sorting` holds a stable in-place array sort. It models `Array.prototype.sort` with the source's numeric comparators and is proved equal to a functional stable insertion sort.
- `WaniKaniTypes` holds the record shapes and `Wrappers` holds `Option`/`Result`.

Modelling conventions:
- Timestamps are epoch milliseconds. Record fields are `int`. Chart instants are `real`, because projections add fractional days at 86,400,000 ms per day.
- The wall clock is a single `now` parameter.
- Missing values become `Option`. Inputs on which the source throws or yields NaN become a `Result` error or `None` rather than preconditions; each such case is named in the table below.

Behaviour of the code that the model keeps:
- With no resets the code still reads `resetData[0]`, so `AnalyzeResetData` reports `MissingReset`.
- Of several resets confirmed at the same instant, the earliest-listed one is kept, because the comparison is strict.
- The average divides the summed durations by the number of all points, placeholders for unfinished levels included.
- Only an average-pace and a median-pace series are generated; the optimal-pace series is commented out. The optimal pace appears only in `Constants`, as twice the Apprentice I–IV intervals of `src/optimalLevelUp.ts`.
- Projected levels are labelled from `n`, the number of formatted points, up to 60.
- A single passed progression gives a 120-point timeline: the empty history followed by two 60-point series. A single unpassed one has no completed duration, so the median is undefined (NaN in the source) and `AnalyzeLevelProgressions` stops with `UndefinedMedian`.

## Model

| member | source | states |
|---|---|---|
| `Constants.FastLevelsExactly` | src/constants.ts:2-21 | a level is fast exactly when it is 1, 2, 43, 44, 46, 47 or 49–60; every other level is absent from the table |
| `Constants.StageInterval` | src/constants.ts:24-85 | the interval picked for a stage never exceeds the normal one and is the normal one off the accelerated schedule |
| `Constants.SrsStagesShape` | src/constants.ts:24-85 | ten rows with `srs_stage` = index; accelerated ≤ normal in every row; Initiate and Burned wait 0; Guru I to Enlightened are not accelerated |
| `Constants.SrsIntervalsIncrease` | src/constants.ts:31-78 | from Apprentice I to Enlightened the waits strictly increase, on both schedules |
| `Constants.AcceleratedSumNotLonger` | src/constants.ts:24-85 | any run of accelerated waits adds up to no more than the normal ones |
| `Constants.OptimalLevelUpValues` | src/optimalLevelUp.ts:4-8 | the optimal level is 2 × (14400 + 28800 + 82800 + 169200) s in ms normally, 2 × (7200 + 14400 + 28800 + 82800) s accelerated, and the accelerated one is strictly shorter |
| `Constants.FastLevelNotSlower` | src/constants.ts:2-21 | a fast level's optimum is strictly below a normal level's |
| `Sorting.StableSortCorrect` | src/levelUpProjectionUtils.ts:51-56 | the reference sort is ordered by key, keeps the relative order of equal keys, and is a permutation |
| `Sorting.SortedSameOrderUnique` | src/levelUpProjectionUtils.ts:51-56 | two key-sorted sequences with the same elements in the same order per key are equal, so a stable sort has one result |
| `Sorting.SortByKey` | src/levelUpProjectionUtils.ts:51-56 | the in-place array sort leaves exactly the stable sort of the old contents |
| `LevelUpProjectionUtils.AnalyzeResetData` | src/levelUpProjectionUtils.ts:60-79 | fails (`MissingReset`) exactly on an empty list; otherwise returns the timestamp, target and original level of a reset that every earlier reset is strictly older than and no later one is newer than |
| `LevelUpProjectionUtils.FirstLatestUnique` | src/levelUpProjectionUtils.ts:66-73 | that description fits one reset only, so the result is determined |
| `LevelUpProjectionUtils.FilterLevelProgressions` | src/levelUpProjectionUtils.ts:81-103 | no longer than the input; a record is in the result exactly when it is in the input and passes the reset rule, and every copy of a kept record is kept while no copy of a dropped one is |
| `LevelUpProjectionUtils.FilterIsSubsequence` | src/levelUpProjectionUtils.ts:87-102 | the result is a subsequence of the input: order kept, nothing added |
| `LevelUpProjectionUtils.FilterRule` | src/levelUpProjectionUtils.ts:97-101 | a record created after the reset is always kept; one created at or before it is kept exactly when its level is at most the target |
| `LevelUpProjectionUtils.RecordedTime` | src/levelUpProjectionUtils.ts:31-49 | `time` is the pass instant of a level passed before `now`, 0 for a level not passed, and nonzero only as a pass instant; the point is recorded and carries the level |
| `LevelUpProjectionUtils.FormatLevelProgressions` | src/levelUpProjectionUtils.ts:28-58 | one point per progression, sorted ascending by level, same order within a level as the input, a permutation of the mapped points |
| `LevelUpProjectionUtils.FormattedPointsAreRecorded` | src/levelUpProjectionUtils.ts:31-50 | every formatted point is the recorded point of some input progression |
| `LevelUpProjectionUtils.AverageLevelUpInDays` | src/levelUpProjectionUtils.ts:17-26 | `None` exactly for no points (the source yields NaN from 0 / 0); otherwise the average times the number of points equals the summed durations |
| `LevelUpProjectionUtils.AverageCountsPlaceholders` | src/levelUpProjectionUtils.ts:17-26 | a zero-duration point adds nothing to the sum but still counts in the divisor |
| `LevelUpProjectionUtils.PlaceholderPoint` | src/levelUpProjectionUtils.ts:31-49 | a level with no start and no pass time gives a zero-duration point with `time` 0 |
| `LevelUpProjectionUtils.CompletedDurationsEmpty` | src/levelUpProjectionUtils.ts:105-113 | no durations are left exactly when every point has `time` 0 |
| `LevelUpProjectionUtils.MedianLevelUpInDaysAsWritten` | src/levelUpProjectionUtils.ts:105-122 | the source's value on the ascending durations of completed levels; `None` exactly when no level is completed (the source yields NaN) |
| `LevelUpProjectionUtils.AsWrittenMedianOvershoots` | src/levelUpProjectionUtils.ts:115-121 | for an even count the source's value is the median plus half the upper middle duration; for an odd count it is the median |
| `LevelUpProjectionUtils.AsWrittenMedianCounterexample` | src/levelUpProjectionUtils.ts:118-118 | durations 1, 2, 3, 4 give 4 where the median is 2.5 |
| `LevelUpProjectionUtils.MedianLevelUpInDays` | src/levelUpProjectionUtils.ts:105-122 | the corrected median of the completed levels' sorted durations; `None` exactly when no level is completed (the source yields NaN) |
| `LevelUpProjectionUtils.MedianSplitsSortedInHalf` | src/levelUpProjectionUtils.ts:114-121 | on sorted durations the corrected median is at least every lower-half value and at most every upper-half value |
| `LevelUpProjectionUtils.SeriesChained` | src/levelUpProjectionUtils.ts:158-187 | each projected point starts where the previous one completes, completes one rate later, has `time` equal to its completion, and the first starts at the seed's completion |
| `LevelUpProjectionUtils.SeriesMonotone` | src/levelUpProjectionUtils.ts:158-187 | with a non-negative rate projected completions never decrease |
| `LevelUpProjectionUtils.SeriesLabels` | src/levelUpProjectionUtils.ts:161-187 | the k-th projected point is labelled level first + k under its own kind and carries no recorded level |
| `LevelUpProjectionUtils.ExtendSeries` | src/levelUpProjectionUtils.ts:158-190 | one loop round, reading the previous point through the index counter, appends exactly the next point of the series |
| `LevelUpProjectionUtils.ProjectToLevel60` | src/levelUpProjectionUtils.ts:154-190 | each projection is the seed followed by one point per level from n to 60 (none when n > 60) |
| `LevelUpProjectionUtils.Timeline` | src/levelUpProjectionUtils.ts:191-198 | the combined output has (n − 1) + 2 × (61 − n) entries for n ≤ 60 and n − 1 beyond |
| `LevelUpProjectionUtils.AnalyzeLevelProgressions` | src/levelUpProjectionUtils.ts:124-201 | fails on an empty filtered history, or (`UndefinedMedian`) when levels are projected and the median is `None`, where the source hands NaN on; otherwise returns the average and the history without its last point followed by the average-pace and median-pace series seeded at that point |
| `LevelUpProjectionUtils.TimelineShape` | src/levelUpProjectionUtils.ts:191-198 | for 1 ≤ n ≤ 60 the timeline has 121 − n entries: the history prefix, then both series ending at level 60 |
| `Projections.SortByAvailable` | src/Projections.tsx:31-39 | the comparator's sign is the order of the two availability instants, a missing one counting as 2100-01-01T00:00:00Z |
| `Projections.UnscheduledSortLast` | src/Projections.tsx:28-39 | in availability order an unscheduled assignment comes after every assignment due before 2100 |
| `Projections.LevelUpAssignmentsExact` | src/Projections.tsx:70-70 | an assignment is kept exactly when it is not vocabulary and is at stage 4 or below |
| `Projections.OfSubjectTypeExact` | src/Projections.tsx:71-77 | a group holds exactly the kept assignments of its subject type |
| `Projections.KanjiAndRadicalsSplit` | src/Projections.tsx:71-77 | without vocabulary, the kanji and radical groups together have as many elements as the input |
| `Projections.PartitionAssignments` | src/Projections.tsx:66-77 | the kanji and radical groups are the kept assignments of each type in input order, and their sizes add up to the kept count |
| `Projections.CurrentLevelSubjects` | src/Projections.tsx:79-95 | nothing is kept for vocabulary or for an unknown current level |
| `Projections.CurrentLevelSubjectsExact` | src/Projections.tsx:79-95 | a payload is kept exactly when some subject of that type on the current level carries it |
| `Projections.NonVocabularyKeepsLevelSubjects` | src/Projections.tsx:80-80 | dropping vocabulary first does not change the current level's kanji and radicals |
| `Projections.GroupCurrentLevelSubjects` | src/Projections.tsx:79-95 | the kanji and radical subject groups are the current level's subjects of each type, unwrapped, in order |
| `Projections.LevelUpRequirement` | src/Projections.tsx:97-97 | the requirement r satisfies 10r ≥ 9n and 10(r − 1) < 9n, and r ≤ n |
| `Projections.RequirementIsLeast` | src/Projections.tsx:97-97 | no smaller count reaches 90 % of the kanji |
| `Projections.GroupBySrsStage` | src/Projections.tsx:47-53 | with fresh buckets, bucket s holds the assignments of stage s in input order, for s = 0..4 |
| `Projections.BucketsSortedAndExact` | src/Projections.tsx:103-113 | buckets of an availability-sorted list are availability-sorted, and each assignment is in the bucket of its stage and no other |
| `Projections.AssignmentList.constructor` | src/Projections.tsx:45-45 | a bucket list starts empty |
| `Projections.AssignmentList.Push` | src/Projections.tsx:51-51 | a push appends exactly one assignment |
| `Projections.PushIntoSharedBucket` | src/Projections.tsx:51-52 | one reducer step pushes into the list of the assignment's stage and leaves the other, distinct lists unchanged |
| `Projections.GroupIntoSharedBuckets` | src/Projections.tsx:47-53 | over shared lists, each list gains the assignments of its stage after whatever it held |
| `Projections.NewSrsBuckets` | src/Projections.tsx:45-45 | five distinct, new, empty lists for the stages 0 to 4 |
| `Projections.GroupBothAsWritten` | src/Projections.tsx:106-113 | both groupings are the same five lists, and each gains the kanji and then the radicals of its stage |
| `Projections.SharedBucketsMixKinds` | src/Projections.tsx:106-113 | a kanji and a radical at Apprentice I land together in the kanji grouping's stage-1 bucket, and a second call doubles it |
| `Projections.SortAssignmentsByAvailable` | src/Projections.tsx:103-104 | a group sorted in place is the stable availability sort of the group: sorted and a permutation |
| `Projections.CalculateFastestLevelUpTime` | src/Projections.tsx:55-144 | stops exactly when an input is missing; otherwise yields the sorted groups, the current level's subjects, the requirement and the stage buckets, each as specified above |
| `Projections.PlanIndex` | src/Projections.tsx:129-141 | the plan stops at the first kanji whose count, on top of the kanji already at Guru, reaches the requirement |
| `Projections.CaseAPlanFromComments` | src/Projections.tsx:127-141 | starting the count at the kanji already at Guru, the loop returns the wait until the kanji at `PlanIndex`, visiting stage 4 down to 1 in bucket order, or 0 when there are too few kanji below Guru |
| `ProjectionQuickStats.FindRecordedLevel` | src/ProjectionQuickStats.tsx:32-35 | returns the first index holding the recorded point of the level, and nothing only when no such point exists |
| `ProjectionQuickStats.MedianProjectionDays` | src/ProjectionQuickStats.tsx:66-70 | the accelerated median on levels 1, 2, 43, 44, 46, 47 and 49–60, the normal one elsewhere |
| `ProjectionQuickStats.GetQuickStatDates` | src/ProjectionQuickStats.tsx:27-49 | `None` exactly for an empty chart (the source throws reading the first point); the start is the first recorded point of the previous level, else the first point; time on level is measured from `now`; the median date adds the chosen median days |

## Left out

- The user interface, charts and JSX are not part of this model. The same goes for network fetching (`src/useWKApi.tsx`, `src/api.ts`), local storage and IndexedDB persistence, and `console.log`/`debugger` statements.
- `unwrapCollectionWrapper` is not part of this model. Level progressions, resets and assignments are taken already unwrapped. Subjects keep their wrapper, because the code reads its `object` field. That field is called `objectType` here because `object` is reserved in Dafny.
- The `Subject`, `Assignment` and `Projections` record shapes are not part of this model's sources. Only the fields the code reads are modelled: subject id, level and type; assignment subject id, subject type, stage and availability; the normal and accelerated median days.
- Date parsing, time zones and calendar-aware day arithmetic (daylight-saving days) are left out. ISO timestamps are epoch milliseconds, and a day is always 86,400,000 ms.
- Floating-point rounding is left out. All arithmetic is exact, and `Math.ceil(n * 0.9)` is the exact ceiling of 9n/10.
- `LevelUpProjectionUtils.FormatLevelProgressions`: the model uses one `now` for the whole call. The source samples the clock once per record, so in the source two unfinished levels can get different placeholder instants.
- `LevelUpProjectionUtils.FormatLevelProgressions`: the source comparator returns 0 whenever a level is 0, which is falsy. The model sorts by level as a key, so it agrees only while no record has level 0.
- `LevelUpProjectionUtils.AnalyzeLevelProgressions`: the source hands a NaN day count to the date library when no level is completed. The model stops with `UndefinedMedian` instead of reproducing the library's reaction.
- `LevelUpProjectionUtils.AnalyzeLevelProgressions` uses the corrected median (see Findings), not the source's even-count formula.
- `Projections.CalculateFastestLevelUpTime`:
  - The source returns nothing and only logs what it computes. The model returns those values.
  - The source's empty radical branch and empty loop (src/Projections.tsx:116-126) do nothing and are not modelled.
  - It uses fresh buckets (see Findings). Accumulation across calls is shown only by the as-written members.
- `Projections.CaseAPlanFromComments` follows a plan that exists only as comments. The comment's `break` is read as ending the whole walk. The comment's `currentKanji.available_at - now` is read with the same 2100-01-01T00:00:00Z stand-in for a missing `available_at` that `sortByAvailable` uses (`AvailableAt`). The number of kanji already at Guru is a parameter, because the code computes it nowhere: the `srs_stage <= 4` filter at src/Projections.tsx:70 drops those kanji. Radical unlocking ("Case B") has no code and is left out.
- `ProjectionQuickStats.GetQuickStatDates`: instants and durations are milliseconds. The day/hour split of `diffNow` and the `Duration` object are not modelled.
- The fastest-level-up display (src/ProjectionQuickStats.tsx:57-60) reads the wall clock and is left out.

## Findings

| source | as written | input that shows it | evidently intended | confidence | as-written member | corrected member |
|---|---|---|---|---|---|---|
| src/levelUpProjectionUtils.ts:118 | `a[n/2] + a[n/2 - 1] / 2` for an even count | completed durations 1, 2, 3, 4 days give 4 (`AsWrittenMedianCounterexample`) | the mean of the two middle durations, 2.5 | high, not executed | `LevelUpProjectionUtils.MedianLevelUpInDaysAsWritten` | `LevelUpProjectionUtils.MedianLevelUpInDays` |
| src/Projections.tsx:106-113 | `Object.assign({}, SRS_BUCKETS)` copies only the references to the five module-level lists, so both groupings push into the same lists, which keep growing across calls | one kanji and one radical at Apprentice I: the kanji stage-1 bucket holds both, and holds each twice after a second call (`SharedBucketsMixKinds`) | separate, empty buckets per grouping and per call | high, not executed | `Projections.GroupBothAsWritten` | `Projections.GroupBySrsStage` |
