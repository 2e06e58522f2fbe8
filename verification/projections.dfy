/** The preparation for the fastest level-up estimate: the current level's
    kanji and radical assignments that still gate the level, ordered by when
    they can next be reviewed and grouped by SRS stage, the current level's
    subjects, and how many kanji must reach Guru. */
module Projections {
  import opened Wrappers
  import opened WaniKaniTypes
  import opened Sorting
  import Constants

  /** 2100-01-01T00:00:00Z in epoch milliseconds: the stand-in availability
      of an assignment with none (usually one still in the lesson queue). */
  const UnscheduledAt: Instant := 4102444800000

  function AvailableAt(a: Assignment): (r: Instant)
  {
    if a.availableAt.Some? then a.availableAt.value else UnscheduledAt
  }

  /** The sort key behind `sortByAvailable`. */
  function AvailableKey(a: Assignment): (r: real)
  {
    AvailableAt(a) as real
  }

  /** The comparator: negative when `a` goes first, zero on a tie. */
  function SortByAvailable(a: Assignment, b: Assignment): (r: int)
    ensures r < 0 <==> AvailableKey(a) < AvailableKey(b)
    ensures r == 0 <==> AvailableKey(a) == AvailableKey(b)
    ensures r > 0 <==> AvailableKey(b) < AvailableKey(a)
  {
    AvailableAt(a) - AvailableAt(b)
  }

  /** In availability order an unscheduled assignment comes after every
      assignment scheduled before 2100. */
  lemma UnscheduledSortLast(s: seq<Assignment>, i: int, j: int)
    requires SortedBy(s, AvailableKey) && 0 <= i < |s| && 0 <= j < |s|
    requires s[i].availableAt.None?
    requires s[j].availableAt.Some? && s[j].availableAt.value < UnscheduledAt
    ensures j < i
  {
    assert i < j ==> AvailableKey(s[i]) <= AvailableKey(s[j]);
  }

  // ---------------------------------------------------------------------
  // Assignments that gate the level

  /** Kanji and radicals not yet at Guru. */
  predicate IsLevelUpAssignment(a: Assignment)
  {
    a.subjectType != Vocabulary && a.srsStage <= 4
  }

  function LevelUpAssignments(assignments: seq<Assignment>): (r: seq<Assignment>)
    ensures |r| <= |assignments|
  {
    if assignments == [] then []
    else (if IsLevelUpAssignment(assignments[0]) then [assignments[0]] else []) + LevelUpAssignments(assignments[1..])
  }

  /** The kept assignments are exactly the gating ones of the input. */
  lemma {:induction false} LevelUpAssignmentsExact(assignments: seq<Assignment>, a: Assignment)
    ensures a in LevelUpAssignments(assignments) <==> a in assignments && IsLevelUpAssignment(a)
  {
    if assignments != [] {
      LevelUpAssignmentsExact(assignments[1..], a);
      assert a in assignments <==> a == assignments[0] || a in assignments[1..];
    }
  }

  function OfSubjectType(assignments: seq<Assignment>, t: SubjectType): (r: seq<Assignment>)
    ensures |r| <= |assignments|
  {
    if assignments == [] then []
    else (if assignments[0].subjectType == t then [assignments[0]] else []) + OfSubjectType(assignments[1..], t)
  }

  /** A group holds exactly the elements of its subject type. */
  lemma {:induction false} OfSubjectTypeExact(assignments: seq<Assignment>, t: SubjectType, a: Assignment)
    ensures a in OfSubjectType(assignments, t) <==> a in assignments && a.subjectType == t
  {
    if assignments != [] {
      OfSubjectTypeExact(assignments[1..], t, a);
      assert a in assignments <==> a == assignments[0] || a in assignments[1..];
    }
  }

  /** Without vocabulary, the kanji and the radical groups together hold
      every element once. */
  lemma {:induction false} KanjiAndRadicalsSplit(assignments: seq<Assignment>)
    requires forall k :: 0 <= k < |assignments| ==> assignments[k].subjectType != Vocabulary
    ensures |OfSubjectType(assignments, Kanji)| + |OfSubjectType(assignments, Radical)| == |assignments|
  {
    if assignments != [] {
      KanjiAndRadicalsSplit(assignments[1..]);
    }
  }

  /** Keeps the gating assignments and pushes each onto the group named by
      its subject type; the groups start as `{kanji: [], radical: []}`. */
  method PartitionAssignments(assignments: seq<Assignment>)
    returns (kanjiAssignments: seq<Assignment>, radicalAssignments: seq<Assignment>)
    ensures kanjiAssignments == OfSubjectType(LevelUpAssignments(assignments), Kanji)
    ensures radicalAssignments == OfSubjectType(LevelUpAssignments(assignments), Radical)
    ensures |kanjiAssignments| + |radicalAssignments| == |LevelUpAssignments(assignments)|
  {
    var kept := LevelUpAssignments(assignments);
    var groups: map<SubjectType, seq<Assignment>> := map[Kanji := [], Radical := []];
    for k := 0 to |kept|
      invariant groups.Keys == {Kanji, Radical}
      invariant groups[Kanji] == OfSubjectType(kept[..k], Kanji)
      invariant groups[Radical] == OfSubjectType(kept[..k], Radical)
    {
      var currentObj := kept[k];
      assert currentObj in kept;
      LevelUpAssignmentsExact(assignments, currentObj);
      OfSubjectTypeSnoc(kept[..k], currentObj, Kanji);
      OfSubjectTypeSnoc(kept[..k], currentObj, Radical);
      assert kept[..k + 1] == kept[..k] + [currentObj];
      groups := groups[currentObj.subjectType := groups[currentObj.subjectType] + [currentObj]];
    }
    assert kept[..|kept|] == kept;
    kanjiAssignments := groups[Kanji];
    radicalAssignments := groups[Radical];
    forall k | 0 <= k < |kept| ensures kept[k].subjectType != Vocabulary {
      assert kept[k] in kept;
      LevelUpAssignmentsExact(assignments, kept[k]);
    }
    KanjiAndRadicalsSplit(kept);
  }

  lemma {:induction false} OfSubjectTypeSnoc(s: seq<Assignment>, x: Assignment, t: SubjectType)
    ensures OfSubjectType(s + [x], t) == OfSubjectType(s, t) + (if x.subjectType == t then [x] else [])
  {
    if s == [] {
      assert s + [x] == [x];
      assert [x][1..] == [];
    } else {
      assert (s + [x])[1..] == s[1..] + [x];
      OfSubjectTypeSnoc(s[1..], x, t);
    }
  }

  // ---------------------------------------------------------------------
  // Subjects of the current level

  /** The payloads of the wrapped subjects of type `t` on `currentLevel`;
      vocabulary never counts, and an unknown current level matches none. */
  function CurrentLevelSubjects(subjects: seq<SubjectWrapper>, currentLevel: Option<int>, t: SubjectType)
    : (r: seq<SubjectData>)
    ensures |r| <= |subjects|
    ensures r != [] ==> t != Vocabulary && currentLevel.Some?
  {
    if subjects == [] then []
    else
      var w := subjects[0];
      (if w.objectType != Vocabulary && w.objectType == t && currentLevel == Some(w.data.level) then [w.data] else [])
        + CurrentLevelSubjects(subjects[1..], currentLevel, t)
  }

  /** The kept payloads are exactly those of the input's subjects of type
      `t` on the current level. */
  lemma {:induction false} CurrentLevelSubjectsExact(subjects: seq<SubjectWrapper>, currentLevel: Option<int>, t: SubjectType, d: SubjectData)
    ensures d in CurrentLevelSubjects(subjects, currentLevel, t) <==>
      t != Vocabulary && currentLevel == Some(d.level)
      && exists i :: 0 <= i < |subjects| && subjects[i].objectType == t && subjects[i].data == d
  {
    if subjects != [] {
      CurrentLevelSubjectsExact(subjects[1..], currentLevel, t, d);
      assert forall i :: 1 <= i < |subjects| ==> subjects[i] == subjects[1..][i - 1];
      if d in CurrentLevelSubjects(subjects[1..], currentLevel, t) {
        var i :| 0 <= i < |subjects[1..]| && subjects[1..][i].objectType == t && subjects[1..][i].data == d;
        assert subjects[i + 1] == subjects[1..][i];
      }
    }
  }

  function NonVocabulary(subjects: seq<SubjectWrapper>): (r: seq<SubjectWrapper>)
    ensures |r| <= |subjects|
  {
    if subjects == [] then []
    else (if subjects[0].objectType != Vocabulary then [subjects[0]] else []) + NonVocabulary(subjects[1..])
  }

  lemma {:induction false} NonVocabularySnoc(s: seq<SubjectWrapper>, w: SubjectWrapper)
    ensures NonVocabulary(s + [w]) == NonVocabulary(s) + (if w.objectType != Vocabulary then [w] else [])
  {
    if s == [] {
      assert s + [w] == [w];
      assert [w][1..] == [];
    } else {
      assert (s + [w])[1..] == s[1..] + [w];
      NonVocabularySnoc(s[1..], w);
    }
  }

  lemma {:induction false} CurrentLevelSubjectsSnoc(s: seq<SubjectWrapper>, w: SubjectWrapper, currentLevel: Option<int>, t: SubjectType)
    ensures CurrentLevelSubjects(s + [w], currentLevel, t)
      == CurrentLevelSubjects(s, currentLevel, t)
         + (if w.objectType != Vocabulary && w.objectType == t && currentLevel == Some(w.data.level) then [w.data] else [])
  {
    if s == [] {
      assert s + [w] == [w];
      assert [w][1..] == [];
    } else {
      assert (s + [w])[1..] == s[1..] + [w];
      CurrentLevelSubjectsSnoc(s[1..], w, currentLevel, t);
    }
  }

  /** Dropping vocabulary first changes nothing about the current level's
      kanji and radicals. */
  lemma {:induction false} NonVocabularyKeepsLevelSubjects(subjects: seq<SubjectWrapper>, currentLevel: Option<int>, t: SubjectType)
    ensures CurrentLevelSubjects(NonVocabulary(subjects), currentLevel, t) == CurrentLevelSubjects(subjects, currentLevel, t)
  {
    if subjects != [] {
      NonVocabularyKeepsLevelSubjects(subjects[1..], currentLevel, t);
      var w := subjects[0];
      var rest := NonVocabulary(subjects[1..]);
      if w.objectType != Vocabulary {
        assert NonVocabulary(subjects) == [w] + rest;
        assert ([w] + rest)[0] == w && ([w] + rest)[1..] == rest;
        assert CurrentLevelSubjects([w] + rest, currentLevel, t)
          == (if w.objectType == t && currentLevel == Some(w.data.level) then [w.data] else [])
             + CurrentLevelSubjects(rest, currentLevel, t);
      } else {
        assert NonVocabulary(subjects) == rest;
        assert CurrentLevelSubjects(subjects, currentLevel, t) == CurrentLevelSubjects(subjects[1..], currentLevel, t);
      }
    }
  }

  /** Drops vocabulary, then pushes each subject of the current level onto
      the group named by its `object` and unwraps both groups. */
  method GroupCurrentLevelSubjects(subjects: seq<SubjectWrapper>, currentLevel: Option<int>)
    returns (kanjiSubjects: seq<SubjectData>, radicalSubjects: seq<SubjectData>)
    ensures kanjiSubjects == CurrentLevelSubjects(subjects, currentLevel, Kanji)
    ensures radicalSubjects == CurrentLevelSubjects(subjects, currentLevel, Radical)
  {
    var candidates := NonVocabulary(subjects);
    var groups: map<SubjectType, seq<SubjectData>> := map[Kanji := [], Radical := []];
    for k := 0 to |candidates|
      invariant groups.Keys == {Kanji, Radical}
      invariant groups[Kanji] == CurrentLevelSubjects(candidates[..k], currentLevel, Kanji)
      invariant groups[Radical] == CurrentLevelSubjects(candidates[..k], currentLevel, Radical)
    {
      var currentObj := candidates[k];
      NonVocabularyMember(subjects, k);
      CurrentLevelSubjectsSnoc(candidates[..k], currentObj, currentLevel, Kanji);
      CurrentLevelSubjectsSnoc(candidates[..k], currentObj, currentLevel, Radical);
      assert candidates[..k + 1] == candidates[..k] + [currentObj];
      if currentLevel == Some(currentObj.data.level) {
        groups := groups[currentObj.objectType := groups[currentObj.objectType] + [currentObj.data]];
      }
    }
    assert candidates[..|candidates|] == candidates;
    NonVocabularyKeepsLevelSubjects(subjects, currentLevel, Kanji);
    NonVocabularyKeepsLevelSubjects(subjects, currentLevel, Radical);
    kanjiSubjects := groups[Kanji];
    radicalSubjects := groups[Radical];
  }

  lemma {:induction false} NonVocabularyMember(subjects: seq<SubjectWrapper>, k: int)
    requires 0 <= k < |NonVocabulary(subjects)|
    ensures NonVocabulary(subjects)[k].objectType != Vocabulary
  {
    if subjects[0].objectType != Vocabulary && k == 0 {
    } else if subjects[0].objectType != Vocabulary {
      NonVocabularyMember(subjects[1..], k - 1);
    } else {
      NonVocabularyMember(subjects[1..], k);
    }
  }

  /** The number of kanji that must reach Guru: 90 % of the level's kanji,
      rounded up. */
  function LevelUpRequirement(kanjiCount: nat): (r: nat)
    ensures 10 * r >= 9 * kanjiCount
    ensures r == 0 || 10 * (r - 1) < 9 * kanjiCount
    ensures r <= kanjiCount
  {
    (9 * kanjiCount + 9) / 10
  }

  /** The requirement is the least count with 10 * count >= 9 * kanjiCount. */
  lemma RequirementIsLeast(kanjiCount: nat, m: nat)
    requires 10 * m >= 9 * kanjiCount
    ensures LevelUpRequirement(kanjiCount) <= m
  {
  }

  // ---------------------------------------------------------------------
  // SRS buckets

  function StageKey(a: Assignment): (r: real)
  {
    a.srsStage as real
  }

  /** The keys of the bucket map, one per stage below Guru. */
  const BucketStages: set<int> := {0, 1, 2, 3, 4}

  /** `groupBySrsStage` over fresh buckets: each assignment is appended to
      the bucket of its stage. */
  method GroupBySrsStage(assignments: seq<Assignment>) returns (buckets: map<int, seq<Assignment>>)
    requires forall k :: 0 <= k < |assignments| ==> assignments[k].srsStage <= 4
    ensures buckets.Keys == BucketStages
    ensures forall s :: s in buckets ==> buckets[s] == WithKey(assignments, StageKey, s as real)
  {
    buckets := map[0 := [], 1 := [], 2 := [], 3 := [], 4 := []];
    for k := 0 to |assignments|
      invariant buckets.Keys == BucketStages
      invariant forall s :: s in buckets ==> buckets[s] == WithKey(assignments[..k], StageKey, s as real)
    {
      var currentAssignment := assignments[k];
      assert assignments[..k + 1] == assignments[..k] + [currentAssignment];
      ghost var before := buckets;
      buckets := buckets[currentAssignment.srsStage := buckets[currentAssignment.srsStage] + [currentAssignment]];
      forall s | s in buckets ensures buckets[s] == WithKey(assignments[..k + 1], StageKey, s as real) {
        WithKeySnoc(assignments[..k], currentAssignment, StageKey, s as real);
        assert before[s] == WithKey(assignments[..k], StageKey, s as real);
      }
    }
    assert assignments[..|assignments|] == assignments;
  }

  /** Buckets of a list sorted by availability are sorted by availability;
      each element is in the bucket of its own stage and in no other. */
  lemma BucketsSortedAndExact(assignments: seq<Assignment>, s: int, a: Assignment)
    requires SortedBy(assignments, AvailableKey)
    ensures SortedBy(WithKey(assignments, StageKey, s as real), AvailableKey)
    ensures a in WithKey(assignments, StageKey, s as real) <==> a in assignments && a.srsStage == s
  {
    WithKeyKeepsSorted(assignments, StageKey, AvailableKey, s as real);
    if a in WithKey(assignments, StageKey, s as real) {
      WithKeyMember(assignments, StageKey, s as real, a);
    }
    if a in assignments && a.srsStage == s {
      WithKeyComplete(assignments, StageKey, a);
    }
  }

  // ---------------------------------------------------------------------
  // The shared buckets as written

  /** A JavaScript array of assignments, shared by reference. */
  class AssignmentList {
    var items: seq<Assignment>

    constructor ()
      ensures items == []
    {
      items := [];
    }

    method Push(a: Assignment)
      modifies this
      ensures items == old(items) + [a]
    {
      items := items + [a];
    }
  }

  /** One reducer step as written: push into the shared list of the
      assignment's stage; the other lists are distinct and keep their items. */
  method PushIntoSharedBucket(buckets: map<int, AssignmentList>, a: Assignment)
    requires buckets.Keys == BucketStages
    requires forall s, t :: s in buckets && t in buckets && s != t ==> buckets[s] != buckets[t]
    requires a.srsStage <= 4
    modifies buckets.Values
    ensures forall s :: s in buckets ==>
      buckets[s].items == old(buckets[s].items) + (if StageKey(a) == s as real then [a] else [])
  {
    buckets[a.srsStage].Push(a);
  }

  /** `groupBySrsStage` as written, reducing into a bucket map whose five
      lists are the module-level ones: each push lands in a shared list. */
  method GroupIntoSharedBuckets(buckets: map<int, AssignmentList>, assignments: seq<Assignment>)
    requires buckets.Keys == BucketStages
    requires forall s, t :: s in buckets && t in buckets && s != t ==> buckets[s] != buckets[t]
    requires forall k :: 0 <= k < |assignments| ==> assignments[k].srsStage <= 4
    modifies buckets.Values
    ensures forall s :: s in buckets ==>
      buckets[s].items == old(buckets[s].items) + WithKey(assignments, StageKey, s as real)
  {
    for k := 0 to |assignments|
      invariant forall s :: s in buckets ==>
        buckets[s].items == old(buckets[s].items) + WithKey(assignments[..k], StageKey, s as real)
    {
      var currentAssignment := assignments[k];
      assert assignments[..k + 1] == assignments[..k] + [currentAssignment];
      label BeforePush:
      PushIntoSharedBucket(buckets, currentAssignment);
      forall s | s in buckets
        ensures buckets[s].items == old(buckets[s].items) + WithKey(assignments[..k + 1], StageKey, s as real)
      {
        BucketGrows(old(buckets[s].items), old@BeforePush(buckets[s].items), buckets[s].items,
                    assignments[..k], currentAssignment, s);
      }
    }
    assert assignments[..|assignments|] == assignments;
  }

  /** One push extends a bucket's selection by the pushed assignment. */
  lemma BucketGrows(initial: seq<Assignment>, before: seq<Assignment>, after: seq<Assignment>,
                    prefix: seq<Assignment>, a: Assignment, s: int)
    requires before == initial + WithKey(prefix, StageKey, s as real)
    requires after == before + (if StageKey(a) == s as real then [a] else [])
    ensures after == initial + WithKey(prefix + [a], StageKey, s as real)
  {
    WithKeySnoc(prefix, a, StageKey, s as real);
  }

  /** Both groupings as written: the shallow copy `Object.assign({},
      SRS_BUCKETS)` holds the same five lists, so kanji and radicals end up
      in one set of buckets, after whatever earlier calls left there. */
  method GroupBothAsWritten(srsBuckets: map<int, AssignmentList>,
                            kanjiAssignments: seq<Assignment>, radicalAssignments: seq<Assignment>)
    returns (kanjiBySrsStage: map<int, AssignmentList>, radicalsBySrsStage: map<int, AssignmentList>)
    requires srsBuckets.Keys == BucketStages
    requires forall s, t :: s in srsBuckets && t in srsBuckets && s != t ==> srsBuckets[s] != srsBuckets[t]
    requires forall k :: 0 <= k < |kanjiAssignments| ==> kanjiAssignments[k].srsStage <= 4
    requires forall k :: 0 <= k < |radicalAssignments| ==> radicalAssignments[k].srsStage <= 4
    modifies srsBuckets.Values
    ensures kanjiBySrsStage == srsBuckets && radicalsBySrsStage == srsBuckets
    ensures forall s :: s in srsBuckets ==>
      srsBuckets[s].items == old(srsBuckets[s].items)
        + WithKey(kanjiAssignments, StageKey, s as real)
        + WithKey(radicalAssignments, StageKey, s as real)
  {
    kanjiBySrsStage := map s | s in srsBuckets :: srsBuckets[s];
    GroupIntoSharedBuckets(kanjiBySrsStage, kanjiAssignments);
    radicalsBySrsStage := map s | s in srsBuckets :: srsBuckets[s];
    GroupIntoSharedBuckets(radicalsBySrsStage, radicalAssignments);
  }

  /** `SRS_BUCKETS`: five distinct, empty lists for the stages 0 to 4. */
  method NewSrsBuckets() returns (srsBuckets: map<int, AssignmentList>)
    ensures srsBuckets.Keys == BucketStages
    ensures forall s, t :: s in srsBuckets && t in srsBuckets && s != t ==> srsBuckets[s] != srsBuckets[t]
    ensures forall s :: s in srsBuckets ==> fresh(srsBuckets[s]) && srsBuckets[s].items == []
  {
    var b0 := new AssignmentList();
    var b1 := new AssignmentList();
    var b2 := new AssignmentList();
    var b3 := new AssignmentList();
    var b4 := new AssignmentList();
    srsBuckets := map[0 := b0, 1 := b1, 2 := b2, 3 := b3, 4 := b4];
  }

  /** One kanji and one radical, both at Apprentice I, grouped twice over
      the shared buckets: the kanji grouping's stage-1 bucket holds the
      radical after the first call and everything twice after the second. */
  method SharedBucketsMixKinds() returns (afterFirstCall: seq<Assignment>, afterSecondCall: seq<Assignment>)
    ensures afterFirstCall == [Assignment(1, Kanji, 1, Some(0)), Assignment(2, Radical, 1, Some(0))]
    ensures afterSecondCall == afterFirstCall + afterFirstCall
  {
    var srsBuckets := NewSrsBuckets();
    var kanji := Assignment(1, Kanji, 1, Some(0));
    var radical := Assignment(2, Radical, 1, Some(0));
    WithKeySingleton(kanji, StageKey, 1.0);
    WithKeySingleton(radical, StageKey, 1.0);
    assert srsBuckets[1].items == [];
    var kanjiBySrsStage, radicalsBySrsStage := GroupBothAsWritten(srsBuckets, [kanji], [radical]);
    assert srsBuckets[1].items == [] + [kanji] + [radical];
    afterFirstCall := kanjiBySrsStage[1].items;
    kanjiBySrsStage, radicalsBySrsStage := GroupBothAsWritten(srsBuckets, [kanji], [radical]);
    assert srsBuckets[1].items == afterFirstCall + [kanji] + [radical];
    afterSecondCall := kanjiBySrsStage[1].items;
  }

  // ---------------------------------------------------------------------
  // The preparation

  /** What `calculateFastestLevelUpTime` computes before it ends (it returns
      nothing; these are the values it builds). */
  datatype LevelUpPreparation = LevelUpPreparation(
    kanjiAssignments: seq<Assignment>,
    radicalAssignments: seq<Assignment>,
    kanjiSubjects: seq<SubjectData>,
    radicalSubjects: seq<SubjectData>,
    levelUpRequirement: nat,
    kanjiBySrsStage: map<int, seq<Assignment>>,
    radicalsBySrsStage: map<int, seq<Assignment>>)

  /** Sorts a group of assignments in place by availability. */
  method SortAssignmentsByAvailable(group: seq<Assignment>) returns (sorted: seq<Assignment>)
    ensures sorted == StableSort(group, AvailableKey)
    ensures SortedBy(sorted, AvailableKey) && multiset(sorted) == multiset(group)
  {
    var a := new Assignment[|group|](i requires 0 <= i < |group| => group[i]);
    assert a[..] == group;
    SortByKey(a, AvailableKey);
    sorted := a[..];
    StableSortCorrect(group, AvailableKey);
  }

  /** The preparation, with fresh buckets per grouping. Missing inputs stop
      it before anything is computed. */
  method CalculateFastestLevelUpTime(
    levelUpAssignments: Option<seq<Assignment>>, subjects: Option<seq<SubjectWrapper>>, currentLevel: Option<int>)
    returns (r: Option<LevelUpPreparation>)
    ensures r.None? <==> levelUpAssignments.None? || subjects.None?
    ensures r.Some? ==>
      var p := r.value;
      && p.kanjiAssignments == StableSort(OfSubjectType(LevelUpAssignments(levelUpAssignments.value), Kanji), AvailableKey)
      && p.radicalAssignments == StableSort(OfSubjectType(LevelUpAssignments(levelUpAssignments.value), Radical), AvailableKey)
      && p.kanjiSubjects == CurrentLevelSubjects(subjects.value, currentLevel, Kanji)
      && p.radicalSubjects == CurrentLevelSubjects(subjects.value, currentLevel, Radical)
      && p.levelUpRequirement == LevelUpRequirement(|p.kanjiSubjects|)
      && p.kanjiBySrsStage.Keys == BucketStages && p.radicalsBySrsStage.Keys == BucketStages
      && (forall s :: s in p.kanjiBySrsStage ==>
            p.kanjiBySrsStage[s] == WithKey(p.kanjiAssignments, StageKey, s as real))
      && (forall s :: s in p.radicalsBySrsStage ==>
            p.radicalsBySrsStage[s] == WithKey(p.radicalAssignments, StageKey, s as real))
  {
    if levelUpAssignments.None? || subjects.None? {
      return None;
    }
    var kanjiAssignments, radicalAssignments := PartitionAssignments(levelUpAssignments.value);
    var kanjiSubjects, radicalSubjects := GroupCurrentLevelSubjects(subjects.value, currentLevel);
    var levelUpRequirement := LevelUpRequirement(|kanjiSubjects|);
    kanjiAssignments := SortAssignmentsByAvailable(kanjiAssignments);
    radicalAssignments := SortAssignmentsByAvailable(radicalAssignments);
    StagesBelowGuru(levelUpAssignments.value, Kanji, kanjiAssignments);
    StagesBelowGuru(levelUpAssignments.value, Radical, radicalAssignments);
    var kanjiBySrsStage := GroupBySrsStage(kanjiAssignments);
    var radicalsBySrsStage := GroupBySrsStage(radicalAssignments);
    r := Some(LevelUpPreparation(kanjiAssignments, radicalAssignments, kanjiSubjects, radicalSubjects,
      levelUpRequirement, kanjiBySrsStage, radicalsBySrsStage));
  }

  lemma StagesBelowGuru(assignments: seq<Assignment>, t: SubjectType, sorted: seq<Assignment>)
    requires multiset(sorted) == multiset(OfSubjectType(LevelUpAssignments(assignments), t))
    ensures forall k :: 0 <= k < |sorted| ==> sorted[k].srsStage <= 4
  {
    forall k | 0 <= k < |sorted| ensures sorted[k].srsStage <= 4 {
      var a := sorted[k];
      assert a in multiset(sorted);
      assert a in OfSubjectType(LevelUpAssignments(assignments), t);
      OfSubjectTypeExact(LevelUpAssignments(assignments), t, a);
      LevelUpAssignmentsExact(assignments, a);
    }
  }

  // ---------------------------------------------------------------------
  // The Case A plan, derived from the comments only

  /** The kanji in the order the plan visits them: stage Guru - 1 first,
      down to Apprentice I, each bucket in availability order. */
  function PlanOrder(buckets: map<int, seq<Assignment>>, stage: int): (r: seq<Assignment>)
    requires BucketStages <= buckets.Keys && 0 <= stage <= 4
    decreases stage
  {
    if stage == 0 then [] else buckets[stage] + PlanOrder(buckets, stage - 1)
  }

  /** The position, in visiting order, of the kanji whose count (on top of
      the `guruedSoFar` kanji already at Guru) first reaches the requirement;
      the first kanji when the requirement is already met. */
  function PlanIndex(levelUpRequirement: nat, guruedSoFar: nat): (r: nat)
    ensures guruedSoFar + r + 1 >= levelUpRequirement
    ensures r > 0 ==> guruedSoFar + r < levelUpRequirement
  {
    if levelUpRequirement <= guruedSoFar then 0 else levelUpRequirement - guruedSoFar - 1
  }

  /** The plan's total: the wait until the kanji at `PlanIndex`, or 0 when
      there are too few kanji below Guru. */
  function CaseATotal(buckets: map<int, seq<Assignment>>, levelUpRequirement: nat, guruedSoFar: nat,
                      now: Instant): (r: int)
    requires BucketStages <= buckets.Keys
  {
    var order := PlanOrder(buckets, Constants.GuruStage - 1);
    var k := PlanIndex(levelUpRequirement, guruedSoFar);
    if k < |order| then AvailableAt(order[k]) - now else 0
  }

  /** The commented plan as a loop: start the count at the kanji already at
      Guru, walk the stages from Guru - 1 down to Apprentice I and the kanji
      of each in order, counting them; at the one whose count reaches the
      requirement, add its wait and stop. */
  method CaseAPlanFromComments(kanjiBySrsStage: map<int, seq<Assignment>>, levelUpRequirement: nat,
                               guruedSoFar: nat, now: Instant)
    returns (totalRequiredTime: int)
    requires BucketStages <= kanjiBySrsStage.Keys
    ensures totalRequiredTime == CaseATotal(kanjiBySrsStage, levelUpRequirement, guruedSoFar, now)
  {
    ghost var order := PlanOrder(kanjiBySrsStage, 4);
    ghost var target := PlanIndex(levelUpRequirement, guruedSoFar);
    ghost var seen: seq<Assignment> := [];
    totalRequiredTime := 0;
    var kanjiGuruedSoFar := guruedSoFar;
    var stage := Constants.GuruStage - 1;
    while stage >= 1
      invariant 0 <= stage <= 4
      invariant seen + PlanOrder(kanjiBySrsStage, stage) == order
      invariant kanjiGuruedSoFar == guruedSoFar + |seen| && |seen| <= target
      invariant totalRequiredTime == 0
    {
      var bucket := kanjiBySrsStage[stage];
      ghost var later := PlanOrder(kanjiBySrsStage, stage - 1);
      StartBucket(seen, bucket, later);
      var j := 0;
      while j < |bucket|
        invariant 0 <= j <= |bucket|
        invariant seen + bucket[j..] + later == order
        invariant kanjiGuruedSoFar == guruedSoFar + |seen| && |seen| <= target
        invariant totalRequiredTime == 0
      {
        var potentialTime := AvailableAt(bucket[j]) - now;
        Advance(seen, bucket, j, later);
        kanjiGuruedSoFar := kanjiGuruedSoFar + 1;
        if kanjiGuruedSoFar >= levelUpRequirement {
          ReachRequirement(order, seen, bucket, j, later, levelUpRequirement, guruedSoFar);
          totalRequiredTime := totalRequiredTime + potentialTime;
          return;
        }
        seen := seen + [bucket[j]];
        j := j + 1;
      }
      FinishBucket(seen, bucket, later);
      stage := stage - 1;
    }
    assert seen == order;
  }

  /** The kanji that brings the count to the requirement is the one at
      `PlanIndex` in the visiting order. */
  lemma ReachRequirement<T>(order: seq<T>, seen: seq<T>, bucket: seq<T>, j: int, later: seq<T>,
                            requirement: nat, guruedSoFar: nat)
    requires 0 <= j < |bucket|
    requires seen + bucket[j..] + later == order
    requires |seen| <= PlanIndex(requirement, guruedSoFar) && guruedSoFar + |seen| + 1 >= requirement
    ensures PlanIndex(requirement, guruedSoFar) < |order| && order[PlanIndex(requirement, guruedSoFar)] == bucket[j]
  {
    assert |seen| == PlanIndex(requirement, guruedSoFar);
    assert (seen + bucket[j..] + later)[|seen|] == bucket[j];
  }

  lemma StartBucket<T>(seen: seq<T>, bucket: seq<T>, later: seq<T>)
    ensures seen + (bucket + later) == seen + bucket[0..] + later
  {
    assert bucket[0..] == bucket;
  }

  lemma Advance<T>(seen: seq<T>, bucket: seq<T>, j: int, later: seq<T>)
    requires 0 <= j < |bucket|
    ensures (seen + bucket[j..] + later)[|seen|] == bucket[j]
    ensures seen + bucket[j..] + later == (seen + [bucket[j]]) + bucket[j + 1..] + later
  {
    assert bucket[j..] == [bucket[j]] + bucket[j + 1..];
  }

  lemma FinishBucket<T>(seen: seq<T>, bucket: seq<T>, later: seq<T>)
    ensures seen + bucket[|bucket|..] + later == seen + later
  {
    assert bucket[|bucket|..] == [];
  }
}
