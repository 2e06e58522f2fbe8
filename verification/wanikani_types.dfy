/** The WaniKani API records the projection code reads, reduced to the fields
    it uses. Timestamps are epoch milliseconds; ISO-8601 parsing happens at the
    boundary and is not part of this model. */
module WaniKaniTypes {
  import opened Wrappers

  /** Epoch milliseconds. */
  type Instant = int

  /** One level the user has entered (`LevelProgression`). */
  datatype LevelProgression = LevelProgression(
    level: int,
    createdAt: Instant,
    startedAt: Option<Instant>,
    unlockedAt: Option<Instant>,
    passedAt: Option<Instant>,
    completedAt: Option<Instant>,
    abandonedAt: Option<Instant>)

  /** A user-initiated rollback from `originalLevel` to `targetLevel` (`Reset`). */
  datatype Reset = Reset(
    createdAt: Instant,
    originalLevel: int,
    targetLevel: int,
    confirmedAt: Instant)

  datatype SubjectType = Radical | Kanji | Vocabulary

  /** SRS stages run from 0 (Initiate) to 9 (Burned). */
  type SrsStage = s: int | 0 <= s <= 9

  /** An assignment: the user's SRS state for one subject. A missing
      `availableAt` means the subject still sits in the lesson queue. */
  datatype Assignment = Assignment(
    subjectId: int,
    subjectType: SubjectType,
    srsStage: SrsStage,
    availableAt: Option<Instant>)

  /** The payload of a subject. */
  datatype SubjectData = SubjectData(id: int, level: int)

  /** A subject as the collection endpoint delivers it: the `object` field
      names its type, `data` holds the payload. */
  datatype SubjectWrapper = SubjectWrapper(objectType: SubjectType, data: SubjectData)
}
