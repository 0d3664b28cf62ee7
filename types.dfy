/** The persisted records. Timestamps are opaque strings supplied by the caller. */
module Types {
  import opened Wrappers

  datatype MediaType = Video | Audio | Pdf

  /** Playback offset (ms) or page reached in one lesson or book. */
  datatype MediaProgress = MediaProgress(
    lessonId: string,
    position: real,
    duration: Option<real>,
    lastUpdated: string,
    mediaType: MediaType)

  /** Completion record of one course. */
  datatype CourseProgress = CourseProgress(
    courseId: string,
    courseName: string,
    totalLessons: int,
    completedLessons: seq<string>,
    lastUpdated: string,
    notificationSent: bool)

  /** A downloadable lesson; `size` is display text such as "25 MB". */
  datatype Lesson = Lesson(id: string, title: string, mediaType: MediaType, size: string)

  datatype DownloadedCourse = DownloadedCourse(id: string, title: string, lessons: seq<Lesson>, downloadedAt: string)

  datatype DownloadedBook = DownloadedBook(id: string, title: string, author: string, downloadedAt: string)

  /** No string occurs twice (lesson ids, store keys). */
  predicate NoDuplicates(s: seq<string>) {
    forall i, j :: 0 <= i < j < |s| ==> s[i] != s[j]
  }
}
