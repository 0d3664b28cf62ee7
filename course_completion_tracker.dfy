/**
 * Course completion tracker: one `CourseProgress` record per course under
 * "course_progress_" + courseId. Completed lesson ids are appended without
 * duplicates; the first call that finds the course complete sends the
 * completion notification once and flags the record. Store failures are
 * swallowed: reads yield "no record", a failed write makes
 * `markLessonCompleted` answer false.
 */
module CourseCompletionTracker {
  import opened Wrappers
  import opened Types
  import opened KeyValue
  import opened Notifications
  import opened JsMath
  import NotificationService
  import AppConstants

  function CourseKey(courseId: string): string {
    AppConstants.CourseProgressPrefix + courseId
  }

  /** The record `getCourseProgress` yields from a store that answers. */
  function CourseAt(entries: map<string, Value>, courseId: string): (r: Option<CourseProgress>)
    ensures r.Some? <==> CourseKey(courseId) in entries && entries[CourseKey(courseId)].Course?
    ensures r.Some? ==> entries[CourseKey(courseId)] == Course(r.value)
  {
    var key := CourseKey(courseId);
    if key in entries && entries[key].Course? then Some(entries[key].course) else None
  }

  /** The zero-progress record a course starts from. */
  function FreshProgress(courseId: string, courseName: string, totalLessons: int, now: string): CourseProgress {
    CourseProgress(courseId, courseName, totalLessons, [], now, false)
  }

  /** The record `markLessonCompleted` works on: the stored one, or a fresh one built from its arguments. */
  function Loaded(existing: Option<CourseProgress>, courseId: string, courseName: string, totalLessons: int, now: string): (p: CourseProgress)
    ensures existing.Some? ==> p == existing.value
    ensures existing.None? ==>
      && p.courseId == courseId && p.courseName == courseName && p.totalLessons == totalLessons
      && p.completedLessons == [] && p.lastUpdated == now && !p.notificationSent
  {
    if existing.Some? then existing.value else FreshProgress(courseId, courseName, totalLessons, now)
  }

  /** What one `markLessonCompleted` call decides: the record it saves (if any), whether it notifies, what it returns. */
  datatype MarkResult = MarkResult(saved: Option<CourseProgress>, notify: bool, complete: bool)

  /**
   * The decision of `markLessonCompleted` on the record it read. Completion is
   * measured against the caller's `totalLessons`, not the stored one.
   */
  function MarkLesson(existing: Option<CourseProgress>, courseId: string, courseName: string, lessonId: string,
                      totalLessons: int, now: string): (m: MarkResult)
    // an already completed lesson writes nothing and reports the current state
    ensures var p := Loaded(existing, courseId, courseName, totalLessons, now);
      lessonId in p.completedLessons ==> m == MarkResult(None, false, |p.completedLessons| >= totalLessons)
    // a new lesson is appended at the end; the record is otherwise kept
    ensures var p := Loaded(existing, courseId, courseName, totalLessons, now);
      lessonId !in p.completedLessons ==>
        && m.saved.Some?
        && m.saved.value.completedLessons == p.completedLessons + [lessonId]
        && (m.complete <==> |m.saved.value.completedLessons| >= totalLessons)
        && m.saved.value.courseId == p.courseId
        && m.saved.value.courseName == p.courseName
        && m.saved.value.totalLessons == p.totalLessons
        && m.saved.value.lastUpdated == now
    // the notification goes out once: on completion, while the flag is down; the flag then stays up
    ensures var p := Loaded(existing, courseId, courseName, totalLessons, now);
      && (m.notify <==> m.saved.Some? && m.complete && !p.notificationSent)
      && (m.saved.Some? ==> (m.saved.value.notificationSent <==> p.notificationSent || m.notify))
    ensures var p := Loaded(existing, courseId, courseName, totalLessons, now);
      NoDuplicates(p.completedLessons) && m.saved.Some? ==> NoDuplicates(m.saved.value.completedLessons)
  {
    var p := Loaded(existing, courseId, courseName, totalLessons, now);
    if lessonId in p.completedLessons then
      MarkResult(None, false, |p.completedLessons| >= totalLessons)
    else
      var completed := p.completedLessons + [lessonId];
      var complete := |completed| >= totalLessons;
      var notify := complete && !p.notificationSent;
      MarkResult(Some(p.(completedLessons := completed, lastUpdated := now, notificationSent := p.notificationSent || notify)),
                 notify, complete)
  }

  /**
   * `getCourseCompletionPercentage` on the record read: 0 without a record or
   * with zero lessons, otherwise the rounded share of completed lessons.
   */
  function CompletionPercentage(progress: Option<CourseProgress>): (pct: int)
    ensures progress.None? || progress.value.totalLessons == 0 ==> pct == 0
    ensures progress.Some? && progress.value.totalLessons != 0 ==>
      var ratio := |progress.value.completedLessons| as real / progress.value.totalLessons as real * 100.0;
      pct as real - 0.5 <= ratio < pct as real + 0.5
    ensures progress.Some? && |progress.value.completedLessons| <= progress.value.totalLessons ==> 0 <= pct <= 100
  {
    if progress.None? || progress.value.totalLessons == 0 then 0
    else
      var done := |progress.value.completedLessons| as real;
      var total := progress.value.totalLessons as real;
      ShareInRange(done, total);
      Round(done / total * 100.0)
  }

  lemma ShareInRange(done: real, total: real)
    requires 0.0 <= done && total != 0.0
    ensures done <= total ==> 0 <= Round(done / total * 100.0) <= 100
  {
    if done <= total {
      assert 0.0 <= done / total <= 1.0;
      RoundWithin(done / total * 100.0, 0, 100);
    }
  }

  /** One `markLessonCompleted` call: the caller's course name, lesson, lesson count and clock reading. */
  datatype MarkCall = MarkCall(courseName: string, lessonId: string, totalLessons: int, now: string)

  /** The record after `Apply`ing one call; a call that writes nothing leaves it as it was. */
  function After(existing: Option<CourseProgress>, courseId: string, call: MarkCall): Option<CourseProgress> {
    var m := MarkLesson(existing, courseId, call.courseName, call.lessonId, call.totalLessons, call.now);
    if m.saved.Some? then m.saved else existing
  }

  /** The stored record after a run of `markLessonCompleted` calls on one course. */
  function Replay(existing: Option<CourseProgress>, courseId: string, calls: seq<MarkCall>): Option<CourseProgress>
    decreases |calls|
  {
    if calls == [] then existing else Replay(After(existing, courseId, calls[0]), courseId, calls[1..])
  }

  /** How many completion notifications a run of calls sends. */
  function CompletionNotices(existing: Option<CourseProgress>, courseId: string, calls: seq<MarkCall>): nat
    decreases |calls|
  {
    if calls == [] then 0
    else
      var c := calls[0];
      (if MarkLesson(existing, courseId, c.courseName, c.lessonId, c.totalLessons, c.now).notify then 1 else 0)
      + CompletionNotices(After(existing, courseId, c), courseId, calls[1..])
  }

  predicate NotificationSent(progress: Option<CourseProgress>) {
    progress.Some? && progress.value.notificationSent
  }

  /**
   * Over any run of calls the completion notification is sent at most once,
   * and never once the record is flagged; the flag never goes back down.
   */
  lemma {:induction false} NotifiesAtMostOnce(existing: Option<CourseProgress>, courseId: string, calls: seq<MarkCall>)
    ensures CompletionNotices(existing, courseId, calls) <= if NotificationSent(existing) then 0 else 1
    ensures NotificationSent(existing) ==> NotificationSent(Replay(existing, courseId, calls))
    decreases |calls|
  {
    if calls != [] {
      var next := After(existing, courseId, calls[0]);
      NotifiesAtMostOnce(next, courseId, calls[1..]);
    }
  }

  /**
   * A run of calls keeps every lesson already completed, in order, appends
   * only, and never introduces a duplicate.
   */
  lemma {:induction false} ReplayOnlyAppends(existing: Option<CourseProgress>, courseId: string, calls: seq<MarkCall>)
    requires existing.Some? ==> NoDuplicates(existing.value.completedLessons)
    ensures var r := Replay(existing, courseId, calls);
      existing.Some? ==> r.Some? && existing.value.completedLessons <= r.value.completedLessons
    ensures var r := Replay(existing, courseId, calls);
      r.Some? ==> NoDuplicates(r.value.completedLessons)
    decreases |calls|
  {
    if calls != [] {
      var next := After(existing, courseId, calls[0]);
      ReplayOnlyAppends(next, courseId, calls[1..]);
    }
  }

  /** The notification flag is up exactly when the course counts as complete against `n`. */
  predicate Consistent(progress: CourseProgress, n: int) {
    NoDuplicates(progress.completedLessons) && (progress.notificationSent <==> |progress.completedLessons| >= n)
  }

  /**
   * Marking new, distinct lessons against a fixed lesson count `n` sends the
   * completion notification exactly once if the run crosses `n`, else never.
   */
  lemma {:induction false} NotifiesWhenCrossing(existing: Option<CourseProgress>, courseId: string, calls: seq<MarkCall>, n: int)
    requires n >= 1
    requires forall i :: 0 <= i < |calls| ==> calls[i].totalLessons == n
    requires forall i, j :: 0 <= i < j < |calls| ==> calls[i].lessonId != calls[j].lessonId
    requires existing.Some? ==> Consistent(existing.value, n)
    requires existing.Some? ==> forall i :: 0 <= i < |calls| ==> calls[i].lessonId !in existing.value.completedLessons
    ensures var done := if existing.Some? then |existing.value.completedLessons| else 0;
      CompletionNotices(existing, courseId, calls) == if done < n <= done + |calls| then 1 else 0
    decreases |calls|
  {
    if calls != [] {
      var c := calls[0];
      var p := Loaded(existing, courseId, c.courseName, c.totalLessons, c.now);
      var next := After(existing, courseId, c);
      assert next.Some? && next.value.completedLessons == p.completedLessons + [c.lessonId];
      forall i | 0 <= i < |calls[1..]|
        ensures calls[1..][i].lessonId !in next.value.completedLessons
      {
        assert calls[1..][i] == calls[i + 1];
      }
      NotifiesWhenCrossing(next, courseId, calls[1..], n);
    }
  }

  /** From no record, marking `n` or more distinct lessons against `n` notifies exactly once. */
  lemma NotifiesExactlyOnce(courseId: string, calls: seq<MarkCall>, n: int)
    requires 1 <= n <= |calls|
    requires forall i :: 0 <= i < |calls| ==> calls[i].totalLessons == n
    requires forall i, j :: 0 <= i < j < |calls| ==> calls[i].lessonId != calls[j].lessonId
    ensures CompletionNotices(None, courseId, calls) == 1
  {
    NotifiesWhenCrossing(None, courseId, calls, n);
  }

  /** `getCourseProgress`: the stored record, or null when absent, unparseable or unreadable. */
  method GetCourseProgress(store: Store, courseId: string) returns (r: Option<CourseProgress>)
    ensures !store.healthy ==> r.None?
    ensures store.healthy ==> r == CourseAt(store.entries, courseId)
  {
    var data := store.GetItem(CourseKey(courseId));
    if data.Failure? || data.value.None? || !data.value.value.Course? {
      return None;
    }
    r := Some(data.value.value.course);
  }

  /** `initializeCourseProgress`: creates a fresh record only when none can be read; never overwrites one. */
  method InitializeCourseProgress(store: Store, courseId: string, courseName: string, totalLessons: int, now: string)
    modifies store`entries
    ensures store.healthy && old(CourseAt(store.entries, courseId)).None? ==>
      store.entries == old(store.entries)[CourseKey(courseId) := Course(FreshProgress(courseId, courseName, totalLessons, now))]
    ensures !store.healthy || old(CourseAt(store.entries, courseId)).Some? ==> store.entries == old(store.entries)
    ensures store.healthy ==> CourseAt(store.entries, courseId).Some?
  {
    var existing := GetCourseProgress(store, courseId);
    if existing.None? {
      var progress := FreshProgress(courseId, courseName, totalLessons, now);
      var _ := store.SetItem(CourseKey(courseId), Course(progress));
    }
  }

  /**
   * `markLessonCompleted`: appends the lesson unless already there, sends the
   * completion notification the first time the course is complete, saves,
   * and answers whether the course is complete; a rejecting store makes it
   * answer false.
   */
  method MarkLessonCompleted(store: Store, platform: Platform, courseId: string, courseName: string,
                             lessonId: string, totalLessons: int, now: string) returns (isComplete: bool)
    modifies store`entries, platform`delivered
    ensures var m := MarkLesson(if store.healthy then old(CourseAt(store.entries, courseId)) else None,
                                courseId, courseName, lessonId, totalLessons, now);
      && store.entries == (if store.healthy && m.saved.Some?
                           then old(store.entries)[CourseKey(courseId) := Course(m.saved.value)]
                           else old(store.entries))
      && (isComplete <==> store.healthy && m.complete)
      && platform.delivered == old(platform.delivered) +
           if m.notify && platform.permission == Granted then [CourseCompletion(courseName)] else []
  {
    var loaded := GetCourseProgress(store, courseId);
    var progress := if loaded.Some? then loaded.value else FreshProgress(courseId, courseName, totalLessons, now);
    if lessonId !in progress.completedLessons {
      progress := progress.(completedLessons := progress.completedLessons + [lessonId], lastUpdated := now);
      var isCourseComplete := |progress.completedLessons| >= totalLessons;
      if isCourseComplete && !progress.notificationSent {
        NotificationService.SendCourseCompletionNotification(platform, courseName);
        progress := progress.(notificationSent := true);
      }
      var saved := store.SetItem(CourseKey(courseId), Course(progress));
      if saved.Fail? {
        return false;
      }
      return isCourseComplete;
    }
    return |progress.completedLessons| >= totalLessons;
  }

  /** `isLessonCompleted`: true iff a readable record lists the lesson. */
  method IsLessonCompleted(store: Store, courseId: string, lessonId: string) returns (completed: bool)
    ensures completed <==>
      store.healthy && CourseAt(store.entries, courseId).Some? && lessonId in CourseAt(store.entries, courseId).value.completedLessons
  {
    var progress := GetCourseProgress(store, courseId);
    completed := if progress.Some? then lessonId in progress.value.completedLessons else false;
  }

  /** `getCourseCompletionPercentage`: the percentage of the record read (0 when none). */
  method GetCourseCompletionPercentage(store: Store, courseId: string) returns (pct: int)
    ensures pct == CompletionPercentage(if store.healthy then CourseAt(store.entries, courseId) else None)
    ensures !store.healthy || CourseAt(store.entries, courseId).None? ==> pct == 0
  {
    var progress := GetCourseProgress(store, courseId);
    pct := CompletionPercentage(progress);
  }

  /** `resetCourseProgress`: deletes this course's record and no other. */
  method ResetCourseProgress(store: Store, courseId: string)
    modifies store`entries
    ensures store.entries == if store.healthy then old(store.entries) - {CourseKey(courseId)} else old(store.entries)
    ensures store.healthy ==> CourseAt(store.entries, courseId).None?
    ensures forall other :: other != courseId ==> CourseAt(store.entries, other) == old(CourseAt(store.entries, other))
  {
    var _ := store.RemoveItem(CourseKey(courseId));
    forall other | other != courseId
      ensures CourseKey(other) != CourseKey(courseId)
    {
      if CourseKey(other) == CourseKey(courseId) {
        PrefixedKeyInjective(AppConstants.CourseProgressPrefix, other, courseId);
      }
    }
  }

  /**
   * The walk-through of a two-lesson course: "l1" gives false and 50%,
   * "l1" again changes nothing, "l2" gives true, 100% and one notification.
   */
  lemma TwoLessonWalkthrough()
    ensures var start := Some(FreshProgress("math101", "Mathématiques", 2, "t0"));
      var calls := [MarkCall("Mathématiques", "l1", 2, "t1"), MarkCall("Mathématiques", "l1", 2, "t2"),
                    MarkCall("Mathématiques", "l2", 2, "t3")];
      var first := After(start, "math101", calls[0]);
      && !MarkLesson(start, "math101", "Mathématiques", "l1", 2, "t1").complete
      && CompletionPercentage(Replay(start, "math101", calls[..1])) == 50
      && !MarkLesson(first, "math101", "Mathématiques", "l1", 2, "t2").complete
      && MarkLesson(first, "math101", "Mathématiques", "l2", 2, "t3").complete
      && Replay(start, "math101", calls[..2]) == Replay(start, "math101", calls[..1])
      && CompletionPercentage(Replay(start, "math101", calls)) == 100
      && CompletionNotices(start, "math101", calls) == 1
  {
    var start := Some(FreshProgress("math101", "Mathématiques", 2, "t0"));
    var calls := [MarkCall("Mathématiques", "l1", 2, "t1"), MarkCall("Mathématiques", "l1", 2, "t2"),
                  MarkCall("Mathématiques", "l2", 2, "t3")];
    var first := After(start, "math101", calls[0]);
    assert first.value.completedLessons == ["l1"];
    assert Replay(start, "math101", calls[..1]) == Replay(first, "math101", []) == first;
    assert calls[..2][0] == calls[0] && calls[..2][1..] == [calls[1]];
    assert After(first, "math101", calls[1]) == first;
    assert Replay(first, "math101", [calls[1]]) == Replay(first, "math101", []);
    assert Replay(start, "math101", calls[..2]) == Replay(first, "math101", [calls[1]]);
  }

  /**
   * The percentage is not capped: two lessons marked against a count of one
   * read back as 200.
   */
  lemma OverCountedPercentage()
    ensures var calls := [MarkCall("Art", "l1", 1, "t1"), MarkCall("Art", "l2", 1, "t2")];
      CompletionPercentage(Replay(None, "art", calls)) == 200
  {
    var calls := [MarkCall("Art", "l1", 1, "t1"), MarkCall("Art", "l2", 1, "t2")];
    var first := After(None, "art", calls[0]);
    assert first.value.completedLessons == ["l1"] && first.value.totalLessons == 1;
    var second := After(first, "art", calls[1]);
    assert second.value.completedLessons == ["l1", "l2"] && second.value.totalLessons == 1;
    assert calls[1..] == [calls[1]];
    assert Replay(None, "art", calls) == Replay(first, "art", [calls[1]]) == Replay(second, "art", []) == second;
  }
}
