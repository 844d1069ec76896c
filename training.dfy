/**
 * Enrolment in training courses, src/controllers/training/trainingController.js.
 * A course keeps the list of enrolled user ids; a user keeps one training entry
 * per enrolment. Enrolling appends to both lists, withdrawing filters the id
 * out of the course and marks the FIRST training entry for the course, and
 * completing marks that same first entry. The history and upcoming views are
 * filters over the training list.
 */
module Training {
  import opened Common

  datatype TrainingStatus = Enrolled | Withdrawn | Completed

  /** One entry of `user.trainings`. */
  datatype TrainingEntry = TrainingEntry(
    course: Id,
    status: TrainingStatus,
    enrolledAt: Option<Millis>,
    withdrawnAt: Option<Millis>,
    completedAt: Option<Millis>)

  /** The fields of a course this controller reads or writes. */
  datatype Course = Course(title: string, requiredRole: string, enrolledUsers: seq<Id>, startDate: Millis)

  /** The fields of a user this controller reads or writes. */
  datatype Trainee = Trainee(jobRole: string, trainings: seq<TrainingEntry>)

  /** The two records an enrolment change saves. */
  datatype Enrolment = Enrolment(course: Course, trainee: Trainee)

  /** The `findIndex`/`find` test: the entry belongs to the course. */
  function ForCourse(courseId: Id): TrainingEntry -> bool {
    (t: TrainingEntry) => t.course == courseId
  }

  /** The position `findIndex` and `find` pick: the first entry for the course, or -1. */
  function FirstFor(ts: seq<TrainingEntry>, courseId: Id): (i: int)
    ensures -1 <= i < |ts|
    ensures i == -1 <==> forall k :: 0 <= k < |ts| ==> ts[k].course != courseId
    ensures 0 <= i ==> ts[i].course == courseId && forall k :: 0 <= k < i ==> ts[k].course != courseId
  {
    FirstIndex(ts, ForCourse(courseId))
  }

  /** The fresh entry `enrollInCourse` pushes. */
  function NewEntry(courseId: Id, now: Millis): TrainingEntry {
    TrainingEntry(courseId, Enrolled, Some(now), None, None)
  }

  /**
   * `enrollInCourse`: a missing course is 404; an id already in the list, or a
   * job role other than the required one, is 400. Success appends the caller
   * once to the course and one `enrolled` entry to the user.
   */
  function EnrollStep(course: Option<Course>, trainee: Trainee, caller: Id, courseId: Id, now: Millis): (r: Outcome<Enrolment>)
    ensures course.None? ==> r == Err(404, "Course not found")
    ensures course.Some? && caller in course.value.enrolledUsers ==> r == Err(400, "Already enrolled in this course")
    ensures course.Some? && caller !in course.value.enrolledUsers && trainee.jobRole != course.value.requiredRole ==>
      r == Err(400, "You are not eligible for this course")
    ensures r.Ok? <==> course.Some? && caller !in course.value.enrolledUsers && trainee.jobRole == course.value.requiredRole
    ensures r.Ok? ==>
      && caller in r.value.course.enrolledUsers
      && multiset(r.value.course.enrolledUsers)[caller] == 1
      && |r.value.course.enrolledUsers| == |course.value.enrolledUsers| + 1
      && r.value.course.enrolledUsers[..|course.value.enrolledUsers|] == course.value.enrolledUsers
      && r.value.course == course.value.(enrolledUsers := r.value.course.enrolledUsers)
      && r.value.trainee == trainee.(trainings := r.value.trainee.trainings)
      && |r.value.trainee.trainings| == |trainee.trainings| + 1
      && r.value.trainee.trainings[..|trainee.trainings|] == trainee.trainings
      && r.value.trainee.trainings[|trainee.trainings|] == NewEntry(courseId, now)
  {
    match course
    case None => Err(404, "Course not found")
    case Some(c) =>
      if caller in c.enrolledUsers then Err(400, "Already enrolled in this course")
      else if trainee.jobRole != c.requiredRole then Err(400, "You are not eligible for this course")
      else
        assert (c.enrolledUsers + [caller])[..|c.enrolledUsers|] == c.enrolledUsers;
        assert (trainee.trainings + [NewEntry(courseId, now)])[..|trainee.trainings|] == trainee.trainings;
        Ok(Enrolment(c.(enrolledUsers := c.enrolledUsers + [caller]),
                     trainee.(trainings := trainee.trainings + [NewEntry(courseId, now)])))
  }

  /** The withdrawal write: the first entry for the course becomes `withdrawn`; no entry, no change. */
  function MarkWithdrawn(ts: seq<TrainingEntry>, courseId: Id, now: Millis): (r: seq<TrainingEntry>)
    ensures |r| == |ts|
    ensures FirstFor(ts, courseId) == -1 ==> r == ts
    ensures var i := FirstFor(ts, courseId);
      0 <= i ==> r[i] == ts[i].(status := Withdrawn, withdrawnAt := Some(now))
                 && forall k :: 0 <= k < |ts| && k != i ==> r[k] == ts[k]
  {
    var i := FirstFor(ts, courseId);
    if i == -1 then ts else ts[i := ts[i].(status := Withdrawn, withdrawnAt := Some(now))]
  }

  /** The completion write: the first entry for the course becomes `completed`. */
  function MarkCompleted(ts: seq<TrainingEntry>, courseId: Id, now: Millis): (r: seq<TrainingEntry>)
    ensures |r| == |ts|
    ensures FirstFor(ts, courseId) == -1 ==> r == ts
    ensures var i := FirstFor(ts, courseId);
      0 <= i ==> r[i] == ts[i].(status := Completed, completedAt := Some(now))
                 && forall k :: 0 <= k < |ts| && k != i ==> r[k] == ts[k]
  {
    var i := FirstFor(ts, courseId);
    if i == -1 then ts else ts[i := ts[i].(status := Completed, completedAt := Some(now))]
  }

  /**
   * `withdrawFromCourse`: 404 for a missing course, 400 when the caller is not
   * in the list. Success removes every copy of the caller and marks the first
   * entry for the course, if the user has one.
   */
  function WithdrawStep(course: Option<Course>, trainee: Trainee, caller: Id, courseId: Id, now: Millis): (r: Outcome<Enrolment>)
    ensures course.None? ==> r == Err(404, "Course not found")
    ensures course.Some? && caller !in course.value.enrolledUsers ==> r == Err(400, "Not enrolled in this course")
    ensures r.Ok? <==> course.Some? && caller in course.value.enrolledUsers
    ensures r.Ok? ==>
      && caller !in r.value.course.enrolledUsers
      && (forall y :: y in r.value.course.enrolledUsers <==> y in course.value.enrolledUsers && y != caller)
      && r.value.course.enrolledUsers == RemoveAll(course.value.enrolledUsers, caller)
      && r.value.course == course.value.(enrolledUsers := r.value.course.enrolledUsers)
      && r.value.trainee == trainee.(trainings := r.value.trainee.trainings)
      && r.value.trainee.trainings == MarkWithdrawn(trainee.trainings, courseId, now)
  {
    match course
    case None => Err(404, "Course not found")
    case Some(c) =>
      if caller !in c.enrolledUsers then Err(400, "Not enrolled in this course")
      else Ok(Enrolment(c.(enrolledUsers := RemoveAll(c.enrolledUsers, caller)),
                        trainee.(trainings := MarkWithdrawn(trainee.trainings, courseId, now))))
  }

  /**
   * `markCourseComplete`: 404 for a missing course, 400 when the user has no
   * entry for it. Neither the course's list nor the entry's status is consulted.
   */
  function CompleteStep(course: Option<Course>, trainee: Trainee, courseId: Id, now: Millis): (r: Outcome<Trainee>)
    ensures course.None? ==> r == Err(404, "Course not found")
    ensures r.Ok? <==> course.Some? && exists k :: 0 <= k < |trainee.trainings| && trainee.trainings[k].course == courseId
    ensures course.Some? && r.Err? ==> r == Err(400, "Not enrolled in this course")
    ensures r.Ok? ==> r.value == trainee.(trainings := MarkCompleted(trainee.trainings, courseId, now))
  {
    if course.None? then Err(404, "Course not found")
    else if FirstFor(trainee.trainings, courseId) == -1 then Err(400, "Not enrolled in this course")
    else Ok(trainee.(trainings := MarkCompleted(trainee.trainings, courseId, now)))
  }

  /** `getTrainingHistory`: the `completed` entries, in stored order. */
  function CompletedTrainings(ts: seq<TrainingEntry>): (r: seq<TrainingEntry>)
    ensures |r| <= |ts|
    ensures forall t :: t in r <==> t in ts && t.status == Completed
  {
    if |ts| == 0 then []
    else if ts[0].status == Completed then [ts[0]] + CompletedTrainings(ts[1..])
    else CompletedTrainings(ts[1..])
  }

  /** `getUpcomingTrainings`, first half: the course ids of the `enrolled` entries, in stored order. */
  function EnrolledCourseIds(ts: seq<TrainingEntry>): (r: seq<Id>)
    ensures |r| <= |ts|
    ensures forall c :: c in r <==> exists t :: t in ts && t.status == Enrolled && t.course == c
  {
    if |ts| == 0 then []
    else if ts[0].status == Enrolled then [ts[0].course] + EnrolledCourseIds(ts[1..])
    else EnrolledCourseIds(ts[1..])
  }

  /** `getUpcomingTrainings`, second half: the `$in` / `$gt now` course query (its sort is left out). */
  function UpcomingCourses(ts: seq<TrainingEntry>, courses: map<Id, Course>, now: Millis): (r: set<Id>)
    ensures forall id :: id in r <==>
      id in courses && courses[id].startDate > now &&
      exists k :: 0 <= k < |ts| && ts[k].status == Enrolled && ts[k].course == id
  {
    var ids := EnrolledCourseIds(ts);
    set id | id in ids && id in courses && courses[id].startDate > now
  }

  /** Appending a completed entry extends the history by exactly that entry. */
  lemma {:induction false} HistoryAppend(ts: seq<TrainingEntry>, t: TrainingEntry)
    ensures CompletedTrainings(ts + [t]) == CompletedTrainings(ts) + (if t.status == Completed then [t] else [])
  {
    if |ts| > 0 {
      assert (ts + [t])[1..] == ts[1..] + [t];
      HistoryAppend(ts[1..], t);
    } else {
      assert ts + [t] == [t];
    }
  }

  /** Enrolling a second time is refused, since the caller is now in the list. */
  lemma SecondEnrollFails(course: Course, trainee: Trainee, caller: Id, courseId: Id, now: Millis, later: Millis)
    requires EnrollStep(Some(course), trainee, caller, courseId, now).Ok?
    ensures var e := EnrollStep(Some(course), trainee, caller, courseId, now).value;
      EnrollStep(Some(e.course), e.trainee, caller, courseId, later) == Err(400, "Already enrolled in this course")
  {
  }

  /**
   * Enrolling and then withdrawing, for a user with no earlier entry for the
   * course, restores the course's list exactly and leaves the user with one
   * extra entry, now `withdrawn`.
   */
  lemma EnrollThenWithdraw(course: Course, trainee: Trainee, caller: Id, courseId: Id, now: Millis, later: Millis)
    requires EnrollStep(Some(course), trainee, caller, courseId, now).Ok?
    requires forall k :: 0 <= k < |trainee.trainings| ==> trainee.trainings[k].course != courseId
    ensures var e := EnrollStep(Some(course), trainee, caller, courseId, now).value;
      var w := WithdrawStep(Some(e.course), e.trainee, caller, courseId, later);
      && w.Ok?
      && w.value.course.enrolledUsers == course.enrolledUsers
      && w.value.trainee.trainings == trainee.trainings + [TrainingEntry(courseId, Withdrawn, Some(now), Some(later), None)]
  {
    var e := EnrollStep(Some(course), trainee, caller, courseId, now).value;
    RemoveAllAppend(course.enrolledUsers, [caller], caller);
    RemoveAllAbsent(course.enrolledUsers, caller);
    var ts := e.trainee.trainings;
    assert ts == trainee.trainings + [NewEntry(courseId, now)];
    var i := FirstFor(ts, courseId);
    assert ts[|trainee.trainings|].course == courseId;
    assert i == |trainee.trainings| by {
      assert forall k :: 0 <= k < |trainee.trainings| ==> ts[k] == trainee.trainings[k];
    }
    var m := MarkWithdrawn(ts, courseId, later);
    assert m == trainee.trainings + [TrainingEntry(courseId, Withdrawn, Some(now), Some(later), None)] by {
      forall k | 0 <= k < |m|
        ensures m[k] == (trainee.trainings + [TrainingEntry(courseId, Withdrawn, Some(now), Some(later), None)])[k]
      {
        if k < |trainee.trainings| {
          assert m[k] == ts[k];
        }
      }
    }
  }

  /**
   * Withdrawing after a re-enrolment marks the OLD entry, because `findIndex`
   * stops at the first entry for the course: the new entry stays `enrolled`
   * although the caller has left the course's list.
   */
  lemma WithdrawAfterReenrolKeepsNewEntry(course: Course, trainee: Trainee, caller: Id, courseId: Id, now: Millis, later: Millis)
    requires EnrollStep(Some(course), trainee, caller, courseId, now).Ok?
    requires exists k :: 0 <= k < |trainee.trainings| && trainee.trainings[k].course == courseId
    ensures var e := EnrollStep(Some(course), trainee, caller, courseId, now).value;
      var w := WithdrawStep(Some(e.course), e.trainee, caller, courseId, later);
      && w.Ok?
      && caller !in w.value.course.enrolledUsers
      && w.value.trainee.trainings[|trainee.trainings|] == NewEntry(courseId, now)
  {
    var e := EnrollStep(Some(course), trainee, caller, courseId, now).value;
    var ts := e.trainee.trainings;
    var k :| 0 <= k < |trainee.trainings| && trainee.trainings[k].course == courseId;
    assert ts[k] == trainee.trainings[k];
    var i := FirstFor(ts, courseId);
    assert i <= k;
  }

  /** Completion does not look at the status: a withdrawn course can still be marked complete. */
  lemma CompleteAfterWithdraw(course: Course, trainee: Trainee, caller: Id, courseId: Id, now: Millis, later: Millis)
    requires WithdrawStep(Some(course), trainee, caller, courseId, now).Ok?
    requires exists k :: 0 <= k < |trainee.trainings| && trainee.trainings[k].course == courseId
    ensures var w := WithdrawStep(Some(course), trainee, caller, courseId, now).value;
      var c := CompleteStep(Some(w.course), w.trainee, courseId, later);
      c.Ok? && c.value.trainings[FirstFor(trainee.trainings, courseId)].status == Completed
  {
    var w := WithdrawStep(Some(course), trainee, caller, courseId, now).value;
    var i := FirstFor(trainee.trainings, courseId);
    assert w.trainee.trainings[i].course == courseId;
    assert FirstFor(w.trainee.trainings, courseId) == i by {
      forall k | 0 <= k < i ensures w.trainee.trainings[k].course != courseId {
        assert w.trainee.trainings[k] == trainee.trainings[k];
      }
    }
  }

  /** The course and user collections, and the notices the handlers asked to send. */
  class TrainingDesk {
    var courses: map<Id, Course>
    var trainees: map<Id, Trainee>
    var outbox: seq<Notice>

    constructor ()
      ensures courses == map[] && trainees == map[] && outbox == []
    {
      courses := map[];
      trainees := map[];
      outbox := [];
    }

    /** `enrollInCourse`: save the course, then the user, then confirm to the caller. */
    method Enroll(courseId: Id, caller: Id, now: Millis) returns (resp: Outcome<Enrolment>)
      requires caller in trainees
      modifies this
      ensures resp == EnrollStep(Lookup(old(courses), courseId), old(trainees)[caller], caller, courseId, now)
      ensures courses == if resp.Ok? then old(courses)[courseId := resp.value.course] else old(courses)
      ensures trainees == if resp.Ok? then old(trainees)[caller := resp.value.trainee] else old(trainees)
      ensures outbox == if resp.Ok? then old(outbox) + [Notice(caller, "COURSE_ENROLLED")] else old(outbox)
    {
      if courseId !in courses {
        return Err(404, "Course not found");
      }
      var course := courses[courseId];
      var user := trainees[caller];
      if caller in course.enrolledUsers {
        return Err(400, "Already enrolled in this course");
      }
      if user.jobRole != course.requiredRole {
        return Err(400, "You are not eligible for this course");
      }
      course := course.(enrolledUsers := course.enrolledUsers + [caller]);
      courses := courses[courseId := course];
      user := user.(trainings := user.trainings + [NewEntry(courseId, now)]);
      trainees := trainees[caller := user];
      outbox := outbox + [Notice(caller, "COURSE_ENROLLED")];
      resp := Ok(Enrolment(course, user));
    }

    /** `withdrawFromCourse`: filter the course's list, then mark the first entry, if any. */
    method Withdraw(courseId: Id, caller: Id, now: Millis) returns (resp: Outcome<Enrolment>)
      requires caller in trainees
      modifies this
      ensures resp == WithdrawStep(Lookup(old(courses), courseId), old(trainees)[caller], caller, courseId, now)
      ensures courses == if resp.Ok? then old(courses)[courseId := resp.value.course] else old(courses)
      ensures trainees == if resp.Ok? then old(trainees)[caller := resp.value.trainee] else old(trainees)
      ensures outbox == old(outbox)
    {
      if courseId !in courses {
        return Err(404, "Course not found");
      }
      var course := courses[courseId];
      var user := trainees[caller];
      if caller !in course.enrolledUsers {
        return Err(400, "Not enrolled in this course");
      }
      course := course.(enrolledUsers := RemoveAll(course.enrolledUsers, caller));
      courses := courses[courseId := course];
      var i := FirstFor(user.trainings, courseId);
      if i != -1 {
        var t := user.trainings[i];
        user := user.(trainings := user.trainings[i := t.(status := Withdrawn, withdrawnAt := Some(now))]);
        trainees := trainees[caller := user];
      }
      resp := Ok(Enrolment(course, user));
    }

    /** `markCourseComplete`: the first entry for the course becomes `completed`. */
    method MarkComplete(courseId: Id, caller: Id, now: Millis) returns (resp: Outcome<Trainee>)
      requires caller in trainees
      modifies this
      ensures resp == CompleteStep(Lookup(old(courses), courseId), old(trainees)[caller], courseId, now)
      ensures courses == old(courses)
      ensures trainees == if resp.Ok? then old(trainees)[caller := resp.value] else old(trainees)
      ensures outbox == old(outbox)
    {
      var user := trainees[caller];
      if courseId !in courses {
        return Err(404, "Course not found");
      }
      var i := FirstFor(user.trainings, courseId);
      if i == -1 {
        return Err(400, "Not enrolled in this course");
      }
      var t := user.trainings[i];
      user := user.(trainings := user.trainings[i := t.(status := Completed, completedAt := Some(now))]);
      trainees := trainees[caller := user];
      resp := Ok(user);
    }
  }
}
