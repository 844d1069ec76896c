/**
 * `enrollInCourse` of src/controllers/courses/enroll.js: a missing course is
 * 404; an enrollment of the caller in that course whose status is not
 * `cancelled` is 400; otherwise a new `pending` enrollment is inserted with the
 * payment intent's id (an opaque input here) and the start date `now`.
 */
module EnrollHandler {
  import opened Common
  import opened EnrollmentRecords

  /** The `findOne({ user, course, status: { $ne: 'cancelled' } })` test. */
  predicate HasBlocking(es: map<Id, Enrollment>, user: Id, course: Id) {
    exists id :: id in es && Blocks(es[id], user, course)
  }

  /** The document `new Enrollment({...})` creates, with the schema defaults filled in. */
  function NewEnrollment(user: Id, course: Id, paymentId: string, now: Millis): (e: Enrollment)
    ensures e.status == Pending && e.progress == 0 && e.completedModules == []
    ensures e.user == user && e.course == course && e.paymentId == paymentId && e.startDate == Some(now)
    ensures e.completionDate.None? && e.certificateUrl.None?
  {
    Enrollment(user, course, Pending, 0, [], paymentId, Some(now), None, None)
  }

  function EnrollStep(courses: set<Id>, es: map<Id, Enrollment>, caller: Id, courseId: Id, paymentId: string, now: Millis): (r: Outcome<Enrollment>)
    ensures courseId !in courses ==> r == Err(404, "Course not found")
    ensures courseId in courses && HasBlocking(es, caller, courseId) ==> r == Err(400, "Already enrolled in this course")
    ensures r.Ok? <==> courseId in courses && !HasBlocking(es, caller, courseId)
    ensures r.Ok? ==> Blocks(r.value, caller, courseId) && r.value == NewEnrollment(caller, courseId, paymentId, now)
  {
    if courseId !in courses then Err(404, "Course not found")
    else if HasBlocking(es, caller, courseId) then Err(400, "Already enrolled in this course")
    else Ok(NewEnrollment(caller, courseId, paymentId, now))
  }

  /** Inserting what `EnrollStep` allows, under a fresh id, keeps at most one live enrollment per pair. */
  lemma EnrollKeepsAtMostOneActive(courses: set<Id>, es: map<Id, Enrollment>, caller: Id, courseId: Id,
                                   paymentId: string, now: Millis, newId: Id)
    requires newId !in es
    requires EnrollStep(courses, es, caller, courseId, paymentId, now).Ok?
    ensures AtMostOneActive(es) ==> AtMostOneActive(es[newId := EnrollStep(courses, es, caller, courseId, paymentId, now).value])
  {
    assert forall id :: id in es ==> !Blocks(es[id], caller, courseId);
  }

  /** A second enrollment of the same pair is refused while the first is live. */
  lemma SecondEnrollFails(courses: set<Id>, es: map<Id, Enrollment>, caller: Id, courseId: Id,
                          paymentId: string, now: Millis, newId: Id, paymentId2: string, later: Millis)
    requires EnrollStep(courses, es, caller, courseId, paymentId, now).Ok?
    ensures var es' := es[newId := EnrollStep(courses, es, caller, courseId, paymentId, now).value];
      EnrollStep(courses, es', caller, courseId, paymentId2, later) == Err(400, "Already enrolled in this course")
  {
    var es' := es[newId := EnrollStep(courses, es, caller, courseId, paymentId, now).value];
    assert newId in es' && Blocks(es'[newId], caller, courseId);
  }

  /** A cancelled enrollment does not block: with only cancelled ones for the pair, enrolling succeeds. */
  lemma CancelledDoesNotBlock(courses: set<Id>, es: map<Id, Enrollment>, caller: Id, courseId: Id,
                              paymentId: string, now: Millis)
    requires courseId in courses
    requires forall id :: id in es && es[id].user == caller && es[id].course == courseId ==> es[id].status == Cancelled
    ensures EnrollStep(courses, es, caller, courseId, paymentId, now).Ok?
  {
  }

  /** `enrollInCourse` on the store; `newId` is the fresh ObjectId of the inserted document. */
  method Enroll(desk: EnrollmentDesk, caller: Id, courseId: Id, paymentId: string, now: Millis, newId: Id)
    returns (resp: Outcome<Enrollment>)
    requires newId !in desk.enrollments
    modifies desk
    ensures resp == EnrollStep(old(desk.courses), old(desk.enrollments), caller, courseId, paymentId, now)
    ensures desk.enrollments == if resp.Ok? then old(desk.enrollments)[newId := resp.value] else old(desk.enrollments)
    ensures desk.courses == old(desk.courses) && desk.outbox == old(desk.outbox)
    ensures AtMostOneActive(old(desk.enrollments)) ==> AtMostOneActive(desk.enrollments)
  {
    if courseId !in desk.courses {
      return Err(404, "Course not found");
    }
    if HasBlocking(desk.enrollments, caller, courseId) {
      return Err(400, "Already enrolled in this course");
    }
    var enrollment := NewEnrollment(caller, courseId, paymentId, now);
    EnrollKeepsAtMostOneActive(desk.courses, desk.enrollments, caller, courseId, paymentId, now, newId);
    desk.enrollments := desk.enrollments[newId := enrollment];
    resp := Ok(enrollment);
  }
}
