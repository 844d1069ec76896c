/**
 * The enrollment record of src/models/Enrollment.js, as src/controllers/courses/progress.js
 * and enroll.js use it: a status enum with default `pending`, a numeric
 * `progress` bounded to 0..100 by the schema, and a list of completed modules.
 * (courseController.js gives `progress` another shape; see CourseProgress.)
 */
module EnrollmentRecords {
  import opened Common

  datatype EnrollmentStatus = Pending | Active | Completed | Cancelled

  /** One entry of `completedModules`. */
  datatype ModuleCompletion = ModuleCompletion(moduleId: string, completedAt: Millis)

  datatype Enrollment = Enrollment(
    user: Id,
    course: Id,
    status: EnrollmentStatus,
    progress: int,
    completedModules: seq<ModuleCompletion>,
    paymentId: string,
    startDate: Option<Millis>,
    completionDate: Option<Millis>,
    certificateUrl: Option<string>)

  /** The schema's `min: 0, max: 100` on `progress`: a save with any other value fails. */
  predicate ProgressInRange(p: int) {
    0 <= p <= 100
  }

  /** An enrollment that stops the same user enrolling in the same course again. */
  predicate Blocks(e: Enrollment, user: Id, course: Id) {
    e.user == user && e.course == course && e.status != Cancelled
  }

  /** The store invariant of the enrollment path: per (user, course), at most one enrollment that is not cancelled. */
  predicate AtMostOneActive(es: map<Id, Enrollment>) {
    forall a, b :: a in es && b in es && a != b && Blocks(es[a], es[b].user, es[b].course) ==> es[b].status == Cancelled
  }

  /** The enrollment collection and the notices the handlers asked to send. */
  class EnrollmentDesk {
    var enrollments: map<Id, Enrollment>
    var courses: set<Id>
    var outbox: seq<Notice>

    constructor (courseIds: set<Id>)
      ensures enrollments == map[] && courses == courseIds && outbox == []
    {
      enrollments := map[];
      courses := courseIds;
      outbox := [];
    }
  }
}
