/**
 * `updateProgress` and `getCourses` of src/controllers/courses/courseController.js.
 * Here an enrollment's `progress` is a list of per-module entries: the handler
 * updates the entry for the module in place or appends one, then completes the
 * enrollment once every module of the course has a completed entry, guarded by
 * `completedAt` so that completion happens at most once.
 *
 * This is the controller's view of an enrollment. src/models/Enrollment.js
 * declares `progress` as a number from 0 to 100 and the date as
 * `completionDate`; the module EnrollmentRecords follows that schema, and the
 * two views are kept apart.
 */
module CourseProgress {
  import opened Common
  import opened EnrollmentRecords

  /** One entry of the enrollment's `progress` list. */
  datatype ModuleProgress = ModuleProgress(moduleId: Id, completed: bool, completedAt: Option<Millis>)

  /** An enrollment in this controller's vocabulary. */
  datatype CourseEnrollment = CourseEnrollment(
    user: Id,
    course: Id,
    status: EnrollmentStatus,
    progress: seq<ModuleProgress>,
    completedAt: Option<Millis>,
    certificateUrl: Option<string>)

  /** The fields of a course that `updateProgress` reads: its title and its module ids. */
  datatype CourseInfo = CourseInfo(title: string, modules: seq<Id>)

  /** What `course.modules` on a `null` course throws; the catch answers 400 with it. */
  const MissingCourse := "Cannot read properties of null (reading 'modules')"

  /** The `find` test: the entry is the one for the module. */
  function ForModule(m: Id): ModuleProgress -> bool {
    (p: ModuleProgress) => p.moduleId == m
  }

  /** `completedAt: completed ? new Date() : null`. */
  function Stamp(completed: bool, now: Millis): (r: Option<Millis>)
    ensures r.Some? <==> completed
    ensures r.Some? ==> r.value == now
  {
    if completed then Some(now) else None
  }

  /** No module has two entries. */
  predicate UniqueModules(ps: seq<ModuleProgress>) {
    forall i, j :: 0 <= i < j < |ps| ==> ps[i].moduleId != ps[j].moduleId
  }

  /** The per-module upsert: the first entry for the module is overwritten, or one entry is appended. */
  function Upsert(ps: seq<ModuleProgress>, m: Id, completed: bool, now: Millis): (r: seq<ModuleProgress>)
    ensures ModuleProgress(m, completed, Stamp(completed, now)) in r
    ensures |r| == |ps| + 1 <==> forall k :: 0 <= k < |ps| ==> ps[k].moduleId != m
    ensures |r| == |ps| || |r| == |ps| + 1
    ensures forall k :: 0 <= k < |ps| && ps[k].moduleId != m ==> r[k] == ps[k]
    ensures forall k :: 0 <= k < |r| && r[k].moduleId != m ==> k < |ps| && r[k] == ps[k]
    ensures UniqueModules(ps) ==> UniqueModules(r)
  {
    var i := FirstIndex(ps, ForModule(m));
    var entry := ModuleProgress(m, completed, Stamp(completed, now));
    if i == -1 then
      assert (ps + [entry])[|ps|] == entry;
      ps + [entry]
    else
      assert ps[i := entry][i] == entry;
      ps[i := entry]
  }

  /** `enrollment.progress.some(...)`: some entry for the module is completed. */
  predicate ModuleDone(ps: seq<ModuleProgress>, m: Id) {
    exists p :: p in ps && p.moduleId == m && p.completed
  }

  /** `course.modules.every(...)`; a course with no modules counts as complete. */
  function AllModulesCompleted(modules: seq<Id>, ps: seq<ModuleProgress>): (r: bool)
    ensures r <==> forall m :: m in modules ==> ModuleDone(ps, m)
    ensures modules == [] ==> r
  {
    if |modules| == 0 then true
    else ModuleDone(ps, modules[0]) && AllModulesCompleted(modules[1..], ps)
  }

  /** The `findOne({ _id, user })` filter. */
  predicate OwnedBy(e: Option<CourseEnrollment>, caller: Id) {
    e.Some? && e.value.user == caller
  }

  /** The completion test: all modules done, and the enrollment not completed before. */
  predicate Completes(before: CourseEnrollment, modules: seq<Id>, ps: seq<ModuleProgress>) {
    AllModulesCompleted(modules, ps) && before.completedAt.None?
  }

  /**
   * `updateProgress`: 404 unless the enrollment belongs to the caller; the
   * upsert; 400 when the course is gone; then completion at most once.
   * `certificateUrl` stands for the certificate generator's result.
   */
  function UpdateStep(e: Option<CourseEnrollment>, caller: Id, courses: map<Id, CourseInfo>, m: Id, completed: bool,
                      now: Millis, certificateUrl: string): (r: Outcome<CourseEnrollment>)
    ensures !OwnedBy(e, caller) ==> r == Err(404, "Enrollment not found")
    ensures OwnedBy(e, caller) && e.value.course !in courses ==> r == Err(400, MissingCourse)
    ensures r.Ok? <==> OwnedBy(e, caller) && e.value.course in courses
    ensures r.Ok? ==>
      && r.value.progress == Upsert(e.value.progress, m, completed, now)
      && r.value.user == e.value.user && r.value.course == e.value.course
    ensures r.Ok? && e.value.completedAt.Some? ==>
      r.value.completedAt == e.value.completedAt && r.value.status == e.value.status &&
      r.value.certificateUrl == e.value.certificateUrl
    ensures r.Ok? && e.value.completedAt.None? ==>
      (r.value.completedAt.Some? <==> AllModulesCompleted(courses[e.value.course].modules, r.value.progress))
    ensures r.Ok? && r.value.completedAt != e.value.completedAt ==>
      r.value.completedAt == Some(now) && r.value.status == Completed && r.value.certificateUrl == Some(certificateUrl)
    ensures r.Ok? && r.value.completedAt == e.value.completedAt ==>
      r.value.status == e.value.status && r.value.certificateUrl == e.value.certificateUrl
  {
    if !OwnedBy(e, caller) then Err(404, "Enrollment not found")
    else
      var before := e.value;
      var ps := Upsert(before.progress, m, completed, now);
      if before.course !in courses then Err(400, MissingCourse)
      else if Completes(before, courses[before.course].modules, ps)
      then Ok(before.(progress := ps, completedAt := Some(now), status := Completed, certificateUrl := Some(certificateUrl)))
      else Ok(before.(progress := ps))
  }

  /** One request of a series sent by the owner: the module, the flag, the time and the certificate. */
  datatype Report = Report(moduleId: Id, completed: bool, now: Millis, certificateUrl: string)

  /** The enrollment after a series of requests (a failed request leaves it as it was). */
  function Replay(e: CourseEnrollment, courses: map<Id, CourseInfo>, rs: seq<Report>): CourseEnrollment
    decreases |rs|
  {
    if |rs| == 0 then e
    else
      var r := UpdateStep(Some(e), e.user, courses, rs[0].moduleId, rs[0].completed, rs[0].now, rs[0].certificateUrl);
      Replay(if r.Ok? then r.value else e, courses, rs[1..])
  }

  /** How many requests of the series complete the enrollment (and so notify). */
  function Completions(e: CourseEnrollment, courses: map<Id, CourseInfo>, rs: seq<Report>): nat
    decreases |rs|
  {
    if |rs| == 0 then 0
    else
      var r := UpdateStep(Some(e), e.user, courses, rs[0].moduleId, rs[0].completed, rs[0].now, rs[0].certificateUrl);
      var next := if r.Ok? then r.value else e;
      (if next.completedAt != e.completedAt then 1 else 0) + Completions(next, courses, rs[1..])
  }

  /** Over any series of requests the enrollment completes at most once, and never once it has. */
  lemma {:induction false} CompletesAtMostOnce(e: CourseEnrollment, courses: map<Id, CourseInfo>, rs: seq<Report>)
    ensures Completions(e, courses, rs) <= 1
    ensures e.completedAt.Some? ==> Completions(e, courses, rs) == 0
    decreases |rs|
  {
    if |rs| > 0 {
      var r := UpdateStep(Some(e), e.user, courses, rs[0].moduleId, rs[0].completed, rs[0].now, rs[0].certificateUrl);
      var next := if r.Ok? then r.value else e;
      CompletesAtMostOnce(next, courses, rs[1..]);
    }
  }

  /** Once completed, status and completion date survive any series of requests, including "not completed" ones. */
  lemma {:induction false} NeverReverts(e: CourseEnrollment, courses: map<Id, CourseInfo>, rs: seq<Report>)
    requires e.completedAt.Some?
    ensures Replay(e, courses, rs).completedAt == e.completedAt
    ensures Replay(e, courses, rs).status == e.status
    decreases |rs|
  {
    if |rs| > 0 {
      var r := UpdateStep(Some(e), e.user, courses, rs[0].moduleId, rs[0].completed, rs[0].now, rs[0].certificateUrl);
      NeverReverts(if r.Ok? then r.value else e, courses, rs[1..]);
    }
  }

  /** A course without modules completes on the first update of a fresh enrollment. */
  lemma EmptyCourseCompletesAtOnce(e: CourseEnrollment, courses: map<Id, CourseInfo>, m: Id, completed: bool,
                                   now: Millis, url: string)
    requires e.course in courses && courses[e.course].modules == [] && e.completedAt.None?
    ensures var r := UpdateStep(Some(e), e.user, courses, m, completed, now, url);
      r.Ok? && r.value.status == Completed && r.value.completedAt == Some(now)
  {
  }

  /** The price part of the `getCourses` filter; each bound holds the raw parameter given to `parseFloat`. */
  datatype PriceRange = PriceRange(gte: Option<string>, lte: Option<string>)

  /** The `getCourses` filter (the search term stands for the title/description `$or` regex pair) and sort. */
  datatype CourseQuery = CourseQuery(
    isActive: bool,
    category: Option<string>,
    search: Option<string>,
    price: Option<PriceRange>,
    sortKey: string,
    sortOrder: int)

  /**
   * `getCourses`: `sortBy` and `order` default only when absent (a destructuring
   * default), while the filter keys need a non-empty value.
   */
  method BuildCourseQuery(category: Option<string>, search: Option<string>, minPrice: Option<string>,
                          maxPrice: Option<string>, sortBy: Option<string>, order: Option<string>)
    returns (q: CourseQuery)
    ensures q.isActive
    ensures q.category.Some? <==> Supplied(category)
    ensures q.category.Some? ==> q.category == category
    ensures q.search.Some? <==> Supplied(search)
    ensures q.search.Some? ==> q.search == search
    ensures q.price.Some? <==> Supplied(minPrice) || Supplied(maxPrice)
    ensures q.price.Some? ==> (q.price.value.gte.Some? <==> Supplied(minPrice)) && (q.price.value.lte.Some? <==> Supplied(maxPrice))
    ensures q.price.Some? && q.price.value.gte.Some? ==> q.price.value.gte == minPrice
    ensures q.price.Some? && q.price.value.lte.Some? ==> q.price.value.lte == maxPrice
    ensures sortBy.None? ==> q.sortKey == "createdAt"
    ensures sortBy.Some? ==> q.sortKey == sortBy.value
    ensures q.sortOrder == -1 <==> order.None? || order.value == "desc"
    ensures q.sortOrder == -1 || q.sortOrder == 1
  {
    var sortKey := if sortBy.Some? then sortBy.value else "createdAt";
    var direction := if order.Some? then order.value else "desc";
    q := CourseQuery(true, None, None, None, "", 0);
    if Supplied(category) {
      q := q.(category := category);
    }
    if Supplied(search) {
      q := q.(search := search);
    }
    if Supplied(minPrice) || Supplied(maxPrice) {
      var range := PriceRange(None, None);
      if Supplied(minPrice) { range := range.(gte := minPrice); }
      if Supplied(maxPrice) { range := range.(lte := maxPrice); }
      q := q.(price := Some(range));
    }
    q := q.(sortKey := sortKey, sortOrder := if direction == "desc" then -1 else 1);
  }

  /** The enrollment and course collections, and the notices the handler asked to send. */
  class ProgressDesk {
    var enrollments: map<Id, CourseEnrollment>
    var courses: map<Id, CourseInfo>
    var outbox: seq<Notice>

    constructor (catalogue: map<Id, CourseInfo>)
      ensures enrollments == map[] && courses == catalogue && outbox == []
    {
      enrollments := map[];
      courses := catalogue;
      outbox := [];
    }

    /** `updateProgress` on the store; the completion notice goes out before the save. */
    method UpdateProgress(enrollmentId: Id, caller: Id, m: Id, completed: bool, now: Millis, certificateUrl: string)
      returns (resp: Outcome<CourseEnrollment>)
      modifies this
      ensures resp == UpdateStep(Lookup(old(enrollments), enrollmentId), caller, old(courses), m, completed, now, certificateUrl)
      ensures enrollments == if resp.Ok? then old(enrollments)[enrollmentId := resp.value] else old(enrollments)
      ensures courses == old(courses)
      ensures outbox == if resp.Ok? && resp.value.completedAt != old(enrollments)[enrollmentId].completedAt
        then old(outbox) + [Notice(caller, "Course Completed")] else old(outbox)
    {
      var found := Lookup(enrollments, enrollmentId);
      if !OwnedBy(found, caller) {
        return Err(404, "Enrollment not found");
      }
      var enrollment := found.value;
      var i := FirstIndex(enrollment.progress, ForModule(m));
      var entry := ModuleProgress(m, completed, if completed then Some(now) else None);
      if i != -1 {
        enrollment := enrollment.(progress := enrollment.progress[i := entry]);
      } else {
        enrollment := enrollment.(progress := enrollment.progress + [entry]);
      }
      if enrollment.course !in courses {
        return Err(400, MissingCourse);
      }
      var course := courses[enrollment.course];
      if AllModulesCompleted(course.modules, enrollment.progress) && enrollment.completedAt.None? {
        enrollment := enrollment.(completedAt := Some(now));
        enrollment := enrollment.(status := Completed);
        enrollment := enrollment.(certificateUrl := Some(certificateUrl));
        outbox := outbox + [Notice(caller, "Course Completed")];
      }
      enrollments := enrollments[enrollmentId := enrollment];
      resp := Ok(enrollment);
    }
  }
}
