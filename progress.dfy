/**
 * `updateProgress` of src/controllers/courses/progress.js: the caller's own
 * enrollment gets the given `progress`, a `moduleId` (when one is given) is
 * appended to `completedModules` on every call, and `progress === 100` marks
 * the enrollment completed, with no guard against doing so again. The
 * schema's 0..100 bound on `progress` makes the save fail outside that range,
 * and the handler's catch answers 500 with nothing stored.
 */
module ProgressHandler {
  import opened Common
  import opened EnrollmentRecords

  const RangeFailure := "Enrollment validation failed: progress"

  /** The `findOne({ _id, user })` filter: the enrollment exists and belongs to the caller. */
  predicate OwnedBy(e: Option<Enrollment>, caller: Id) {
    e.Some? && e.value.user == caller
  }

  function UpdateStep(e: Option<Enrollment>, caller: Id, moduleId: Option<string>, progress: int,
                      now: Millis, certificateUrl: string): (r: Outcome<Enrollment>)
    ensures !OwnedBy(e, caller) ==> r == Err(404, "Enrollment not found")
    ensures OwnedBy(e, caller) && !ProgressInRange(progress) ==> r == Err(500, RangeFailure)
    ensures r.Ok? <==> OwnedBy(e, caller) && ProgressInRange(progress)
    ensures r.Ok? ==>
      && r.value.progress == progress
      && r.value.user == e.value.user && r.value.course == e.value.course
      && r.value.paymentId == e.value.paymentId && r.value.startDate == e.value.startDate
      && r.value.completedModules ==
           e.value.completedModules + (if Supplied(moduleId) then [ModuleCompletion(moduleId.value, now)] else [])
    ensures r.Ok? && progress == 100 ==>
      r.value.status == Completed && r.value.completionDate == Some(now) && r.value.certificateUrl == Some(certificateUrl)
    ensures r.Ok? && progress != 100 ==>
      && r.value.status == e.value.status
      && r.value.completionDate == e.value.completionDate
      && r.value.certificateUrl == e.value.certificateUrl
  {
    if !OwnedBy(e, caller) then Err(404, "Enrollment not found")
    else if !ProgressInRange(progress) then Err(500, RangeFailure)
    else
      var withModule := e.value.(progress := progress,
        completedModules := e.value.completedModules +
          (if Supplied(moduleId) then [ModuleCompletion(moduleId.value, now)] else []));
      if progress == 100
      then Ok(withModule.(status := Completed, completionDate := Some(now), certificateUrl := Some(certificateUrl)))
      else Ok(withModule)
  }

  /**
   * No once-guard: a second call with 100 completes again, moving the
   * completion date and replacing the certificate.
   */
  lemma CompletionRepeats(e: Enrollment, caller: Id, now: Millis, later: Millis, url1: string, url2: string)
    requires e.user == caller
    ensures var first := UpdateStep(Some(e), caller, None, 100, now, url1);
      first.Ok? &&
      var second := UpdateStep(Some(first.value), caller, None, 100, later, url2);
      second.Ok? && second.value.completionDate == Some(later) && second.value.certificateUrl == Some(url2)
  {
  }

  /** The same module reported twice is recorded twice. */
  lemma ModuleRecordedEachTime(e: Enrollment, caller: Id, m: string, p1: int, p2: int, t1: Millis, t2: Millis,
                               url: string)
    requires e.user == caller && m != ""
    requires ProgressInRange(p1) && ProgressInRange(p2)
    ensures var first := UpdateStep(Some(e), caller, Some(m), p1, t1, url);
      first.Ok? &&
      var second := UpdateStep(Some(first.value), caller, Some(m), p2, t2, url);
      second.Ok? &&
      second.value.completedModules == e.completedModules + [ModuleCompletion(m, t1), ModuleCompletion(m, t2)]
  {
  }

  /**
   * A progress update never cancels and never moves an enrollment, so the
   * enroll-path invariant survives an update of an enrollment that is live.
   */
  lemma UpdateKeepsAtMostOneActive(es: map<Id, Enrollment>, id: Id, caller: Id, moduleId: Option<string>,
                                   progress: int, now: Millis, certificateUrl: string)
    requires AtMostOneActive(es)
    requires UpdateStep(Lookup(es, id), caller, moduleId, progress, now, certificateUrl).Ok?
    requires es[id].status != Cancelled
    ensures AtMostOneActive(es[id := UpdateStep(Lookup(es, id), caller, moduleId, progress, now, certificateUrl).value])
  {
    var u := UpdateStep(Lookup(es, id), caller, moduleId, progress, now, certificateUrl).value;
    var es' := es[id := u];
    forall a, b | a in es' && b in es' && a != b && Blocks(es'[a], es'[b].user, es'[b].course)
      ensures es'[b].status == Cancelled
    {
      assert Blocks(es[a], es[b].user, es[b].course);
    }
  }

  /**
   * The update does not look at the status, so progress 100 on a cancelled
   * enrollment revives it as `completed`: after a re-enrollment in the same
   * course the user then holds two enrollments that are not cancelled.
   */
  lemma CompletionRevivesCancelled(es: map<Id, Enrollment>, cancelledId: Id, liveId: Id, caller: Id, now: Millis, url: string)
    requires cancelledId != liveId && cancelledId in es && liveId in es
    requires es[cancelledId].user == caller && es[cancelledId].status == Cancelled
    requires Blocks(es[liveId], caller, es[cancelledId].course)
    ensures var u := UpdateStep(Lookup(es, cancelledId), caller, None, 100, now, url);
      u.Ok? && !AtMostOneActive(es[cancelledId := u.value])
  {
    var u := UpdateStep(Lookup(es, cancelledId), caller, None, 100, now, url).value;
    var es' := es[cancelledId := u];
    assert Blocks(es'[cancelledId], es'[liveId].user, es'[liveId].course);
  }

  /** `updateProgress` on the store: overwrite, append, maybe complete, save; notify on completion. */
  method UpdateProgress(desk: EnrollmentDesk, enrollmentId: Id, caller: Id, moduleId: Option<string>, progress: int,
                        now: Millis, certificateUrl: string) returns (resp: Outcome<Enrollment>)
    modifies desk
    ensures resp == UpdateStep(Lookup(old(desk.enrollments), enrollmentId), caller, moduleId, progress, now, certificateUrl)
    ensures desk.enrollments == if resp.Ok? then old(desk.enrollments)[enrollmentId := resp.value] else old(desk.enrollments)
    ensures desk.courses == old(desk.courses)
    ensures desk.outbox == if resp.Ok? && progress == 100
      then old(desk.outbox) + [Notice(caller, "COURSE_COMPLETED")] else old(desk.outbox)
  {
    var found := Lookup(desk.enrollments, enrollmentId);
    if !OwnedBy(found, caller) {
      return Err(404, "Enrollment not found");
    }
    var enrollment := found.value;
    enrollment := enrollment.(progress := progress);
    var pushed: seq<ModuleCompletion> := [];
    if Supplied(moduleId) {
      pushed := [ModuleCompletion(moduleId.value, now)];
    }
    enrollment := enrollment.(completedModules := enrollment.completedModules + pushed);
    if progress == 100 {
      enrollment := enrollment.(status := Completed);
      enrollment := enrollment.(completionDate := Some(now));
      enrollment := enrollment.(certificateUrl := Some(certificateUrl));
      desk.outbox := desk.outbox + [Notice(caller, "COURSE_COMPLETED")];
    }
    // the save: the schema rejects a progress outside 0..100
    if !ProgressInRange(enrollment.progress) {
      return Err(500, RangeFailure);
    }
    desk.enrollments := desk.enrollments[enrollmentId := enrollment];
    resp := Ok(enrollment);
  }
}
