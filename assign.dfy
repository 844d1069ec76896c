/**
 * `assignShift` of src/controllers/shifts/assign.js: the stricter of the two
 * assignment handlers. It runs its checks in a fixed order (missing shift,
 * missing user, status not `open`, role mismatch) and only then writes
 * `assignedTo` and `status`, saves, and asks for a notice to the assignee.
 * Unlike the shiftController.js handler it refuses a shift that is not open.
 */
module AssignHandler {
  import opened Common
  import opened ShiftRecords
  import ShiftController

  function AssignStep(shift: Option<Shift>, userRole: Option<string>, userId: Id): (r: Outcome<Shift>)
    ensures shift.None? ==> r == Err(404, "Shift not found")
    ensures shift.Some? && userRole.None? ==> r == Err(404, "User not found")
    ensures shift.Some? && userRole.Some? && shift.value.status != Open ==> r == Err(400, "Shift is not available")
    ensures shift.Some? && userRole.Some? && shift.value.status == Open && userRole.value != shift.value.role ==>
      r == Err(400, "User role does not match shift requirements")
    ensures r.Ok? <==> shift.Some? && shift.value.status == Open && userRole == Some(shift.value.role)
    ensures r.Ok? ==>
      && r.value.assignedTo == Some(userId)
      && r.value.status == Assigned
      && SameDetails(r.value, shift.value)
      && r.value.checkedInAt == shift.value.checkedInAt
      && r.value.checkedOutAt == shift.value.checkedOutAt
      && r.value.currentLocation == shift.value.currentLocation
  {
    match shift
    case None => Err(404, "Shift not found")
    case Some(s) =>
      if userRole.None? then Err(404, "User not found")
      else if s.status != Open then Err(400, "Shift is not available")
      else if userRole.value != s.role then Err(400, "User role does not match shift requirements")
      else Ok(s.(assignedTo := Some(userId), status := Assigned))
  }

  /** Once assigned, the shift is no longer open, so a second assignment fails. */
  lemma SecondAssignFails(s: Shift, role: string, userId: Id, role2: string, userId2: Id)
    requires AssignStep(Some(s), Some(role), userId).Ok?
    ensures AssignStep(Some(AssignStep(Some(s), Some(role), userId).value), Some(role2), userId2)
      == Err(400, "Shift is not available")
  {
  }

  /**
   * The two variants disagree exactly on shifts that are not open: there the
   * shiftController.js handler reassigns whoever holds the shift, while this one refuses.
   */
  lemma VariantsDisagreeOffOpen(s: Shift, userId: Id)
    requires s.status != Open
    ensures ShiftController.AssignStep(Some(s), Some(s.role), userId).Ok?
    ensures AssignStep(Some(s), Some(s.role), userId) == Err(400, "Shift is not available")
  {
  }

  /** On an open shift (or a missing record) both variants reach the same verdict and write the same record. */
  lemma VariantsAgreeOnOpen(shift: Option<Shift>, userRole: Option<string>, userId: Id)
    requires shift.Some? ==> shift.value.status == Open
    ensures var a := AssignStep(shift, userRole, userId);
            var b := ShiftController.AssignStep(shift, userRole, userId);
            a.Ok? == b.Ok? && (a.Ok? ==> a.value == b.value) && (a.Err? ==> a.code == b.code)
  {
  }

  /** `assignShift` on the store: the notice follows the save, and only on success. */
  method AssignShift(desk: ShiftDesk, shiftId: Id, userId: Id, jobRoles: map<Id, string>) returns (resp: Outcome<Shift>)
    modifies desk
    ensures resp == AssignStep(Lookup(old(desk.shifts), shiftId), Lookup(jobRoles, userId), userId)
    ensures desk.shifts == if resp.Ok? then old(desk.shifts)[shiftId := resp.value] else old(desk.shifts)
    ensures desk.outbox == if resp.Ok? then old(desk.outbox) + [Notice(userId, "SHIFT_ASSIGNED")] else old(desk.outbox)
  {
    var shift := Lookup(desk.shifts, shiftId);
    var role := Lookup(jobRoles, userId);
    if shift.None? {
      return Err(404, "Shift not found");
    }
    if role.None? {
      return Err(404, "User not found");
    }
    var s := shift.value;
    if s.status != Open {
      return Err(400, "Shift is not available");
    }
    if role.value != s.role {
      return Err(400, "User role does not match shift requirements");
    }
    s := s.(assignedTo := Some(userId));
    s := s.(status := Assigned);
    desk.shifts := desk.shifts[shiftId := s];
    desk.outbox := desk.outbox + [Notice(userId, "SHIFT_ASSIGNED")];
    resp := Ok(s);
  }
}
