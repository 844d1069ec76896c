/**
 * The handlers of src/controllers/shifts/shiftController.js on the assignment
 * machine. They look the shift up by id and then check the caller against
 * `assignedTo`; apart from `updateLocation` none of them checks the status.
 * `shift.assignedTo.toString()` on a shift nobody is assigned to throws, and
 * the handler's catch turns that into a 400.
 */
module ShiftController {
  import opened Common
  import opened ShiftRecords

  const UnassignedError := "Cannot read properties of undefined (reading 'toString')"

  /**
   * `assignShift`: a missing shift is reported before the user is looked up;
   * then a missing user, then a role mismatch. Any prior status is accepted.
   */
  function AssignStep(shift: Option<Shift>, userRole: Option<string>, userId: Id): (r: Outcome<Shift>)
    ensures shift.None? ==> r == Err(404, "Shift not found")
    ensures shift.Some? && userRole.None? ==> r == Err(404, "User not found")
    ensures shift.Some? && userRole.Some? && userRole.value != shift.value.role ==> r.Err? && r.code == 400
    ensures r.Ok? <==> shift.Some? && userRole == Some(shift.value.role)
    ensures r.Ok? ==>
      && r.value.assignedTo == Some(userId)
      && r.value.status == Assigned
      && SameDetails(r.value, shift.value)
      && r.value.checkedInAt == shift.value.checkedInAt
      && r.value.checkedOutAt == shift.value.checkedOutAt
      && r.value.currentLocation == shift.value.currentLocation
  {
    match shift
    case None => Err(404, "Shift not found")
    case Some(s) =>
      if userRole.None? then Err(404, "User not found")
      else if userRole.value != s.role then Err(400, "User role does not match shift role")
      else Ok(s.(assignedTo := Some(userId), status := Assigned))
  }

  /** The caller check shared by check-in, location update and check-out. */
  function AssigneeCheck(s: Shift, caller: Id, denial: string): (r: Outcome<Shift>)
    ensures r.Ok? <==> s.assignedTo == Some(caller)
    ensures s.assignedTo.None? ==> r.Err? && r.code == 400
    ensures s.assignedTo.Some? && s.assignedTo.value != caller ==> r == Err(403, denial)
    ensures r.Ok? ==> r.value == s
  {
    if s.assignedTo.None? then Err(400, UnassignedError)
    else if s.assignedTo.value != caller then Err(403, denial)
    else Ok(s)
  }

  /** `checkIn`: the assignee starts the shift, whatever its status. */
  function CheckInStep(shift: Option<Shift>, caller: Id, lat: real, lng: real, now: Millis): (r: Outcome<Shift>)
    ensures shift.None? ==> r == Err(404, "Shift not found")
    ensures shift.Some? && shift.value.assignedTo.Some? && shift.value.assignedTo.value != caller ==> r.Err? && r.code == 403
    ensures r.Ok? <==> shift.Some? && shift.value.assignedTo == Some(caller)
    ensures r.Ok? ==>
      && r.value.status == InProgress
      && r.value.checkedInAt == Some(now)
      && r.value.currentLocation == Some(LocationSample(lat, lng, now))
      && r.value.assignedTo == shift.value.assignedTo
      && r.value.checkedOutAt == shift.value.checkedOutAt
      && SameDetails(r.value, shift.value)
  {
    match shift
    case None => Err(404, "Shift not found")
    case Some(s) =>
      match AssigneeCheck(s, caller, "Not authorized to check in to this shift")
      case Err(code, e) => Err(code, e)
      case Ok(_) =>
        Ok(s.(checkedInAt := Some(now), status := InProgress,
              currentLocation := Some(LocationSample(lat, lng, now))))
  }

  /** `updateLocation`: the assignee, and then status in-progress; only the location changes. */
  function UpdateLocationStep(shift: Option<Shift>, caller: Id, lat: real, lng: real, now: Millis): (r: Outcome<Shift>)
    ensures shift.None? ==> r == Err(404, "Shift not found")
    ensures shift.Some? && shift.value.assignedTo.Some? && shift.value.assignedTo.value != caller ==> r.Err? && r.code == 403
    ensures shift.Some? && shift.value.assignedTo == Some(caller) && shift.value.status != InProgress ==>
      r == Err(400, "Shift is not in progress")
    ensures r.Ok? <==> shift.Some? && shift.value.assignedTo == Some(caller) && shift.value.status == InProgress
    ensures r.Ok? ==> r.value == shift.value.(currentLocation := Some(LocationSample(lat, lng, now)))
  {
    match shift
    case None => Err(404, "Shift not found")
    case Some(s) =>
      match AssigneeCheck(s, caller, "Not authorized to update this shift")
      case Err(code, e) => Err(code, e)
      case Ok(_) =>
        if s.status != InProgress then Err(400, "Shift is not in progress")
        else Ok(s.(currentLocation := Some(LocationSample(lat, lng, now))))
  }

  /** `checkOut`: the assignee completes the shift, whatever its status. */
  function CheckOutStep(shift: Option<Shift>, caller: Id, lat: real, lng: real, now: Millis): (r: Outcome<Shift>)
    ensures shift.None? ==> r == Err(404, "Shift not found")
    ensures shift.Some? && shift.value.assignedTo.Some? && shift.value.assignedTo.value != caller ==> r.Err? && r.code == 403
    ensures r.Ok? <==> shift.Some? && shift.value.assignedTo == Some(caller)
    ensures r.Ok? ==>
      && r.value.status == Completed
      && r.value.checkedOutAt == Some(now)
      && r.value.currentLocation == Some(LocationSample(lat, lng, now))
      && r.value.assignedTo == shift.value.assignedTo
      && r.value.checkedInAt == shift.value.checkedInAt
      && SameDetails(r.value, shift.value)
  {
    match shift
    case None => Err(404, "Shift not found")
    case Some(s) =>
      match AssigneeCheck(s, caller, "Not authorized to check out from this shift")
      case Err(code, e) => Err(code, e)
      case Ok(_) =>
        Ok(s.(checkedOutAt := Some(now), status := Completed,
              currentLocation := Some(LocationSample(lat, lng, now))))
  }

  /** The part of the `getShifts` filter built from the query string. */
  datatype DateRange = DateRange(gte: string, lte: string)
  datatype ShiftQuery = ShiftQuery(
    startTime: Option<DateRange>,
    status: Option<string>,
    role: Option<string>,
    assignedTo: Option<string>)

  /** `getShifts`: each key is added only when its parameter is supplied; the range needs both dates. */
  method BuildShiftQuery(startDate: Option<string>, endDate: Option<string>, status: Option<string>,
                         role: Option<string>, assignedTo: Option<string>) returns (q: ShiftQuery)
    ensures q.startTime.Some? <==> Supplied(startDate) && Supplied(endDate)
    ensures q.startTime.Some? ==> q.startTime.value == DateRange(startDate.value, endDate.value)
    ensures q.status.Some? <==> Supplied(status)
    ensures q.role.Some? <==> Supplied(role)
    ensures q.assignedTo.Some? <==> Supplied(assignedTo)
    ensures q.status.Some? ==> q.status == status
    ensures q.role.Some? ==> q.role == role
    ensures q.assignedTo.Some? ==> q.assignedTo == assignedTo
  {
    q := ShiftQuery(None, None, None, None);
    if Supplied(startDate) && Supplied(endDate) {
      q := q.(startTime := Some(DateRange(startDate.value, endDate.value)));
    }
    if Supplied(status) { q := q.(status := status); }
    if Supplied(role) { q := q.(role := role); }
    if Supplied(assignedTo) { q := q.(assignedTo := assignedTo); }
  }

  /** `assignShift` on the store: load, check, set `assignedTo` and `status`, save, notify. */
  method AssignShift(desk: ShiftDesk, shiftId: Id, userId: Id, jobRoles: map<Id, string>) returns (resp: Outcome<Shift>)
    modifies desk
    ensures resp == AssignStep(Lookup(old(desk.shifts), shiftId), Lookup(jobRoles, userId), userId)
    ensures desk.shifts == if resp.Ok? then old(desk.shifts)[shiftId := resp.value] else old(desk.shifts)
    ensures desk.outbox == if resp.Ok? then old(desk.outbox) + [Notice(userId, "New Shift Assignment")] else old(desk.outbox)
  {
    if shiftId !in desk.shifts {
      return Err(404, "Shift not found");
    }
    var shift := desk.shifts[shiftId];
    if userId !in jobRoles {
      return Err(404, "User not found");
    }
    if jobRoles[userId] != shift.role {
      return Err(400, "User role does not match shift role");
    }
    shift := shift.(assignedTo := Some(userId));
    shift := shift.(status := Assigned);
    desk.shifts := desk.shifts[shiftId := shift];
    desk.outbox := desk.outbox + [Notice(userId, "New Shift Assignment")];
    resp := Ok(shift);
  }

  /** `checkIn` on the store. */
  method CheckIn(desk: ShiftDesk, shiftId: Id, caller: Id, lat: real, lng: real, now: Millis) returns (resp: Outcome<Shift>)
    modifies desk
    ensures resp == CheckInStep(Lookup(old(desk.shifts), shiftId), caller, lat, lng, now)
    ensures desk.shifts == if resp.Ok? then old(desk.shifts)[shiftId := resp.value] else old(desk.shifts)
    ensures desk.outbox == old(desk.outbox)
  {
    if shiftId !in desk.shifts {
      return Err(404, "Shift not found");
    }
    var shift := desk.shifts[shiftId];
    if shift.assignedTo.None? {
      return Err(400, UnassignedError);
    }
    if shift.assignedTo.value != caller {
      return Err(403, "Not authorized to check in to this shift");
    }
    shift := shift.(checkedInAt := Some(now));
    shift := shift.(status := InProgress);
    shift := shift.(currentLocation := Some(LocationSample(lat, lng, now)));
    desk.shifts := desk.shifts[shiftId := shift];
    resp := Ok(shift);
  }

  /** `updateLocation` on the store. */
  method UpdateLocation(desk: ShiftDesk, shiftId: Id, caller: Id, lat: real, lng: real, now: Millis) returns (resp: Outcome<Shift>)
    modifies desk
    ensures resp == UpdateLocationStep(Lookup(old(desk.shifts), shiftId), caller, lat, lng, now)
    ensures desk.shifts == if resp.Ok? then old(desk.shifts)[shiftId := resp.value] else old(desk.shifts)
    ensures desk.outbox == old(desk.outbox)
  {
    if shiftId !in desk.shifts {
      return Err(404, "Shift not found");
    }
    var shift := desk.shifts[shiftId];
    if shift.assignedTo.None? {
      return Err(400, UnassignedError);
    }
    if shift.assignedTo.value != caller {
      return Err(403, "Not authorized to update this shift");
    }
    if shift.status != InProgress {
      return Err(400, "Shift is not in progress");
    }
    shift := shift.(currentLocation := Some(LocationSample(lat, lng, now)));
    desk.shifts := desk.shifts[shiftId := shift];
    resp := Ok(shift);
  }

  /** `checkOut` on the store. */
  method CheckOut(desk: ShiftDesk, shiftId: Id, caller: Id, lat: real, lng: real, now: Millis) returns (resp: Outcome<Shift>)
    modifies desk
    ensures resp == CheckOutStep(Lookup(old(desk.shifts), shiftId), caller, lat, lng, now)
    ensures desk.shifts == if resp.Ok? then old(desk.shifts)[shiftId := resp.value] else old(desk.shifts)
    ensures desk.outbox == old(desk.outbox)
  {
    if shiftId !in desk.shifts {
      return Err(404, "Shift not found");
    }
    var shift := desk.shifts[shiftId];
    if shift.assignedTo.None? {
      return Err(400, UnassignedError);
    }
    if shift.assignedTo.value != caller {
      return Err(403, "Not authorized to check out from this shift");
    }
    shift := shift.(checkedOutAt := Some(now));
    shift := shift.(status := Completed);
    shift := shift.(currentLocation := Some(LocationSample(lat, lng, now)));
    desk.shifts := desk.shifts[shiftId := shift];
    resp := Ok(shift);
  }
}
