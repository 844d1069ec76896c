/**
 * `checkIn` and `updateLocation` of src/controllers/shifts/tracking.js. Both
 * find the shift with one filtered query (id, `assignedTo` = caller, and a
 * status), so every failed guard looks the same to the caller: a 404.
 */
module Tracking {
  import opened Common
  import opened ShiftRecords
  import ShiftController

  /** The `findOne` filter: the shift exists, the caller holds it, and its status is `status`. */
  predicate Found(shift: Option<Shift>, caller: Id, status: TaskStatus) {
    shift.Some? && shift.value.assignedTo == Some(caller) && shift.value.status == status
  }

  /** `checkIn`: only the assignee of an `assigned` shift can start it. */
  function CheckInStep(shift: Option<Shift>, caller: Id, lat: real, lng: real, now: Millis): (r: Outcome<Shift>)
    ensures r.Ok? <==> Found(shift, caller, Assigned)
    ensures r.Err? ==> r == Err(404, "Shift not found or not assigned to you")
    ensures r.Ok? ==>
      && r.value.status == InProgress
      && r.value.checkedInAt == Some(now)
      && r.value.currentLocation == Some(LocationSample(lat, lng, now))
      && r.value.assignedTo == shift.value.assignedTo
      && r.value.checkedOutAt == shift.value.checkedOutAt
      && SameDetails(r.value, shift.value)
  {
    if !Found(shift, caller, Assigned) then Err(404, "Shift not found or not assigned to you")
    else Ok(shift.value.(status := InProgress, checkedInAt := Some(now),
                         currentLocation := Some(LocationSample(lat, lng, now))))
  }

  /** `updateLocation`: only the assignee of an `in-progress` shift; only the location changes. */
  function UpdateLocationStep(shift: Option<Shift>, caller: Id, lat: real, lng: real, now: Millis): (r: Outcome<Shift>)
    ensures r.Ok? <==> Found(shift, caller, InProgress)
    ensures r.Err? ==> r == Err(404, "Active shift not found")
    ensures r.Ok? ==>
      && r.value.currentLocation == Some(LocationSample(lat, lng, now))
      && r.value.status == shift.value.status
      && r.value.assignedTo == shift.value.assignedTo
      && r.value.checkedInAt == shift.value.checkedInAt
      && r.value.checkedOutAt == shift.value.checkedOutAt
      && SameDetails(r.value, shift.value)
  {
    if !Found(shift, caller, InProgress) then Err(404, "Active shift not found")
    else Ok(shift.value.(currentLocation := Some(LocationSample(lat, lng, now))))
  }

  /** After a check-in the status is no longer `assigned`, so a second check-in fails. */
  lemma SecondCheckInFails(s: Shift, caller: Id, lat: real, lng: real, now: Millis,
                           lat2: real, lng2: real, later: Millis)
    requires CheckInStep(Some(s), caller, lat, lng, now).Ok?
    ensures CheckInStep(Some(CheckInStep(Some(s), caller, lat, lng, now).value), caller, lat2, lng2, later).Err?
  {
  }

  /**
   * This check-in is the stricter one: whenever it succeeds, the
   * shiftController.js check-in succeeds too and writes the same record.
   */
  lemma CheckInStricterThanController(shift: Option<Shift>, caller: Id, lat: real, lng: real, now: Millis)
    requires CheckInStep(shift, caller, lat, lng, now).Ok?
    ensures ShiftController.CheckInStep(shift, caller, lat, lng, now) == CheckInStep(shift, caller, lat, lng, now)
  {
  }

  /**
   * The shift day: check in to an assigned shift, report a position, check out
   * (check-out exists only in shiftController.js). The shift ends `completed`
   * with both timestamps and the last position.
   */
  lemma ShiftDay(s: Shift, caller: Id, t1: Millis, t2: Millis, t3: Millis, lat: real, lng: real)
    requires s.status == Assigned && s.assignedTo == Some(caller)
    ensures var a := CheckInStep(Some(s), caller, lat, lng, t1);
            a.Ok? &&
            var b := UpdateLocationStep(Some(a.value), caller, lat, lng, t2);
            b.Ok? &&
            var c := ShiftController.CheckOutStep(Some(b.value), caller, lat, lng, t3);
            c.Ok? && c.value.status == Completed && c.value.checkedInAt == Some(t1) &&
            c.value.checkedOutAt == Some(t3) && c.value.assignedTo == Some(caller)
  {
  }

  /** `checkIn` on the store. */
  method CheckIn(desk: ShiftDesk, shiftId: Id, caller: Id, lat: real, lng: real, now: Millis) returns (resp: Outcome<Shift>)
    modifies desk
    ensures resp == CheckInStep(Lookup(old(desk.shifts), shiftId), caller, lat, lng, now)
    ensures desk.shifts == if resp.Ok? then old(desk.shifts)[shiftId := resp.value] else old(desk.shifts)
    ensures desk.outbox == old(desk.outbox)
  {
    var found := Lookup(desk.shifts, shiftId);
    if !Found(found, caller, Assigned) {
      return Err(404, "Shift not found or not assigned to you");
    }
    var shift := found.value;
    shift := shift.(status := InProgress);
    shift := shift.(checkedInAt := Some(now));
    shift := shift.(currentLocation := Some(LocationSample(lat, lng, now)));
    desk.shifts := desk.shifts[shiftId := shift];
    resp := Ok(shift);
  }

  /** `updateLocation` on the store. */
  method UpdateLocation(desk: ShiftDesk, shiftId: Id, caller: Id, lat: real, lng: real, now: Millis) returns (resp: Outcome<Shift>)
    modifies desk
    ensures resp == UpdateLocationStep(Lookup(old(desk.shifts), shiftId), caller, lat, lng, now)
    ensures desk.shifts == if resp.Ok? then old(desk.shifts)[shiftId := resp.value] else old(desk.shifts)
    ensures desk.outbox == old(desk.outbox)
  {
    var found := Lookup(desk.shifts, shiftId);
    if !Found(found, caller, InProgress) {
      return Err(404, "Active shift not found");
    }
    var shift := found.value.(currentLocation := Some(LocationSample(lat, lng, now)));
    desk.shifts := desk.shifts[shiftId := shift];
    resp := Ok(shift);
  }
}
