/**
 * The booking machine of the schedule controller
 * (src/controllers/schedule/scheduleController.js). Its vocabulary is the one of
 * src/models/Shift.js: a shift is `available` or `booked` (or `completed`,
 * `cancelled`), and the worker holding it is `bookedBy`. It is kept apart from
 * the assignment machine (`assignedTo`, open/assigned/in-progress/completed).
 *
 * Each handler is a guarded transition on one stored record: a pure step
 * function states the decision, and `ScheduleBoard` performs it on the store
 * (a map from id to record) and on the notification outbox.
 */
module Booking {
  import opened Common

  /** The status enum of the booking vocabulary. */
  datatype BookingStatus = Available | Booked | Completed | Cancelled

  datatype Facility = Facility(name: string, location: string, address: string)

  /** The fields of a shift that the booking handlers read or write. */
  datatype BookableShift = BookableShift(
    facility: Facility,
    requiredRole: string,
    status: BookingStatus,
    bookedBy: Option<Id>)

  /** A worker as the recipient query sees it. */
  datatype Member = Member(id: Id, jobRole: string, preferredLocations: seq<string>)

  /** A `$set` body for `updateShift`: each present field overwrites the stored one. */
  datatype ShiftPatch = ShiftPatch(
    facility: Option<Facility>,
    requiredRole: Option<string>,
    status: Option<BookingStatus>,
    bookedBy: Option<Option<Id>>)

  /**
   * `bookShift`: the shift must exist and have no booker, and the caller's job
   * role must equal the required role. The status is not consulted.
   */
  function BookStep(shift: Option<BookableShift>, caller: Id, callerRole: string): (r: Outcome<BookableShift>)
    ensures shift.None? ==> r.Err? && r.code == 404
    ensures shift.Some? && shift.value.bookedBy.Some? ==> r.Err? && r.code == 400
    ensures shift.Some? && callerRole != shift.value.requiredRole ==> r.Err? && r.code == 400
    ensures r.Ok? <==> shift.Some? && shift.value.bookedBy.None? && callerRole == shift.value.requiredRole
    ensures r.Ok? ==>
      && r.value.bookedBy == Some(caller)
      && r.value.status == Booked
      && r.value.facility == shift.value.facility
      && r.value.requiredRole == shift.value.requiredRole
  {
    match shift
    case None => Err(404, "Shift not found")
    case Some(s) =>
      if s.bookedBy.Some? then Err(400, "Shift already booked")
      else if callerRole != s.requiredRole then Err(400, "You are not qualified for this shift")
      else Ok(s.(bookedBy := Some(caller), status := Booked))
  }

  /** `cancelShift`: only the current booker may cancel; the shift becomes available again. */
  function CancelStep(shift: Option<BookableShift>, caller: Id): (r: Outcome<BookableShift>)
    ensures shift.None? ==> r.Err? && r.code == 404
    ensures r.Ok? <==> shift.Some? && shift.value.bookedBy == Some(caller)
    ensures shift.Some? && shift.value.bookedBy != Some(caller) ==> r.Err? && r.code == 400
    ensures r.Ok? ==>
      && r.value.bookedBy.None?
      && r.value.status == Available
      && r.value.facility == shift.value.facility
      && r.value.requiredRole == shift.value.requiredRole
  {
    match shift
    case None => Err(404, "Shift not found")
    case Some(s) =>
      if s.bookedBy.None? || s.bookedBy.value != caller then Err(400, "You have not booked this shift")
      else Ok(s.(bookedBy := None, status := Available))
  }

  /** `findByIdAndUpdate` with `$set`: present fields replace the stored ones. */
  function ApplyPatch(s: BookableShift, p: ShiftPatch): (r: BookableShift)
    ensures p == ShiftPatch(None, None, None, None) ==> r == s
    ensures p.facility.Some? ==> r.facility == p.facility.value
    ensures p.facility.None? ==> r.facility == s.facility
    ensures p.requiredRole.Some? ==> r.requiredRole == p.requiredRole.value
    ensures p.requiredRole.None? ==> r.requiredRole == s.requiredRole
    ensures p.status.Some? ==> r.status == p.status.value
    ensures p.status.None? ==> r.status == s.status
    ensures p.bookedBy.Some? ==> r.bookedBy == p.bookedBy.value
    ensures p.bookedBy.None? ==> r.bookedBy == s.bookedBy
  {
    BookableShift(
      if p.facility.Some? then p.facility.value else s.facility,
      if p.requiredRole.Some? then p.requiredRole.value else s.requiredRole,
      if p.status.Some? then p.status.value else s.status,
      if p.bookedBy.Some? then p.bookedBy.value else s.bookedBy)
  }

  /** Applying the same `$set` twice is applying it once. */
  lemma ApplyPatchIdempotent(s: BookableShift, p: ShiftPatch)
    ensures ApplyPatch(ApplyPatch(s, p), p) == ApplyPatch(s, p)
  {
  }

  /**
   * An update whose body leaves out `bookedBy` keeps the booker, so the
   * update notice goes to the worker who held the shift before, and a shift
   * that was bookable stays bookable when the patch does not touch the role.
   */
  lemma PatchKeepsBooker(s: BookableShift, p: ShiftPatch, caller: Id, callerRole: string, kind: string)
    requires p.bookedBy.None?
    ensures BookedUserNotice(ApplyPatch(s, p), kind) == BookedUserNotice(s, kind)
    ensures p.requiredRole.None? ==> (BookStep(Some(ApplyPatch(s, p)), caller, callerRole).Ok? <==> BookStep(Some(s), caller, callerRole).Ok?)
  {
  }

  /**
   * The recipients of "new shift" and "shift available" notices: the users
   * whose job role is the required role and whose preferred locations contain
   * the facility location, in store order.
   */
  function Recipients(members: seq<Member>, role: string, location: string): (r: seq<Member>)
    ensures |r| <= |members|
    ensures forall m :: m in r <==> m in members && m.jobRole == role && location in m.preferredLocations
  {
    if |members| == 0 then []
    else
      var rest := Recipients(members[1..], role, location);
      if members[0].jobRole == role && location in members[0].preferredLocations
      then [members[0]] + rest
      else rest
  }

  /** One notice of the given type per recipient, in order. */
  function NoticesTo(users: seq<Member>, kind: string): seq<Notice> {
    seq(|users|, i requires 0 <= i < |users| => Notice(users[i].id, kind))
  }

  /** `updateShift` and `deleteShift` notify the booked user, and only when there is one. */
  function BookedUserNotice(s: BookableShift, kind: string): (r: seq<Notice>)
    ensures |r| <= 1
    ensures r != [] <==> s.bookedBy.Some?
    ensures r != [] ==> r[0].recipient == s.bookedBy.value && r[0].kind == kind
  {
    if s.bookedBy.Some? then [Notice(s.bookedBy.value, kind)] else []
  }

  /** Booking and then cancelling by the same user frees the shift and sets it `available`. */
  lemma BookThenCancel(s: BookableShift, caller: Id, callerRole: string)
    requires BookStep(Some(s), caller, callerRole).Ok?
    ensures var c := CancelStep(Some(BookStep(Some(s), caller, callerRole).value), caller);
      c.Ok? && c.value == s.(status := Available)
  {
  }

  /** A booked shift cannot be cancelled by anyone else. */
  lemma OnlyBookerCancels(s: BookableShift, caller: Id, callerRole: string, other: Id)
    requires BookStep(Some(s), caller, callerRole).Ok?
    requires other != caller
    ensures CancelStep(Some(BookStep(Some(s), caller, callerRole).value), other) == Err(400, "You have not booked this shift")
  {
  }

  /** Status is not a booking guard: an unbooked `cancelled` shift can be booked. */
  lemma CancelledShiftIsBookable(s: BookableShift, caller: Id)
    requires s.status == Cancelled && s.bookedBy.None?
    ensures BookStep(Some(s), caller, s.requiredRole).Ok?
  {
  }

  /** The documents of the shift store, plus the notices handlers asked to send. */
  class ScheduleBoard {
    var shifts: map<Id, BookableShift>
    var outbox: seq<Notice>

    constructor ()
      ensures shifts == map[] && outbox == []
    {
      shifts := map[];
      outbox := [];
    }

    /** The notification loop: one send per recipient, in order. */
    method NotifyEach(users: seq<Member>, kind: string)
      modifies this
      ensures shifts == old(shifts)
      ensures outbox == old(outbox) + NoticesTo(users, kind)
    {
      var i := 0;
      while i < |users|
        invariant 0 <= i <= |users|
        invariant shifts == old(shifts)
        invariant outbox == old(outbox) + NoticesTo(users[..i], kind)
      {
        assert NoticesTo(users[..i + 1], kind) == NoticesTo(users[..i], kind) + [Notice(users[i].id, kind)];
        outbox := outbox + [Notice(users[i].id, kind)];
        i := i + 1;
      }
      assert users[..i] == users;
    }

    /** `createShift`: store the new shift, then tell every matching worker. */
    method CreateShift(id: Id, shift: BookableShift, members: seq<Member>)
      requires id !in shifts
      modifies this
      ensures shifts == old(shifts)[id := shift]
      ensures outbox == old(outbox) + NoticesTo(Recipients(members, shift.requiredRole, shift.facility.location), "NEW_SHIFT")
    {
      shifts := shifts[id := shift];
      var users := Recipients(members, shift.requiredRole, shift.facility.location);
      NotifyEach(users, "NEW_SHIFT");
    }

    /** `updateShift`: apply the patch, then notify whoever the updated shift is booked by. */
    method UpdateShift(id: Id, patch: ShiftPatch) returns (resp: Outcome<BookableShift>)
      modifies this
      ensures id !in old(shifts) ==> resp == Err(404, "Shift not found") && shifts == old(shifts) && outbox == old(outbox)
      ensures id in old(shifts) ==>
        && resp == Ok(ApplyPatch(old(shifts)[id], patch))
        && shifts == old(shifts)[id := resp.value]
        && outbox == old(outbox) + BookedUserNotice(resp.value, "SHIFT_UPDATED")
    {
      if id !in shifts {
        return Err(404, "Shift not found");
      }
      var shift := ApplyPatch(shifts[id], patch);
      shifts := shifts[id := shift];
      if shift.bookedBy.Some? {
        outbox := outbox + [Notice(shift.bookedBy.value, "SHIFT_UPDATED")];
      }
      resp := Ok(shift);
    }

    /** `deleteShift`: notify the booked user, if any, then remove the shift. */
    method DeleteShift(id: Id) returns (resp: Outcome<BookableShift>)
      modifies this
      ensures id !in old(shifts) ==> resp == Err(404, "Shift not found") && shifts == old(shifts) && outbox == old(outbox)
      ensures id in old(shifts) ==>
        && resp == Ok(old(shifts)[id])
        && shifts == old(shifts) - {id}
        && outbox == old(outbox) + BookedUserNotice(old(shifts)[id], "SHIFT_CANCELLED")
    {
      if id !in shifts {
        return Err(404, "Shift not found");
      }
      var shift := shifts[id];
      if shift.bookedBy.Some? {
        outbox := outbox + [Notice(shift.bookedBy.value, "SHIFT_CANCELLED")];
      }
      shifts := shifts - {id};
      resp := Ok(shift);
    }

    /** `bookShift`, on the stored record; a confirmation goes to the caller after the save. */
    method BookShift(id: Id, caller: Id, callerRole: string) returns (resp: Outcome<BookableShift>)
      modifies this
      ensures resp == BookStep(Lookup(old(shifts), id), caller, callerRole)
      ensures shifts == if resp.Ok? then old(shifts)[id := resp.value] else old(shifts)
      ensures outbox == if resp.Ok? then old(outbox) + [Notice(caller, "SHIFT_BOOKED")] else old(outbox)
    {
      if id !in shifts {
        return Err(404, "Shift not found");
      }
      var shift := shifts[id];
      if shift.bookedBy.Some? {
        return Err(400, "Shift already booked");
      }
      if callerRole != shift.requiredRole {
        return Err(400, "You are not qualified for this shift");
      }
      shift := shift.(bookedBy := Some(caller));
      shift := shift.(status := Booked);
      shifts := shifts[id := shift];
      outbox := outbox + [Notice(caller, "SHIFT_BOOKED")];
      resp := Ok(shift);
    }

    /** `cancelShift`, on the stored record; matching workers hear the shift is available. */
    method CancelShift(id: Id, caller: Id, members: seq<Member>) returns (resp: Outcome<BookableShift>)
      modifies this
      ensures resp == CancelStep(Lookup(old(shifts), id), caller)
      ensures shifts == if resp.Ok? then old(shifts)[id := resp.value] else old(shifts)
      ensures outbox == if resp.Ok?
        then old(outbox) + NoticesTo(Recipients(members, resp.value.requiredRole, resp.value.facility.location), "SHIFT_AVAILABLE")
        else old(outbox)
    {
      if id !in shifts {
        return Err(404, "Shift not found");
      }
      var shift := shifts[id];
      if shift.bookedBy.None? || shift.bookedBy.value != caller {
        return Err(400, "You have not booked this shift");
      }
      shift := shift.(bookedBy := None);
      shift := shift.(status := Available);
      shifts := shifts[id := shift];
      var users := Recipients(members, shift.requiredRole, shift.facility.location);
      NotifyEach(users, "SHIFT_AVAILABLE");
      resp := Ok(shift);
    }
  }
}
