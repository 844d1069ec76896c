/**
 * The shift record of the assignment machine, used by
 * src/controllers/shifts/shiftController.js, assign.js and tracking.js.
 * Its vocabulary (`assignedTo`; open, assigned, in-progress, completed) is the
 * controllers' own and differs from the `bookedBy` vocabulary of the booking
 * machine; the two are deliberately not reconciled.
 */
module ShiftRecords {
  import opened Common

  datatype TaskStatus = Open | Assigned | InProgress | Completed | Cancelled

  /** `currentLocation`: the single latest position sample; each write replaces it. */
  datatype LocationSample = LocationSample(lat: real, lng: real, lastUpdated: Millis)

  datatype Shift = Shift(
    role: string,
    startTime: Millis,
    endTime: Millis,
    status: TaskStatus,
    assignedTo: Option<Id>,
    checkedInAt: Option<Millis>,
    checkedOutAt: Option<Millis>,
    currentLocation: Option<LocationSample>)

  /** The fields that no assignment-machine handler writes. */
  predicate SameDetails(a: Shift, b: Shift) {
    a.role == b.role && a.startTime == b.startTime && a.endTime == b.endTime
  }

  /** The shift collection and the notices the handlers asked to send. */
  class ShiftDesk {
    var shifts: map<Id, Shift>
    var outbox: seq<Notice>

    constructor ()
      ensures shifts == map[] && outbox == []
    {
      shifts := map[];
      outbox := [];
    }
  }
}
