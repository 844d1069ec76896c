# Staff scheduling service: verified model of the handlers' decision rules

This project models the decision logic of a staffing service for healthcare workers. The service is an Express/Mongoose API. Staff book or are assigned shifts, check in and out, enrol in training courses and record their progress. They also upload compliance documents and keep a profile. The service notifies them in real time, by e-mail and by SMS.

The model leaves out the HTTP and database plumbing. Each collection is a map from id to record. Each response is a status code with a result. The clock (`now`) and every third-party result are parameters: upload URLs, geocoder coordinates, certificate URLs, payment ids and delivery outcomes. Notifications are entries appended to an outbox.

Each handler that changes a record is modelled twice:

- as a pure step function on the record, whose lemmas carry the properties;
- as a method of a store class (`ScheduleBoard`, `ShiftDesk`, `TrainingDesk`, `ProgressDesk`, `EnrollmentDesk`, `DocumentDesk`, `Account`, `UserProfile`), which does the lookup, the guards and the save.

Each store method's `ensures` ties its new state and response to the step function.

The modules follow the source files:

- **Shift lifecycles.** There are two lifecycles, kept apart as the source keeps them:
  - `Booking` covers booking (`bookedBy`: available/booked) in `scheduleController.js`.
  - `ShiftRecords`, `ShiftController`, `AssignHandler` and `Tracking` cover assignment (`assignedTo`: open, assigned, in-progress, completed) in `shiftController.js`, `assign.js` and `tracking.js`.
- **Training and courses:**
  - `Training` models `trainingController.js`.
  - `CourseProgress` models the per-module progress in `courseController.js`.
  - The two enrollment views cannot both be right. `CourseProgress` follows the controller's per-module `progress` list. `EnrollmentRecords` and `ProgressHandler` follow the schema's numeric `progress`. The two shapes are modelled side by side and never reconciled.
  - `EnrollmentRecords`, `EnrollHandler` and `ProgressHandler` model `Enrollment.js`, `enroll.js` and `progress.js`.
- **Documents.** `Documents` models the `Document.js` enums and virtuals. `DocumentController` models the type table, uploads, review and the compliance report.
- **Users:**
  - `UserAccount` covers FCM tokens and notifications.
  - `Profile` covers the profile merge, document slots, references and work history.
  - `Json` provides the property reads and writes that `Profile` uses.
- **Services and middleware:**
  - `Notifications` models channel selection.
  - `ErrorHandling` models the error middleware.
  - `Validation` models the Joi schemas and `validate`.
  - `Sanitize` models `sanitizeFilename`.
- **Shared.** `Common` holds the shared option, outcome and list helpers.

## Model

| member | source | states |
|---|---|---|
| Booking.BookStep | src/controllers/schedule/scheduleController.js:126-146 | `bookShift`: 404 for a missing shift, 400 when it already has a booker or the caller's job role differs from the required role; succeeds exactly otherwise, setting `bookedBy` to the caller and the status to `booked` and keeping facility and role |
| Booking.CancelStep | src/controllers/schedule/scheduleController.js:164-178 | `cancelShift`: 404 for a missing shift; succeeds exactly when the caller is the booker, clearing `bookedBy` and setting `available`; 400 otherwise |
| Booking.ApplyPatch | src/controllers/schedule/scheduleController.js:71-75 | `$set` update: each of the four fields takes the patch's value when the patch has one and keeps its stored value otherwise, so an empty patch leaves the shift unchanged |
| Booking.ApplyPatchIdempotent | src/controllers/schedule/scheduleController.js:71-75 | applying the same `$set` body twice gives the same shift as applying it once |
| Booking.PatchKeepsBooker | src/controllers/schedule/scheduleController.js:71-89 | an update that leaves out `bookedBy` notifies the same booker as before, and one that also leaves out `requiredRole` keeps the shift exactly as bookable as it was |
| Booking.Recipients | src/controllers/schedule/scheduleController.js:47-50 | the notified workers are exactly the stored users with the required job role whose preferred locations include the facility's location |
| Booking.BookedUserNotice | src/controllers/schedule/scheduleController.js:82-89 | update and delete send at most one notice, and send one exactly when the shift has a booker, addressed to that booker |
| Booking.BookThenCancel | src/controllers/schedule/scheduleController.js:144-145 | booking then cancelling by the same caller gives back the original shift with status `available` |
| Booking.OnlyBookerCancels | src/controllers/schedule/scheduleController.js:172-174 | once a shift is booked, any other caller's cancel gets 400 "You have not booked this shift" |
| Booking.CancelledShiftIsBookable | src/controllers/schedule/scheduleController.js:134-142 | the status is not a booking guard: a `cancelled` shift with no booker can be booked |
| Booking.ScheduleBoard.constructor | src/models/Shift.js:3-53 | the shift store starts empty with no notices |
| Booking.ScheduleBoard.NotifyEach | src/controllers/schedule/scheduleController.js:52-59 | the loop sends one notice per recipient, in order, and leaves the shifts unchanged |
| Booking.ScheduleBoard.CreateShift | src/controllers/schedule/scheduleController.js:38-61 | `createShift` stores the new shift, then queues one NEW_SHIFT notice per matching worker |
| Booking.ScheduleBoard.UpdateShift | src/controllers/schedule/scheduleController.js:69-91 | `updateShift`: 404 with nothing changed for a missing id; otherwise stores the patched shift and notifies its booker, if any |
| Booking.ScheduleBoard.DeleteShift | src/controllers/schedule/scheduleController.js:99-118 | `deleteShift`: 404 for a missing id; otherwise notifies the booker, if any, and removes the shift |
| Booking.ScheduleBoard.BookShift | src/controllers/schedule/scheduleController.js:126-156 | the stored record changes exactly as `BookStep` says, and a SHIFT_BOOKED notice goes to the caller only on success |
| Booking.ScheduleBoard.CancelShift | src/controllers/schedule/scheduleController.js:164-195 | the stored record changes exactly as `CancelStep` says; on success every matching worker gets a SHIFT_AVAILABLE notice |
| ShiftRecords.ShiftDesk.constructor | src/models/Shift.js:3-53 | the assignment-machine shift store starts empty with no notices |
| ShiftController.AssignStep | src/controllers/shifts/shiftController.js:59-81 | `assignShift`: 404 "Shift not found" before the user is looked up, then 404 "User not found", then 400 on a role mismatch; succeeds exactly when the user's job role equals the shift role, setting `assignedTo` and `assigned` whatever the prior status and keeping every other field |
| ShiftController.AssigneeCheck | src/controllers/shifts/shiftController.js:109-111 | passes exactly when the caller is the assignee; an unassigned shift makes `toString()` throw and the catch answers 400; another assignee gets 403 with the handler's text |
| ShiftController.CheckInStep | src/controllers/shifts/shiftController.js:99-120 | `checkIn`: 404 for a missing shift, 403 for someone else's shift; succeeds exactly for the assignee, whatever the status, setting `in-progress`, `checkedInAt` and the location to the clock and keeping the rest |
| ShiftController.UpdateLocationStep | src/controllers/shifts/shiftController.js:130-153 | `updateLocation`: 404, 403, then 400 "Shift is not in progress"; on success only `currentLocation` changes |
| ShiftController.CheckOutStep | src/controllers/shifts/shiftController.js:163-184 | `checkOut`: 404, 403; succeeds exactly for the assignee, whatever the status (including one never checked in), setting `completed`, `checkedOutAt` and the location |
| ShiftController.BuildShiftQuery | src/controllers/shifts/shiftController.js:25-44 | the date range is filtered exactly when both dates are supplied; each of status, role and assignee is filtered exactly when supplied and non-empty, and then with the given value |
| ShiftController.AssignShift | src/controllers/shifts/shiftController.js:59-91 | the store changes exactly as `AssignStep` says, and the assignee is notified only on success |
| ShiftController.CheckIn | src/controllers/shifts/shiftController.js:99-122 | the store changes exactly as `CheckInStep` says; no notice |
| ShiftController.UpdateLocation | src/controllers/shifts/shiftController.js:130-155 | the store changes exactly as `UpdateLocationStep` says; no notice |
| ShiftController.CheckOut | src/controllers/shifts/shiftController.js:163-186 | the store changes exactly as `CheckOutStep` says; no notice |
| AssignHandler.AssignStep | src/controllers/shifts/assign.js:14-31 | checks in order: 404 missing shift, 404 missing user, 400 status not `open`, 400 role mismatch; succeeds exactly on an open shift whose role is the user's job role, setting `assignedTo` and `assigned` and keeping every other field |
| AssignHandler.SecondAssignFails | src/controllers/shifts/assign.js:22-24 | once assigned, any second assignment is refused with "Shift is not available" |
| AssignHandler.VariantsDisagreeOffOpen | src/controllers/shifts/assign.js:22-24 | on a shift that is not open, the shiftController.js handler reassigns it while this one refuses |
| AssignHandler.VariantsAgreeOnOpen | src/controllers/shifts/assign.js:14-31 | on an open or missing shift the two assignment handlers agree on success, on the status code and on the written record |
| AssignHandler.AssignShift | src/controllers/shifts/assign.js:5-41 | the store changes exactly as `AssignStep` says, and a SHIFT_ASSIGNED notice follows the save only on success |
| Tracking.CheckInStep | src/controllers/shifts/tracking.js:3-24 | succeeds exactly when the shift exists, is assigned to the caller and is `assigned`; every failure is the same 404; success sets `in-progress`, `checkedInAt` and the location and keeps the rest |
| Tracking.UpdateLocationStep | src/controllers/shifts/tracking.js:30-48 | succeeds exactly for the caller's `in-progress` shift, otherwise 404 "Active shift not found"; only the location changes |
| Tracking.SecondCheckInFails | src/controllers/shifts/tracking.js:6-10 | after a check-in the shift is no longer `assigned`, so a second check-in fails |
| Tracking.CheckInStricterThanController | src/controllers/shifts/tracking.js:6-21 | whenever this check-in succeeds, the shiftController.js check-in succeeds with the same record |
| Tracking.ShiftDay | src/controllers/shifts/tracking.js:3-48 | check-in, a location update and check-out take an assigned shift to `completed` with both timestamps and the assignee kept |
| Tracking.CheckIn | src/controllers/shifts/tracking.js:3-24 | the store changes exactly as `CheckInStep` says; no notice |
| Tracking.UpdateLocation | src/controllers/shifts/tracking.js:30-49 | the store changes exactly as `UpdateLocationStep` says; no notice |
| Training.FirstFor | src/controllers/training/trainingController.js:184 | the index `findIndex` picks: -1 exactly when no training is for the course, otherwise the first one that is |
| Training.EnrollStep | src/controllers/training/trainingController.js:123-148 | `enrollInCourse`: 404 for a missing course, 400 when already in `enrolledUsers`, 400 when the job role differs; succeeds exactly otherwise, appending the caller once (it then occurs exactly once) and one `enrolled` training at the end, everything before kept; no other field of the course (title, role, start date) or of the user changes |
| Training.MarkWithdrawn | src/controllers/training/trainingController.js:184-189 | only the first training for the course becomes `withdrawn` with a timestamp; every other entry is unchanged, and with no such entry nothing changes |
| Training.MarkCompleted | src/controllers/training/trainingController.js:224-230 | only the first training for the course becomes `completed` with a timestamp; every other entry is unchanged |
| Training.WithdrawStep | src/controllers/training/trainingController.js:167-189 | `withdrawFromCourse`: 404 for a missing course; succeeds exactly when the caller is enrolled (else 400), after which the list is the old one with every copy of the caller removed and the other ids in their order, and the trainings change only as `MarkWithdrawn` says; no other field of the course or of the user changes |
| Training.CompleteStep | src/controllers/training/trainingController.js:215-231 | `markCourseComplete`: 404 for a missing course; succeeds exactly when some training is for the course (else 400), whatever its status or the course's list |
| Training.CompletedTrainings | src/controllers/training/trainingController.js:307 | the history holds exactly the `completed` trainings and is never longer than the list |
| Training.EnrolledCourseIds | src/controllers/training/trainingController.js:319-321 | exactly the course ids of the `enrolled` trainings |
| Training.UpcomingCourses | src/controllers/training/trainingController.js:319-326 | exactly the stored courses that start after now and that some `enrolled` training refers to |
| Training.HistoryAppend | src/controllers/training/trainingController.js:307 | the history keeps stored order: appending a training extends it by that training exactly when it is `completed` |
| Training.SecondEnrollFails | src/controllers/training/trainingController.js:132-134 | after a successful enroll, enrolling again is refused with 400 "Already enrolled in this course" |
| Training.EnrollThenWithdraw | src/controllers/training/trainingController.js:140-189 | for a user with no earlier training for the course, enrolling then withdrawing restores `enrolledUsers` exactly, in order, and leaves one extra `withdrawn` training |
| Training.WithdrawAfterReenrolKeepsNewEntry | src/controllers/training/trainingController.js:184-186 | with an older training for the course, withdrawing marks that older one, so the new entry stays `enrolled` although the caller has left the course |
| Training.CompleteAfterWithdraw | src/controllers/training/trainingController.js:224-229 | a withdrawn training can still be marked complete |
| Training.TrainingDesk.constructor | src/controllers/training/trainingController.js:123-149 | the course and user stores start empty with no notices |
| Training.TrainingDesk.Enroll | src/controllers/training/trainingController.js:123-157 | both stores change exactly as `EnrollStep` says; a COURSE_ENROLLED notice goes to the caller only on success |
| Training.TrainingDesk.Withdraw | src/controllers/training/trainingController.js:167-189 | both stores change exactly as `WithdrawStep` says; no notice |
| Training.TrainingDesk.MarkComplete | src/controllers/training/trainingController.js:215-231 | the user store changes exactly as `CompleteStep` says; courses are untouched |
| CourseProgress.Stamp | src/controllers/courses/courseController.js:125 | a module entry's `completedAt` is set exactly when `completed` is true, and then to the clock |
| CourseProgress.Upsert | src/controllers/courses/courseController.js:122-132 | the new entry is present; exactly one entry is appended exactly when the module had none, otherwise the length is kept; entries of other modules are unchanged; no duplicate module entry is introduced |
| CourseProgress.AllModulesCompleted | src/controllers/courses/courseController.js:136-140 | true exactly when every course module has a completed entry; a course without modules is complete |
| CourseProgress.UpdateStep | src/controllers/courses/courseController.js:107-164 | 404 unless the enrollment exists and belongs to the caller; 400 when its course is missing; otherwise the progress is the upsert; an enrollment already completed keeps its date, status and certificate; a fresh one completes exactly when all modules are done, and then with the clock, `completed` and the certificate |
| CourseProgress.CompletesAtMostOnce | src/controllers/courses/courseController.js:142-161 | over any series of requests the enrollment completes at most once, and never again once completed |
| CourseProgress.NeverReverts | src/controllers/courses/courseController.js:142-164 | once completed, status and `completedAt` survive every later request, including ones marking a module incomplete |
| CourseProgress.EmptyCourseCompletesAtOnce | src/controllers/courses/courseController.js:136-144 | a course without modules completes on the first update of a fresh enrollment |
| CourseProgress.BuildCourseQuery | src/controllers/courses/courseController.js:11-41 | the filter always has `isActive`; category, search and each price bound appear exactly when supplied, with their values; the sort key defaults to `createdAt` and the order is descending exactly when `order` is absent or `desc` |
| CourseProgress.ProgressDesk.constructor | src/controllers/courses/courseController.js:107-115 | the enrollment store starts empty over a given course catalogue |
| CourseProgress.ProgressDesk.UpdateProgress | src/controllers/courses/courseController.js:107-165 | the store changes exactly as `UpdateStep` says, courses are untouched, and a completion notice is queued exactly when this request completed the enrollment |
| EnrollmentRecords.EnrollmentDesk.constructor | src/models/Enrollment.js:3-40 | the enrollment store starts empty over a given set of course ids, with no notices |
| EnrollHandler.NewEnrollment | src/controllers/courses/enroll.js:30-35 | a new enrollment stores user, course, payment id and start date, with the schema defaults: status `pending`, progress 0, no completed modules (src/models/Enrollment.js:14-24) |
| EnrollHandler.EnrollStep | src/controllers/courses/enroll.js:6-37 | 404 for a missing course; 400 when the caller already holds an enrollment in it that is not cancelled; succeeds exactly otherwise, with the new `pending` enrollment |
| EnrollHandler.EnrollKeepsAtMostOneActive | src/controllers/courses/enroll.js:16-37 | inserting what `EnrollStep` allows keeps at most one non-cancelled enrollment per user and course |
| EnrollHandler.SecondEnrollFails | src/controllers/courses/enroll.js:16-24 | a second enrollment in the same course is refused while the first is live |
| EnrollHandler.CancelledDoesNotBlock | src/controllers/courses/enroll.js:19 | when every enrollment of the caller in the course is cancelled, enrolling succeeds |
| EnrollHandler.Enroll | src/controllers/courses/enroll.js:6-37 | the store changes exactly as `EnrollStep` says, under the fresh id, and the at-most-one-live invariant is preserved |
| ProgressHandler.UpdateStep | src/controllers/courses/progress.js:4-46 | 404 unless the enrollment belongs to the caller; a progress outside 0..100 fails the save (500, nothing stored); otherwise progress is overwritten, a non-empty module id is appended, and progress 100 sets `completed`, the completion date and the certificate, while any other value leaves them alone |
| ProgressHandler.CompletionRepeats | src/controllers/courses/progress.js:26-36 | there is no once-guard: a second 100 completes again with the new date and certificate |
| ProgressHandler.ModuleRecordedEachTime | src/controllers/courses/progress.js:18-23 | the same module reported twice is recorded twice |
| ProgressHandler.UpdateKeepsAtMostOneActive | src/controllers/courses/progress.js:16-28 | updating a live enrollment keeps the at-most-one-live invariant of the enroll path |
| ProgressHandler.CompletionRevivesCancelled | src/controllers/courses/progress.js:7-28 | progress 100 on a cancelled enrollment revives it, so a user who re-enrolled then holds two live enrollments in the course |
| ProgressHandler.UpdateProgress | src/controllers/courses/progress.js:4-47 | the store changes exactly as `UpdateStep` says, and a COURSE_COMPLETED notice is queued exactly on a successful 100 |
| Documents.ParseType | src/models/Document.js:9-23 | schema validation of `type`: an accepted string is the name of the type it yields |
| Documents.TypeNameRoundTrip | src/models/Document.js:12-22 | every one of the nine enum names is accepted back as its own type, so the names are distinct |
| Documents.ParseStatus | src/models/Document.js:43-47 | schema validation of `status`: exactly the four enum strings are accepted, each as its own status |
| Documents.StatusNameRoundTrip | src/models/Document.js:45 | every status name is accepted back as itself |
| Documents.IsExpired | src/models/Document.js:66-69 | false without an expiry date; otherwise true exactly when now is after the expiry |
| Documents.CeilDays | src/models/Document.js:76-77 | the ceiling of a millisecond difference in days: the day count d satisfies (d-1)·86 400 000 < diff ≤ d·86 400 000 |
| Documents.DaysUntilExpiry | src/models/Document.js:72-78 | null exactly without an expiry date; otherwise the days left rounded up, positive exactly when the expiry is in the future |
| Documents.ExpiredIffNoDaysLeft | src/models/Document.js:66-78 | the two virtuals agree: an expired document has no days left, a document with days left is not expired, and an unexpired one whose expiry is not exactly now has at least one day |
| DocumentController.TypeIndex | src/controllers/document/documentController.js:8-18 | every document type has a row of `DOCUMENT_TYPES` |
| DocumentController.TableRowsDistinct | src/controllers/document/documentController.js:8-18 | no type has two rows: the table is keyed by type |
| DocumentController.RequiredDocuments | src/controllers/document/documentController.js:185-190 | `getRequiredDocuments` lists exactly the rows with `required: true`, each with its `validityMonths`, never more entries than rows |
| DocumentController.RequiredDocumentsAppend | src/controllers/document/documentController.js:185-190 | the filter distributes over concatenation, so the required rows keep their table order |
| DocumentController.RequiredDocumentsOfTable | src/controllers/document/documentController.js:8-18 | for the table as written the answer is the eight required types in table order, Enhanced DBS (36 months) to Insurance Certificate (12 months) |
| DocumentController.OnlyTrainingOptional | src/controllers/document/documentController.js:9-17 | a type is required exactly when it is not `Training Certificate` |
| DocumentController.RowOfType | src/controllers/document/documentController.js:8-18 | any row of the table is the row of its own type |
| DocumentController.RequiredIsAllButTraining | src/controllers/document/documentController.js:185-190 | a type is in the required list exactly when it is not `Training Certificate`, and only with the validity of its row |
| DocumentController.EnumIsTableKeys | src/controllers/document/documentController.js:8-18 | the names the `type` enum of src/models/Document.js accepts are exactly the table's keys |
| DocumentController.TypeGuard | src/controllers/document/documentController.js:29-31 | the intended type guard: passes exactly the table's own keys, yielding the type with that name |
| DocumentController.GuardMatchesSchema | src/controllers/document/documentController.js:29-31 | the intended guard passes exactly what the schema enum accepts, and everything it passes also passes the guard as written |
| DocumentController.NewDocument | src/controllers/document/documentController.js:37-47 | the stored document belongs to the caller, has the given type, description, url and expiry (null when absent), status `pending` and no review fields |
| DocumentController.UploadStep | src/controllers/document/documentController.js:21-49 | with the intended guard: 400 "No document file provided", then 400 "Invalid document type"; succeeds exactly for a file with an enum type name, storing `NewDocument` |
| DocumentController.UploadStepAsWritten | src/controllers/document/documentController.js:21-62 | as written: a name inherited from `Object.prototype` passes the guard and the save's enum check turns it into 500; every other input is answered as by `UploadStep` |
| DocumentController.InheritedNamePassesGuard | src/controllers/document/documentController.js:29-31 | for the type "toString" the guard as written lets the request through to a 500 after the upload, while the intended guard answers 400 before it |
| DocumentController.FindOwned | src/controllers/document/documentController.js:80-83 | the owner-scoped lookup finds a document exactly when it exists and its `user` is the caller |
| DocumentController.ReviewStep | src/controllers/document/documentController.js:122-135 | 404 for a missing document; a status outside the enum fails the save with 500; otherwise only status, comment, reviewer and review time change |
| DocumentController.ReportFor | src/controllers/document/documentController.js:206-220 | one type's entry keeps the row's `required` and `validityMonths`; it is `missing` exactly when no document has the type, and otherwise takes the first such document's expiry and status, overridden to `expired` when the expiry is before now |
| DocumentController.ReportedExpired | src/controllers/document/documentController.js:212-220 | an entry is reported `expired` exactly when the first document of its type is stored as expired or its expiry has passed |
| DocumentController.DocumentStatus | src/controllers/document/documentController.js:200-223 | the report has exactly one entry per table type, in table order, each as `ReportFor` says, computed from the caller's documents in the order the owner query returns them (a parameter) |
| DocumentController.DocumentDesk.constructor | src/models/Document.js:3-63 | the document store starts empty with no notices |
| DocumentController.DocumentDesk.Upload | src/controllers/document/documentController.js:21-58 | the store gains exactly what the corrected `UploadStep` allows, under the fresh id, and the uploader is notified only on success; for every type other than a name inherited from `Object.prototype` the response is the as-written `UploadStepAsWritten` |
| DocumentController.DocumentDesk.Get | src/controllers/document/documentController.js:78-89 | `getDocumentById` and `downloadDocument` find a document exactly when it is the caller's; otherwise 404 |
| DocumentController.DocumentDesk.Delete | src/controllers/document/documentController.js:97-114 | only the owner's document is removed; otherwise 404 and the store is unchanged |
| DocumentController.DocumentDesk.Review | src/controllers/document/documentController.js:122-144 | the store changes exactly as `ReviewStep` says, and the owner is notified only on success |
| Common.Lookup | src/controllers/schedule/scheduleController.js:128-132 | `findById`: a record exactly when the id is stored, and then the stored record |
| Common.FirstIndex | src/controllers/training/trainingController.js:184 | `findIndex`: -1 exactly when no element satisfies the test, otherwise the first index that does |
| Common.RemoveAll | src/controllers/user/userController.js:161 | `filter(t => t !== x)`: exactly the elements other than `x` remain, and the list never grows |
| Common.RemoveAllAppend | src/controllers/user/userController.js:161 | filtering distributes over concatenation, so the kept elements stay in their order |
| Common.RemoveAllAbsent | src/controllers/training/trainingController.js:180 | filtering out an element that is not there leaves the list unchanged |
| UserAccount.Registered | src/controllers/user/userController.js:143-146 | after registering, the token is present; an existing token leaves the list unchanged, a new one is appended once; no duplicate is introduced |
| UserAccount.RegisterIdempotent | src/controllers/user/userController.js:143-146 | registering twice equals registering once |
| UserAccount.UnregisterKeepsNoDuplicates | src/controllers/user/userController.js:161 | unregistering keeps a duplicate-free list duplicate-free |
| UserAccount.RegisterThenUnregister | src/controllers/user/userController.js:143-161 | register then unregister leaves the token absent and the other tokens exactly as unregistering alone leaves them |
| UserAccount.MarkReadStep | src/controllers/user/userController.js:120-128 | 404 "Notification not found" exactly when no notification has the id; otherwise only the first one with that id becomes read, all others unchanged |
| UserAccount.MarkReadIdempotent | src/controllers/user/userController.js:127 | marking a notification read twice equals marking it once |
| UserAccount.Account.constructor | src/controllers/user/userController.js:120 | the account holds the caller's tokens and notifications |
| UserAccount.Account.RegisterToken | src/controllers/user/userController.js:138-148 | the tokens become `Registered` of the old ones, the notifications are untouched, and no duplicate is introduced |
| UserAccount.Account.UnregisterToken | src/controllers/user/userController.js:156-164 | every copy of the token is removed, the others kept in order, and no duplicate is introduced |
| UserAccount.Account.MarkNotificationAsRead | src/controllers/user/userController.js:118-130 | the notifications change exactly as `MarkReadStep` says; the answer is the flagged notification, now read, or 404 |
| Json.Get | src/controllers/profile/profileController.js:27 | reading a property: undefined exactly when no property has the key, otherwise the value of a property with that key |
| Json.Put | src/controllers/profile/profileController.js:31-37 | writing a property: the key then reads back the new value, every other key reads as before, and at most one property is added |
| Json.PutAppendKeeps | src/controllers/profile/profileController.js:31-37 | writing a new key appends it, and every other key reads as before |
| Json.PutReplaceKeeps | src/controllers/profile/profileController.js:31-37 | writing an existing key replaces it where it stands, and every other key reads as before |
| Profile.Merge | src/controllers/profile/profileController.js:41-45 | every key of the body except `password` and `email` is written with the body's value; every other field, the protected ones included, keeps its presence and value |
| Profile.MergeIdempotent | src/controllers/profile/profileController.js:41-45 | copying the same body twice leaves what copying it once left |
| Profile.MergeOneMore | src/controllers/profile/profileController.js:41-44 | one more pass of the `forEach` writes that key, unless it is protected |
| Profile.Located | src/controllers/profile/profileController.js:31-37 | the stored address is an object whose `coordinates` are the geocoder's lat and lng, and whose other properties are those of the supplied address |
| Profile.Prepared | src/controllers/profile/profileController.js:27-38 | a truthy address with a failed geocode is 400 with the geocoder's error; otherwise the body keeps its keys and, when the address is truthy, the address gains the coordinates |
| Profile.UpdateStep | src/controllers/profile/profileController.js:21-47 | fails exactly when the address needs geocoding and the geocoder fails; otherwise `password` and `email` are never changed, every other body key overwrites its field, fields absent from the body are unchanged, and a supplied address is stored with its coordinates |
| Profile.UpdateIdempotent | src/controllers/profile/profileController.js:21-47 | sending the same body twice leaves what the first call left |
| Profile.AdminFlagIsWritable | src/controllers/profile/profileController.js:41-45 | only `password` and `email` are held back: a body `{isAdmin: true}` is stored as is |
| Profile.DocumentSlot | src/controllers/profile/profileController.js:87-102 | exactly the four document types have a field: `dbs` → `enhancedDBS.document`, `brp` → `brpDocument`, `cv` → `cvDocument`, `certificate` → `combinedCertificate` |
| Profile.DocumentSlotsDistinct | src/controllers/profile/profileController.js:87-99 | different document types write different fields of the user |
| Profile.WriteSlot | src/controllers/profile/profileController.js:89-98 | the written field reads back the URL; no other top-level field changes, and inside `enhancedDBS` no sibling of `document` changes |
| Profile.UploadStep | src/controllers/profile/profileController.js:76-104 | 400 "No file uploaded" without a file; an unknown type throws and is 400 with nothing saved; otherwise the result is `WriteSlot` of the type's field: that field holds the URL, no top-level key is added but the field's root, every other field is kept, and for `dbs` every sibling of `document` inside `enhancedDBS` (such as `has`) is kept |
| Profile.AddReferenceStep | src/controllers/profile/profileController.js:133 | exactly one reference is appended at the end; no other field changes |
| Profile.WorkHistoryStep | src/controllers/profile/profileController.js:146 | `workHistory` becomes the body's value, or is unset when the body has none; no other field changes |
| Profile.UserProfile.constructor | src/controllers/profile/profileController.js:24 | the profile holds the caller's stored fields |
| Profile.UserProfile.UpdateProfile | src/controllers/profile/profileController.js:21-48 | the `forEach` loop leaves the user exactly as `UpdateStep` says; on a geocoder failure nothing changes |
| Profile.UserProfile.UploadDocument | src/controllers/profile/profileController.js:76-105 | the user changes exactly as `UploadStep` says, and the answer is the document URL or the same error |
| Profile.UserProfile.AddReference | src/controllers/profile/profileController.js:130-135 | the user changes as `AddReferenceStep` says, and the answer is the whole list with the new reference last |
| Profile.UserProfile.UpdateWorkHistory | src/controllers/profile/profileController.js:143-148 | the user changes exactly as `WorkHistoryStep` says |
| Notifications.Subject | src/services/notification.js:26 | the e-mail subject is the notification's subject when that is truthy, otherwise "New Notification" |
| Notifications.Channels | src/services/notification.js:16-34 | realtime always comes first; e-mail is included exactly when `emailNotification` is not `false` (absent means send); SMS exactly when `urgent` is truthy; no channel twice, and e-mail before SMS |
| Notifications.AttemptFor | src/services/notification.js:17-33 | each channel's send is the one for that channel |
| Notifications.Run | src/services/notification.js:17-36 | running the channels never attempts more sends than there are channels |
| Notifications.RunMeaning | src/services/notification.js:17-40 | the sends follow the channels in order; every send before the last succeeded; the call returns `true` exactly when every channel ran without throwing; a thrown error is the last send's |
| Notifications.RunStep | src/services/notification.js:23-34 | the first channel is attempted, and the rest run only when it did not throw |
| Notifications.RunSms | src/services/notification.js:32-34 | the SMS part texts the phone number only when urgent, and fails exactly when that text fails |
| Notifications.RunMail | src/services/notification.js:23-29 | a wanted e-mail is sent before the SMS part, and its failure ends the run before any SMS |
| Notifications.Plan | src/services/notification.js:11-20 | a missing user throws "User not found" before any send; for an existing user the realtime push is the first send |
| Notifications.PlanSpelledOut | src/services/notification.js:11-40 | for an existing user the sends are exactly: the push, the e-mail when wanted, and the SMS when urgent and the e-mail did not throw; the result is the e-mail's error, else the SMS's error, else `true` |
| Notifications.DeliveredIffAllSucceeded | src/services/notification.js:36 | the call returns `true` exactly when the user exists and every send it attempted succeeded |
| Notifications.EmailFailureStopsSms | src/services/notification.js:22-40 | a failed e-mail is rethrown after exactly two sends, and no SMS is attempted |
| Notifications.NotificationService.constructor | src/services/notification.js:7-9 | a new service has attempted no sends |
| Notifications.NotificationService.SendNotification | src/services/notification.js:11-41 | the sequential script appends exactly the sends of `Plan`, in order, and ends as `Plan` says |
| ErrorHandling.Named | src/middleware/error.js:84-110 | a custom error class keeps the message and sets only its `name` |
| ErrorHandling.MissingRequiredField | src/middleware/error.js:112-117 | the error is named `MissingRequiredField` and its message is "Missing required field: " followed by the field |
| ErrorHandling.FirstRule | src/middleware/error.js:8-68 | the first test of the chain that matches, or the fallback when none does: every earlier test fails |
| ErrorHandling.DuplicateKey | src/middleware/error.js:17-25 | the entry names the first key of `keyPattern` with "A record with this <key> already exists"; with no key the field is undefined |
| ErrorHandling.Classify | src/middleware/error.js:4-81 | the status is one of 400, 401, 403, 404, 500, 503; a 500 shows the error's message exactly in development and "An unexpected error occurred" otherwise; validation, missing-field and not-found errors never reach 500 |
| ErrorHandling.ClassifyIsFirstMatch | src/middleware/error.js:8-80 | the chain is the table read top-down: the reply is that of the first matching test, and the 500 fallback is reached exactly when no test matches |
| ErrorHandling.CustomErrorsClassified | src/middleware/error.js:46-117 | each custom class is answered with its own status (404, 401, 403, 503, 400) and its own message |
| ErrorHandling.ValidationListsEveryEntry | src/middleware/error.js:8-14 | a `ValidationError` is answered 400 with one field/message entry per invalid path, in order, whatever its code |
| ErrorHandling.EarlierTestWins | src/middleware/error.js:17-51 | the first match wins: an expired-token error with a file-size code is a token error, and a not-found error with code 11000 is a duplicate-key error |
| ErrorHandling.UnknownErrorHidden | src/middleware/error.js:70-80 | an unrecognised error is 500 with its message in development and the generic text otherwise |
| Validation.TrimStart | src/middleware/validation.js:20-24 | the result is a suffix of the input that does not start with whitespace |
| Validation.TrimEnd | src/middleware/validation.js:20-24 | the result is a prefix of the input that does not end with whitespace |
| Validation.Trim | src/middleware/validation.js:20-24 | `trim` never lengthens a string and leaves no whitespace at either end |
| Validation.TrimAllSpace | src/middleware/validation.js:20-24 | a name of whitespace only trims to the empty string, so a trimmed required name of blanks is refused |
| Validation.TextBase | src/middleware/validation.js:20-26 | the string checks after `valid`: they pass exactly a string that is non-empty (after trimming when the rule trims) and at least `min` characters long, with at most one failure since a type or emptiness failure ends them |
| Validation.TextDetails | src/middleware/validation.js:20-44 | a string rule with `valid` accepts exactly the listed strings; otherwise it accepts exactly a string that is non-empty (after trimming when the rule trims) and at least `min` characters long; at most two failures are reported |
| Validation.TextDetailsReports | src/middleware/validation.js:25-29 | with `abortEarly: false`, a value outside a `valid` list gets `any.only` first and then the string check's own failure: `string.base` exactly for a non-string, `string.empty` for an empty string, `string.min` for a short one |
| Validation.WrongTypeReportedTwice | src/middleware/validation.js:29-62 | a non-string `gender` gets both `any.only` and `string.base`, and a `consent` of `"yes"` gets both `any.only` and `boolean.base` |
| Validation.FlagDetails | src/middleware/validation.js:35-62 | a boolean rule accepts exactly a boolean, and `valid(true)` exactly `true`; at most two failures are reported |
| Validation.FlagDetailsReports | src/middleware/validation.js:62 | `valid(true)` missed gives `any.only` first, and a non-boolean also gets `boolean.base` |
| Validation.InstantDetails | src/middleware/validation.js:113-114 | a date is accepted exactly when it is a date and, under `greater(ref)`, the sibling is a date and the value is strictly later |
| Validation.NumberDetails | src/middleware/validation.js:119-136 | a number is accepted exactly when it is a number within every bound given (`min`, `max`, `positive`) |
| Validation.Unknown | src/middleware/validation.js:19-137 | no `object.unknown` failure exactly when every key of the object is declared by the schema |
| Validation.NatToString | src/middleware/validation.js:54-76 | an array index in a path has at least one digit |
| Validation.CheckFieldsEmpty | src/middleware/validation.js:5 | with `abortEarly: false` an object passes its declared keys exactly when each key passes on its own |
| Validation.FieldDetailsIncluded | src/middleware/validation.js:5 | every failure of one key is among the failures reported for the object |
| Validation.Join | src/middleware/validation.js:8 | a top-level key is reported under its own name, the empty path as the empty string |
| Validation.Validate | src/middleware/validation.js:3-15 | the request goes on exactly when there is no failure; otherwise 400 with one `{ field, message }` per failure, in order, `field` being the joined path |
| Validation.InBody | src/middleware/validation.js:5-12 | a failure of a declared key of the body is reported for the body |
| Validation.DbsDocumentRequiredWhenHas | src/middleware/validation.js:37-43 | a registration whose `enhancedDBS.has` is true and which has no `enhancedDBS.document` is refused with `any.required` at that path |
| Validation.DbsDocumentOptionalWithoutIt | src/middleware/validation.js:37-43 | `enhancedDBS` of `{ has: false }` alone passes |
| Validation.BrpRequiredForOther | src/middleware/validation.js:44-53 | nationality `Other` without `brpNumber` and `brpDocument` is refused with `any.required` for both |
| Validation.ConsentMustBeTrue | src/middleware/validation.js:62 | a `consent` that is present but not `true` is refused with `any.only` |
| Validation.RegistrationPasswordTooShort | src/middleware/validation.js:26 | a registration password of one to seven characters is refused with `string.min` |
| Validation.ShiftEndsAfterStart | src/middleware/validation.js:113-114 | a shift whose end is not after its start is refused with `date.greater` |
| Validation.ShiftPayRatePositive | src/middleware/validation.js:126 | a pay rate of zero or less is refused with `number.positive` |
| Validation.CoordinateFailureReported | src/middleware/validation.js:115-121 | a failure of either coordinate of a shift's location is reported for the body |
| Validation.ShiftLatitudeInRange | src/middleware/validation.js:115-121 | a shift location latitude outside [-90, 90] is refused at `location.coordinates.lat` |
| Validation.ShiftLongitudeInRange | src/middleware/validation.js:115-121 | a shift location longitude outside [-180, 180] is refused at `location.coordinates.lng` |
| Validation.LocationUpdateIff | src/middleware/validation.js:134-137 | a location update passes exactly when it holds a latitude in [-90, 90] and a longitude in [-180, 180] and no other key |
| Validation.ResetPasswordIff | src/middleware/validation.js:103-106 | a password reset passes exactly when it holds a non-empty token and a new password of at least eight characters and no other key |
| Validation.UndeclaredKeyRefused | src/middleware/validation.js:19-137 | a key the schema does not declare is refused under its own name |
| Validation.UnknownIncludes | src/middleware/validation.js:19-137 | every undeclared key of a nested object is reported under its path |
| Validation.NestedPathJoined | src/middleware/validation.js:7-11 | a nested failure is reported with its path joined by '.' (`enhancedDBS.document`) |
| Sanitize.LowerChar | src/utils/helpers.js:46 | lower-casing keeps a letter, digit or dot allowed and within the output alphabet, and leaves every other character alone |
| Sanitize.SanitizeFilename | src/utils/helpers.js:42-47 | the output contains only `a-z`, `0-9`, `.` and `-`, never two `-` in a row, and is never longer than the input |
| Sanitize.ReplaceShape | src/utils/helpers.js:44 | the first rewrite keeps the length, leaves only allowed characters and `-`, and keeps the letters, digits and dots in order |
| Sanitize.ReplaceIdentity | src/utils/helpers.js:44 | the first rewrite leaves a string of allowed characters and dashes unchanged |
| Sanitize.CollapseHead | src/utils/helpers.js:45 | collapsing dash runs keeps the first character |
| Sanitize.CollapseShape | src/utils/helpers.js:45 | collapsing never lengthens, introduces no character, and keeps the letters, digits and dots in order |
| Sanitize.CollapseNoDoubleDash | src/utils/helpers.js:45 | after collapsing no two `-` are adjacent |
| Sanitize.CollapseIdentity | src/utils/helpers.js:45 | collapsing leaves a string without adjacent dashes unchanged |
| Sanitize.LowerShape | src/utils/helpers.js:46 | lower-casing works character by character, keeps the length and the no-double-dash property, and maps allowed characters and dashes into the output alphabet |
| Sanitize.LowerIdentity | src/utils/helpers.js:46 | lower-casing leaves a string in the output alphabet unchanged |
| Sanitize.KeepsAllowedInOrder | src/utils/helpers.js:44-46 | the letters, digits and dots of the input appear in the output in the same order, lower-cased |
| Sanitize.Idempotent | src/utils/helpers.js:42-47 | sanitizing a sanitized name changes nothing |
| Sanitize.LeadingDash | src/utils/helpers.js:44-45 | a name starting with a disallowed character yields an output starting with `-` |
| Sanitize.PipelineIsSinglePass | src/utils/helpers.js:42-47 | the three rewrites equal a one-pass reference in which each maximal run of other characters, dashes included, becomes exactly one `-` |

## Left out

- HTTP routing, `req`/`res` handling and `src/app.js` are not modelled. Responses are an outcome datatype carrying the status code.
- Mongoose `find`, `populate`, `sort` and `save` are not modelled. A collection is a map and a save is an assignment.
  - Mongoose casting is not modelled, except for the enum and `min`/`max` checks the handlers rely on: progress 0..100 and the document status enum.
  - Strict-mode dropping of undeclared paths is not modelled, so the profile merge keeps every key it writes, including `address.coordinates`.
  - `timestamps`/`updatedAt` are not modelled.
- Third-party services are not modelled; each result is a parameter:
  - e-mail, SMS and realtime push, each giving a success flag;
  - S3 upload and multer, giving a URL;
  - the Google Maps geocoder, giving coordinates or a failure;
  - pdf certificates, giving a URL;
  - Stripe, giving a payment id.
- The geocoder failure message is modelled as a fixed string. The realtime push is taken never to throw.
- The WebSocket registry, `auth`/`adminAuth` and JWT are not modelled. The caller's own user record is taken to exist, since authentication rejects unknown users before any handler runs.
- Concurrency is not modelled. Handlers run one at a time, so two simultaneous requests may interleave in the source but not in the model.
- Notifications sent after a successful save are outbox entries. A failing notification is not modelled as failing the handler.
- Parts of the sources do not fit together, and the model does not reconcile them:
  - The `Shift.js` status enum lacks `open`, `assigned` and `in-progress`.
  - `Course.js` declares no `requiredRole` or `enrolledUsers`.
  - `Enrollment.js` declares `progress` as a number from 0 to 100 and names the completion date `completionDate`. `courseController.updateProgress` treats `progress` as a list of `{ module, completed, completedAt }` entries and reads and writes `completedAt`. As written, `enrollment.progress.find` throws on every enrollment the handler finds, and the catch answers 400. Even with the list in place, strict mode would drop the undeclared `completedAt`, so the once-guard would not persist. `CourseProgress` follows the controller's view. What `CourseProgress.CompletesAtMostOnce` and `CourseProgress.NeverReverts` prove holds for that view, not for the schema as declared.
  - `User.js` declares no `fcmTokens` or `notifications`.
  - `progress.js` calls an unimported `sendNotification` and imports a `generateCertificate` that `pdf.js` does not export.
  - `notification.js` uses `logger` without importing it, so its catch block would itself throw.
  - Routes name validation schemas that `validation.js` does not define.

  Each handler's own logic is modelled as if its collaborators resolve.
- Sorting is not modelled: the `startTime` sort of `getShifts` and `getUpcomingTrainings`, and the `setHours` day windows of the schedule getters. The other `scheduleController.js` getters are not part of this model.
- `courseController.enrollInCourse` and `createCourse` are not part of this model. Neither are the training `uploadCertificate` and `downloadCertificate`, the profile `uploadProfilePhoto`, `updateBankDetails` and `exportProfilePDF`, or `getUserDocuments`.
- Numbers are simplified:
  - Dates are integer milliseconds.
  - Coordinates and JSON numbers are reals.
  - Progress is an integer.
  - `parseFloat` of the price bounds is not modelled. The query keeps the raw strings.
  - `ShiftController.BuildShiftQuery`: the `new Date(startDate)` and `new Date(endDate)` casts of the date range are not modelled. The query keeps the raw strings.
- `Profile.SpreadProps`: a supplied `address` that is not an object is spread as the empty object. This ignores JavaScript's spreading of a string's characters.
- `Tracking.CheckInStep`, `Tracking.UpdateLocationStep`, `ShiftController.CheckInStep` and `ShiftController.UpdateLocationStep` keep only the latitude and longitude of the supplied location, with the timestamp. The source's `{ ...location, lastUpdated }` copies every property the client sends.
- `DocumentController.DocumentDesk.Upload` follows the corrected type guard (see Findings). For a type name inherited from `Object.prototype` it answers 400 "Invalid document type", where the source uploads the file and answers 500 "Error uploading document". For every other input its response is the as-written one.
- `DocumentController.DocumentStatus` takes the caller's documents, in the order the owner query returns them, as a parameter. It does not read them from the store.
- `DocumentController.ReviewStep` takes the new status as a string, so an absent `status` cannot be expressed. In the source `undefined` passes the enum and the other fields are saved.
- `ProgressHandler.UpdateStep`: the 500 message for a progress outside 0..100 is a fixed prefix. The source answers with Mongoose's full validation message.
- `Json.Value`: an object may carry the same key twice, which no `JSON.parse` result does. `Get` takes the first such property, whereas parsing keeps the last. The handlers are only ever given parsed bodies.
- `Profile.UpdateStep`: a body key that names a member of the Mongoose document, such as `save` or `__proto__`, is modelled as an ordinary field. In the source the assignment replaces that member, the following `user.save()` throws, and the handler answers 400.
- Validation does not model all of Joi:
  - e-mail format is not checked;
  - type conversion is not modelled, so a date must already be a number of milliseconds;
  - messages are Joi's error type (`any.required`, `string.min`, ...) rather than its text;
  - lengths count code points, not UTF-16 units;
  - whitespace is limited to the listed characters.
- `ErrorHandling.DuplicateKey`: an error with code 11000 but no `keyPattern` would make `Object.keys` throw inside the handler. The model gives that case an undefined field instead.

## Findings

| source | as written | input that shows it | evidently intended | confidence | as-written member | corrected member |
|---|---|---|---|---|---|---|
| src/controllers/document/documentController.js:29-31 | the type guard `!DOCUMENT_TYPES[type]` reads the plain object's prototype chain, so names inherited from `Object.prototype` pass the guard | `type = "toString"`: the guard passes, the file is uploaded, and the save then fails the schema's enum with 500 | only the table's own keys pass; any other type is answered 400 before anything is uploaded | high (not executed) | DocumentController.UploadStepAsWritten, DocumentController.InheritedNamePassesGuard | DocumentController.UploadStep, DocumentController.GuardMatchesSchema |
