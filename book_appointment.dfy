/** The booking screen: the fixed date and time choices, the confirm button's
    enablement and `handleBook`, which checks the selection and inserts one
    pending appointment row. It has no demo path. */
module BookAppointment {
  import opened Common
  import opened Domain
  import opened Text
  import opened Gateway
  import opened AuthStore

  /** `timeSlots` */
  function TimeSlots(): seq<string> {
    ["09:00", "09:30", "10:00", "10:30", "11:00", "14:00", "14:30", "15:00"]
  }

  /** The eight slots are strictly ascending as JavaScript compares strings. */
  lemma TimeSlotsAscending()
    ensures |TimeSlots()| == 8
    ensures forall i, j :: 0 <= i < j < |TimeSlots()| ==> LexLess(TimeSlots()[i], TimeSlots()[j])
  {
    var s := TimeSlots();
    assert LexLess(s[0], s[1]) && LexLess(s[1], s[2]) && LexLess(s[2], s[3]);
    assert LexLess(s[3], s[4]) && LexLess(s[4], s[5]) && LexLess(s[5], s[6]) && LexLess(s[6], s[7]);
    AscendingFromNeighbours(s);
  }

  /** `dates`, as offsets in days from today. */
  function DateOffsets(): (ds: seq<int>)
    ensures |ds| == 5 && forall k :: 0 <= k < |ds| ==> ds[k] == k
  {
    [0, 1, 2, 3, 4]
  }

  /** The two selections; a date is kept as its day offset. */
  datatype Selection = Selection(date: Option<int>, time: Option<string>)

  /** `!selectedDate || !selectedTime` */
  predicate Incomplete(s: Selection) {
    s.date.None? || !Truthy(s.time)
  }

  /** The confirm button's `disabled`. */
  predicate ConfirmDisabled(loading: bool, s: Selection) {
    loading || Incomplete(s)
  }

  /** What `handleBook` produced: the insert, an alert, and whether it moved
      on to the booking-success screen. */
  datatype Outcome = Outcome(write: Option<Request>, alert: Option<Alert>, toSuccess: bool)

  const MissingSelection: Alert := Alert("Error", "Please select date and time")

  /** `user?.id` */
  function UserId(user: Option<User>): Option<string> {
    if user.Some? then Some(user.value.id) else None
  }

  /** `handleBook` with the insert's reply. */
  function HandleBook(doctorId: string, user: Option<User>, s: Selection, reply: Reply): (o: Outcome)
    ensures Incomplete(s) ==> o == Outcome(None, Some(MissingSelection), false)
    ensures !Incomplete(s) ==> o.write == Some(InsertAppointment(doctorId, UserId(user), s.date.value, s.time.value, Pending))
    ensures !Incomplete(s) && reply.Failed? ==> o.alert == Some(Alert("Booking Failed", reply.message)) && !o.toSuccess
    ensures !Incomplete(s) && reply.Ok? ==> o.alert.None? && o.toSuccess
    ensures o.toSuccess <==> !Incomplete(s) && reply.Ok?
  {
    if Incomplete(s) then Outcome(None, Some(MissingSelection), false)
    else
      var insert := InsertAppointment(doctorId, UserId(user), s.date.value, s.time.value, Pending);
      match reply
      case Failed(message) => Outcome(Some(insert), Some(Alert("Booking Failed", message)), false)
      case Ok => Outcome(Some(insert), None, true)
  }

  /** A press on the enabled button always inserts; the selection alert is
      only reachable while the button is disabled. */
  lemma EnabledButtonInserts(doctorId: string, user: Option<User>, s: Selection, reply: Reply)
    requires !ConfirmDisabled(false, s)
    ensures HandleBook(doctorId, user, s, reply).write.Some?
    ensures HandleBook(doctorId, user, s, reply).alert != Some(MissingSelection)
  {
  }

  /** Selecting one of the offered chips completes the selection. */
  lemma ChipsComplete(k: int, j: int)
    requires 0 <= k < |DateOffsets()| && 0 <= j < |TimeSlots()|
    ensures !Incomplete(Selection(Some(DateOffsets()[k]), Some(TimeSlots()[j])))
  {
  }

  /** The row the insert adds, as the appointment lists see it: the new id is
      the backend's. */
  function BookedRow(w: Request, newId: string): (a: Appointment)
    requires w.InsertAppointment?
    ensures a.id == newId && a.doctorId == w.doctorId && a.status == w.status
    ensures w.patientId.Some? ==> a.patientId == w.patientId.value
  {
    Appointment(newId, if w.patientId.Some? then w.patientId.value else "", w.doctorId,
                w.dateOffset, w.time, w.status, None, None, None)
  }
}
