/** The prescription form: the editable medicine list, the rule that every
    medicine needs a name, and `handleSubmit`, which in demo mode completes the
    fixture appointment and attaches the prescription in place, and otherwise
    issues two backend writes in order. */
module AddPrescription {
  import opened Common
  import opened Domain
  import opened Seqs
  import opened Gateway
  import opened AuthStore
  import MockData

  /** `{ name: '', dosage: '', frequency: '', duration: '' }` */
  const Blank: Medicine := Medicine("", "", "", "")

  predicate IsBlank(m: Medicine) {
    m.name == "" && m.dosage == "" && m.frequency == "" && m.duration == ""
  }

  /** The form's first state: exactly one all-empty entry. */
  function InitialMedicines(): (ms: seq<Medicine>)
    ensures |ms| == 1 && IsBlank(ms[0])
  {
    [Blank]
  }

  /** `addMedicine`: one blank entry at the end, the others untouched. */
  function AddMedicine(ms: seq<Medicine>): (r: seq<Medicine>)
    ensures |r| == |ms| + 1
    ensures r[..|ms|] == ms && IsBlank(r[|ms|])
  {
    ms + [Blank]
  }

  /** `removeMedicine(index)`: `splice(index, 1)` on a copy. An index past the
      end removes nothing. */
  function RemoveMedicine(ms: seq<Medicine>, i: nat): (r: seq<Medicine>)
    ensures i < |ms| ==> |r| == |ms| - 1
    ensures i < |ms| ==> (forall k :: 0 <= k < i ==> r[k] == ms[k])
    ensures i < |ms| ==> (forall k :: i <= k < |r| ==> r[k] == ms[k + 1])
    ensures i >= |ms| ==> r == ms
  {
    if i < |ms| then ms[..i] + ms[i + 1..] else ms
  }

  /** Removing the entry just added gives the list back. */
  lemma RemoveAdded(ms: seq<Medicine>)
    ensures RemoveMedicine(AddMedicine(ms), |ms|) == ms
  {
    assert AddMedicine(ms)[..|ms|] == ms;
  }

  /** The four text fields of an entry. */
  datatype Field = Name | Dosage | Frequency | Duration

  /** `m[field]` */
  function Get(m: Medicine, f: Field): string {
    match f
    case Name => m.name
    case Dosage => m.dosage
    case Frequency => m.frequency
    case Duration => m.duration
  }

  /** `{ ...m, [field]: value }` */
  function SetField(m: Medicine, f: Field, v: string): (r: Medicine)
    ensures Get(r, f) == v
    ensures forall g :: g != f ==> Get(r, g) == Get(m, g)
  {
    match f
    case Name => m.(name := v)
    case Dosage => m.(dosage := v)
    case Frequency => m.(frequency := v)
    case Duration => m.(duration := v)
  }

  /** `updateMedicine(index, field, value)`: only that field of that entry changes. */
  function UpdateMedicine(ms: seq<Medicine>, i: nat, f: Field, v: string): (r: seq<Medicine>)
    requires i < |ms|
    ensures |r| == |ms|
    ensures forall k :: 0 <= k < |ms| && k != i ==> r[k] == ms[k]
    ensures Get(r[i], f) == v
    ensures forall g :: g != f ==> Get(r[i], g) == Get(ms[i], g)
  {
    ms[i := SetField(ms[i], f, v)]
  }

  /** Typing the value a field already holds changes nothing. */
  lemma UpdateSameValue(ms: seq<Medicine>, i: nat, f: Field)
    requires i < |ms|
    ensures UpdateMedicine(ms, i, f, Get(ms[i], f)) == ms
  {
    var r := UpdateMedicine(ms, i, f, Get(ms[i], f));
    assert r[i] == ms[i] by {
      assert forall g :: Get(r[i], g) == Get(ms[i], g);
      assert Get(r[i], Name) == Get(ms[i], Name) && Get(r[i], Dosage) == Get(ms[i], Dosage);
      assert Get(r[i], Frequency) == Get(ms[i], Frequency) && Get(r[i], Duration) == Get(ms[i], Duration);
    }
  }

  /** The delete button is drawn on each card only while there is more than one. */
  predicate DeleteShown(ms: seq<Medicine>) {
    |ms| > 1
  }

  /** One user action on the form, at a card's index. */
  datatype Edit = AddPressed | DeletePressed(index: nat) | Typed(index: nat, field: Field, value: string)

  /** The form offers the action: the add button always, the delete button on
      its card while `DeleteShown`, a text input on its card. */
  predicate Offered(ms: seq<Medicine>, e: Edit) {
    match e
    case AddPressed => true
    case DeletePressed(i) => i < |ms| && DeleteShown(ms)
    case Typed(i, _, _) => i < |ms|
  }

  /** The list after one action the form offers. */
  function Apply(ms: seq<Medicine>, e: Edit): seq<Medicine>
    requires Offered(ms, e)
  {
    match e
    case AddPressed => AddMedicine(ms)
    case DeletePressed(i) => RemoveMedicine(ms, i)
    case Typed(i, f, v) => UpdateMedicine(ms, i, f, v)
  }

  /** The list after a run of actions; an action the form does not offer
      cannot be performed and leaves the list as it is. */
  function Run(ms: seq<Medicine>, es: seq<Edit>): seq<Medicine>
    decreases |es|
  {
    if es == [] then ms
    else Run(if Offered(ms, es[0]) then Apply(ms, es[0]) else ms, es[1..])
  }

  /** No offered action empties a non-empty list. */
  lemma ApplyKeepsOne(ms: seq<Medicine>, e: Edit)
    requires |ms| >= 1 && Offered(ms, e)
    ensures |Apply(ms, e)| >= 1
  {
  }

  /** Through the form alone the list is never empty. */
  lemma {:induction false} RunKeepsOne(ms: seq<Medicine>, es: seq<Edit>)
    requires |ms| >= 1
    ensures |Run(ms, es)| >= 1
    decreases |es|
  {
    if es != [] {
      var next := if Offered(ms, es[0]) then Apply(ms, es[0]) else ms;
      if Offered(ms, es[0]) {
        ApplyKeepsOne(ms, es[0]);
      }
      RunKeepsOne(next, es[1..]);
    }
  }

  /** From the initial form, whatever the user does, at least one entry remains. */
  lemma FormNeverEmpty(es: seq<Edit>)
    ensures |Run(InitialMedicines(), es)| >= 1
  {
    RunKeepsOne(InitialMedicines(), es);
  }

  /** `medicines.some(m => !m.name)` */
  predicate SomeUnnamed(ms: seq<Medicine>) {
    exists k :: 0 <= k < |ms| && ms[k].name == ""
  }

  /** The alert for an unnamed entry. */
  const MissingName: Alert := Alert("Error", "Please fill in the medicine name for all entries.")

  /** The initial form, if submitted untouched, is rejected. */
  lemma InitialRejected()
    ensures SomeUnnamed(InitialMedicines())
  {
    assert InitialMedicines()[0].name == "";
  }

  /** What the submit handler produced: the backend writes in order, the alert
      and whether it navigated back. */
  datatype Outcome = Outcome(writes: seq<Request>, alert: Option<Alert>, goBack: bool)

  /** `a.status = 'completed'` and `a.prescriptions = [{ medicines, instructions: notes }]` */
  function Completer(ms: seq<Medicine>, notes: string): Appointment -> Appointment {
    (a: Appointment) => a.(status := Completed, prescriptions := Some([Prescription(ms, notes)]))
  }

  /** The demo submit on the fixture table: the first entry with that id is
      completed and carries exactly this one prescription. */
  function Prescribed(t: seq<Appointment>, id: string, ms: seq<Medicine>, notes: string): (r: seq<Appointment>)
    ensures |r| == |t| && Ids(r) == Ids(t)
    ensures (forall k :: 0 <= k < |t| ==> t[k].id != id) ==> r == t
  {
    UpdateById(t, id, Completer(ms, notes))
  }

  /** With unique ids: the entry with that id becomes completed with the
      medicines in order and the notes as instructions; nothing else changes. */
  lemma PrescribedAt(t: seq<Appointment>, id: string, ms: seq<Medicine>, notes: string)
    requires DistinctIds(t)
    ensures DistinctIds(Prescribed(t, id, ms, notes))
    ensures forall k :: 0 <= k < |t| ==>
      Prescribed(t, id, ms, notes)[k] ==
        if t[k].id == id
        then t[k].(status := Completed, prescriptions := Some([Prescription(ms, notes)]))
        else t[k]
  {
    UpdateByIdAt(t, id, Completer(ms, notes));
  }

  /** The live submit: insert the prescription; only if that succeeded,
      mark the appointment completed. */
  function LiveSubmit(appointmentId: string, ms: seq<Medicine>, notes: string,
                      insertReply: Reply, updateReply: Reply): (o: Outcome)
    ensures |o.writes| >= 1 && o.writes[0] == InsertPrescription(appointmentId, ms, notes)
    ensures UpdateAppointmentStatus(appointmentId, Completed) in o.writes <==> insertReply.Ok?
    ensures insertReply.Failed? ==>
      o.writes == [InsertPrescription(appointmentId, ms, notes)]
      && o.alert == Some(Alert("Error", insertReply.message)) && !o.goBack
    ensures insertReply.Ok? ==>
      o.writes == [InsertPrescription(appointmentId, ms, notes), UpdateAppointmentStatus(appointmentId, Completed)]
    ensures insertReply.Ok? && updateReply.Failed? ==>
      o.alert == Some(Alert("Error", "Prescription saved but failed to update appointment status.")) && !o.goBack
    ensures o.goBack <==> insertReply.Ok? && updateReply.Ok?
    ensures o.goBack ==> o.alert == Some(Alert("Success", "Prescription added successfully!"))
  {
    var insert := InsertPrescription(appointmentId, ms, notes);
    match insertReply
    case Failed(message) => Outcome([insert], Some(Alert("Error", message)), false)
    case Ok =>
      var writes := [insert, UpdateAppointmentStatus(appointmentId, Completed)];
      match updateReply
      case Failed(_) => Outcome(writes, Some(Alert("Error", "Prescription saved but failed to update appointment status.")), false)
      case Ok => Outcome(writes, Some(Alert("Success", "Prescription added successfully!")), true)
  }

  /** A failed status update never takes the inserted prescription back: no
      write of the live submit removes or replaces it. */
  lemma LiveSubmitNeverUndoes(appointmentId: string, ms: seq<Medicine>, notes: string, insertReply: Reply, updateReply: Reply)
    ensures forall w :: w in LiveSubmit(appointmentId, ms, notes, insertReply, updateReply).writes ==>
      w.InsertPrescription? || w == UpdateAppointmentStatus(appointmentId, Completed)
  {
  }

  /** `handleSubmit`. The demo branch is taken for a demo user id; with no
      user, or a real one, the backend is written. */
  method Submit(store: MockData.DemoStore, user: Option<User>, appointmentId: string,
                ms: seq<Medicine>, notes: string, insertReply: Reply, updateReply: Reply)
    returns (o: Outcome)
    requires store.Valid()
    modifies store
    ensures store.Valid()
    ensures store.availability == old(store.availability) && store.prescriptions == old(store.prescriptions)
    ensures SomeUnnamed(ms) ==> o == Outcome([], Some(MissingName), false) && store.appointments == old(store.appointments)
    ensures !SomeUnnamed(ms) && user.Some? && IsDemoId(user.value.id) ==>
      && store.appointments == Prescribed(old(store.appointments), appointmentId, ms, notes)
      && o == Outcome([], Some(Alert("Success", "Prescription added successfully! (Demo Mode)")), true)
    ensures !SomeUnnamed(ms) && !(user.Some? && IsDemoId(user.value.id)) ==>
      && store.appointments == old(store.appointments)
      && o == LiveSubmit(appointmentId, ms, notes, insertReply, updateReply)
  {
    if SomeUnnamed(ms) {
      return Outcome([], Some(MissingName), false);
    }
    if user.Some? && IsDemoId(user.value.id) {
      var apptIndex := FindIndex(store.appointments, IdIs(appointmentId));
      PrescribedAt(store.appointments, appointmentId, ms, notes);
      if apptIndex != -1 {
        store.appointments := store.appointments[apptIndex := store.appointments[apptIndex].(status := Completed)];
        store.appointments := store.appointments[apptIndex := store.appointments[apptIndex].(prescriptions := Some([Prescription(ms, notes)]))];
      }
      return Outcome([], Some(Alert("Success", "Prescription added successfully! (Demo Mode)")), true);
    }
    o := LiveSubmit(appointmentId, ms, notes, insertReply, updateReply);
  }
}
