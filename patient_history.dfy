/** The history a doctor opens for a patient: in demo mode a filter and map
    over the fixture table, otherwise the patient's completed backend rows;
    and how each entry's prescription is drawn. */
module PatientHistory {
  import opened Common
  import opened Domain
  import opened Seqs
  import opened Gateway

  /** `patientId?.startsWith('demo-') || patientId === 'demo-patient-id'` */
  predicate IsDemoPatient(patientId: string) {
    IsDemoId(patientId) || patientId == "demo-patient-id"
  }

  /** The second test adds nothing: the demo path is taken exactly for a
      "demo-" id. */
  lemma DemoPatientIsDemoId(patientId: string)
    ensures IsDemoPatient(patientId) <==> IsDemoId(patientId)
  {
    if patientId == "demo-patient-id" {
      assert patientId[..|DemoPrefix|] == DemoPrefix;
    }
  }

  /** The demo filter: the patient's or the demo patient's entries that are
      completed or confirmed. */
  function InDemoHistory(patientId: string): Appointment -> bool {
    (a: Appointment) =>
      (a.patientId == patientId || a.patientId == "demo-patient-id")
      && (a.status == Completed || a.status == Confirmed)
  }

  /** The demo map: `{ ...appt, prescriptions: [] }` */
  function ClearPrescriptions(a: Appointment): (r: Appointment)
    ensures r.prescriptions == Some([])
    ensures r.(prescriptions := a.prescriptions) == a
  {
    a.(prescriptions := Some([]))
  }

  /** The demo history, in fixture order. */
  function DemoHistory(t: seq<Appointment>, patientId: string): (r: seq<Appointment>)
    ensures |r| == |Filter(t, InDemoHistory(patientId))|
    ensures forall k :: 0 <= k < |r| ==> r[k] == ClearPrescriptions(Filter(t, InDemoHistory(patientId))[k])
  {
    Map(Filter(t, InDemoHistory(patientId)), ClearPrescriptions)
  }

  /** Every demo entry is the patient's or the demo patient's, completed or
      confirmed, with its prescriptions emptied; and every such fixture
      entry appears. */
  lemma DemoHistoryEntries(t: seq<Appointment>, patientId: string)
    ensures forall h :: h in DemoHistory(t, patientId) ==>
      && (h.patientId == patientId || h.patientId == "demo-patient-id")
      && (h.status == Completed || h.status == Confirmed)
      && h.prescriptions == Some([])
    ensures forall a :: a in t && InDemoHistory(patientId)(a) ==> ClearPrescriptions(a) in DemoHistory(t, patientId)
  {
    var kept := Filter(t, InDemoHistory(patientId));
    var r := DemoHistory(t, patientId);
    forall h | h in r
      ensures (h.patientId == patientId || h.patientId == "demo-patient-id")
      ensures h.status == Completed || h.status == Confirmed
      ensures h.prescriptions == Some([])
    {
      var k :| 0 <= k < |r| && r[k] == h;
      assert kept[k] in kept;
    }
    forall a | a in t && InDemoHistory(patientId)(a)
      ensures ClearPrescriptions(a) in r
    {
      var k :| 0 <= k < |kept| && kept[k] == a;
      assert r[k] == ClearPrescriptions(a);
    }
  }

  /** The live query's filters: that patient, status completed only. */
  function LiveHistoryIs(patientId: string): Appointment -> bool {
    (a: Appointment) => a.patientId == patientId && a.status == Completed
  }

  /** The live history: the backend's rows passing both `eq` filters. */
  function LiveHistory(rows: seq<Appointment>, patientId: string): (r: seq<Appointment>)
    ensures forall a :: a in r <==> a in rows && a.patientId == patientId && a.status == Completed
    ensures IsSubseq(r, rows)
  {
    FilterIsSubseq(rows, LiveHistoryIs(patientId));
    Filter(rows, LiveHistoryIs(patientId))
  }

  /** `fetchHistory`: demo or live by the patient id; a read error leaves the
      list as it was. */
  function FetchHistory(patientId: string, demoTable: seq<Appointment>, live: Fetched<Appointment>,
                        current: seq<Appointment>): (r: seq<Appointment>)
    ensures IsDemoId(patientId) ==> r == DemoHistory(demoTable, patientId)
    ensures !IsDemoId(patientId) && live.Rows? ==> r == LiveHistory(live.rows, patientId)
    ensures !IsDemoId(patientId) && live.ReadError? ==> r == current
  {
    DemoPatientIsDemoId(patientId);
    if IsDemoPatient(patientId) then DemoHistory(demoTable, patientId)
    else match live
      case Rows(rows) => LiveHistory(rows, patientId)
      case ReadError(_) => current
  }

  /** One line of a drawn prescription: `• name (dosage)`. */
  datatype MedicineLine = MedicineLine(name: string, dosage: string)

  /** The body of a history card. */
  datatype HistoryBody = PrescriptionLines(lines: seq<MedicineLine>) | NoPrescription

  function LineOf(m: Medicine): MedicineLine {
    MedicineLine(m.name, m.dosage)
  }

  /** `item.prescriptions && item.prescriptions.length > 0`: the first
      prescription's medicines, in order; else "No prescription recorded." */
  function Body(a: Appointment): (b: HistoryBody)
    ensures b.NoPrescription? <==> a.prescriptions.None? || a.prescriptions.value == []
    ensures b.PrescriptionLines? ==>
      && |b.lines| == |a.prescriptions.value[0].medicines|
      && forall k :: 0 <= k < |b.lines| ==>
           b.lines[k] == MedicineLine(a.prescriptions.value[0].medicines[k].name, a.prescriptions.value[0].medicines[k].dosage)
  {
    if a.prescriptions.Some? && |a.prescriptions.value| > 0
    then PrescriptionLines(Map(a.prescriptions.value[0].medicines, LineOf))
    else NoPrescription
  }

  /** In demo mode no history entry ever shows a prescription, even for an
      appointment that has one in the fixture. */
  lemma DemoHistoryShowsNoPrescription(t: seq<Appointment>, patientId: string, h: Appointment)
    requires h in DemoHistory(t, patientId)
    ensures Body(h) == NoPrescription
  {
    DemoHistoryEntries(t, patientId);
  }
}
