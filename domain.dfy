/** The row shapes the client holds for the backend's tables, as the screens and
    the demo fixtures use them. Optional fields stand for columns or joins that
    may be absent (`undefined`/`null`) in a row. */
module Domain {
  import opened Common
  import opened Seqs

  /** Appointment status strings. The column is a free string: `updateStatus`
      writes whatever it is given, so the model keeps it a `string`. */
  const Pending: string := "pending"
  const Confirmed: string := "confirmed"
  const Cancelled: string := "cancelled"
  const Completed: string := "completed"

  /** The `users` join: a person's display fields. */
  datatype PersonInfo = PersonInfo(fullName: Option<string>, avatarUrl: Option<string>)

  /** The `doctors (...)` join embedded in an appointment row. */
  datatype DoctorJoin = DoctorJoin(specialization: Option<string>, clinicAddress: Option<string>, users: Option<PersonInfo>)

  /** The `patients (...)` join embedded in an appointment row. */
  datatype PatientJoin = PatientJoin(users: Option<PersonInfo>)

  /** One entry of a prescription's medicine list. */
  datatype Medicine = Medicine(name: string, dosage: string, frequency: string, duration: string)

  /** A prescription: its ordered medicines and the doctor's instructions.
      The creation timestamp is not modelled. */
  datatype Prescription = Prescription(medicines: seq<Medicine>, instructions: string)

  /** An appointment row. Dates are day offsets from today; times are opaque
      strings. `prescriptions` is absent until a prescription is attached. */
  datatype Appointment = Appointment(
    id: string,
    patientId: string,
    doctorId: string,
    dateOffset: int,
    time: string,
    status: string,
    doctors: Option<DoctorJoin>,
    patients: Option<PatientJoin>,
    prescriptions: Option<seq<Prescription>>)

  /** A weekday availability row (0 = Sunday). Demo rows carry no doctor id. */
  datatype Availability = Availability(
    doctorId: Option<string>,
    dayOfWeek: int,
    startTime: string,
    endTime: string,
    enabled: bool)

  /** A doctor row, possibly with the `users` join and the flattened
      `full_name`/`avatar_url` the home screen adds. Ratings are exact reals. */
  datatype Doctor = Doctor(
    id: string,
    specialization: Option<string>,
    rating: Option<real>,
    experienceYears: Option<int>,
    consultationFee: Option<int>,
    clinicAddress: Option<string>,
    bio: Option<string>,
    users: Option<PersonInfo>,
    fullName: Option<string>,
    avatarUrl: Option<string>)

  /** The ids of a table, in order. */
  function Ids(t: seq<Appointment>): (r: seq<string>)
    ensures |r| == |t|
    ensures forall k :: 0 <= k < |t| ==> r[k] == t[k].id
  {
    seq(|t|, k requires 0 <= k < |t| => t[k].id)
  }

  /** No two appointments share an id. */
  predicate DistinctIds(t: seq<Appointment>) {
    forall i, j :: 0 <= i < j < |t| ==> t[i].id != t[j].id
  }

  /** Two entries of a table with distinct ids that share an id are the same entry. */
  lemma UniqueId(t: seq<Appointment>, p: int, q: int)
    requires DistinctIds(t) && 0 <= p < |t| && 0 <= q < |t|
    ensures p != q ==> t[p].id != t[q].id
  {
  }

  /** The predicate `a.id === id`, named so every use is the same term. */
  function IdIs(id: string): Appointment -> bool {
    (a: Appointment) => a.id == id
  }

  /** `findIndex(a => a.id === id)` followed by an in-place change of that
      entry: the first entry with that id becomes `f` of itself. */
  function UpdateById(t: seq<Appointment>, id: string, f: Appointment -> Appointment): (r: seq<Appointment>)
    requires forall a :: f(a).id == a.id
    ensures |r| == |t| && Ids(r) == Ids(t)
    ensures (forall k :: 0 <= k < |t| ==> t[k].id != id) ==> r == t
  {
    var i := FindIndex(t, IdIs(id));
    if i == -1 then t else t[i := f(t[i])]
  }

  /** With unique ids: exactly the entry with that id changes, ids stay unique. */
  lemma {:induction false} UpdateByIdAt(t: seq<Appointment>, id: string, f: Appointment -> Appointment)
    requires forall a :: f(a).id == a.id
    requires DistinctIds(t)
    ensures DistinctIds(UpdateById(t, id, f))
    ensures forall k :: 0 <= k < |t| ==>
      UpdateById(t, id, f)[k] == if t[k].id == id then f(t[k]) else t[k]
  {
    var i := FindIndex(t, IdIs(id));
    var r := UpdateById(t, id, f);
    assert Ids(r) == Ids(t);
    forall k | 0 <= k < |t|
      ensures r[k] == if t[k].id == id then f(t[k]) else t[k]
    {
      if t[k].id == id {
        assert IdIs(id)(t[k]);
        assert 0 <= i < |t|;
        UniqueId(t, k, i);
      }
    }
    forall p, q | 0 <= p < q < |r| ensures r[p].id != r[q].id {
      assert Ids(r)[p] == Ids(t)[p] && Ids(r)[q] == Ids(t)[q];
    }
  }

  /** No two availability rows are for the same weekday. */
  predicate DistinctDays(rows: seq<Availability>) {
    forall i, j :: 0 <= i < j < |rows| ==> rows[i].dayOfWeek != rows[j].dayOfWeek
  }

  /** Row j of the schedule is for weekday j, the shape both the initial
      week and the live mapping build and the switches rely on. */
  predicate DayIndexed(rows: seq<Availability>) {
    forall j :: 0 <= j < |rows| ==> rows[j].dayOfWeek == j
  }

  /** A day-indexed schedule has one row per weekday. */
  lemma DayIndexedDistinct(rows: seq<Availability>)
    requires DayIndexed(rows)
    ensures DistinctDays(rows)
  {
  }

  /** The chip colours `getStatusColor` picks in both appointment screens. */
  datatype Color = ThemePrimary | Amber | ThemeError | ThemeSecondary | Grey

  /** `getStatusColor`: the four known statuses get their own colour, anything
      else the default grey. */
  function StatusColor(status: string): (c: Color)
    ensures status == Confirmed <==> c == ThemePrimary
    ensures status == Pending <==> c == Amber
    ensures status == Cancelled <==> c == ThemeError
    ensures status == Completed <==> c == ThemeSecondary
    ensures c == Grey <==> status !in {Confirmed, Pending, Cancelled, Completed}
  {
    if status == Confirmed then ThemePrimary
    else if status == Pending then Amber
    else if status == Cancelled then ThemeError
    else if status == Completed then ThemeSecondary
    else Grey
  }
}
