/** The schedule screen: seven weekday rows, created once in the demo fixture
    or filled in from the backend's rows, and `handleSave`, which in demo mode
    replaces one fixture row's times and flag in place and otherwise upserts
    or deletes the backend row of that weekday. */
module ManageSchedule {
  import opened Common
  import opened Domain
  import opened Seqs
  import opened Gateway
  import opened AuthStore
  import MockData

  /** `days`, indexed by `day_of_week`. */
  function Days(): (names: seq<string>)
    ensures |names| == 7 && names[0] == "Sunday" && names[6] == "Saturday"
  {
    ["Sunday", "Monday", "Tuesday", "Wednesday", "Thursday", "Friday", "Saturday"]
  }

  /** The default times of a day. */
  const DefaultStart: string := "09:00"
  const DefaultEnd: string := "17:00"

  /** The demo initial rows: every day 09:00 to 17:00, Monday to Friday enabled. */
  function InitialWeek(): (w: seq<Availability>)
    ensures |w| == |Days()|
    ensures forall i :: 0 <= i < |w| ==> w[i].dayOfWeek == i && w[i].doctorId.None?
    ensures forall i :: 0 <= i < |w| ==> w[i].startTime == DefaultStart && w[i].endTime == DefaultEnd
    ensures forall i :: 0 <= i < |w| ==> (w[i].enabled <==> 1 <= i <= 5)
    ensures DistinctDays(w) && DayIndexed(w)
  {
    seq(|Days()|, i requires 0 <= i < |Days()| => Availability(None, i, DefaultStart, DefaultEnd, i > 0 && i < 6))
  }

  /** The demo table after a fetch: initialised only when it was empty. */
  function Initialised(rows: seq<Availability>): (r: seq<Availability>)
    ensures rows == [] ==> r == InitialWeek()
    ensures rows != [] ==> r == rows
    ensures r != []
  {
    if |rows| == 0 then InitialWeek() else rows
  }

  /** A second fetch does not initialise again. */
  lemma InitialisedOnce(rows: seq<Availability>)
    ensures Initialised(Initialised(rows)) == Initialised(rows)
  {
  }

  /** Demo `fetchAvailability`: push the seven rows if the fixture is empty,
      then show a copy of it. */
  method FetchDemo(store: MockData.DemoStore) returns (list: seq<Availability>)
    requires store.Valid()
    modifies store
    ensures store.Valid()
    ensures store.availability == Initialised(old(store.availability))
    ensures store.appointments == old(store.appointments) && store.prescriptions == old(store.prescriptions)
    ensures list == store.availability
  {
    if |store.availability| == 0 {
      var initial := InitialWeek();
      store.availability := store.availability + initial;
      assert store.availability == initial;
    }
    list := store.availability;
  }

  /** The predicate `d.day_of_week === day`. */
  function DayIs(day: int): Availability -> bool {
    (d: Availability) => d.dayOfWeek == day
  }

  /** The predicate the live query's `eq('doctor_id', ...)` applies. */
  function OwnedBy(doctorId: string): Availability -> bool {
    (d: Availability) => d.doctorId == Some(doctorId)
  }

  /** The row the live mapping makes up for a day with no backend row. */
  function DefaultDay(day: int): (d: Availability)
    ensures d.dayOfWeek == day && !d.enabled
  {
    Availability(None, day, DefaultStart, DefaultEnd, false)
  }

  /** The live mapping of one day: the doctor's first row for that day, or the default. */
  function LiveDay(rows: seq<Availability>, day: int): (d: Availability)
    ensures d.dayOfWeek == day
    ensures (forall k :: 0 <= k < |rows| ==> rows[k].dayOfWeek != day) ==> d == DefaultDay(day)
    ensures d != DefaultDay(day) ==> d in rows && d.dayOfWeek == day
    ensures forall i :: 0 <= i < |rows| && rows[i].dayOfWeek == day && (forall k :: 0 <= k < i ==> rows[k].dayOfWeek != day) ==>
      d == rows[i]
  {
    var existing := Find(rows, DayIs(day));
    if existing.Some? then existing.value else DefaultDay(day)
  }

  /** The live `days.map(...)` over the doctor's backend rows. */
  function LiveWeek(rows: seq<Availability>, doctorId: string): (w: seq<Availability>)
    ensures |w| == 7
    ensures forall i :: 0 <= i < 7 ==> w[i] == LiveDay(Filter(rows, OwnedBy(doctorId)), i)
    ensures DayIndexed(w)
  {
    var mine := Filter(rows, OwnedBy(doctorId));
    seq(|Days()|, i requires 0 <= i < |Days()| => LiveDay(mine, i))
  }

  /** Entry i of the live mapping is for weekday i; a day is enabled only
      when the doctor has an enabled backend row for it. */
  lemma LiveWeekDays(rows: seq<Availability>, doctorId: string, i: int)
    requires 0 <= i < 7
    ensures LiveWeek(rows, doctorId)[i].dayOfWeek == i
    ensures LiveWeek(rows, doctorId)[i].enabled ==>
      exists r :: r in rows && r.doctorId == Some(doctorId) && r.dayOfWeek == i && r.enabled
  {
    var mine := Filter(rows, OwnedBy(doctorId));
    var d := LiveWeek(rows, doctorId)[i];
    if d.enabled {
      assert d != DefaultDay(i);
      assert d in mine;
    }
  }

  /** The demo save on the fixture table: the first row of that weekday takes
      the new start, end and flag. */
  function DaySaved(rows: seq<Availability>, day: int, start: string, end: string, enabled: bool): (r: seq<Availability>)
    ensures |r| == |rows|
    ensures forall k :: 0 <= k < |rows| ==> r[k].dayOfWeek == rows[k].dayOfWeek && r[k].doctorId == rows[k].doctorId
    ensures (forall k :: 0 <= k < |rows| ==> rows[k].dayOfWeek != day) ==> r == rows
  {
    var i := FindIndex(rows, DayIs(day));
    if i == -1 then rows else rows[i := rows[i].(startTime := start, endTime := end, enabled := enabled)]
  }

  /** With one row per weekday: that day's row takes the new times and flag,
      every other row and field is unchanged, and weekdays stay unique. */
  lemma {:induction false} DaySavedAt(rows: seq<Availability>, day: int, start: string, end: string, enabled: bool)
    requires DistinctDays(rows)
    ensures DistinctDays(DaySaved(rows, day, start, end, enabled))
    ensures forall k :: 0 <= k < |rows| ==>
      DaySaved(rows, day, start, end, enabled)[k] ==
        if rows[k].dayOfWeek == day then rows[k].(startTime := start, endTime := end, enabled := enabled) else rows[k]
  {
    var i := FindIndex(rows, DayIs(day));
    var r := DaySaved(rows, day, start, end, enabled);
    forall k | 0 <= k < |rows|
      ensures r[k] == if rows[k].dayOfWeek == day then rows[k].(startTime := start, endTime := end, enabled := enabled) else rows[k]
    {
      if rows[k].dayOfWeek == day {
        assert DayIs(day)(rows[k]);
        assert 0 <= i < |rows|;
        UniqueDay(rows, k, i);
      }
    }
  }

  lemma UniqueDay(rows: seq<Availability>, p: int, q: int)
    requires DistinctDays(rows) && 0 <= p < |rows| && 0 <= q < |rows|
    ensures p != q ==> rows[p].dayOfWeek != rows[q].dayOfWeek
  {
  }

  /** Flipping the switch of list position k off and back on, which saves
      under the position with the row's own times each time, restores the
      rows exactly on a day-indexed schedule. */
  lemma ToggleRoundTrip(rows: seq<Availability>, k: int)
    requires DayIndexed(rows) && 0 <= k < |rows| && rows[k].enabled
    ensures DaySaved(rows, k, rows[k].startTime, rows[k].endTime, false)[k]
      == rows[k].(enabled := false)
    ensures DaySaved(DaySaved(rows, k, rows[k].startTime, rows[k].endTime, false),
                     k, rows[k].startTime, rows[k].endTime, true) == rows
  {
    DayIndexedDistinct(rows);
    var d, s, e := k, rows[k].startTime, rows[k].endTime;
    var off := DaySaved(rows, d, s, e, false);
    DaySavedAt(rows, d, s, e, false);
    DaySavedAt(off, d, s, e, true);
    var on := DaySaved(off, d, s, e, true);
    assert forall j :: 0 <= j < |rows| ==> on[j] == rows[j];
  }

  /** Demo `handleSave`: replace the times and flag of that day's fixture row,
      then show a copy of the table. */
  method SaveDemo(store: MockData.DemoStore, dayIndex: int, start: string, end: string, enabled: bool)
    returns (list: seq<Availability>)
    requires store.Valid()
    modifies store
    ensures store.Valid()
    ensures store.availability == DaySaved(old(store.availability), dayIndex, start, end, enabled)
    ensures store.appointments == old(store.appointments) && store.prescriptions == old(store.prescriptions)
    ensures list == store.availability
  {
    var targetIndex := FindIndex(store.availability, DayIs(dayIndex));
    DaySavedAt(store.availability, dayIndex, start, end, enabled);
    if targetIndex != -1 {
      store.availability := store.availability[targetIndex :=
        store.availability[targetIndex].(startTime := start, endTime := end, enabled := enabled)];
    }
    list := store.availability;
  }

  /** What a screen handler produced: the backend write, an alert, and the
      rows the screen shows afterwards. */
  datatype Outcome = Outcome(write: Option<Request>, alert: Option<Alert>, list: seq<Availability>)

  /** The live `fetchAvailability` for a real user: the mapped week, or on a
      read error the rows already shown. */
  function LiveFetch(doctorId: string, fetched: Fetched<Availability>, current: seq<Availability>): (r: seq<Availability>)
    ensures fetched.Rows? ==> r == LiveWeek(fetched.rows, doctorId)
    ensures fetched.ReadError? ==> r == current
  {
    match fetched
    case Rows(rows) => LiveWeek(rows, doctorId)
    case ReadError(_) => current
  }

  /** The live `handleSave`: an upsert on (doctor, day) when enabled, a delete
      of that key otherwise; an error is shown; the week is fetched again in
      either case. The upsert carries no `enabled` column. */
  function LiveSave(doctorId: string, dayIndex: int, start: string, end: string, enabled: bool,
                    reply: Reply, refetched: Fetched<Availability>, current: seq<Availability>): (o: Outcome)
    ensures enabled ==> o.write == Some(UpsertAvailability(doctorId, dayIndex, start, end))
    ensures !enabled ==> o.write == Some(DeleteAvailability(doctorId, dayIndex))
    ensures o.alert.Some? <==> reply.Failed?
    ensures reply.Failed? ==> o.alert == Some(Alert("Error", reply.message))
    ensures o.list == LiveFetch(doctorId, refetched, current)
  {
    var write := if enabled then UpsertAvailability(doctorId, dayIndex, start, end)
                 else DeleteAvailability(doctorId, dayIndex);
    var alert := if reply.Failed? then Some(Alert("Error", reply.message)) else None;
    Outcome(Some(write), alert, LiveFetch(doctorId, refetched, current))
  }

  /** `fetchAvailability`: nothing without a user; the fixture for a demo id;
      the backend otherwise. */
  method Fetch(store: MockData.DemoStore, user: Option<User>, fetched: Fetched<Availability>, current: seq<Availability>)
    returns (list: seq<Availability>)
    requires store.Valid()
    modifies store
    ensures store.Valid()
    ensures store.appointments == old(store.appointments) && store.prescriptions == old(store.prescriptions)
    ensures user.None? ==> list == current && store.availability == old(store.availability)
    ensures user.Some? && IsDemoId(user.value.id) ==>
      store.availability == Initialised(old(store.availability)) && list == store.availability
    ensures user.Some? && !IsDemoId(user.value.id) ==>
      store.availability == old(store.availability) && list == LiveFetch(user.value.id, fetched, current)
  {
    if user.None? {
      return current;
    }
    if IsDemoId(user.value.id) {
      list := FetchDemo(store);
      return;
    }
    list := LiveFetch(user.value.id, fetched, current);
  }

  /** `handleSave`: nothing without a user; the fixture for a demo id; the
      backend otherwise. */
  method Save(store: MockData.DemoStore, user: Option<User>, dayIndex: int, start: string, end: string, enabled: bool,
              reply: Reply, refetched: Fetched<Availability>, current: seq<Availability>)
    returns (o: Outcome)
    requires store.Valid()
    modifies store
    ensures store.Valid()
    ensures store.appointments == old(store.appointments) && store.prescriptions == old(store.prescriptions)
    ensures user.None? ==> o == Outcome(None, None, current) && store.availability == old(store.availability)
    ensures user.Some? && IsDemoId(user.value.id) ==>
      && store.availability == DaySaved(old(store.availability), dayIndex, start, end, enabled)
      && o == Outcome(None, None, store.availability)
    ensures user.Some? && !IsDemoId(user.value.id) ==>
      && store.availability == old(store.availability)
      && o == LiveSave(user.value.id, dayIndex, start, end, enabled, reply, refetched, current)
  {
    if user.None? {
      return Outcome(None, None, current);
    }
    if IsDemoId(user.value.id) {
      var list := SaveDemo(store, dayIndex, start, end, enabled);
      return Outcome(None, None, list);
    }
    o := LiveSave(user.value.id, dayIndex, start, end, enabled, reply, refetched, current);
  }
}
