/** The patient's home screen: the doctor list flattened from the `users`
    join, the case-insensitive search and the category chips that filter it. */
module Home {
  import opened Common
  import opened Domain
  import opened Seqs
  import opened Text
  import opened AuthStore
  import Gateway
  import MockData

  /** `CATEGORIES`, the chips in order. */
  const Categories: seq<string> :=
    ["All", "Cardiologist", "Dentist", "Dermatologist", "Pediatrician", "Neurologist", "Orthopedic"]

  /** `doc.users?.full_name` */
  function UsersName(d: Doctor): Option<string> {
    if d.users.Some? then d.users.value.fullName else None
  }

  /** `doc.users?.avatar_url` */
  function UsersAvatar(d: Doctor): Option<string> {
    if d.users.Some? then d.users.value.avatarUrl else None
  }

  /** The `map` in `fetchDoctors`: `full_name` from the join or "Unknown
      Doctor", `avatar_url` from the join (absent when the join is), every
      other field as it was. */
  function Flatten(d: Doctor): (r: Doctor)
    ensures r.fullName == Some(if Truthy(UsersName(d)) then UsersName(d).value else "Unknown Doctor")
    ensures Truthy(r.fullName)
    ensures r.avatarUrl == UsersAvatar(d)
    ensures r.(fullName := d.fullName, avatarUrl := d.avatarUrl) == d
  {
    d.(fullName := Some(OrDefault(UsersName(d), "Unknown Doctor")), avatarUrl := UsersAvatar(d))
  }

  /** Flattening a flattened row changes nothing: the join it reads is kept. */
  lemma FlattenIdempotent(d: Doctor)
    ensures Flatten(Flatten(d)) == Flatten(d)
  {
  }

  /** The flattened list, in the order of the rows. */
  function FlattenAll(ds: seq<Doctor>): (r: seq<Doctor>)
    ensures |r| == |ds|
    ensures forall k :: 0 <= k < |ds| ==> r[k] == Flatten(ds[k])
  {
    Map(ds, Flatten)
  }

  /** `fetchDoctors`: the flattened fixture for a demo id; for anyone else the
      flattened backend rows, or on a read error the list already shown. */
  function FetchDoctors(user: Option<User>, live: Gateway.Fetched<Doctor>, current: seq<Doctor>): (r: seq<Doctor>)
    ensures user.Some? && IsDemoId(user.value.id) ==> r == FlattenAll(MockData.MockDoctors())
    ensures !(user.Some? && IsDemoId(user.value.id)) && live.Rows? ==> r == FlattenAll(live.rows)
    ensures !(user.Some? && IsDemoId(user.value.id)) && live.ReadError? ==> r == current
  {
    if user.Some? && IsDemoId(user.value.id) then FlattenAll(MockData.MockDoctors())
    else match live
      case Rows(rows) => FlattenAll(rows)
      case ReadError(_) => current
  }

  /** `field?.toLowerCase().includes(query)` for an optional field. */
  predicate FieldHit(field: Option<string>, query: string) {
    field.Some? && Includes(Lower(field.value), query)
  }

  /** The search test on a doctor, with the query lowered once as the effect does. */
  predicate SearchHit(d: Doctor, query: string) {
    FieldHit(d.fullName, Lower(query)) || FieldHit(d.specialization, Lower(query))
  }

  /** Upper and lower case in the query make no difference. */
  lemma SearchCaseInsensitive(d: Doctor, query: string)
    ensures SearchHit(d, query) <==> SearchHit(d, Lower(query))
  {
    LowerIdempotent(query);
  }

  /** A letter-for-letter substring of the name is always found. */
  lemma SearchFindsNamePart(d: Doctor, i: int, j: int)
    requires d.fullName.Some? && 0 <= i <= j <= |d.fullName.value|
    ensures SearchHit(d, d.fullName.value[i..j])
  {
    var name := d.fullName.value;
    var q := Lower(name[i..j]);
    assert q <= Lower(name)[i..] by {
      assert forall k :: 0 <= k < |q| ==> q[k] == Lower(name)[i..][k];
    }
    IncludesIff(Lower(name), q);
  }

  function MatchesSearch(query: string): Doctor -> bool {
    (d: Doctor) => SearchHit(d, query)
  }

  function MatchesCategory(category: string): Doctor -> bool {
    (d: Doctor) => d.specialization == Some(category)
  }

  /** The filter effect: the search when the query is non-empty, then the
      category when it is not "All". */
  function FilteredDoctors(doctors: seq<Doctor>, query: string, category: string): (r: seq<Doctor>)
    ensures forall d :: d in r <==>
      d in doctors && (query == "" || SearchHit(d, query)) && (category == "All" || d.specialization == Some(category))
  {
    var afterSearch := if query != "" then Filter(doctors, MatchesSearch(query)) else doctors;
    if category != "All" then Filter(afterSearch, MatchesCategory(category)) else afterSearch
  }

  /** Both filters at once, as one predicate. */
  predicate Passes(d: Doctor, query: string, category: string) {
    (query == "" || SearchHit(d, query)) && (category == "All" || d.specialization == Some(category))
  }

  function PassesBoth(query: string, category: string): Doctor -> bool {
    (d: Doctor) => Passes(d, query, category)
  }

  /** The chained filters equal one filter by both tests, so the list shown is
      an order-preserving subsequence of the doctors. */
  lemma FilteredIsOneFilter(doctors: seq<Doctor>, query: string, category: string)
    ensures FilteredDoctors(doctors, query, category) == Filter(doctors, PassesBoth(query, category))
    ensures IsSubseq(FilteredDoctors(doctors, query, category), doctors)
  {
    var both := PassesBoth(query, category);
    if query != "" && category != "All" {
      FilterFilter(doctors, MatchesSearch(query), MatchesCategory(category), both);
    } else if query != "" {
      FilterExt(doctors, MatchesSearch(query), both);
    } else if category != "All" {
      FilterExt(doctors, MatchesCategory(category), both);
    } else {
      FilterAll(doctors, both);
    }
    FilterIsSubseq(doctors, both);
  }

  /** With no query and "All" selected, every doctor is shown. */
  lemma NoFilterShowsAll(doctors: seq<Doctor>)
    ensures FilteredDoctors(doctors, "", "All") == doctors
  {
  }

  /** The screen's filter state. */
  datatype Selection = Selection(query: string, category: string)

  /** `handleCategoryPress(cat)`: select the chip; "All" also clears the search. */
  function CategoryPress(s: Selection, cat: string): (r: Selection)
    ensures r.category == cat
    ensures cat == "All" ==> r.query == ""
    ensures cat != "All" ==> r.query == s.query
  {
    if cat == "All" then Selection("", cat) else s.(category := cat)
  }

  /** Pressing "All" shows the whole list whatever was selected before. */
  lemma AllPressShowsAll(doctors: seq<Doctor>, s: Selection)
    ensures var r := CategoryPress(s, "All"); FilteredDoctors(doctors, r.query, r.category) == doctors
  {
  }

  /** The category effect from the Categories screen: a present, non-empty
      route parameter selects that category and keeps the search. */
  function RouteCategory(s: Selection, param: Option<string>): (r: Selection)
    ensures Truthy(param) ==> r == s.(category := param.value)
    ensures !Truthy(param) ==> r == s
  {
    if Truthy(param) then s.(category := param.value) else s
  }
}
