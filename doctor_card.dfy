/** The doctor card: the fallbacks for each shown field, the crown badge and
    the two places that call `onPress`. */
module DoctorCard {
  import opened Common
  import opened Domain
  import opened Text

  const PlaceholderAvatar: string := "https://via.placeholder.com/150"

  /** `a || b || fallback` over optional strings. */
  function FirstTruthy(a: Option<string>, b: Option<string>, fallback: string): (r: string)
    ensures Truthy(a) ==> r == a.value
    ensures !Truthy(a) && Truthy(b) ==> r == b.value
    ensures !Truthy(a) && !Truthy(b) ==> r == fallback
  {
    OrDefault(OrElse(a, b), fallback)
  }

  function JoinName(d: Doctor): Option<string> {
    if d.users.Some? then d.users.value.fullName else None
  }

  function JoinAvatar(d: Doctor): Option<string> {
    if d.users.Some? then d.users.value.avatarUrl else None
  }

  /** `doctor.full_name || doctor.users?.full_name || 'Unknown Doctor'` */
  function ShownName(d: Doctor): (name: string)
    ensures name != ""
    ensures Truthy(d.fullName) ==> name == d.fullName.value
    ensures !Truthy(d.fullName) && Truthy(JoinName(d)) ==> name == JoinName(d).value
    ensures !Truthy(d.fullName) && !Truthy(JoinName(d)) ==> name == "Unknown Doctor"
  {
    FirstTruthy(d.fullName, JoinName(d), "Unknown Doctor")
  }

  /** `doctor.avatar_url || doctor.users?.avatar_url || placeholder` */
  function ShownAvatar(d: Doctor): (url: string)
    ensures url != ""
    ensures Truthy(d.avatarUrl) ==> url == d.avatarUrl.value
    ensures !Truthy(d.avatarUrl) && Truthy(JoinAvatar(d)) ==> url == JoinAvatar(d).value
    ensures !Truthy(d.avatarUrl) && !Truthy(JoinAvatar(d)) ==> url == PlaceholderAvatar
  {
    FirstTruthy(d.avatarUrl, JoinAvatar(d), PlaceholderAvatar)
  }

  /** `doctor.specialization || 'General Practitioner'` */
  function ShownSpecialization(d: Doctor): (s: string)
    ensures s != ""
    ensures Truthy(d.specialization) ==> s == d.specialization.value
    ensures !Truthy(d.specialization) ==> s == "General Practitioner"
  {
    OrDefault(d.specialization, "General Practitioner")
  }

  /** `doctor.rating || 0` */
  function ShownRating(d: Doctor): (r: real)
    ensures d.rating.Some? ==> r == d.rating.value
    ensures d.rating.None? ==> r == 0.0
  {
    if d.rating.Some? && d.rating.value != 0.0 then d.rating.value else 0.0
  }

  /** `doctor.experience_years || 0` */
  function ShownExperience(d: Doctor): (n: int)
    ensures d.experienceYears.Some? ==> n == d.experienceYears.value
    ensures d.experienceYears.None? ==> n == 0
  {
    if d.experienceYears.Some? && d.experienceYears.value != 0 then d.experienceYears.value else 0
  }

  /** `doctor.consultation_fee || 0` */
  function ShownFee(d: Doctor): (n: int)
    ensures d.consultationFee.Some? ==> n == d.consultationFee.value
    ensures d.consultationFee.None? ==> n == 0
  {
    if d.consultationFee.Some? && d.consultationFee.value != 0 then d.consultationFee.value else 0
  }

  /** `rating >= 4.5` */
  predicate Crown(d: Doctor) {
    ShownRating(d) >= 4.5
  }

  /** The crown is shown exactly for a recorded rating of at least 4.5. */
  lemma CrownIff(d: Doctor)
    ensures Crown(d) <==> d.rating.Some? && d.rating.value >= 4.5
  {
  }

  /** `{experience} years exp.` for a non-negative count. */
  function ExperienceLabel(years: nat): string {
    DecimalString(years) + " years exp."
  }

  /** The doctor of the component's test file: every text it looks for but
      the experience line is shown as it expects; the card prints "10 years
      exp.", not the "10 yrs exp" the test asserts. */
  lemma TestDoctorCard()
    ensures var d := Doctor("1", Some("Cardiologist"), Some(4.5), Some(10), None, None, None,
                            Some(PersonInfo(Some("Dr. John Doe"), Some("https://example.com/avatar.jpg"))), None, None);
      && ShownName(d) == "Dr. John Doe"
      && ShownSpecialization(d) == "Cardiologist"
      && ShownRating(d) == 4.5 && Crown(d)
      && ShownExperience(d) == 10
      && ExperienceLabel(10) == "10 years exp."
      && ExperienceLabel(10) != "10 yrs exp"
  {
    assert DecimalString(10) == "10" by {
      assert DecimalString(1) == "1";
    }
  }

  /** Where a press lands on the card. */
  datatype Target = NameText | OtherContent | BookNowButton

  /** The touchable that takes a press: the innermost one, so the "Book Now"
      button for its own area and the card for anything else inside it. */
  datatype Handler = CardOnPress | ButtonOnPress

  function HandlerOf(t: Target): Handler {
    if t == BookNowButton then ButtonOnPress else CardOnPress
  }

  /** A callback a parent can hand the card. */
  datatype Callback = Callback(id: nat)

  /** The card's props that matter to a press. */
  datatype Props = Props(onPress: Callback)

  /** The callback each touchable is given in the card's markup: the card and
      the "Book Now" button are both handed the `onPress` prop. */
  function Bound(h: Handler, props: Props): Callback {
    match h
    case CardOnPress => props.onPress
    case ButtonOnPress => props.onPress
  }

  /** The callbacks a run of presses invokes, in order. */
  function Invoked(presses: seq<Target>, props: Props): (cs: seq<Callback>)
    ensures |cs| == |presses|
  {
    if presses == [] then [] else [Bound(HandlerOf(presses[0]), props)] + Invoked(presses[1..], props)
  }

  /** How many times `c` occurs among the invoked callbacks. */
  function Count(cs: seq<Callback>, c: Callback): nat {
    if cs == [] then 0 else (if cs[0] == c then 1 else 0) + Count(cs[1..], c)
  }

  /** Every press on the card or its button calls the `onPress` prop exactly
      once and nothing else. */
  lemma {:induction false} CallsPerPress(presses: seq<Target>, props: Props, other: Callback)
    requires other != props.onPress
    ensures Count(Invoked(presses, props), props.onPress) == |presses|
    ensures Count(Invoked(presses, props), other) == 0
  {
    if presses != [] {
      var cs := Invoked(presses, props);
      assert cs[0] == props.onPress;
      assert cs[1..] == Invoked(presses[1..], props);
      CallsPerPress(presses[1..], props, other);
    }
  }

  /** The test's single press on the name calls its mock once. */
  lemma NamePressCallsOnce(mock: Callback)
    ensures Count(Invoked([NameText], Props(mock)), mock) == 1
  {
    CallsPerPress([NameText], Props(mock), Callback(mock.id + 1));
  }
}
