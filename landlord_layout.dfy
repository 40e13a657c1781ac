/** The landlord layout header: the time-of-day greeting, the display name and the avatar initial. */
module LandlordLayout {
  import opened Wrappers
  import opened Text

  const Morning := "Good Morning"
  const Afternoon := "Good Afternoon"
  const Evening := "Good Evening"

  /** `getGreeting` for the local hour. */
  function Greeting(hour: int): (r: string)
    ensures r == Morning || r == Afternoon || r == Evening
  {
    if hour < 12 then Morning
    else if hour < 18 then Afternoon
    else Evening
  }

  /** Before noon is morning, noon up to 18:00 afternoon, from 18:00 evening; 12 and 18 open their bands. */
  lemma GreetingBands(hour: int)
    ensures Greeting(hour) == Morning <==> hour < 12
    ensures Greeting(hour) == Afternoon <==> 12 <= hour < 18
    ensures Greeting(hour) == Evening <==> hour >= 18
  {
  }

  /** `s.split('@')[0]`: everything before the first '@'. */
  function BeforeAt(s: string): (r: string)
    ensures '@' !in r
    ensures StartsWith(s, r)
    ensures '@' !in s ==> r == s
    ensures |r| < |s| ==> s[|r|] == '@'
  {
    if s == [] || s[0] == '@' then [] else [s[0]] + BeforeAt(s[1..])
  }

  /** `full_name || email?.split('@')[0] || 'User'`: each empty choice falls through to the next. */
  function DisplayName(fullName: Option<string>, email: Option<string>): (r: string)
    ensures r != []
    ensures fullName.Some? && fullName.value != [] ==> r == fullName.value
    ensures (fullName.None? || fullName.value == []) && email.Some? && BeforeAt(email.value) != [] ==> r == BeforeAt(email.value)
    ensures (fullName.None? || fullName.value == []) && (email.None? || BeforeAt(email.value) == []) ==> r == "User"
  {
    OrElse(fullName, OrElse(if email.Some? then Some(BeforeAt(email.value)) else None, "User"))
  }

  /** `user?.name?.[0]?.toUpperCase() || 'U'`. */
  function AvatarInitial(name: Option<string>): (r: string)
    ensures |r| == 1
    ensures name.Some? && name.value != [] ==> r == [UpperChar(name.value[0])]
    ensures name.None? || name.value == [] ==> r == "U"
  {
    if name.Some? && name.value != [] then [UpperChar(name.value[0])] else "U"
  }

  /** Once the user is loaded, the avatar shows the first letter of the display name. */
  lemma SignedInInitial(fullName: Option<string>, email: Option<string>)
    ensures AvatarInitial(Some(DisplayName(fullName, email))) == [UpperChar(DisplayName(fullName, email)[0])]
  {
  }
}
