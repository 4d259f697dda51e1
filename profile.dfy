/** The profile page (src/pages/Profile.tsx): the fetch guarded by the
    signed-in user, the logout steps, and the values derived from the row. */
module Profile {
  import opened Js
  import opened Schema
  import opened Runtime

  /** The profile card: avatar letter, name and the three counts. */
  datatype ProfileCard = ProfileCard(initial: string, name: string, points: int, reviews: int, streak: int)

  /** `profile?.full_name?.charAt(0).toUpperCase() || "S"`: the optional
      chain yields undefined when the profile or the name is missing. */
  function Initial(p: Option<ProfileRow>): (r: string)
    ensures |r| == 1
  {
    var chain := match FullNameOf(p)
      case None => None
      case Some(n) => Some(ToUpperCase(CharAt(n, 0)));
    OrString(chain, "S")
  }

  /** `profile?.full_name || "Student"`. */
  function DisplayName(p: Option<ProfileRow>): (r: string)
    ensures r != ""
  {
    OrString(FullNameOf(p), "Student")
  }

  /** The card the page shows for a row that may be missing. */
  function Card(p: Option<ProfileRow>): (r: ProfileCard)
    ensures |r.initial| == 1 && r.name != ""
    ensures p.None? ==> r.points == 0 && r.reviews == 0 && r.streak == 0
  {
    ProfileCard(
      Initial(p),
      DisplayName(p),
      OrNumber(PointsOf(p), 0),
      OrNumber(ReviewsCountOf(p), 0),
      OrNumber(StreakDaysOf(p), 0))
  }

  /** The avatar letter is the upper-cased first character of a non-empty
      stored name, and "S" when the row, the name or its text is missing. */
  lemma InitialSpec(p: Option<ProfileRow>)
    ensures var n := FullNameOf(p);
      Initial(p) == if n.Some? && n.value != "" then [UpperChar(n.value[0])] else "S"
  {
  }

  /** The shown name is the stored one when it is non-empty, "Student" otherwise. */
  lemma DisplayNameSpec(p: Option<ProfileRow>)
    ensures var n := FullNameOf(p);
      DisplayName(p) == if n.Some? && n.value != "" then n.value else "Student"
  {
  }

  /** Each count is the stored value, or 0 when the row or the value is missing
      (0 is falsy, so `|| 0` changes nothing for a stored 0). */
  lemma CountsSpec(p: Option<ProfileRow>)
    ensures Card(p).points == (if p.Some? then p.value.points.GetOr(0) else 0)
    ensures Card(p).reviews == (if p.Some? then p.value.reviewsCount.GetOr(0) else 0)
    ensures Card(p).streak == (if p.Some? then p.value.streakDays.GetOr(0) else 0)
  {
  }

  /** A missing row is not an error: every value takes its default. */
  lemma MissingRowDefaults()
    ensures Card(None) == ProfileCard("S", "Student", 0, 0, 0)
  {
  }

  /** The page's state: the fetched row (null until it arrives, and when
      there is none) and the log of its outward actions. The page renders
      the card whatever the state; it has no session gate of its own. */
  class ProfilePage {
    var profile: Option<ProfileRow>
    var effects: seq<Effect>

    constructor ()
      ensures profile == None && effects == []
    {
      profile := None;
      effects := [];
    }

    /** `fetchProfile` up to the `getUser` answer: without a user go to
        /auth and stop (no profile query); with one, query its row. */
    method UserResolved(user: Option<User>)
      modifies this`effects
      ensures effects == old(effects) + [if user.None? then Navigate(AuthPath) else FetchProfile(user.value.id)]
    {
      if user.None? {
        effects := effects + [Navigate(AuthPath)];
        return;
      }
      effects := effects + [FetchProfile(user.value.id)];
    }

    /** The row query answered: `data` is the row, or null when there is none. */
    method ProfileFetched(data: Option<ProfileRow>)
      modifies this`profile
      ensures profile == data
    {
      profile := data;
    }

    /** `handleLogout`: sign out, then the success toast, then /auth. The
        held row is not cleared. */
    method Logout()
      modifies this`effects
      ensures effects == old(effects) + [SignOut, SuccessToast("Logged out successfully"), Navigate(AuthPath)]
    {
      effects := effects + [SignOut];
      effects := effects + [SuccessToast("Logged out successfully")];
      effects := effects + [Navigate(AuthPath)];
    }

    function View(): ProfileCard
      reads this
    {
      Card(profile)
    }
  }

  /** A visit without a signed-in user: the page goes to /auth, never
      queries a row, and the card keeps every default. */
  method SignedOutVisit() returns (card: ProfileCard, log: seq<Effect>)
    ensures log == [Navigate(AuthPath)]
    ensures card == ProfileCard("S", "Student", 0, 0, 0)
  {
    var page := new ProfilePage();
    page.UserResolved(None);
    card := page.View();
    log := page.effects;
    MissingRowDefaults();
  }
}
