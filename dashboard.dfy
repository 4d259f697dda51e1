/** The dashboard page (src/pages/Dashboard.tsx): the session gate, the
    profile fetch it drives, the static service cards and the props it
    hands to the stats widget. */
module Dashboard {
  import opened Js
  import opened Schema
  import opened Runtime
  import UserStats
  import Profile

  /** A static service card. The rating is kept in tenths (4.5 is 45). */
  datatype Service = Service(title: string, description: string, icon: string, iconColor: string, ratingTenths: int)

  const Services: seq<Service> := [
    Service("Student Hostels", "Find verified hostels near your campus with great amenities",
      "\U{1F3E0}", "bg-collo-orange", 45),
    Service("Mess Services", "Delicious and affordable meal plans for students",
      "\U{1F37D}\U{FE0F}", "bg-collo-green", 48),
    Service("Private Tutors", "Expert tutors for all subjects and competitive exams",
      "\U{1F4DA}", "bg-collo-purple", 47),
    Service("Transport", "Safe and reliable transport options for daily commute",
      "\U{1F697}", "bg-collo-blue", 46)]

  /** The props given to the stats widget: every prop is passed, so no default applies there. */
  function StatsProps(p: Option<ProfileRow>): (props: UserStats.Props)
    ensures props.userName.Some? && props.userName.value != ""
    ensures props.points.Some? && props.reviews.Some? && props.streak.Some?
  {
    UserStats.Props(
      Some(OrString(FullNameOf(p), "Student")),
      Some(OrNumber(PointsOf(p), 0)),
      Some(OrNumber(ReviewsCountOf(p), 0)),
      Some(OrNumber(StreakDaysOf(p), 0)))
  }

  /** What the page renders: nothing without a session, else the cards and the widget. */
  datatype DashboardView = Blank | Page(cards: seq<Service>, stats: UserStats.StatsView)

  function RenderDashboard(session: Option<Session>, profile: Option<ProfileRow>): (v: DashboardView)
    ensures v.Blank? <==> session.None?
    ensures v.Page? ==> v.cards == Services && v.stats.name != "" && |v.stats.counts| == 3
  {
    if session.None? then Blank else Page(Services, UserStats.Render(StatsProps(profile)))
  }

  /** Nothing renders without a session; with one, the four service cards
      come in declaration order: hostels, mess, tutors, transport. */
  lemma RenderDashboardCases(session: Option<Session>, profile: Option<ProfileRow>)
    ensures RenderDashboard(session, profile) == Blank <==> session.None?
    ensures session.Some? ==>
      var v := RenderDashboard(session, profile);
      |v.cards| == 4
      && v.cards[0].title == "Student Hostels" && v.cards[1].title == "Mess Services"
      && v.cards[2].title == "Private Tutors" && v.cards[3].title == "Transport"
  {
  }

  /** For any profile row, the sidebar widget and the profile page show the
      same avatar letter, the same name and the same counts. */
  lemma SidebarAgreesWithProfilePage(p: Option<ProfileRow>)
    ensures var v := UserStats.Render(StatsProps(p));
      var c := Profile.Card(p);
      v.initial == c.initial && v.name == c.name && v.counts == [c.points, c.reviews, c.streak]
  {
    var name := OrString(FullNameOf(p), "Student");
    assert UserStats.Render(StatsProps(p)).name == name;
    Profile.InitialSpec(p);
    assert ToUpperCase("S") == "S";
    if FullNameOf(p).Some? && FullNameOf(p).value != "" {
      assert name == FullNameOf(p).value;
    } else {
      assert name == "Student";
    }
  }

  /** The page's state: the session, the fetched row and the log of its outward actions. */
  class DashboardPage {
    var session: Option<Session>
    var profile: Option<ProfileRow>
    var effects: seq<Effect>

    constructor ()
      ensures session == None && profile == None && effects == []
    {
      session := None;
      profile := None;
      effects := [];
    }

    /** The `getSession` answer and every auth-state change run the same
        steps: store the session, then go to /auth without one, or fetch
        the row of the session's user with one. */
    method HandleSession(s: Option<Session>)
      modifies this`session, this`effects
      ensures session == s
      ensures effects == old(effects) + [if s.None? then Navigate(AuthPath) else FetchProfile(s.value.user.id)]
    {
      session := s;
      if s.None? {
        effects := effects + [Navigate(AuthPath)];
      } else {
        effects := effects + [FetchProfile(s.value.user.id)];
      }
    }

    /** The row query answered: `data` is the row, or null when there is none. */
    method ProfileFetched(data: Option<ProfileRow>)
      modifies this`profile
      ensures profile == data
    {
      profile := data;
    }

    function View(): DashboardView
      reads this
    {
      RenderDashboard(session, profile)
    }
  }

  /** Signing in as one user and then switching to another fetches each
      user's row in turn; signing out then goes to /auth and renders nothing. */
  method SwitchUserThenSignOut(a: User, b: User) returns (log: seq<Effect>, v: DashboardView)
    ensures log == [FetchProfile(a.id), FetchProfile(b.id), Navigate(AuthPath)]
    ensures v == Blank
  {
    var page := new DashboardPage();
    page.HandleSession(Some(Session(a)));
    page.HandleSession(Some(Session(b)));
    page.HandleSession(None);
    log := page.effects;
    v := page.View();
  }
}
