/** The two protected pages: the dashboard and the population page. Each reads the
    current user from the auth service when it mounts, sends the visitor to the
    sign-in page from its mount effect when there is no user, and renders nothing
    while it has no user. They differ in one respect: the dashboard reads the
    current user again inside its effect and adopts that value, whereas the
    population page keeps the value it captured at mount for good. */
module ProtectedPages {
  import opened Session
  import Layout

  const GreetingPrefix: string := "Chào mừng trở lại, "
  const GreetingSuffix: string := "! Dưới đây là tổng quan về hệ thống."

  /** What the dashboard renders inside the navigation shell: its greeting line
      (the stat cards and the activity list are fixed presentation). */
  datatype DashboardView = DashboardView(greeting: string)

  /** The greeting line for a user's display name. */
  function Greeting(name: string): (g: string)
    ensures |g| == |GreetingPrefix| + |name| + |GreetingSuffix|
    ensures g[|GreetingPrefix|..|GreetingPrefix| + |name|] == name
    ensures g[..|GreetingPrefix|] == GreetingPrefix
  {
    var g := GreetingPrefix + name + GreetingSuffix;
    assert g[..|GreetingPrefix|] == GreetingPrefix;
    assert g[|GreetingPrefix|..|GreetingPrefix| + |name|] == name;
    g
  }

  class DashboardPage {
    var user: Option<User>
    var navigations: seq<string>

    /** Mounting the dashboard takes the user state from a read of the current
        user (`atMount`); nothing has been navigated yet. */
    constructor (atMount: Option<User>)
      ensures user == atMount && navigations == []
    {
      user := atMount;
      navigations := [];
    }

    /** The mount effect, given a fresh read of the current user (`current`):
        with no current user it navigates to the sign-in page and leaves the user
        state alone; otherwise it adopts the fresh user and navigates nowhere. */
    method RunEffect(current: Option<User>)
      modifies this
      ensures current.None? ==> user == old(user) && navigations == old(navigations) + [SignInRoute]
      ensures current.Some? ==> user == current && navigations == old(navigations)
    {
      if current.None? {
        navigations := navigations + [SignInRoute];
      } else {
        user := current;
      }
    }

    /** What the page renders: nothing without a user, so no protected content
        can show; with a user, the dashboard inside the shell, greeting that
        user by name. */
    function Render(): (view: Option<DashboardView>)
      reads this
      ensures view.None? <==> user.None?
      ensures view.Some? ==> view.value.greeting == Greeting(user.value.name)
    {
      match user
      case None => None
      case Some(u) => Some(DashboardView(Greeting(u.name)))
    }
  }

  /** The three cards of the population page. */
  datatype PopulationCard = Households | FamilyPlanning | Statistics

  const PopulationCards: seq<PopulationCard> := [Households, FamilyPlanning, Statistics]

  /** Where clicking a card navigates. */
  function CardTarget(card: PopulationCard): (target: string)
    ensures |target| > |"/population/"| && target[..|"/population/"|] == "/population/"
  {
    match card
    case Households => "/population/households"
    case FamilyPlanning => "/population/family-planning"
    case Statistics => "/population/statistics"
  }

  /** The three cards lead to three different pages. */
  lemma CardTargetsDistinct(a: PopulationCard, b: PopulationCard)
    ensures CardTarget(a) == CardTarget(b) <==> a == b
  {
  }

  /** Because the drawer matches paths exactly, no card target highlights a
      drawer entry, not even "Quản lý dân số" at "/population". */
  lemma CardTargetsHighlightNoMenuEntry(card: PopulationCard)
    ensures Layout.ActiveIndex(Layout.MenuItems, CardTarget(card)) == None
  {
    var t := CardTarget(card);
    forall i | 0 <= i < |Layout.MenuItems| ensures Layout.MenuItems[i].path != t {
      assert |Layout.MenuItems[i].path| < |t|;
    }
  }

  /** What the population page renders inside the shell: its cards, in order. */
  datatype PopulationView = PopulationView(cards: seq<PopulationCard>)

  class PopulationPage {
    /** Captured once at mount and never updated. */
    const user: Option<User>
    var navigations: seq<string>

    constructor (atMount: Option<User>)
      ensures user == atMount && navigations == []
    {
      user := atMount;
      navigations := [];
    }

    /** The mount effect: with no captured user it navigates to the sign-in
        page; with a user it does nothing. */
    method RunEffect()
      modifies this
      ensures navigations == old(navigations) + (if user.None? then [SignInRoute] else [])
    {
      if user.None? {
        navigations := navigations + [SignInRoute];
      }
    }

    /** Clicking a card navigates to that card's page. */
    method OpenCard(card: PopulationCard)
      modifies this
      ensures navigations == old(navigations) + [CardTarget(card)]
    {
      navigations := navigations + [CardTarget(card)];
    }

    /** Nothing without a user; with one, the three cards. */
    function Render(): (view: Option<PopulationView>)
      reads this
      ensures view.None? <==> user.None?
      ensures view.Some? ==> view.value.cards == PopulationCards
    {
      if user.None? then None else Some(PopulationView(PopulationCards))
    }
  }

  /** Mounts both pages and runs their effects, with the current user read as
      `atMount` when each page mounts and as `atEffect` when the dashboard's
      effect reads it again. Reports what each page navigated to and whether it
      renders its content afterwards. When the session does not change between
      the two reads the pages behave alike: both redirect to the sign-in page and
      render nothing exactly when there is no user. When a user appears between
      the reads, only the dashboard picks it up; when it disappears, the
      dashboard redirects yet still holds the user it read at mount. */
  method MountBoth(atMount: Option<User>, atEffect: Option<User>)
    returns (dashboardNavigations: seq<string>, dashboardRenders: bool,
             populationNavigations: seq<string>, populationRenders: bool)
    ensures atMount == atEffect ==>
              && dashboardNavigations == populationNavigations
              && dashboardRenders == populationRenders
              && (dashboardRenders <==> atMount.Some?)
              && (dashboardNavigations == [SignInRoute] <==> atMount.None?)
    ensures atMount.None? && atEffect.Some? ==>
              dashboardRenders && dashboardNavigations == [] &&
              !populationRenders && populationNavigations == [SignInRoute]
    ensures atMount.Some? && atEffect.None? ==>
              dashboardRenders && dashboardNavigations == [SignInRoute] &&
              populationRenders && populationNavigations == []
  {
    var dashboard := new DashboardPage(atMount);
    dashboard.RunEffect(atEffect);
    var population := new PopulationPage(atMount);
    population.RunEffect();
    dashboardNavigations, dashboardRenders := dashboard.navigations, dashboard.Render().Some?;
    populationNavigations, populationRenders := population.navigations, population.Render().Some?;
  }
}
