/** The mobile demo's screen flow: loading, welcome, onboarding, then the signed-in placeholder. */
module LoadingDemo {

  datatype Screen = Loading | Welcome | Onboarding | Authenticated

  /** The callback each screen hands to its component. */
  datatype DemoEvent = LoadingComplete | GetStarted | OnboardingComplete | Restart

  /** The one screen whose component can raise an event. */
  function SourceOf(e: DemoEvent): Screen {
    match e
    case LoadingComplete => Loading
    case GetStarted => Welcome
    case OnboardingComplete => Onboarding
    case Restart => Authenticated
  }

  /** The screen an event leads to. */
  function TargetOf(e: DemoEvent): Screen {
    match e
    case LoadingComplete => Welcome
    case GetStarted => Onboarding
    case OnboardingComplete => Authenticated
    case Restart => Loading
  }

  /** The screen after an event; only the screen on display can raise it. */
  function Step(s: Screen, e: DemoEvent): (t: Screen)
    ensures t != s ==> s == SourceOf(e) && t == TargetOf(e)
    ensures s == SourceOf(e) ==> t == TargetOf(e)
  {
    match e
    case LoadingComplete => if s == Loading then Welcome else s
    case GetStarted => if s == Welcome then Onboarding else s
    case OnboardingComplete => if s == Onboarding then Authenticated else s
    case Restart => if s == Authenticated then Loading else s
  }

  function Run(s: Screen, es: seq<DemoEvent>): Screen
    decreases |es|
  {
    if es == [] then s else Run(Step(s, es[0]), es[1..])
  }

  /** The successor of a screen in the flow. */
  function Next(s: Screen): Screen {
    match s
    case Loading => Welcome
    case Welcome => Onboarding
    case Onboarding => Authenticated
    case Authenticated => Loading
  }

  /** Every change of screen is to the next one in the flow. */
  lemma {:induction false} StepFollowsFlow(s: Screen, e: DemoEvent)
    ensures Step(s, e) == s || Step(s, e) == Next(s)
  {
    if Step(s, e) != s {
      assert s == SourceOf(e);
      match e
      case LoadingComplete =>
      case GetStarted =>
      case OnboardingComplete =>
      case Restart =>
    }
  }

  /** The welcome screen cannot be skipped: from loading, onboarding is reached only through welcome. */
  lemma {:induction false} NoSkipping(es: seq<DemoEvent>)
    requires forall i :: 0 <= i < |es| ==> es[i] != GetStarted
    ensures Run(Loading, es) == Loading || Run(Loading, es) == Welcome
    decreases |es|
  {
    if es != [] {
      if Step(Loading, es[0]) == Loading {
        NoSkipping(es[1..]);
      } else {
        WelcomeStays(es[1..]);
      }
    }
  }

  /** Without "get started", the welcome screen stays. */
  lemma {:induction false} WelcomeStays(es: seq<DemoEvent>)
    requires forall i :: 0 <= i < |es| ==> es[i] != GetStarted
    ensures Run(Welcome, es) == Welcome
    decreases |es|
  {
    if es != [] {
      WelcomeStays(es[1..]);
    }
  }

  /** The full flow returns to the start after a restart. */
  lemma FullCycle()
    ensures Run(Loading, [LoadingComplete, GetStarted, OnboardingComplete, Restart]) == Loading
  {
    assert [LoadingComplete, GetStarted, OnboardingComplete, Restart][1..] == [GetStarted, OnboardingComplete, Restart];
    assert [GetStarted, OnboardingComplete, Restart][1..] == [OnboardingComplete, Restart];
    assert [OnboardingComplete, Restart][1..] == [Restart];
  }

  class Demo {
    var currentScreen: Screen

    constructor ()
      ensures currentScreen == Loading
    {
      currentScreen := Loading;
    }

    /** The callback of the component on display. */
    method Handle(e: DemoEvent)
      modifies this
      ensures currentScreen == Step(old(currentScreen), e)
    {
      if currentScreen == SourceOf(e) {
        currentScreen := TargetOf(e);
      }
    }
  }
}
