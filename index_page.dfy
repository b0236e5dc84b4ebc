/** The home page: which top-level screen is shown, and the first-visit intro flag. */
module IndexPage {
  import opened Optional

  /** The top-level screens. */
  datatype Screen = FunctionScreen | Intro | MobileLayout | TabletLayout | DesktopLayout

  /** The screen for the navigation's in-function flag, the intro flag and the
      device flags; the desktop flag is not consulted, desktop is the fallback. */
  function ChooseScreen(isInFunction: bool, showIntro: bool, isMobile: bool, isTablet: bool): (s: Screen)
    ensures s == FunctionScreen <==> isInFunction
    ensures s == Intro <==> !isInFunction && showIntro
    ensures s == DesktopLayout ==> !isMobile && !isTablet
  {
    if isInFunction then FunctionScreen
    else if showIntro then Intro
    else if isMobile then MobileLayout
    else if isTablet then TabletLayout
    else DesktopLayout
  }

  /** Each screen is shown exactly under its condition: an open function beats
      everything, the intro beats every layout, and among layouts mobile beats
      tablet, which beats the desktop default. */
  lemma ScreenConditions(isInFunction: bool, showIntro: bool, isMobile: bool, isTablet: bool)
    ensures ChooseScreen(isInFunction, showIntro, isMobile, isTablet) == FunctionScreen <==> isInFunction
    ensures ChooseScreen(isInFunction, showIntro, isMobile, isTablet) == Intro <==> !isInFunction && showIntro
    ensures ChooseScreen(isInFunction, showIntro, isMobile, isTablet) == MobileLayout <==>
      !isInFunction && !showIntro && isMobile
    ensures ChooseScreen(isInFunction, showIntro, isMobile, isTablet) == TabletLayout <==>
      !isInFunction && !showIntro && !isMobile && isTablet
    ensures ChooseScreen(isInFunction, showIntro, isMobile, isTablet) == DesktopLayout <==>
      !isInFunction && !showIntro && !isMobile && !isTablet
  {
  }

  /** `!localStorage.getItem('intro_seen_v1')`: the flag is missing or empty. */
  predicate IntroNotSeen(introSeen: Option<string>) {
    introSeen.None? || introSeen.value == ""
  }

  /** The page's own state. */
  class IndexPageState {
    var showIntro: bool

    constructor ()
      ensures !showIntro
    {
      showIntro := false;
    }

    /** The mount effect: turn the intro on when the stored flag is absent. */
    method Mount(introSeen: Option<string>)
      modifies this
      ensures showIntro == (old(showIntro) || IntroNotSeen(introSeen))
    {
      if IntroNotSeen(introSeen) {
        showIntro := true;
      }
    }

    /** `handleIntroComplete`. */
    method HandleIntroComplete()
      modifies this
      ensures !showIntro
    {
      showIntro := false;
    }

    function Screen(isInFunction: bool, isMobile: bool, isTablet: bool): Screen
      reads this
    {
      ChooseScreen(isInFunction, showIntro, isMobile, isTablet)
    }
  }

  /** A first visit shows the intro after mounting, unless a function is open;
      a returning visitor goes straight to a layout; completing the intro
      always leads to a layout or the function. */
  method FirstVisit(introSeen: Option<string>, isInFunction: bool, isMobile: bool, isTablet: bool)
    returns (before: Screen, after: Screen)
    ensures before == Intro <==> IntroNotSeen(introSeen) && !isInFunction
    ensures after != Intro
  {
    var page := new IndexPageState();
    page.Mount(introSeen);
    before := page.Screen(isInFunction, isMobile, isTablet);
    page.HandleIntroComplete();
    after := page.Screen(isInFunction, isMobile, isTablet);
  }
}
