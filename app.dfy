/** src/App.tsx: what the application renders for the authentication state and the current
    screen name, and the theme's effect on the document. */
module App {
  import Browser

  datatype Screen = IntroLoading | Outage | OutOfMinutes | Intro | Conversation | FinalScreen

  /** The page: the login screen alone, or the shell with optional header and footer. */
  datatype Page =
    | LoginPage
    | Shell(header: bool, main: Screen, footer: bool)

  const KnownScreens: map<string, Screen> := map[
    "introLoading" := IntroLoading, "outage" := Outage, "outOfMinutes" := OutOfMinutes,
    "intro" := Intro, "conversation" := Conversation, "finalScreen" := FinalScreen]

  /** `renderScreen`: each of the six names selects its screen, any other name IntroLoading. */
  function RenderScreen(currentScreen: string): (s: Screen)
    ensures currentScreen in KnownScreens ==> s == KnownScreens[currentScreen]
    ensures currentScreen !in KnownScreens ==> s == IntroLoading
  {
    match currentScreen
    case "introLoading" => IntroLoading
    case "outage" => Outage
    case "outOfMinutes" => OutOfMinutes
    case "intro" => Intro
    case "conversation" => Conversation
    case "finalScreen" => FinalScreen
    case _ => IntroLoading
  }

  /** `App`: unauthenticated, the login screen whatever the current screen; authenticated,
      the selected screen, with header and footer iff the name is not "introLoading". */
  function RenderApp(isAuthenticated: bool, currentScreen: string): (p: Page)
    ensures !isAuthenticated <==> p == LoginPage
    ensures isAuthenticated ==>
      p.main == RenderScreen(currentScreen) &&
      (p.header <==> currentScreen != "introLoading") &&
      p.footer == p.header
  {
    if !isAuthenticated then LoginPage
    else
      var chrome := currentScreen != "introLoading";
      Shell(chrome, RenderScreen(currentScreen), chrome)
  }

  /** An unknown screen name renders IntroLoading yet keeps header and footer, unlike the
      "introLoading" name itself. */
  lemma UnknownScreenKeepsChrome(name: string)
    requires name !in KnownScreens
    ensures RenderApp(true, name) == Shell(true, IntroLoading, true)
    ensures RenderApp(true, "introLoading") == Shell(false, IntroLoading, false)
  {
  }

  /** The theme effect: the document has the "dark" class iff the theme is "dark". */
  method ApplyTheme(document: Browser.DocumentElement, theme: string)
    modifies document
    ensures "dark" in document.classes <==> theme == "dark"
    ensures document.classes - {"dark"} == old(document.classes) - {"dark"}
  {
    document.ToggleClass("dark", theme == "dark");
  }
}
