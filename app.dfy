/** App.tsx: the current page, the header title and whether the sidebar, header
    and bottom bar are shown, which view a page name renders, and the handlers
    that move between pages. A page name is a plain string: the sidebar also
    navigates to names the `Page` type does not list. */
module App {
  import opened Wrappers
  import Strings
  import QuizData
  import WellnessTypes

  /** The pages shown without the layout, all titled "BalanceAI". */
  const PreLayoutPages: seq<string> := ["welcome", "quiz", "results", "login", "signup"]

  /** `pageTitle`: three fixed titles, the app name for the pre-layout pages,
      and otherwise the name with its first character upper-cased. */
  function PageTitle(page: string): (title: string)
    ensures page == "plan" ==> title == "Wellness Plan"
    ensures page == "assistant" ==> title == "AI Assistant"
    ensures page == "scanner" ==> title == "AI Scanners"
    ensures page in PreLayoutPages ==> title == "BalanceAI"
    ensures page !in PreLayoutPages + ["plan", "assistant", "scanner"] ==>
              |title| == |page| && (page != "" ==> title[0] == Strings.UpperChar(page[0]) && title[1..] == page[1..])
  {
    match page
    case "plan" => "Wellness Plan"
    case "assistant" => "AI Assistant"
    case "scanner" => "AI Scanners"
    case "welcome" => "BalanceAI"
    case "quiz" => "BalanceAI"
    case "results" => "BalanceAI"
    case "login" => "BalanceAI"
    case "signup" => "BalanceAI"
    case _ => if page == "" then "" else [Strings.UpperChar(page[0])] + page[1..]
  }

  /** `showLayout` */
  function ShowLayout(page: string): (r: bool)
  {
    page !in PreLayoutPages
  }

  /** The layout is hidden exactly on the pages titled "BalanceAI", apart from
      the two names that spell that title themselves. */
  lemma LayoutHiddenIffAppTitle(page: string)
    ensures !ShowLayout(page) ==> PageTitle(page) == "BalanceAI"
    ensures PageTitle(page) == "BalanceAI" ==> !ShowLayout(page) || page == "balanceAI" || page == "BalanceAI"
  {
    if PageTitle(page) == "BalanceAI" && ShowLayout(page) && page !in ["plan", "assistant", "scanner"] {
      var t := PageTitle(page);
      assert page[1..] == t[1..] == "alanceAI";
      assert Strings.UpperChar(page[0]) == 'B';
      assert page[0] == 'b' || page[0] == 'B';
      assert page == [page[0]] + page[1..];
    }
  }

  /** A page without a fixed title is shown by its capitalised name. */
  lemma SidebarTitles()
    ensures PageTitle("notifications") == "Notifications"
  {
    var t := PageTitle("notifications");
    assert "notifications" !in PreLayoutPages + ["plan", "assistant", "scanner"];
    assert t == [t[0]] + t[1..];
  }

  /** The views `renderPage` can return. */
  datatype View =
    | WelcomeView | QuizView | ResultView | DashboardView | PlanView | AssistantView | ScannerView
    | CommunityView | ActivitiesView | ProgressView | SettingsView | NotificationsView | LoginView | SignUpView

  /** The page name each view has a case for. */
  function PageOf(v: View): string
  {
    match v
    case WelcomeView => "welcome"
    case QuizView => "quiz"
    case ResultView => "results"
    case DashboardView => "dashboard"
    case PlanView => "plan"
    case AssistantView => "assistant"
    case ScannerView => "scanner"
    case CommunityView => "community"
    case ActivitiesView => "activities"
    case ProgressView => "progress"
    case SettingsView => "settings"
    case NotificationsView => "notifications"
    case LoginView => "login"
    case SignUpView => "signup"
  }

  /** `renderPage`: the view of the page's case; every other name falls back to
      the dashboard. */
  function RenderPage(page: string): (v: View)
    ensures v != DashboardView ==> PageOf(v) == page
  {
    match page
    case "welcome" => WelcomeView
    case "quiz" => QuizView
    case "results" => ResultView
    case "dashboard" => DashboardView
    case "plan" => PlanView
    case "assistant" => AssistantView
    case "scanner" => ScannerView
    case "community" => CommunityView
    case "activities" => ActivitiesView
    case "progress" => ProgressView
    case "settings" => SettingsView
    case "notifications" => NotificationsView
    case "login" => LoginView
    case "signup" => SignUpView
    case _ => DashboardView
  }

  /** Every view is reached by its own page name, and a name that is no view's
      renders the dashboard. */
  lemma RenderPageOf(v: View, page: string)
    ensures RenderPage(PageOf(v)) == v
    ensures (forall w: View :: PageOf(w) != page) ==> RenderPage(page) == DashboardView
  {
    if RenderPage(page) != DashboardView {
      assert PageOf(RenderPage(page)) == page;
    }
  }

  /** Three of the sidebar's entries have no case of their own and show the
      dashboard. */
  lemma SidebarFallbacks()
    ensures RenderPage("activity-tracker") == DashboardView
    ensures RenderPage("voice-assistant") == DashboardView
    ensures RenderPage("video-creator") == DashboardView
  {
  }

  /** The state `App` keeps. */
  class AppState {
    var currentPage: string
    var quizAnswers: Option<QuizData.Answers>
    var wellnessPlan: Option<WellnessTypes.WellnessPlan>

    constructor ()
      ensures currentPage == "welcome" && quizAnswers == None && wellnessPlan == None
    {
      currentPage := "welcome";
      quizAnswers := None;
      wellnessPlan := None;
    }

    /** `handleNavigate` changes the page and nothing else. */
    method Navigate(page: string)
      modifies this
      ensures currentPage == page
      ensures quizAnswers == old(quizAnswers) && wellnessPlan == old(wellnessPlan)
    {
      currentPage := page;
    }

    /** `handleQuizStart` */
    method QuizStart()
      modifies this
      ensures currentPage == "quiz"
      ensures quizAnswers == old(quizAnswers) && wellnessPlan == old(wellnessPlan)
    {
      currentPage := "quiz";
    }

    /** `handleQuizComplete` keeps the answers for the result page. */
    method QuizComplete(answers: QuizData.Answers)
      modifies this
      ensures currentPage == "results" && quizAnswers == Some(answers)
      ensures wellnessPlan == old(wellnessPlan)
    {
      quizAnswers := Some(answers);
      currentPage := "results";
    }

    /** `handlePlanGenerated` keeps the plan and opens the dashboard. */
    method PlanGenerated(plan: WellnessTypes.WellnessPlan)
      modifies this
      ensures currentPage == "dashboard" && wellnessPlan == Some(plan)
      ensures quizAnswers == old(quizAnswers)
    {
      wellnessPlan := Some(plan);
      currentPage := "dashboard";
    }
  }
}
