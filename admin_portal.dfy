/**
 * The administration page: one fetch of both collections when it mounts, with
 * a fallback to the bundled data, sidebar navigation, and what the main area
 * shows for a given state.
 */
module Admin {
  import opened Wrappers
  import opened JsStrings
  import opened TokenStore
  import opened Api

  const DASHBOARD: string := "dashboard"
  const EXPERIENCES: string := "experiences"
  const PROJECTS: string := "projects"
  const SKILLS: string := "skills"
  const LOAD_FAILED: string := "Failed to load data from server. Using local data instead."

  /** The data bundled with the client, used when the server cannot be reached. */
  datatype LocalData = LocalData(
    experiences: seq<ExperienceData>,
    projects: seq<ProjectData>,
    skills: seq<seq<string>>)

  /** The page's five state fields. */
  datatype Portal = Portal(
    activeSection: string,
    loading: bool,
    serverExperiences: seq<ExperienceData>,
    serverProjects: seq<ProjectData>,
    error: Option<string>)

  /** What the section area shows once data is there. */
  datatype Content =
    | ExperiencesPanel(experiences: seq<ExperienceData>)
    | ProjectsPanel(projects: seq<ProjectData>)
    | SkillsPanel(skills: seq<seq<string>>)
    | DashboardPanel(experienceCount: nat, projectCount: nat, skillCount: nat)
    | Nothing

  /** What `renderContent` returns. */
  datatype View = LoadingView | ErrorBanner(message: string) | SectionView(content: Content)

  /** All skill lists, one after the other. */
  function Flatten(lists: seq<seq<string>>): seq<string> {
    if lists == [] then [] else lists[0] + Flatten(lists[1..])
  }

  /** `Object.values(skills).reduce((total, list) => total + list.length, 0)`. */
  function SkillsCount(lists: seq<seq<string>>): (n: nat)
    ensures lists == [] ==> n == 0
    ensures |lists| == 1 ==> n == |lists[0]|
  {
    if lists == [] then 0 else SkillsCount(lists[..|lists| - 1]) + |lists[|lists| - 1]|
  }

  /** The count adds up over any split of the categories. */
  lemma {:induction false} SkillsCountConcat(a: seq<seq<string>>, b: seq<seq<string>>)
    ensures SkillsCount(a + b) == SkillsCount(a) + SkillsCount(b)
    decreases |b|
  {
    if b == [] {
      assert a + b == a;
    } else {
      var init := b[..|b| - 1];
      assert (a + b)[..|a + b| - 1] == a + init;
      assert (a + b)[|a + b| - 1] == b[|b| - 1];
      SkillsCountConcat(a, init);
    }
  }

  /** The dashboard's skill count is the number of skills listed over all categories. */
  lemma {:induction false} SkillsCountIsFlatLength(lists: seq<seq<string>>)
    ensures SkillsCount(lists) == |Flatten(lists)|
    decreases |lists|
  {
    if lists != [] {
      assert lists == [lists[0]] + lists[1..];
      SkillsCountConcat([lists[0]], lists[1..]);
      SkillsCountIsFlatLength(lists[1..]);
    }
  }

  /** `serverX.length > 0 ? serverX : x`: the server's list unless it is empty. */
  function Displayed<T>(server: seq<T>, local: seq<T>): (shown: seq<T>)
    ensures |server| > 0 ==> shown == server
    ensures |server| == 0 ==> shown == local
  {
    if |server| > 0 then server else local
  }

  /** `renderContent`: the loading view first, then the error, then the active section. */
  function RenderContent(p: Portal, local: LocalData): (v: View)
    ensures p.loading ==> v == LoadingView
    ensures !p.loading && Truthy(p.error) ==> v == ErrorBanner(p.error.value)
    ensures v.SectionView? <==> !p.loading && !Truthy(p.error)
    ensures v.SectionView? && p.activeSection == DASHBOARD ==>
      v.content == DashboardPanel(
        |Displayed(p.serverExperiences, local.experiences)|,
        |Displayed(p.serverProjects, local.projects)|,
        |Flatten(local.skills)|)
    ensures v.SectionView? && p.activeSection == EXPERIENCES ==>
      v.content == ExperiencesPanel(Displayed(p.serverExperiences, local.experiences))
    ensures v.SectionView? && p.activeSection == PROJECTS ==>
      v.content == ProjectsPanel(Displayed(p.serverProjects, local.projects))
    ensures v.SectionView? && p.activeSection == SKILLS ==> v.content == SkillsPanel(local.skills)
    ensures v.SectionView? && p.activeSection !in {DASHBOARD, EXPERIENCES, PROJECTS, SKILLS} ==> v.content == Nothing
  {
    if p.loading then LoadingView
    else if Truthy(p.error) then ErrorBanner(p.error.value)
    else
      var experienceItems := Displayed(p.serverExperiences, local.experiences);
      var projectItems := Displayed(p.serverProjects, local.projects);
      SkillsCountIsFlatLength(local.skills);
      var skillsCount := SkillsCount(local.skills);
      SectionView(
        if p.activeSection == EXPERIENCES then ExperiencesPanel(experienceItems)
        else if p.activeSection == PROJECTS then ProjectsPanel(projectItems)
        else if p.activeSection == SKILLS then SkillsPanel(local.skills)
        else if p.activeSection == DASHBOARD then DashboardPanel(|experienceItems|, |projectItems|, skillsCount)
        else Nothing)
  }

  /** The state right after mounting: dashboard, not loading, no server data, no error. */
  const INITIAL: Portal := Portal(DASHBOARD, false, [], [], None)

  /** `fetchData` once both requests have settled (`Promise.all` rejects if either does). */
  function Fetched(p: Portal, local: LocalData, experiences: Settled<seq<ExperienceData>>, projects: Settled<seq<ProjectData>>): Portal {
    if experiences.Fulfilled? && projects.Fulfilled? then
      p.(loading := false, serverExperiences := experiences.value, serverProjects := projects.value, error := None)
    else
      p.(loading := false, serverExperiences := local.experiences, serverProjects := local.projects, error := Some(LOAD_FAILED))
  }

  /** A fetch that fails shows only the error banner, so the bundled data loaded as a fallback is never displayed. */
  lemma FailedFetchShowsBanner(p: Portal, local: LocalData, experiences: Settled<seq<ExperienceData>>, projects: Settled<seq<ProjectData>>)
    requires experiences.Rejected? || projects.Rejected?
    ensures RenderContent(Fetched(p, local, experiences, projects), local) == ErrorBanner(LOAD_FAILED)
  {
  }

  /** After a successful fetch the page shows the section, with the server's lists unless they are empty. */
  lemma SuccessfulFetchShowsSection(p: Portal, local: LocalData, experiences: seq<ExperienceData>, projects: seq<ProjectData>)
    requires p.activeSection == DASHBOARD
    ensures var v := RenderContent(Fetched(p, local, Fulfilled(experiences), Fulfilled(projects)), local);
      v.SectionView? &&
      v.content.experienceCount == (if |experiences| > 0 then |experiences| else |local.experiences|) &&
      v.content.projectCount == (if |projects| > 0 then |projects| else |local.projects|)
  {
  }

  /** `AdminPortal`'s state, with the token store its requests pass through and the bundled data. */
  class AdminPortal {
    const store: Storage
    const local: LocalData
    var activeSection: string
    var loading: bool
    var serverExperiences: seq<ExperienceData>
    var serverProjects: seq<ProjectData>
    var error: Option<string>

    function State(): Portal
      reads this
    {
      Portal(activeSection, loading, serverExperiences, serverProjects, error)
    }

    constructor (store: Storage, local: LocalData)
      ensures this.store == store && this.local == local
      ensures State() == INITIAL
    {
      this.store := store;
      this.local := local;
      activeSection := DASHBOARD;
      loading := false;
      serverExperiences, serverProjects := [], [];
      error := None;
    }

    /** `fetchData` up to the `await`: loading starts and both collections are requested. */
    method BeginFetch() returns (calls: seq<Call>)
      modifies this
      ensures State() == old(State()).(loading := true)
      ensures calls == [GetAllCall(Experiences), GetAllCall(Projects)]
    {
      loading := true;
      calls := [GetAllCall(Experiences), GetAllCall(Projects)];
    }

    /**
     * `fetchData` after the `await`: each reply passes the response interceptor,
     * then both lists are taken from the server, or both from the bundled data.
     */
    method SettleFetch(experiences: Settled<seq<ExperienceData>>, projects: Settled<seq<ProjectData>>)
      modifies this, store
      ensures State() == Fetched(old(State()), local, experiences, projects)
      ensures store.items == StorageAfter(StorageAfter(old(store.items), experiences), projects)
    {
      var experiencesRes := InterceptResponse(store, experiences);
      var projectsRes := InterceptResponse(store, projects);
      if experiencesRes.Fulfilled? && projectsRes.Fulfilled? {
        serverExperiences := experiencesRes.value;
        serverProjects := projectsRes.value;
        error := None;
      } else {
        error := Some(LOAD_FAILED);
        serverExperiences := local.experiences;
        serverProjects := local.projects;
      }
      loading := false;
    }

    /** `handleNavigation`: only the active section changes; nothing is fetched. */
    method HandleNavigation(section: string)
      modifies this
      ensures State() == old(State()).(activeSection := section)
    {
      activeSection := section;
    }

    /** What the main area shows now. */
    function Render(): View
      reads this
    {
      RenderContent(State(), local)
    }
  }
}
