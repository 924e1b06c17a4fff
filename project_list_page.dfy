/** The state of pages/project-list-page/index.tsx: the project list and the load error, the
    mount effect that loads the list (with a fallback list on failure), the `alive` flag its
    cleanup clears, and the prepend of a project the creation modal reports. */
module ProjectListPage {
  import opened Common
  import opened ProjectsDto
  import ProjectsApi
  import Strings
  import Seqs

  const LoadFailedMessage := "프로젝트 목록을 불러올 수 없습니다. 더미 데이터로 표시합니다."

  const FallbackKeywordText := "InfoBridge,인포브릿지,브릿지,bridge,브리찌"

  /** `FALLBACK_PROJECTS`: one sample project whose keywords are the comma-split, trimmed text
      (split and trim only, without the empty-token filter of the list conversion). */
  function FallbackProjects(): (r: seq<ProjectDto>)
    ensures |r| == 1 && r[0].id == 1 && r[0].projectCode == "SMG-001"
  {
    [ProjectDto(1, "user@example.com", "인포브릿지 서버 개발", "SMG-001",
                Seqs.Map(Strings.Trim, Strings.Split(FallbackKeywordText, ',')),
                "2025-08-09T02:35:48.042252Z", "2025-08-09T06:45:47.825268Z")]
  }

  class ProjectListPageState {
    var projects: seq<ProjectDto>
    var error: Option<string>

    /** The two `useState` initialisers. */
    constructor ()
      ensures projects == [] && error == None
    {
      projects := [];
      error := None;
    }

    /** `onCreated`: the new project goes first, the others follow in their order. */
    method OnCreated(project: ProjectDto)
      modifies this
      ensures projects == [project] + old(projects)
      ensures |projects| == |old(projects)| + 1 && projects[0] == project && projects[1..] == old(projects)
      ensures error == old(error)
    {
      projects := [project] + projects;
    }
  }

  /** One run of the mount effect: its own `alive` flag, true until the cleanup runs. */
  class LoadEffect {
    var alive: bool
    const page: ProjectListPageState

    constructor (page: ProjectListPageState)
      ensures this.page == page && alive
    {
      this.page := page;
      alive := true;
    }

    /** The cleanup the effect returns. */
    method Cleanup()
      modifies this
      ensures !alive
    {
      alive := false;
    }

    /** The awaited `listProjects()` settles. While alive, a success replaces the list with
        the converted projects and a failure records the rejection's message (or the default
        message) and shows the fallback list; after cleanup nothing is written. */
    method Settle(outcome: Settled<ProjectsApi.ProjectListResponse>)
      modifies page
      ensures !alive ==> page.projects == old(page.projects) && page.error == old(page.error)
      ensures alive && outcome.Fulfilled? ==>
                page.projects == ProjectsApi.ListProjects(outcome.value) && page.error == old(page.error)
      ensures alive && outcome.Rejected? ==>
                page.error == Some(MessageOr(outcome.message, LoadFailedMessage))
                && page.projects == FallbackProjects()
    {
      match outcome {
        case Fulfilled(data) =>
          if alive {
            page.projects := ProjectsApi.ListProjects(data);
          }
        case Rejected(message) =>
          if alive {
            page.error := Some(MessageOr(message, LoadFailedMessage));
            page.projects := FallbackProjects();
          }
      }
    }
  }

  /** Mounting and loading in one: the page ends with the loaded list or with the fallback
      list and an error that is never empty. */
  method MountAndLoad(outcome: Settled<ProjectsApi.ProjectListResponse>) returns (page: ProjectListPageState)
    ensures fresh(page)
    ensures outcome.Fulfilled? ==> page.projects == ProjectsApi.ListProjects(outcome.value) && page.error == None
    ensures outcome.Rejected? ==>
              page.projects == FallbackProjects() && page.error.Some? && page.error.value != ""
  {
    page := new ProjectListPageState();
    var effect := new LoadEffect(page);
    effect.Settle(outcome);
  }

  /** Unmounting before the load settles leaves the page as it was created. */
  method UnmountBeforeLoad(outcome: Settled<ProjectsApi.ProjectListResponse>) returns (page: ProjectListPageState)
    ensures fresh(page)
    ensures page.projects == [] && page.error == None
  {
    page := new ProjectListPageState();
    var effect := new LoadEffect(page);
    effect.Cleanup();
    effect.Settle(outcome);
  }
}
