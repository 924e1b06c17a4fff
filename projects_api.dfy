/** The project API client (api/projects.api.ts): the endpoint paths it calls under the API
    base, and the conversion of the project list into domain projects. */
module ProjectsApi {
  import opened Common
  import opened ProjectsDto
  import Csv
  import Strings
  import Numbers
  import Seqs

  /** `POST /projects/` (createProjectApi) and `GET /projects/` (listProjects). */
  const ProjectsPath := "/projects/"

  /** `POST /materials/` (createMaterialApi). */
  const MaterialsPath := "/materials/"

  const ByCodeSuffix := "/create_items_from_external_matches_by_code/"
  const ByKeywordSuffix := "/create_items_from_external_matches_by_keyword/"

  /** `/projects/{id}/create_items_from_external_matches_by_code/`. */
  function ItemsByCodePath(projectId: int): string
  {
    "/projects/" + Numbers.IntString(projectId) + ByCodeSuffix
  }

  /** `/projects/{id}/create_items_from_external_matches_by_keyword/`. */
  function ItemsByKeywordPath(projectId: int): string
  {
    "/projects/" + Numbers.IntString(projectId) + ByKeywordSuffix
  }

  /** `getProject`: `/projects/{id}`, without a trailing slash. */
  function ProjectDetailPath(projectId: int): string
  {
    "/projects/" + Numbers.IntString(projectId)
  }

  /** `createProject` posts to `/projects`, without the trailing slash of createProjectApi. */
  const CreateProjectPath := "/projects"

  /** The decimal id in the middle of `/projects/{id}<suffix>` can be read back. */
  lemma ProjectIdInPath(a: int, b: int, suffix: string)
    requires "/projects/" + Numbers.IntString(a) + suffix == "/projects/" + Numbers.IntString(b) + suffix
    ensures a == b
  {
    var s := "/projects/" + Numbers.IntString(a) + suffix;
    assert s[10..|s| - |suffix|] == Numbers.IntString(a);
    assert s[10..|s| - |suffix|] == Numbers.IntString(b);
    Numbers.ParseIntOfIntString(a);
    Numbers.ParseIntOfIntString(b);
  }

  /** `getProject` names its project exactly, and `createProject` posts to the list path
      without its trailing slash, so the two creation calls use different paths. */
  lemma DetailAndCreatePaths(a: int, b: int)
    ensures ProjectDetailPath(a) == ProjectDetailPath(b) ==> a == b
    ensures CreateProjectPath != ProjectsPath && CreateProjectPath + "/" == ProjectsPath
  {
    if ProjectDetailPath(a) == ProjectDetailPath(b) {
      assert ProjectDetailPath(a) == "/projects/" + Numbers.IntString(a) + "";
      assert ProjectDetailPath(b) == "/projects/" + Numbers.IntString(b) + "";
      ProjectIdInPath(a, b, "");
    }
  }

  /** The two ingestion triggers never share a path, and each names its project exactly. */
  lemma TriggerPathsDistinct(a: int, b: int)
    ensures ItemsByCodePath(a) != ItemsByKeywordPath(b)
    ensures ItemsByCodePath(a) == ItemsByCodePath(b) ==> a == b
    ensures ItemsByKeywordPath(a) == ItemsByKeywordPath(b) ==> a == b
  {
    // "..._code/" and "...yword/" differ six characters from the end.
    var c := ItemsByCodePath(a);
    var k := ItemsByKeywordPath(b);
    assert c[|c| - 6] == ByCodeSuffix[|ByCodeSuffix| - 6] == '_';
    assert k[|k| - 6] == ByKeywordSuffix[|ByKeywordSuffix| - 6] == 'y';
    if ItemsByCodePath(a) == ItemsByCodePath(b) {
      ProjectIdInPath(a, b, ByCodeSuffix);
    }
    if ItemsByKeywordPath(a) == ItemsByKeywordPath(b) {
      ProjectIdInPath(a, b, ByKeywordSuffix);
    }
  }

  /** One entry of `results` as the server sends it; `project_keyword` may be null. */
  datatype RawProject = RawProject(
    id: int,
    author_email: string,
    project_name: string,
    project_code: string,
    project_keyword: Option<string>,
    created_at: string,
    updated_at: string)

  /** The list envelope; `results` may be missing. */
  datatype ProjectListResponse = ProjectListResponse(count: int, results: Option<seq<RawProject>>)

  /** `p.project_keyword?.split(',').map(s => s.trim()).filter(Boolean) || []`. */
  function KeywordTokens(keyword: Option<string>): (r: seq<string>)
    ensures keyword.None? ==> r == []
    ensures forall i :: 0 <= i < |r| ==> Csv.CleanToken(r[i])
  {
    match keyword
    case None => []
    case Some(k) => Csv.ParseCsv(k)
  }

  /** A stored comma-joined keyword list reads back as the same list of tokens. */
  lemma KeywordTokensRoundTrip(ts: seq<string>)
    requires forall i :: 0 <= i < |ts| ==> Csv.CleanToken(ts[i])
    ensures KeywordTokens(Some(Strings.Join(ts, ','))) == ts
  {
    Csv.ParseCsvOfJoin(ts);
  }

  function ToProjectDto(p: RawProject): ProjectDto
  {
    ProjectDto(p.id, p.author_email, p.project_name, p.project_code, KeywordTokens(p.project_keyword),
               p.created_at, p.updated_at)
  }

  function Results(data: ProjectListResponse): seq<RawProject>
  {
    match data.results
    case Some(rs) => rs
    case None => []
  }

  /** `listProjects`: one project per entry of `results`, in order (none when `results` is
      missing), with the snake_case fields copied and the keywords split into clean tokens. */
  function ListProjects(data: ProjectListResponse): (r: seq<ProjectDto>)
    ensures data.results.None? ==> r == []
    ensures |r| == |Results(data)|
    ensures forall i :: 0 <= i < |r| ==>
              var p := Results(data)[i];
              && r[i].id == p.id && r[i].authorEmail == p.author_email && r[i].projectName == p.project_name
              && r[i].projectCode == p.project_code && r[i].createdAt == p.created_at && r[i].updatedAt == p.updated_at
              && r[i].projectKeyword == KeywordTokens(p.project_keyword)
  {
    Seqs.Map(ToProjectDto, Results(data))
  }

  /** Every listed keyword is a clean token: non-empty, trimmed, without commas. */
  lemma ListedKeywordsClean(data: ProjectListResponse, i: int, j: int)
    requires 0 <= i < |ListProjects(data)| && 0 <= j < |ListProjects(data)[i].projectKeyword|
    ensures Csv.CleanToken(ListProjects(data)[i].projectKeyword[j])
  {
    assert ListProjects(data)[i].projectKeyword == KeywordTokens(Results(data)[i].project_keyword);
  }
}
