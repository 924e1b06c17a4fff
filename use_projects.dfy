/** The data hooks and mutation hooks of hooks/projects/use-projects.ts.

    Every read hook owns a `(data, loading, error)` triple, modelled once by `FetchState`;
    what differs between hooks is how a settled request turns into new data or an error
    message, modelled by one pure function per hook. The mutation hooks own a
    `(loading, error)` pair, modelled by `MutationState`; they record an error and re-throw
    it, which is modelled by returning `Failure` with the same message. */
module UseProjects {
  import opened Common
  import opened Http
  import opened ProjectsDto
  import Numbers
  import Seqs

  // ---------------------------------------------------------------------------------------
  // The fetch/loading/error state machine shared by all read hooks

  class FetchState<T> {
    var data: T
    var loading: bool
    var error: Option<string>

    /** `useState(initial)`, `useState(false)`, `useState(null)`. */
    constructor (initial: T)
      ensures data == initial && !loading && error == None
    {
      data := initial;
      loading := false;
      error := None;
    }

    /** The start of every fetch: `setLoading(true); setError(null)` before the request. */
    method Begin()
      modifies this
      ensures data == old(data) && loading && error == None
    {
      loading := true;
      error := None;
    }

    /** Settlement: success replaces the data; failure records the message and keeps the
        data; `finally` clears `loading` on both paths. */
    method Settle(r: Result<T, string>)
      modifies this
      ensures !loading
      ensures r.Success? ==> data == r.value && error == old(error)
      ensures r.Failure? ==> data == old(data) && error == Some(r.error)
    {
      if r.Success? {
        data := r.value;
      } else {
        error := Some(r.error);
      }
      loading := false;
    }

    /** One whole fetch whose request settled with `r`. */
    method Fetch(r: Result<T, string>)
      modifies this
      ensures !loading
      ensures r.Success? ==> data == r.value && error == None
      ensures r.Failure? ==> data == old(data) && error == Some(r.error)
    {
      Begin();
      Settle(r);
    }

    /** The mount effect of a project-scoped hook: it fetches only when `projectId` is truthy
        (a number is falsy exactly when it is 0). */
    method FetchOnMount(projectId: int, r: Result<T, string>)
      modifies this
      ensures projectId == 0 ==> data == old(data) && loading == old(loading) && error == old(error)
      ensures projectId != 0 ==> !loading
      ensures projectId != 0 && r.Success? ==> data == r.value && error == None
      ensures projectId != 0 && r.Failure? ==> data == old(data) && error == Some(r.error)
    {
      if projectId != 0 {
        Fetch(r);
      }
    }
  }

  function ProjectPath(projectId: int, suffix: string): string
  {
    "/api/projects/" + Numbers.IntString(projectId) + suffix
  }

  // ---------------------------------------------------------------------------------------
  // useProjectItems: the item mapping

  /** The snake_case to camelCase copy of one item; `title ?? body`. */
  function MapProjectItem(w: ProjectItemWire): (d: LinkItemDto)
    ensures d.title == (if w.title.Some? then w.title.value else w.body)
    ensures d.id == w.id && d.materialType == w.material_type && d.link == w.link
    ensures d.body == w.body && d.isFixed == w.is_fixed && d.isActive == w.is_active
    ensures d.createdAt == w.created_at && d.originUpdatedAt == w.origin_updated_at
    ensures d.originCreatedAt == w.origin_created_at
    ensures d.channelName == w.channel_name && d.projectName == w.project_name
  {
    LinkItemDto(
      id := w.id,
      channelName := w.channel_name,
      isActive := w.is_active,
      isFixed := w.is_fixed,
      projectName := w.project_name,
      createdAt := w.created_at,
      materialType := w.material_type,
      link := w.link,
      title := match w.title case Some(t) => t case None => w.body,
      body := w.body,
      originCreatedAt := w.origin_created_at,
      originUpdatedAt := w.origin_updated_at)
  }

  /** What `fetchProjectItems` stores: the mapped list, or the failure message. */
  function ProjectItemsResult(o: HttpOutcome<seq<ProjectItemWire>>): (r: Result<seq<LinkItemDto>, string>)
    ensures o.Ok? <==> r.Success?
    ensures o.Ok? ==> |r.value| == |o.payload|
    ensures o.Ok? ==> forall i :: 0 <= i < |o.payload| ==> r.value[i] == MapProjectItem(o.payload[i])
    ensures !o.Ok? ==> r.error == FailureMessage(o)
  {
    match o
    case Ok(items) => Success(Seqs.Map(MapProjectItem, items))
    case _ => Failure(FailureMessage(o))
  }

  /** `??` falls back only on a missing title: an empty title is kept, not replaced. */
  lemma EmptyTitleIsKept(w: ProjectItemWire)
    requires w.title == Some("") && w.body != ""
    ensures MapProjectItem(w).title == "" != MapProjectItem(w).body
  {
  }

  // ---------------------------------------------------------------------------------------
  // useProjectSummaries: trigger, then read

  /** The requests `fetchProjectSummaries` issues, in order: the summarize POST, and the
      summaries GET unless the POST itself was rejected. */
  function SummariesRequests<U>(projectId: int, trigger: HttpOutcome<U>): (rs: seq<Request>)
    ensures 1 <= |rs| <= 2
    ensures rs[0] == Request(POST, ProjectPath(projectId, "/summarize-items/"))
    ensures |rs| == 2 <==> !trigger.NetErr?
    ensures |rs| == 2 ==> rs[1] == Request(GET, ProjectPath(projectId, "/summaries/"))
  {
    [Request(POST, ProjectPath(projectId, "/summarize-items/"))]
      + (if trigger.NetErr? then [] else [Request(GET, ProjectPath(projectId, "/summaries/"))])
  }

  /** What `fetchProjectSummaries` stores. The trigger's response is discarded, so a non-ok
      status from it is ignored; only its rejection aborts before the read. */
  function SummariesResult<U>(trigger: HttpOutcome<U>, read: HttpOutcome<seq<SummaryDto>>): (r: Result<seq<SummaryDto>, string>)
    ensures r.Success? <==> !trigger.NetErr? && read.Ok?
    ensures r.Success? ==> r.value == read.payload
    ensures trigger.NetErr? ==> r.error == trigger.message
    ensures !trigger.NetErr? && !read.Ok? ==> r.error == FailureMessage(read)
  {
    if trigger.NetErr? then Failure(trigger.message) else AsResult(read)
  }

  /** Only the read's status can set the error: whatever status the trigger answered with,
      the outcome is that of the read alone. */
  lemma TriggerStatusIgnored<U>(trigger: HttpOutcome<U>, read: HttpOutcome<seq<SummaryDto>>)
    requires !trigger.NetErr?
    ensures SummariesResult(trigger, read) == AsResult(read)
    ensures read.Ok? <==> SummariesResult(trigger, read).Success?
  {
  }

  /** `fetchProjectSummaries`: loading and error are reset, the trigger is awaited and only
      then is the list read. */
  method FetchProjectSummaries<U>(hook: FetchState<seq<SummaryDto>>, projectId: int, trigger: HttpOutcome<U>, read: HttpOutcome<seq<SummaryDto>>)
    returns (requests: seq<Request>)
    modifies hook
    ensures requests == SummariesRequests(projectId, trigger)
    ensures !hook.loading
    ensures SummariesResult(trigger, read).Success? ==> hook.data == SummariesResult(trigger, read).value && hook.error == None
    ensures SummariesResult(trigger, read).Failure? ==> hook.data == old(hook.data) && hook.error == Some(SummariesResult(trigger, read).error)
  {
    hook.Begin();
    requests := [Request(POST, ProjectPath(projectId, "/summarize-items/"))];
    if trigger.NetErr? {
      hook.Settle(Failure(trigger.message));
      return;
    }
    requests := requests + [Request(GET, ProjectPath(projectId, "/summaries/"))];
    hook.Settle(AsResult(read));
  }

  // ---------------------------------------------------------------------------------------
  // useResources, useSummaries, useRecommendationItems: paginated lists

  /** A page of results together with the pagination fields stored beside it. */
  datatype PagedData<T> = PagedData(items: seq<T>, pagination: Pagination)

  function PaginationOf<T>(p: Paginated<T>): Pagination
  {
    Pagination(p.count, p.next, p.previous)
  }

  /** What `fetchSummaries` and `fetchRecommendationItems` store: results and pagination. */
  function PagedResult<T>(o: HttpOutcome<Paginated<T>>): (r: Result<PagedData<T>, string>)
    ensures o.Ok? <==> r.Success?
    ensures o.Ok? ==> r.value.items == o.payload.results && r.value.pagination == PaginationOf(o.payload)
    ensures !o.Ok? ==> r.error == FailureMessage(o)
  {
    match o
    case Ok(p) => Success(PagedData(p.results, PaginationOf(p)))
    case _ => Failure(FailureMessage(o))
  }

  predicate IsActiveFixed(item: ResourceItemDto)
  {
    item.is_active && item.is_fixed
  }

  /** The `TypeError` that reading `data.results[3].is_active` throws when there is no fourth
      result (the wording of the V8 engine). */
  const MissingFourthResultMessage := "Cannot read properties of undefined (reading 'is_active')"

  /** What `fetchResources` stores: the active and fixed results with the pagination. The
      logging statement reads `data.results[3]` first, so with fewer than four results it
      throws and the error path runs. */
  function ResourcesResult(o: HttpOutcome<Paginated<ResourceItemDto>>): (r: Result<PagedData<ResourceItemDto>, string>)
    ensures r.Success? <==> o.Ok? && |o.payload.results| >= 4
    ensures o.Ok? && |o.payload.results| < 4 ==> r == Failure(MissingFourthResultMessage)
    ensures !o.Ok? ==> r.error == FailureMessage(o)
    ensures r.Success? ==> r.value.pagination == PaginationOf(o.payload)
    ensures r.Success? ==> r.value.items == Seqs.Filter(IsActiveFixed, o.payload.results)
    ensures r.Success? ==> forall i :: 0 <= i < |r.value.items| ==> r.value.items[i] in o.payload.results && IsActiveFixed(r.value.items[i])
    ensures r.Success? ==> forall i :: 0 <= i < |o.payload.results| && IsActiveFixed(o.payload.results[i]) ==> o.payload.results[i] in r.value.items
  {
    match o
    case Ok(p) =>
      if |p.results| < 4 then Failure(MissingFourthResultMessage)
      else Success(PagedData(Seqs.Filter(IsActiveFixed, p.results), PaginationOf(p)))
    case _ => Failure(FailureMessage(o))
  }

  /** With fewer than four results neither the resources nor the pagination change, and the
      error is recorded. */
  method FetchResourcesWithFewResults(hook: FetchState<PagedData<ResourceItemDto>>, p: Paginated<ResourceItemDto>)
    requires |p.results| < 4
    modifies hook
    ensures hook.data == old(hook.data) && hook.error == Some(MissingFourthResultMessage) && !hook.loading
  {
    hook.Fetch(ResourcesResult(Ok(p)));
  }

  /** The stored resources keep the order of the response: the filter of a response split in
      two is the filter of the first part followed by that of the second. */
  lemma ResourcesKeepOrder(a: seq<ResourceItemDto>, b: seq<ResourceItemDto>)
    ensures Seqs.Filter(IsActiveFixed, a + b) == Seqs.Filter(IsActiveFixed, a) + Seqs.Filter(IsActiveFixed, b)
  {
    Seqs.FilterAppend(IsActiveFixed, a, b);
  }

  // ---------------------------------------------------------------------------------------
  // useRecommendation: a single body string

  /** What `fetchRecommendation` stores: `data.body`, in a state that starts as null. */
  function RecommendationResult(o: HttpOutcome<string>): (r: Result<Option<string>, string>)
    ensures o.Ok? ==> r == Success(Some(o.payload))
    ensures !o.Ok? ==> r == Failure(FailureMessage(o))
  {
    match o
    case Ok(body) => Success(Some(body))
    case _ => Failure(FailureMessage(o))
  }

  // ---------------------------------------------------------------------------------------
  // useToggleFixed, useAddLink, useUpdateItem: mutations that record and re-throw

  function TogglePath(itemId: int): string
  {
    "/api/items/" + Numbers.IntString(itemId) + "/toggle_fixed/"
  }

  function TogglePatch(itemId: int): Request
  {
    Request(PATCH, TogglePath(itemId))
  }

  /** The value `Promise.all` resolves to, or the message of the rejection it reports.
      Requests are taken in list order, so the failure reported is the first in that order. */
  function BatchResult<T>(outcomes: seq<HttpOutcome<T>>): (r: Result<seq<T>, string>)
    ensures r.Success? <==> forall i :: 0 <= i < |outcomes| ==> outcomes[i].Ok?
    ensures r.Success? ==> |r.value| == |outcomes|
    ensures r.Success? ==> forall i :: 0 <= i < |outcomes| ==> r.value[i] == outcomes[i].payload
    ensures r.Failure? ==> exists i :: 0 <= i < |outcomes| && !outcomes[i].Ok? && r.error == FailureMessage(outcomes[i])
  {
    if outcomes == [] then Success([])
    else if !outcomes[0].Ok? then Failure(FailureMessage(outcomes[0]))
    else
      match BatchResult(outcomes[1..])
      case Success(rest) => Success([outcomes[0].payload] + rest)
      case Failure(e) =>
        assert exists i :: 1 <= i < |outcomes| && !outcomes[i].Ok? && e == FailureMessage(outcomes[i]) by {
          var j :| 0 <= j < |outcomes[1..]| && !outcomes[1..][j].Ok? && e == FailureMessage(outcomes[1..][j]);
          assert outcomes[j + 1] == outcomes[1..][j];
        }
        Failure(e)
  }

  class MutationState {
    var loading: bool
    var error: Option<string>

    constructor ()
      ensures !loading && error == None
    {
      loading := false;
      error := None;
    }

    /** The shape shared by every mutation: reset, await, then either return the response,
        or record the message and throw an `Error` carrying that same message; `loading`
        ends false either way. */
    method Run<T>(o: HttpOutcome<T>) returns (r: Result<T, string>)
      modifies this
      ensures !loading
      ensures r == AsResult(o)
      ensures r.Success? ==> error == None
      ensures r.Failure? ==> error == Some(r.error)
    {
      loading := true;
      error := None;
      if o.Ok? {
        r := Success(o.payload);
      } else {
        var msg := FailureMessage(o);
        error := Some(msg);
        r := Failure(msg);
      }
      loading := false;
    }

    /** `toggleFixed(itemId)`: one PATCH. */
    method ToggleFixed(itemId: int, o: HttpOutcome<ToggleFixedResponseDto>)
      returns (request: Request, r: Result<ToggleFixedResponseDto, string>)
      modifies this
      ensures request == TogglePatch(itemId)
      ensures !loading && r == AsResult(o)
      ensures r.Success? ==> error == None
      ensures r.Failure? ==> error == Some(r.error)
    {
      request := TogglePatch(itemId);
      r := Run(o);
    }

    /** `toggleMultipleFixed(itemIds)`: one PATCH per id is issued whatever the others answer
        (nothing is rolled back), and the batch yields every response in input order or the
        message of a failing one, which is also recorded. */
    method ToggleMultipleFixed(itemIds: seq<int>, outcomes: seq<HttpOutcome<ToggleFixedResponseDto>>)
      returns (requests: seq<Request>, r: Result<seq<ToggleFixedResponseDto>, string>)
      requires |outcomes| == |itemIds|
      modifies this
      ensures requests == Seqs.Map(TogglePatch, itemIds)
      ensures r == BatchResult(outcomes)
      ensures !loading
      ensures r.Success? ==> error == None
      ensures r.Failure? ==> error == Some(r.error)
    {
      loading := true;
      error := None;
      requests := Seqs.Map(TogglePatch, itemIds);
      r := BatchResult(outcomes);
      if r.Failure? {
        error := Some(r.error);
      }
      loading := false;
    }

    /** `addLink(projectId, linkData)`: a PUT whose body is the link data with `project` set
        to the project id. */
    method AddLink(projectId: int, linkData: JsObject, o: HttpOutcome<JsObject>)
      returns (request: Request, body: JsObject, r: Result<JsObject, string>)
      modifies this
      ensures request == Request(PUT, "/api/items/" + Numbers.IntString(projectId) + "/")
      ensures body == linkData["project" := JsNumber(projectId)]
      ensures !loading && r == AsResult(o)
      ensures r.Success? ==> error == None
      ensures r.Failure? ==> error == Some(r.error)
    {
      request := Request(PUT, "/api/items/" + Numbers.IntString(projectId) + "/");
      body := linkData["project" := JsNumber(projectId)];
      r := Run(o);
    }

    /** `updateItem(itemId, isFixed)`: a PUT of `{is_fixed}`. */
    method UpdateItem(itemId: int, isFixed: bool, o: HttpOutcome<JsObject>)
      returns (request: Request, body: JsObject, r: Result<JsObject, string>)
      modifies this
      ensures request == Request(PUT, "/api/items/" + Numbers.IntString(itemId))
      ensures body == map["is_fixed" := JsBool(isFixed)]
      ensures !loading && r == AsResult(o)
      ensures r.Success? ==> error == None
      ensures r.Failure? ==> error == Some(r.error)
    {
      request := Request(PUT, "/api/items/" + Numbers.IntString(itemId));
      body := map["is_fixed" := JsBool(isFixed)];
      r := Run(o);
    }
  }

  /** A batch succeeds exactly when every toggle does, and its failure message can only be
      one that a single toggle of the batch would have thrown. */
  lemma {:induction false} BatchFailsWithMemberMessage<T>(outcomes: seq<HttpOutcome<T>>, k: nat)
    requires k < |outcomes| && !outcomes[k].Ok?
    requires forall i :: 0 <= i < k ==> outcomes[i].Ok?
    ensures BatchResult(outcomes) == Failure(FailureMessage(outcomes[k]))
  {
    if k > 0 {
      BatchFailsWithMemberMessage(outcomes[1..], k - 1);
    }
  }
}
