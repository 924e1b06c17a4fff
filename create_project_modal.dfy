/** The project-creation modal (components/create-project-modal/index.tsx): the keyword
    string it sends, the material-type classifier, the editable list of link items, and the phases
    of `submit`, whose API calls are recorded in the order they are issued. */
module CreateProjectModal {
  import opened Common
  import opened Strings
  import opened Csv
  import Seqs
  import Numbers
  import ProjectsApi
  import Http
  import ProjectItemsDto

  // ---------------------------------------------------------------------------------------
  // inferMaterialType

  /** Classifies a link by the first of `github.com`, `jira`, `slack.com` that its lower-cased
      text contains; anything else is `web`. */
  function InferMaterialType(url: string): (r: string)
    ensures r == "github" || r == "jira" || r == "slack" || r == "web"
  {
    var u := ToLower(url);
    if Contains(u, "github.com") then "github"
    else if Contains(u, "jira") then "jira"
    else if Contains(u, "slack.com") then "slack"
    else "web"
  }

  /** Which type each link gets: the three substrings are tried in order on the lower-cased
      link, and the first one present decides. */
  lemma InferMaterialTypeRules(url: string)
    ensures var u := ToLower(url);
      && (InferMaterialType(url) == "github" <==> Contains(u, "github.com"))
      && (InferMaterialType(url) == "jira" <==> !Contains(u, "github.com") && Contains(u, "jira"))
      && (InferMaterialType(url) == "slack" <==> !Contains(u, "github.com") && !Contains(u, "jira") && Contains(u, "slack.com"))
      && (InferMaterialType(url) == "web" <==> !Contains(u, "github.com") && !Contains(u, "jira") && !Contains(u, "slack.com"))
  {
  }

  /** The classification ignores case: a link and its lower-cased form get the same type. */
  lemma InferMaterialTypeIgnoresCase(url: string)
    ensures InferMaterialType(ToLower(url)) == InferMaterialType(url)
  {
    ToLowerIdempotent(url);
  }

  /** Every inferred type but `web` is a member of the `MaterialType` union; `web` is not. */
  lemma InferredTypeValidUnlessWeb(url: string)
    ensures ProjectItemsDto.IsValidMaterialType(InferMaterialType(url)) <==> InferMaterialType(url) != "web"
  {
    ProjectItemsDto.IsValidMaterialTypeExactly(InferMaterialType(url));
  }

  // ---------------------------------------------------------------------------------------
  // The link-item list

  datatype LinkItemForm = LinkItemForm(material_type: string, material_link: string)

  /** A `Partial<LinkItemForm>`: a field that is None is absent from the patch. */
  datatype LinkItemPatch = LinkItemPatch(material_type: Option<string>, material_link: Option<string>)

  const InitialLinkItems: seq<LinkItemForm> := [LinkItemForm("github", "")]
  const NewLinkItem := LinkItemForm("web", "")

  /** `{ ...item, ...patch }`. */
  function MergeLinkItem(item: LinkItemForm, patch: LinkItemPatch): (r: LinkItemForm)
    ensures r.material_type == (if patch.material_type.Some? then patch.material_type.value else item.material_type)
    ensures r.material_link == (if patch.material_link.Some? then patch.material_link.value else item.material_link)
  {
    LinkItemForm(
      match patch.material_type case Some(t) => t case None => item.material_type,
      match patch.material_link case Some(l) => l case None => item.material_link)
  }

  /** `prev.filter((_, i) => i !== idx)`: only the entry at `idx` goes; an index outside the
      list removes nothing. */
  function RemoveAt<T>(items: seq<T>, idx: int): (r: seq<T>)
    ensures 0 <= idx < |items| ==> r == items[..idx] + items[idx + 1..]
    ensures !(0 <= idx < |items|) ==> r == items
  {
    if items == [] then []
    else
      var rest := RemoveAt(items[1..], idx - 1);
      if idx == 0 then rest
      else
        assert 0 < idx < |items| ==> items[..idx] + items[idx + 1..] == [items[0]] + (items[1..][..idx - 1] + items[1..][idx..]);
        [items[0]] + rest
  }

  /** `prev.map((item, i) => i === idx ? { ...item, ...patch } : item)`. */
  function UpdateAt(items: seq<LinkItemForm>, idx: int, patch: LinkItemPatch): (r: seq<LinkItemForm>)
    ensures 0 <= idx < |items| ==> r == items[idx := MergeLinkItem(items[idx], patch)]
    ensures !(0 <= idx < |items|) ==> r == items
  {
    seq(|items|, i requires 0 <= i < |items| => if i == idx then MergeLinkItem(items[i], patch) else items[i])
  }

  // ---------------------------------------------------------------------------------------
  // validLinkItems and the material payloads

  function TrimLinkItem(item: LinkItemForm): LinkItemForm
  {
    LinkItemForm(Trim(item.material_type), Trim(item.material_link))
  }

  /** Both fields of an item trimmed at both ends. */
  predicate FieldsTrimmed(item: LinkItemForm)
  {
    Trimmed(item.material_link) && Trimmed(item.material_type)
  }

  predicate HasLink(item: LinkItemForm)
  {
    item.material_link != ""
  }

  /** The items with type and link trimmed, keeping those whose trimmed link is non-empty. */
  function ValidLinkItems(items: seq<LinkItemForm>): (r: seq<LinkItemForm>)
    ensures |r| <= |items|
    ensures forall k :: 0 <= k < |r| ==> HasLink(r[k])
  {
    Seqs.Filter(HasLink, Seqs.Map(TrimLinkItem, items))
  }

  /** Every valid item has both fields trimmed at both ends. */
  lemma ValidLinkItemsTrimmed(items: seq<LinkItemForm>)
    ensures forall k :: 0 <= k < |ValidLinkItems(items)| ==> FieldsTrimmed(ValidLinkItems(items)[k])
  {
    var trimmed := Seqs.Map(TrimLinkItem, items);
    assert forall i :: 0 <= i < |trimmed| ==> FieldsTrimmed(trimmed[i]);
    Seqs.FilterPreserves(HasLink, FieldsTrimmed, trimmed);
  }

  /** No item with a non-blank link is dropped. */
  lemma ValidLinkItemsComplete(items: seq<LinkItemForm>, i: int)
    requires 0 <= i < |items| && Trim(items[i].material_link) != ""
    ensures TrimLinkItem(items[i]) in ValidLinkItems(items)
  {
    assert HasLink(Seqs.Map(TrimLinkItem, items)[i]);
  }

  /** The filter keeps the list order, and decides each item by its own trimmed link alone:
      together these two facts determine `validLinkItems` completely. */
  lemma ValidLinkItemsInOrder(a: seq<LinkItemForm>, b: seq<LinkItemForm>, x: LinkItemForm)
    ensures ValidLinkItems(a + b) == ValidLinkItems(a) + ValidLinkItems(b)
    ensures ValidLinkItems([x]) == if Trim(x.material_link) != "" then [TrimLinkItem(x)] else []
  {
    Seqs.MapAppend(TrimLinkItem, a, b);
    Seqs.FilterAppend(HasLink, Seqs.Map(TrimLinkItem, a), Seqs.Map(TrimLinkItem, b));
    assert Seqs.Map(TrimLinkItem, [x]) == [TrimLinkItem(x)];
    Seqs.FilterSingleton(HasLink, TrimLinkItem(x));
  }

  /** `{ material_type, material_link, project }` sent to `POST /api/materials/`. */
  datatype MaterialPayload = MaterialPayload(material_type: string, material_link: string, project: int)

  /** `item.material_type || inferMaterialType(item.material_link)`. */
  function PayloadType(item: LinkItemForm): (t: string)
    ensures t != ""
    ensures item.material_type != "" ==> t == item.material_type
    ensures item.material_type == "" ==> t == InferMaterialType(item.material_link)
  {
    if item.material_type != "" then item.material_type else InferMaterialType(item.material_link)
  }

  /** One payload per valid item, in order, each tied to the created project. */
  function MaterialPayloads(valid: seq<LinkItemForm>, projectId: int): (r: seq<MaterialPayload>)
    ensures |r| == |valid|
    ensures forall i :: 0 <= i < |valid| ==>
              r[i].project == projectId && r[i].material_link == valid[i].material_link
              && r[i].material_type == PayloadType(valid[i]) && r[i].material_type != ""
  {
    seq(|valid|, i requires 0 <= i < |valid| => MaterialPayload(PayloadType(valid[i]), valid[i].material_link, projectId))
  }

  // ---------------------------------------------------------------------------------------
  // submit

  datatype FormFields = FormFields(authorEmail: string, projectName: string, projectCode: string, projectKeyword: string)

  /** `!authorEmail || !projectName || !projectCode` (no trimming: blanks pass). */
  predicate RequiredMissing(f: FormFields)
  {
    f.authorEmail == "" || f.projectName == "" || f.projectCode == ""
  }

  const RequiredFieldsMessage := "Email, 프로젝트명, 프로젝트 코드는 필수입니다."
  const CreateFailedMessage := "프로젝트 생성 실패"

  /** `keywordString`: the normalised keyword list joined with commas, or '' for blank input. */
  function KeywordString(keyword: string): string
  {
    if |Trim(keyword)| > 0 then Join(ParseCsv(keyword), ',') else ""
  }

  /** The blank-input guard is redundant: `keywordString` is always the join of the tokens. */
  lemma KeywordStringIsJoin(keyword: string)
    ensures KeywordString(keyword) == Join(ParseCsv(keyword), ',')
  {
    if |Trim(keyword)| == 0 {
      ParseCsvOfBlank(keyword);
    }
  }

  /** The body of `POST /api/projects/`; `project_keyword: keywordString || undefined`. */
  datatype CreateBody = CreateBody(author_email: string, project_name: string, project_code: string, project_keyword: Option<string>)

  /** The body of the two ingestion triggers; `project_keyword: keywordString || ''`. */
  datatype TriggerBody = TriggerBody(author_email: string, project_name: string, project_code: string, project_keyword: string)

  /** What `submit` derives from the form before its first request: the fields, the
      normalised keyword string and the valid link items. */
  datatype Prepared = Prepared(fields: FormFields, keyword: string, valid: seq<LinkItemForm>)

  function Prepare(f: FormFields, items: seq<LinkItemForm>): Prepared
  {
    Prepared(f, KeywordString(f.projectKeyword), ValidLinkItems(items))
  }

  function CreateBodyOf(p: Prepared): CreateBody
  {
    CreateBody(p.fields.authorEmail, p.fields.projectName, p.fields.projectCode,
               if p.keyword != "" then Some(p.keyword) else None)
  }

  function TriggerBodyOf(p: Prepared): TriggerBody
  {
    TriggerBody(p.fields.authorEmail, p.fields.projectName, p.fields.projectCode, p.keyword)
  }

  /** The keyword is omitted from the creation body exactly when no token survives parsing,
      and the trigger body then carries ''; otherwise both carry the same joined string. */
  lemma KeywordOmittedIffNoTokens(f: FormFields, items: seq<LinkItemForm>)
    ensures var p := Prepare(f, items);
      && (CreateBodyOf(p).project_keyword.None? <==> ParseCsv(f.projectKeyword) == [])
      && (CreateBodyOf(p).project_keyword.None? ==> TriggerBodyOf(p).project_keyword == "")
      && (CreateBodyOf(p).project_keyword.Some? ==>
            CreateBodyOf(p).project_keyword.value == TriggerBodyOf(p).project_keyword == Join(ParseCsv(f.projectKeyword), ','))
  {
    KeywordStringIsJoin(f.projectKeyword);
    JoinOfCleanTokensEmpty(ParseCsv(f.projectKeyword));
  }

  /** A whitespace-only keyword input: `undefined` in the creation body, '' in the triggers. */
  lemma BlankKeywordOmitted(f: FormFields, items: seq<LinkItemForm>)
    requires AllSpace(f.projectKeyword)
    ensures CreateBodyOf(Prepare(f, items)).project_keyword == None
    ensures TriggerBodyOf(Prepare(f, items)).project_keyword == ""
  {
    ParseCsvOfBlank(f.projectKeyword);
    KeywordOmittedIffNoTokens(f, items);
  }

  /** The keywords the creation body carries read back, through `listProjects`, as exactly
      the tokens typed into the form (the server is assumed to store the string it is sent). */
  lemma CreatedKeywordsReadBack(f: FormFields, items: seq<LinkItemForm>)
    ensures ProjectsApi.KeywordTokens(CreateBodyOf(Prepare(f, items)).project_keyword) == ParseCsv(f.projectKeyword)
    ensures ProjectsApi.KeywordTokens(Some(TriggerBodyOf(Prepare(f, items)).project_keyword)) == ParseCsv(f.projectKeyword)
  {
    KeywordOmittedIffNoTokens(f, items);
    KeywordStringIsJoin(f.projectKeyword);
    ParseCsvRoundTrip(f.projectKeyword);
  }

  /** The calls `submit` makes, in order, ending with the navigation. */
  datatype ApiCall =
    | CreateProjectCall(body: CreateBody)
    | CreateMaterialCall(payload: MaterialPayload)
    | ItemsByCodeCall(projectId: int, trigger: TriggerBody)
    | ItemsByKeywordCall(projectId: int, trigger: TriggerBody)
    | NavigateCall(path: string)

  function MaterialCallOf(p: MaterialPayload): ApiCall
  {
    CreateMaterialCall(p)
  }

  /** One `POST /api/materials/` per valid item. */
  function MaterialCalls(valid: seq<LinkItemForm>, projectId: int): seq<ApiCall>
  {
    Seqs.Map(MaterialCallOf, MaterialPayloads(valid, projectId))
  }

  /** The material calls are exactly the payloads of the valid items, in order. */
  lemma MaterialCallsShape(valid: seq<LinkItemForm>, projectId: int)
    ensures |MaterialCalls(valid, projectId)| == |valid|
    ensures forall i :: 0 <= i < |valid| ==>
              MaterialCalls(valid, projectId)[i]
                == CreateMaterialCall(MaterialPayload(PayloadType(valid[i]), valid[i].material_link, projectId))
  {
  }

  /** The HTTP request behind a call; the navigation is not one. */
  function RequestOf(c: ApiCall): (r: Option<Http.Request>)
    ensures r.None? <==> c.NavigateCall?
    ensures r.Some? ==> r.value.verb == Http.POST
  {
    match c
    case CreateProjectCall(_) => Some(Http.Request(Http.POST, ProjectsApi.ProjectsPath))
    case CreateMaterialCall(_) => Some(Http.Request(Http.POST, ProjectsApi.MaterialsPath))
    case ItemsByCodeCall(pid, _) => Some(Http.Request(Http.POST, ProjectsApi.ItemsByCodePath(pid)))
    case ItemsByKeywordCall(pid, _) => Some(Http.Request(Http.POST, ProjectsApi.ItemsByKeywordPath(pid)))
    case NavigateCall(_) => None
  }

  /** No call of `cs` is the navigation. */
  predicate NoNavigation(cs: seq<ApiCall>)
  {
    forall i :: 0 <= i < |cs| ==> !cs[i].NavigateCall?
  }

  lemma NoNavigationAppend(a: seq<ApiCall>, b: seq<ApiCall>)
    requires NoNavigation(a) && NoNavigation(b)
    ensures NoNavigation(a + b)
  {
    assert forall i :: 0 <= i < |a + b| ==> (a + b)[i] == if i < |a| then a[i] else b[i - |a|];
  }

  function TriggerCalls(p: Prepared, projectId: int): seq<ApiCall>
  {
    [ItemsByCodeCall(projectId, TriggerBodyOf(p)), ItemsByKeywordCall(projectId, TriggerBodyOf(p))]
  }

  /** The two triggers go to two different endpoints, both about the created project. */
  lemma TriggerRequestsDistinct(p: Prepared, pid: int, other: int)
    ensures RequestOf(TriggerCalls(p, pid)[0]) != RequestOf(TriggerCalls(p, pid)[1])
    ensures RequestOf(TriggerCalls(p, pid)[0]) == RequestOf(TriggerCalls(p, other)[0]) ==> pid == other
    ensures RequestOf(TriggerCalls(p, pid)[1]) == RequestOf(TriggerCalls(p, other)[1]) ==> pid == other
  {
    ProjectsApi.TriggerPathsDistinct(pid, pid);
    ProjectsApi.TriggerPathsDistinct(pid, other);
  }

  function DetailPath(projectId: int): string
  {
    "/project/" + Numbers.IntString(projectId)
  }

  /** What a submission does: the calls issued and the error message it leaves. */
  datatype SubmitEffect = SubmitEffect(calls: seq<ApiCall>, err: Option<string>)

  /** The phases of `submit` as one specification: validation, then the project creation,
      then the materials (all issued together, only when there are valid items), then the two
      triggers (issued together), then navigation. A rejected phase stops the later ones and
      leaves `e?.message || '프로젝트 생성 실패'` as the error. */
  function SubmitPlan(p: Prepared, create: Settled<int>, materials: Settled<()>, triggers: Settled<()>): SubmitEffect
  {
    if RequiredMissing(p.fields) then SubmitEffect([], Some(RequiredFieldsMessage))
    else
      var first := [CreateProjectCall(CreateBodyOf(p))];
      match create
      case Rejected(m) => SubmitEffect(first, Some(MessageOr(m, CreateFailedMessage)))
      case Fulfilled(pid) =>
        var mats := MaterialCalls(p.valid, pid);
        if p.valid != [] && materials.Rejected? then
          SubmitEffect(first + mats, Some(MessageOr(materials.message, CreateFailedMessage)))
        else if triggers.Rejected? then
          SubmitEffect(first + mats + TriggerCalls(p, pid), Some(MessageOr(triggers.message, CreateFailedMessage)))
        else
          SubmitEffect(first + mats + TriggerCalls(p, pid) + [NavigateCall(DetailPath(pid))], None)
  }

  /** A missing required field sets the error and makes no API call at all. */
  lemma MissingFieldMakesNoCall(p: Prepared, create: Settled<int>, materials: Settled<()>, triggers: Settled<()>)
    requires p.fields.authorEmail == "" || p.fields.projectName == "" || p.fields.projectCode == ""
    ensures SubmitPlan(p, create, materials, triggers) == SubmitEffect([], Some(RequiredFieldsMessage))
  {
  }

  /** With the required fields present the project creation is the first call, and the
      only one when it is rejected. */
  lemma SubmitCreatesFirst(p: Prepared, create: Settled<int>, materials: Settled<()>, triggers: Settled<()>)
    requires !RequiredMissing(p.fields)
    ensures var e := SubmitPlan(p, create, materials, triggers);
      && |e.calls| >= 1 && e.calls[0] == CreateProjectCall(CreateBodyOf(p))
      && (create.Rejected? ==> |e.calls| == 1)
  {
  }

  /** A submission ends without error exactly when the creation and the triggers succeed
      and the materials either succeed or are not needed. */
  lemma SubmitSucceedsIffAllPhases(p: Prepared, create: Settled<int>, materials: Settled<()>, triggers: Settled<()>)
    requires !RequiredMissing(p.fields)
    ensures var e := SubmitPlan(p, create, materials, triggers);
      e.err == None <==> create.Fulfilled? && triggers.Fulfilled? && (materials.Fulfilled? || p.valid == [])
  {
  }

  /** `cs` ends with the navigation to `path`, and nothing before it navigates. */
  predicate NavigatesLast(cs: seq<ApiCall>, path: string)
  {
    |cs| > 0 && cs[|cs| - 1] == NavigateCall(path) && NoNavigation(cs[..|cs| - 1])
  }

  /** The calls before the navigation never navigate. */
  lemma CallsBeforeNavigation(p: Prepared, pid: int)
    ensures NoNavigation([CreateProjectCall(CreateBodyOf(p))] + MaterialCalls(p.valid, pid) + TriggerCalls(p, pid))
  {
    MaterialCallsShape(p.valid, pid);
    NoNavigationAppend([CreateProjectCall(CreateBodyOf(p))], MaterialCalls(p.valid, pid));
    NoNavigationAppend([CreateProjectCall(CreateBodyOf(p))] + MaterialCalls(p.valid, pid), TriggerCalls(p, pid));
  }

  /** A submission that leaves no error ends by navigating to the new project's page, and
      that is its only navigation; one that leaves an error never navigates. */
  lemma NavigationOnlyOnSuccess(p: Prepared, create: Settled<int>, materials: Settled<()>, triggers: Settled<()>)
    ensures var e := SubmitPlan(p, create, materials, triggers);
      && (e.err == None ==> create.Fulfilled? && NavigatesLast(e.calls, DetailPath(create.value)))
      && (e.err != None ==> NoNavigation(e.calls))
  {
    if !RequiredMissing(p.fields) && create.Fulfilled? {
      var pid := create.value;
      var first := [CreateProjectCall(CreateBodyOf(p))];
      var mats := MaterialCalls(p.valid, pid);
      var before := first + mats + TriggerCalls(p, pid);
      CallsBeforeNavigation(p, pid);
      if p.valid != [] && materials.Rejected? {
        MaterialCallsShape(p.valid, pid);
        NoNavigationAppend(first, mats);
      } else if triggers.Fulfilled? {
        assert (before + [NavigateCall(DetailPath(pid))])[..|before|] == before;
      }
    }
  }

  /** After a successful creation the material calls come right after it, one per valid
      item, in list order, each carrying the new project's id and the item's trimmed link;
      the two triggers follow unless a material call was rejected. */
  lemma SubmitAfterCreation(p: Prepared, pid: int, materials: Settled<()>, triggers: Settled<()>)
    requires !RequiredMissing(p.fields)
    ensures var e := SubmitPlan(p, Fulfilled(pid), materials, triggers);
      && |e.calls| >= 1 + |p.valid|
      && e.calls[1..1 + |p.valid|] == MaterialCalls(p.valid, pid)
      && (p.valid != [] && materials.Rejected? ==> |e.calls| == 1 + |p.valid|)
      && (p.valid == [] || materials.Fulfilled? ==> e.calls[1 + |p.valid|..3 + |p.valid|] == TriggerCalls(p, pid))
  {
    MaterialCallsShape(p.valid, pid);
    var first := [CreateProjectCall(CreateBodyOf(p))];
    var mats := MaterialCalls(p.valid, pid);
    var e := SubmitPlan(p, Fulfilled(pid), materials, triggers);
    if p.valid == [] || materials.Fulfilled? {
      var rest := if triggers.Rejected? then [] else [NavigateCall(DetailPath(pid))];
      assert e.calls == first + mats + TriggerCalls(p, pid) + rest;
    }
  }

  // ---------------------------------------------------------------------------------------
  // The component state

  datatype TextField = AuthorEmail | ProjectName | ProjectCode | ProjectKeyword

  class CreateProjectModalState {
    var authorEmail: string
    var projectName: string
    var projectCode: string
    var projectKeyword: string
    var linkItems: seq<LinkItemForm>
    var loading: bool
    var err: Option<string>

    constructor ()
      ensures authorEmail == "" && projectName == "" && projectCode == "" && projectKeyword == ""
      ensures linkItems == InitialLinkItems && !loading && err == None
    {
      authorEmail, projectName, projectCode, projectKeyword := "", "", "", "";
      linkItems := InitialLinkItems;
      loading := false;
      err := None;
    }

    function Fields(): FormFields
      reads this
    {
      FormFields(authorEmail, projectName, projectCode, projectKeyword)
    }

    /** The `onChange` of one text input. */
    method Edit(field: TextField, value: string)
      modifies this`authorEmail, this`projectName, this`projectCode, this`projectKeyword
      ensures Fields() == match field
        case AuthorEmail => old(Fields()).(authorEmail := value)
        case ProjectName => old(Fields()).(projectName := value)
        case ProjectCode => old(Fields()).(projectCode := value)
        case ProjectKeyword => old(Fields()).(projectKeyword := value)
    {
      match field
      case AuthorEmail => authorEmail := value;
      case ProjectName => projectName := value;
      case ProjectCode => projectCode := value;
      case ProjectKeyword => projectKeyword := value;
    }

    /** `addLinkItem`: appends `{web, ''}`. */
    method AddLinkItem()
      modifies this`linkItems
      ensures linkItems == old(linkItems) + [NewLinkItem]
    {
      linkItems := linkItems + [NewLinkItem];
    }

    /** `removeLinkItem(idx)`: deletes only the entry at `idx`. */
    method RemoveLinkItem(idx: int)
      modifies this`linkItems
      ensures linkItems == RemoveAt(old(linkItems), idx)
      ensures 0 <= idx < |old(linkItems)| ==> |linkItems| == |old(linkItems)| - 1
    {
      linkItems := RemoveAt(linkItems, idx);
    }

    /** `updateLinkItem(idx, patch)`: merges the patch into entry `idx` only. */
    method UpdateLinkItem(idx: int, patch: LinkItemPatch)
      modifies this`linkItems
      ensures linkItems == UpdateAt(old(linkItems), idx, patch)
      ensures |linkItems| == |old(linkItems)|
      ensures forall i :: 0 <= i < |linkItems| && i != idx ==> linkItems[i] == old(linkItems)[i]
    {
      linkItems := UpdateAt(linkItems, idx, patch);
    }

    /** `submit`: the form is normalised, then the phases run. */
    method Submit(create: Settled<int>, materials: Settled<()>, triggers: Settled<()>)
      returns (calls: seq<ApiCall>)
      modifies this`loading, this`err
      ensures calls == SubmitPlan(Prepare(Fields(), linkItems), create, materials, triggers).calls
      ensures err == SubmitPlan(Prepare(Fields(), linkItems), create, materials, triggers).err
      ensures RequiredMissing(Fields()) ==> loading == old(loading)
      ensures !RequiredMissing(Fields()) ==> !loading
    {
      calls := RunPhases(Prepare(Fields(), linkItems), create, materials, triggers);
    }

    /** The phases of `submit`, step by step, with each awaited call settled as given. */
    method RunPhases(p: Prepared, create: Settled<int>, materials: Settled<()>, triggers: Settled<()>)
      returns (calls: seq<ApiCall>)
      modifies this`loading, this`err
      ensures calls == SubmitPlan(p, create, materials, triggers).calls
      ensures err == SubmitPlan(p, create, materials, triggers).err
      ensures RequiredMissing(p.fields) ==> loading == old(loading)
      ensures !RequiredMissing(p.fields) ==> !loading
    {
      err := None;
      if RequiredMissing(p.fields) {
        err := Some(RequiredFieldsMessage);
        calls := [];
        return;
      }
      loading := true;
      calls := [CreateProjectCall(CreateBodyOf(p))];
      if create.Rejected? {
        err := Some(MessageOr(create.message, CreateFailedMessage));
        loading := false;
        return;
      }
      var pid := create.value;
      if p.valid != [] {
        calls := calls + MaterialCalls(p.valid, pid);
        if materials.Rejected? {
          err := Some(MessageOr(materials.message, CreateFailedMessage));
          loading := false;
          return;
        }
      } else {
        assert MaterialCalls(p.valid, pid) == [];
      }
      calls := calls + TriggerCalls(p, pid);
      if triggers.Rejected? {
        err := Some(MessageOr(triggers.message, CreateFailedMessage));
        loading := false;
        return;
      }
      calls := calls + [NavigateCall(DetailPath(pid))];
      loading := false;
    }
  }
}
