/** The project-data normalisers of types/dto/project-items.dto.ts: the material-type guard,
    `parseProjectData` (loosely typed JSON to `ProjectData`) and `convertToStrictTypes`
    (the string flag `isFixed` to a boolean). */
module ProjectItemsDto {
  import opened Common
  import opened ProjectsDto
  import Numbers
  import Seqs

  /** The six members of the `MaterialType` union. */
  const MaterialTypes: seq<string> := ["github", "jira", "slack", "confluence", "google-drive", "notion"]

  /** `isValidMaterialType`. */
  predicate IsValidMaterialType(t: string)
  {
    t in MaterialTypes
  }

  /** The guard accepts exactly the six members of the union. */
  lemma IsValidMaterialTypeExactly(t: string)
    ensures IsValidMaterialType(t) <==>
              t == "github" || t == "jira" || t == "slack" || t == "confluence" || t == "google-drive" || t == "notion"
  {
  }

  /** `String(v)` for the scalars the JSON may hold (numbers as integers). */
  function JsToString(v: JsValue): (r: string)
    ensures v.JsString? ==> r == v.s
  {
    match v
    case JsString(s) => s
    case JsBool(b) => if b then "true" else "false"
    case JsNumber(n) => Numbers.IntString(n)
    case JsNull => "null"
    case JsUndefined => "undefined"
  }

  /** `String(v)` is the text "true" exactly for `true` and for the string "true". */
  lemma JsToStringTrue(v: JsValue)
    ensures JsToString(v) == "true" <==> v == JsBool(true) || v == JsString("true")
  {
    if v.JsNumber? {
      // A numeral starts with a digit or '-', never with 't'.
      var r := Numbers.IntString(v.n);
      if v.n >= 0 {
        assert Numbers.IsDigitIn(false, r[0]);
      }
    }
  }

  /** One entry of `links` in the incoming JSON; `materialType` is taken as sent. */
  datatype JsonLink = JsonLink(
    itemId: int,
    materialType: string,
    link: JsValue,
    title: JsValue,
    body: JsValue,
    isFixed: JsValue,
    createdAt: JsValue,
    updatedAt: JsValue)

  /** The incoming `project`; `projectKeyword` is None when it is not an array. */
  datatype JsonProject = JsonProject(
    id: int,
    authorEmail: JsValue,
    projectName: JsValue,
    projectCode: JsValue,
    projectKeyword: Option<seq<JsValue>>,
    createdAt: JsValue,
    updatedAt: JsValue)

  /** The incoming document; `links` is None when it is not an array. */
  datatype JsonProjectData = JsonProjectData(project: JsonProject, links: Option<seq<JsonLink>>)

  /** `LinkItem`: the flag `isFixed` is still a string. */
  datatype LinkItem = LinkItem(
    itemId: int,
    materialType: string,
    link: string,
    title: string,
    body: string,
    isFixed: string,
    createdAt: string,
    updatedAt: string)

  /** `LinkItemStrict`: the same item with a boolean flag. */
  datatype LinkItemStrict = LinkItemStrict(
    itemId: int,
    materialType: string,
    link: string,
    title: string,
    body: string,
    isFixed: bool,
    createdAt: string,
    updatedAt: string)

  datatype ProjectData = ProjectData(project: ProjectDto, links: seq<LinkItem>)
  datatype ProjectDataStrict = ProjectDataStrict(project: ProjectDto, links: seq<LinkItemStrict>)

  function ParseLink(l: JsonLink): LinkItem
  {
    LinkItem(l.itemId, l.materialType, JsToString(l.link), JsToString(l.title), JsToString(l.body),
             JsToString(l.isFixed), JsToString(l.createdAt), JsToString(l.updatedAt))
  }

  /** `parseProjectData`: a non-array keyword list or link list becomes empty; otherwise the
      keywords and the links are converted one by one, keeping count and order. */
  function ParseProjectData(j: JsonProjectData): (r: ProjectData)
    ensures j.project.projectKeyword.None? ==> r.project.projectKeyword == []
    ensures j.project.projectKeyword.Some? ==>
              |r.project.projectKeyword| == |j.project.projectKeyword.value|
              && forall i :: 0 <= i < |r.project.projectKeyword| ==>
                   r.project.projectKeyword[i] == JsToString(j.project.projectKeyword.value[i])
    ensures j.links.None? ==> r.links == []
    ensures j.links.Some? ==>
              |r.links| == |j.links.value|
              && forall i :: 0 <= i < |r.links| ==>
                   var a := j.links.value[i];
                   var b := r.links[i];
                   && b.itemId == a.itemId && b.materialType == a.materialType
                   && b.link == JsToString(a.link) && b.title == JsToString(a.title) && b.body == JsToString(a.body)
                   && b.isFixed == JsToString(a.isFixed)
                   && b.createdAt == JsToString(a.createdAt) && b.updatedAt == JsToString(a.updatedAt)
    ensures r.project.id == j.project.id
    ensures r.project.authorEmail == JsToString(j.project.authorEmail)
    ensures r.project.projectName == JsToString(j.project.projectName)
    ensures r.project.projectCode == JsToString(j.project.projectCode)
    ensures r.project.createdAt == JsToString(j.project.createdAt)
    ensures r.project.updatedAt == JsToString(j.project.updatedAt)
  {
    var p := j.project;
    ProjectData(
      ProjectDto(p.id, JsToString(p.authorEmail), JsToString(p.projectName), JsToString(p.projectCode),
                 match p.projectKeyword case Some(ks) => Seqs.Map(JsToString, ks) case None => [],
                 JsToString(p.createdAt), JsToString(p.updatedAt)),
      match j.links case Some(ls) => Seqs.Map(ParseLink, ls) case None => [])
  }

  function StrictLink(l: LinkItem): (r: LinkItemStrict)
    ensures r.isFixed <==> l.isFixed == "true"
  {
    LinkItemStrict(l.itemId, l.materialType, l.link, l.title, l.body, l.isFixed == "true", l.createdAt, l.updatedAt)
  }

  /** The inverse direction, for a flag that was a boolean: `String(isFixed)`. */
  function LooseLink(l: LinkItemStrict): LinkItem
  {
    LinkItem(l.itemId, l.materialType, l.link, l.title, l.body, if l.isFixed then "true" else "false",
             l.createdAt, l.updatedAt)
  }

  /** `convertToStrictTypes`: the project is kept, every link keeps all its fields except
      the flag, which becomes true exactly for the string "true"; count and order are kept. */
  function ConvertToStrictTypes(d: ProjectData): (r: ProjectDataStrict)
    ensures r.project == d.project
    ensures |r.links| == |d.links|
    ensures forall i :: 0 <= i < |r.links| ==>
              var a := d.links[i];
              var b := r.links[i];
              && (b.isFixed <==> a.isFixed == "true")
              && b.itemId == a.itemId && b.materialType == a.materialType && b.link == a.link
              && b.title == a.title && b.body == a.body && b.createdAt == a.createdAt && b.updatedAt == a.updatedAt
  {
    ProjectDataStrict(d.project, Seqs.Map(StrictLink, d.links))
  }

  /** Converting is undone by writing the flag back as a string, for links whose flag is
      "true" or "false", and a strict link survives the loose form unchanged. */
  lemma StrictLinkRoundTrip(l: LinkItem, s: LinkItemStrict)
    ensures l.isFixed == "true" || l.isFixed == "false" ==> LooseLink(StrictLink(l)) == l
    ensures StrictLink(LooseLink(s)) == s
  {
  }

  /** Parsing and then converting: a link is fixed exactly when its JSON flag was the
      boolean `true` or the string "true". */
  lemma FixedAfterParseAndConvert(j: JsonProjectData, i: int)
    requires j.links.Some? && 0 <= i < |j.links.value|
    ensures |ConvertToStrictTypes(ParseProjectData(j)).links| == |j.links.value|
    ensures ConvertToStrictTypes(ParseProjectData(j)).links[i].isFixed <==>
              j.links.value[i].isFixed == JsBool(true) || j.links.value[i].isFixed == JsString("true")
  {
    JsToStringTrue(j.links.value[i].isFixed);
  }
}
