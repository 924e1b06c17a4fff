/** The camelCase domain shapes and the snake_case wire shapes that the hooks, the API
    module and the containers exchange (types/dto/projects.dto.ts). Only types live here. */
module ProjectsDto {
  import opened Common

  /** A project as the list page shows it. */
  datatype ProjectDto = ProjectDto(
    id: int,
    authorEmail: string,
    projectName: string,
    projectCode: string,
    projectKeyword: seq<string>,
    createdAt: string,
    updatedAt: string)

  /** A link item in its camelCase form: a resource when fixed, a recommendation otherwise. */
  datatype LinkItemDto = LinkItemDto(
    id: int,
    channelName: string,
    isActive: bool,
    isFixed: bool,
    projectName: string,
    createdAt: string,
    materialType: string,
    link: string,
    title: string,
    body: string,
    originCreatedAt: string,
    originUpdatedAt: string)

  /** The legacy item shape of `GET /api/projects/{id}/items/`; `title` may be null. */
  datatype ProjectItemWire = ProjectItemWire(
    id: int,
    channel_name: string,
    is_active: bool,
    is_fixed: bool,
    project_name: string,
    created_at: string,
    material_type: string,
    link: string,
    title: Option<string>,
    body: string,
    origin_created_at: string,
    origin_updated_at: string)

  /** An item of the paginated `/api/resources` list. */
  datatype ResourceItemDto = ResourceItemDto(
    id: int,
    project_name: string,
    material_type: string,
    channel_name: string,
    title: string,
    body: string,
    link: string,
    is_fixed: bool,
    is_active: bool,
    created_at: string,
    updated_at: string,
    project: int,
    project_material: int)

  /** A summary block of `GET /api/projects/{id}/summaries/`. */
  datatype SummaryDto = SummaryDto(id: int, content: string, status: string, createdAt: string, updatedAt: string)

  /** The server's answer to a toggle of the fixed flag. */
  datatype ToggleFixedResponseDto = ToggleFixedResponseDto(
    channel_name: string,
    title: string,
    body: string,
    link: string,
    is_fixed: bool,
    is_active: bool,
    project: int,
    project_material: int)

  /** The `{count, next, previous, results}` envelope of the paginated endpoints. */
  datatype Paginated<T> = Paginated(count: int, next: Option<string>, previous: Option<string>, results: seq<T>)

  /** The pagination fields a hook keeps beside its results. */
  datatype Pagination = Pagination(count: int, next: Option<string>, previous: Option<string>)

  /** A JavaScript object with string keys, as a spread-and-override record. */
  type JsObject = map<string, JsValue>
}
