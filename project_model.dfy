/** The validated request shapes of a visual-editor project: pages of
    absolutely positioned widgets with free-form properties. */
module ProjectModel {
  import opened Wrappers
  import Json

  /** `Union[float, str]`: a size given in pixels or as text. */
  datatype Dimension = Num(v: real) | Text(s: string)

  /** A position; `None` marks a full-width widget such as an app bar. */
  datatype Position = Position(x: Option<real>, y: Option<real>)

  datatype Size = Size(width: Dimension, height: Dimension)

  datatype FlutterWidget = FlutterWidget(
    id: string,
    kind: string,
    name: string,
    position: Position,
    size: Size,
    properties: Json.Fields,
    children: Option<seq<FlutterWidget>>,
    parentId: Option<string>)

  datatype Page = Page(
    id: string,
    name: string,
    widgets: seq<FlutterWidget>,
    route: string,
    screenWidth: Option<real>,
    screenHeight: Option<real>,
    backgroundColor: Option<string>)

  datatype Theme = Theme(primaryColor: string, accentColor: string, backgroundColor: string)

  datatype FlutterProject = FlutterProject(
    name: string,
    description: Option<string>,
    pages: seq<Page>,
    currentPageId: string,
    theme: Theme,
    version: Option<string>)
}
