/** The repository tools: `list_projects` and `get_project`. */
module RepositoryTools {
  import opened Results
  import opened Js
  import opened Http
  import opened Schema
  import Client

  /** The descriptors the family advertises. */
  function Tools(): (t: seq<Tool>)
    ensures ProjectScoped(t)
  {
    [ Tool("list_projects", InputSchema([], [])),
      Tool("get_project", InputSchema(
          [Field("projectId", StringType)],
          ["projectId"])) ]
  }

  /** The names the handler's `switch` accepts. */
  const Cases: seq<string> := ["list_projects", "get_project"]

  function UnknownTool(name: string): Exception {
    ErrorObject("Unknown repository tool: " + name)
  }

  /** The request a tool call sends. `list_projects` never looks at its
      arguments; `get_project` reads `args.projectId`, which throws when the
      arguments are missing, and converts it into the path. */
  function Request(name: string, args: JsValue): (r: Result<HttpRequest, Exception>)
    ensures r == Failure(UnknownTool(name)) <==> name !in Cases
    ensures name == "list_projects" ==> r == Success(Client.ListProjects())
    ensures name == "get_project" ==> (r.Failure? <==> Nullish(args) || !Coercible(Get(args, "projectId")))
    ensures name == "get_project" && Nullish(args) ==> r == Failure(ErrorObject(ReadError(args, "projectId")))
    ensures name == "get_project" && !Nullish(args) && r.Failure? ==> r.error == ConversionError
    ensures name == "get_project" && r.Success? ==>
      r.value.verb == GET && Segments(r.value.path) == ["projects", Client.Encoded(Get(args, "projectId"))]
  {
    if name == "list_projects" then
      Success(Client.ListProjects())
    else if name == "get_project" then
      var projectId :- Client.ProjectArgument(args);
      Client.GetProject(projectId)
    else
      Failure(UnknownTool(name))
  }

  /** `handleRepositoryTool`: builds the request and hands it to the backend,
      whose response or error is the tool's result. */
  function Handle(name: string, args: JsValue, backend: HttpRequest -> Result<JsValue, Exception>): (r: Result<JsValue, Exception>)
    ensures name !in Cases ==> r == Failure(UnknownTool(name))
    ensures name == "list_projects" ==> r == backend(Client.ListProjects())
    ensures name == "get_project" && Nullish(args) ==> r == Failure(ErrorObject(ReadError(args, "projectId")))
    ensures name == "get_project" && !Nullish(args) && !Coercible(Get(args, "projectId")) ==>
      r == Failure(ConversionError)
    ensures name == "get_project" && !Nullish(args) && Coercible(Get(args, "projectId")) ==>
      r == backend(Client.GetProject(Get(args, "projectId")).value)
  {
    var request :- Request(name, args);
    backend(request)
  }

  /** Every argument schema lists only declared properties as required. */
  lemma ToolsConsistent()
    ensures AllConsistent(Tools())
  {
    assert Keys(Tools()[1].inputSchema.properties) == ["projectId"];
  }

  /** The handler accepts exactly the advertised names, listed in the same
      order. */
  lemma CasesMatchTools()
    ensures Names(Tools()) == Cases
  {
  }

  /** `list_projects` advertises an argument schema with no properties and
      nothing required. */
  lemma ListProjectsSchema()
    ensures ToolNamed(Tools(), "list_projects") == Some(Tool("list_projects", InputSchema([], [])))
  {
  }

  /** `list_projects` answers the same whatever arguments come with it. */
  lemma ListProjectsIgnoresArguments(a: JsValue, b: JsValue, backend: HttpRequest -> Result<JsValue, Exception>)
    ensures Handle("list_projects", a, backend) == Handle("list_projects", b, backend)
  {
  }
}
