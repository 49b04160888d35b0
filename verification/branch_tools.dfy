/** The branch tools: `list_branches`, `create_branch` and `delete_branch`. */
module BranchTools {
  import opened Results
  import opened Js
  import opened Http
  import opened Schema
  import Client

  function ListBranchesTool(): Tool {
    Tool("list_branches", InputSchema([Field("projectId", StringType)], ["projectId"]))
  }

  function CreateBranchTool(): Tool {
    Tool("create_branch", InputSchema(
        [ Field("projectId", StringType),
          Field("branchName", StringType),
          Defaulted("ref", StringType, Str("main")) ],
        ["projectId", "branchName"]))
  }

  function DeleteBranchTool(): Tool {
    Tool("delete_branch", InputSchema(
        [ Field("projectId", StringType),
          Field("branchName", StringType) ],
        ["projectId", "branchName"]))
  }

  /** The descriptors the family advertises. */
  function Tools(): (t: seq<Tool>)
    ensures ProjectScoped(t)
  {
    [ListBranchesTool(), CreateBranchTool(), DeleteBranchTool()]
  }

  /** The names the handler's `switch` accepts. */
  const Cases: seq<string> := ["list_branches", "create_branch", "delete_branch"]

  function UnknownTool(name: string): Exception {
    ErrorObject("Unknown branch tool: " + name)
  }

  /** `case 'list_branches'` */
  function ListBranchesCase(args: JsValue): (r: Result<HttpRequest, Exception>)
    ensures r.Failure? <==> Nullish(args) || !Coercible(Get(args, "projectId"))
    ensures Nullish(args) ==> r == Failure(ErrorObject(ReadError(args, "projectId")))
    ensures !Nullish(args) && r.Failure? ==> r.error == ConversionError
    ensures r.Success? ==> var q := r.value;
      && q.verb == GET && q.body == None && q.params == map[]
      && Segments(q.path) == ["projects", Client.Encoded(Get(args, "projectId"))] + ["repository", "branches"]
  {
    var projectId :- Client.ProjectArgument(args);
    Client.ListBranches(projectId)
  }

  /** `case 'create_branch'`: every falsy `ref` (absent, `""`) becomes `main`. */
  function CreateBranchCase(args: JsValue): (r: Result<HttpRequest, Exception>)
    ensures r.Failure? <==> Nullish(args) || !Coercible(Get(args, "projectId"))
    ensures Nullish(args) ==> r == Failure(ErrorObject(ReadError(args, "projectId")))
    ensures !Nullish(args) && r.Failure? ==> r.error == ConversionError
    ensures r.Success? ==> var q := r.value;
      && q.verb == POST
      && Segments(q.path) == ["projects", Client.Encoded(Get(args, "projectId"))] + ["repository", "branches"]
      && BodyKeys(q) == {"branch", "ref"}
      && BodyField(q, "branch") == Get(args, "branchName")
      && BodyField(q, "ref") == (if Truthy(Get(args, "ref")) then Get(args, "ref") else Str("main"))
  {
    var projectId :- Client.ProjectArgument(args);
    Client.CreateBranch(projectId, Get(args, "branchName"), Or(Get(args, "ref"), Str("main")))
  }

  /** `case 'delete_branch'` */
  function DeleteBranchCase(args: JsValue): (r: Result<HttpRequest, Exception>)
    ensures r.Failure? <==>
      Nullish(args) || !Coercible(Get(args, "projectId")) || !Coercible(Get(args, "branchName"))
    ensures Nullish(args) ==> r == Failure(ErrorObject(ReadError(args, "projectId")))
    ensures !Nullish(args) && r.Failure? ==> r.error == ConversionError
    ensures r.Success? ==> var q := r.value;
      && q.verb == DELETE && q.body == None
      && Segments(q.path) == ["projects", Client.Encoded(Get(args, "projectId"))]
                             + ["repository", "branches", Client.Encoded(Get(args, "branchName"))]
  {
    var projectId :- Client.ProjectArgument(args);
    Client.DeleteBranch(projectId, Get(args, "branchName"))
  }

  /** The request a tool call sends: the `switch` of `handleBranchTool`. An
      unknown name raises an error naming it, before any argument is read. */
  function Request(name: string, args: JsValue): (r: Result<HttpRequest, Exception>)
    ensures r == Failure(UnknownTool(name)) <==> name !in Cases
    ensures name in Cases && Nullish(args) ==> r == Failure(ErrorObject(ReadError(args, "projectId")))
    ensures name == "list_branches" ==> r == ListBranchesCase(args)
    ensures name == "create_branch" ==> r == CreateBranchCase(args)
    ensures name == "delete_branch" ==> r == DeleteBranchCase(args)
  {
    if name == "list_branches" then ListBranchesCase(args)
    else if name == "create_branch" then CreateBranchCase(args)
    else if name == "delete_branch" then DeleteBranchCase(args)
    else Failure(UnknownTool(name))
  }

  /** `handleBranchTool`: builds the request and hands it to the backend,
      whose response or error is the tool's result. */
  function Handle(name: string, args: JsValue, backend: HttpRequest -> Result<JsValue, Exception>): (r: Result<JsValue, Exception>)
    ensures name !in Cases ==> r == Failure(UnknownTool(name))
    ensures name in Cases && Nullish(args) ==> r == Failure(ErrorObject(ReadError(args, "projectId")))
    ensures name in Cases && !Nullish(args) && !Coercible(Get(args, "projectId")) ==> r == Failure(ConversionError)
    ensures Request(name, args).Failure? ==> r == Failure(Request(name, args).error)
    ensures Request(name, args).Success? ==> r == backend(Request(name, args).value)
  {
    var request :- Request(name, args);
    backend(request)
  }

  /** Every argument schema lists only declared properties as required. */
  lemma ToolsConsistent()
    ensures AllConsistent(Tools())
  {
    assert Keys(ListBranchesTool().inputSchema.properties) == ["projectId"];
    CreateBranchConsistent();
    DeleteBranchConsistent();
  }

  lemma CreateBranchConsistent()
    ensures Consistent(CreateBranchTool().inputSchema)
  {
    assert Keys(CreateBranchTool().inputSchema.properties) == ["projectId", "branchName", "ref"];
  }

  lemma DeleteBranchConsistent()
    ensures Consistent(DeleteBranchTool().inputSchema)
  {
    assert Keys(DeleteBranchTool().inputSchema.properties) == ["projectId", "branchName"];
  }

  /** The handler accepts exactly the advertised names, listed in the same
      order. */
  lemma CasesMatchTools()
    ensures Names(Tools()) == Cases
  {
  }

  /** The schema of `create_branch` advertises `main` as the default `ref`. */
  lemma DeclaredRef()
    ensures DeclaredDefault(Tools(), "create_branch", "ref") == Some(Str("main"))
  {
    DeclaredDefaultAt(Tools(), 1, 2);
  }

  /** When `ref` is left out, the branch is created from the default the
      schema advertises. */
  lemma DeclaredDefaultApplies(args: JsValue)
    requires args.Obj? && "ref" !in args.fields
    requires Coercible(Get(args, "projectId"))
    ensures DeclaredDefault(Tools(), "create_branch", "ref") == Some(BodyField(CreateBranchCase(args).value, "ref"))
  {
    DeclaredRef();
  }
}
