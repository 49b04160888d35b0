/** The merge-request tools: `create_merge_request`, `list_merge_requests`
    and `merge_merge_request`. */
module MergeRequestTools {
  import opened Results
  import opened Js
  import opened Http
  import opened Schema
  import Client

  function CreateMergeRequestTool(): Tool {
    Tool("create_merge_request", InputSchema(
        [ Field("projectId", StringType),
          Field("sourceBranch", StringType),
          Defaulted("targetBranch", StringType, Str("main")),
          Field("title", StringType),
          Field("description", StringType) ],
        ["projectId", "sourceBranch", "title"]))
  }

  function ListMergeRequestsTool(): Tool {
    Tool("list_merge_requests", InputSchema(
        [ Field("projectId", StringType),
          Defaulted("state", StringType, Str("opened")) ],
        ["projectId"]))
  }

  function MergeMergeRequestTool(): Tool {
    Tool("merge_merge_request", InputSchema(
        [ Field("projectId", StringType),
          Field("mergeRequestIid", NumberType),
          Field("mergeCommitMessage", StringType) ],
        ["projectId", "mergeRequestIid"]))
  }

  /** The descriptors the family advertises. */
  function Tools(): (t: seq<Tool>)
    ensures ProjectScoped(t)
  {
    [CreateMergeRequestTool(), ListMergeRequestsTool(), MergeMergeRequestTool()]
  }

  /** The names the handler's `switch` accepts. */
  const Cases: seq<string> := ["create_merge_request", "list_merge_requests", "merge_merge_request"]

  function UnknownTool(name: string): Exception {
    ErrorObject("Unknown merge request tool: " + name)
  }

  /** `case 'create_merge_request'`: a falsy `targetBranch` becomes `main`
      here, and a falsy `description` becomes `""` in the client. */
  function CreateMergeRequestCase(args: JsValue): (r: Result<HttpRequest, Exception>)
    ensures r.Failure? <==> Nullish(args) || !Coercible(Get(args, "projectId"))
    ensures Nullish(args) ==> r == Failure(ErrorObject(ReadError(args, "projectId")))
    ensures !Nullish(args) && r.Failure? ==> r.error == ConversionError
    ensures r.Success? ==> var q := r.value;
      && q.verb == POST && q.params == map[]
      && Segments(q.path) == ["projects", Client.Encoded(Get(args, "projectId"))] + ["merge_requests"]
      && BodyKeys(q) == {"source_branch", "target_branch", "title", "description"}
      && BodyField(q, "source_branch") == Get(args, "sourceBranch")
      && BodyField(q, "target_branch")
         == (if Truthy(Get(args, "targetBranch")) then Get(args, "targetBranch") else Str("main"))
      && BodyField(q, "title") == Get(args, "title")
      && BodyField(q, "description")
         == (if Truthy(Get(args, "description")) then Get(args, "description") else Str(""))
  {
    var projectId :- Client.ProjectArgument(args);
    Client.CreateMergeRequest(projectId, Get(args, "sourceBranch"),
      Or(Get(args, "targetBranch"), Str("main")), Get(args, "title"), Get(args, "description"))
  }

  /** `case 'list_merge_requests'`: a falsy `state` becomes `opened`. */
  function ListMergeRequestsCase(args: JsValue): (r: Result<HttpRequest, Exception>)
    ensures r.Failure? <==> Nullish(args) || !Coercible(Get(args, "projectId"))
    ensures Nullish(args) ==> r == Failure(ErrorObject(ReadError(args, "projectId")))
    ensures !Nullish(args) && r.Failure? ==> r.error == ConversionError
    ensures r.Success? ==> var q := r.value;
      && q.verb == GET && q.body == None
      && Segments(q.path) == ["projects", Client.Encoded(Get(args, "projectId"))] + ["merge_requests"]
      && q.params.Keys == {"state"}
      && q.params["state"] == (if Truthy(Get(args, "state")) then Get(args, "state") else Str("opened"))
  {
    var projectId :- Client.ProjectArgument(args);
    Client.ListMergeRequests(projectId, Or(Get(args, "state"), Str("opened")))
  }

  /** `case 'merge_merge_request'`: the commit message is forwarded as it
      came, absent included. */
  function MergeMergeRequestCase(args: JsValue): (r: Result<HttpRequest, Exception>)
    ensures r.Failure? <==>
      Nullish(args) || !Coercible(Get(args, "projectId")) || !Coercible(Get(args, "mergeRequestIid"))
    ensures Nullish(args) ==> r == Failure(ErrorObject(ReadError(args, "projectId")))
    ensures !Nullish(args) && r.Failure? ==> r.error == ConversionError
    ensures r.Success? ==> var q := r.value;
      && q.verb == PUT && q.params == map[]
      && Client.ScopedTo(q, Get(args, "projectId"))
      && ('/' !in Client.Raw(Get(args, "mergeRequestIid")) ==>
            Segments(q.path) == ["projects", Client.Encoded(Get(args, "projectId"))]
                                + ["merge_requests", Client.Raw(Get(args, "mergeRequestIid")), "merge"])
      && BodyKeys(q) == {"merge_commit_message"}
      && BodyField(q, "merge_commit_message") == Get(args, "mergeCommitMessage")
  {
    var projectId :- Client.ProjectArgument(args);
    Client.MergeMergeRequest(projectId, Get(args, "mergeRequestIid"), Get(args, "mergeCommitMessage"))
  }

  /** The request a tool call sends: the `switch` of `handleMergeRequestTool`.
      An unknown name raises an error naming it, before any argument is read. */
  function Request(name: string, args: JsValue): (r: Result<HttpRequest, Exception>)
    ensures r == Failure(UnknownTool(name)) <==> name !in Cases
    ensures name in Cases && Nullish(args) ==> r == Failure(ErrorObject(ReadError(args, "projectId")))
    ensures name == "create_merge_request" ==> r == CreateMergeRequestCase(args)
    ensures name == "list_merge_requests" ==> r == ListMergeRequestsCase(args)
    ensures name == "merge_merge_request" ==> r == MergeMergeRequestCase(args)
  {
    if name == "create_merge_request" then CreateMergeRequestCase(args)
    else if name == "list_merge_requests" then ListMergeRequestsCase(args)
    else if name == "merge_merge_request" then MergeMergeRequestCase(args)
    else Failure(UnknownTool(name))
  }

  /** `handleMergeRequestTool`: builds the request and hands it to the
      backend, whose response or error is the tool's result. */
  function Handle(name: string, args: JsValue, backend: HttpRequest -> Result<JsValue, Exception>): (r: Result<JsValue, Exception>)
    ensures name !in Cases ==> r == Failure(UnknownTool(name))
    ensures name in Cases && Nullish(args) ==> r == Failure(ErrorObject(ReadError(args, "projectId")))
    ensures name in Cases && !Nullish(args) && !Coercible(Get(args, "projectId")) ==> r == Failure(ConversionError)
    ensures Request(name, args).Failure? ==> r == Failure(Request(name, args).error)
    ensures Request(name, args).Success? ==> r == backend(Request(name, args).value)
  {
    var request :- Request(name, args);
    backend(request)
  }

  /** Every argument schema lists only declared properties as required. */
  lemma ToolsConsistent()
    ensures AllConsistent(Tools())
  {
    CreateMergeRequestConsistent();
    ListMergeRequestsConsistent();
    MergeMergeRequestConsistent();
  }

  lemma CreateMergeRequestConsistent()
    ensures Consistent(CreateMergeRequestTool().inputSchema)
  {
    assert Keys(CreateMergeRequestTool().inputSchema.properties)
        == ["projectId", "sourceBranch", "targetBranch", "title", "description"];
  }

  lemma ListMergeRequestsConsistent()
    ensures Consistent(ListMergeRequestsTool().inputSchema)
  {
    assert Keys(ListMergeRequestsTool().inputSchema.properties) == ["projectId", "state"];
  }

  lemma MergeMergeRequestConsistent()
    ensures Consistent(MergeMergeRequestTool().inputSchema)
  {
    assert Keys(MergeMergeRequestTool().inputSchema.properties)
        == ["projectId", "mergeRequestIid", "mergeCommitMessage"];
  }

  /** The handler accepts exactly the advertised names, listed in the same
      order. */
  lemma CasesMatchTools()
    ensures Names(Tools()) == Cases
  {
  }

  /** The schema of `create_merge_request` advertises `main` as the default
      target branch. */
  lemma DeclaredTargetBranch()
    ensures DeclaredDefault(Tools(), "create_merge_request", "targetBranch") == Some(Str("main"))
  {
    DeclaredDefaultAt(Tools(), 0, 2);
  }

  /** When `targetBranch` is left out, the merge request targets the branch
      the schema advertises as default. */
  lemma TargetBranchDefaultApplies(args: JsValue)
    requires args.Obj? && "targetBranch" !in args.fields
    requires Coercible(Get(args, "projectId"))
    ensures DeclaredDefault(Tools(), "create_merge_request", "targetBranch")
         == Some(BodyField(CreateMergeRequestCase(args).value, "target_branch"))
  {
    DeclaredTargetBranch();
  }

  /** The schema of `list_merge_requests` advertises `opened` as the default
      state. */
  lemma DeclaredState()
    ensures DeclaredDefault(Tools(), "list_merge_requests", "state") == Some(Str("opened"))
  {
    DeclaredDefaultAt(Tools(), 1, 1);
  }

  /** When `state` is left out, the listing uses the state the schema
      advertises as default. */
  lemma StateDefaultApplies(args: JsValue)
    requires args.Obj? && "state" !in args.fields
    requires Coercible(Get(args, "projectId"))
    ensures DeclaredDefault(Tools(), "list_merge_requests", "state")
         == Some(ListMergeRequestsCase(args).value.params["state"])
  {
    DeclaredState();
  }
}
