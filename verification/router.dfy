/** The server's `CallTool` handler: the combined tool list, the routing of a
    tool name to the handler of its domain, and the response envelope that
    turns a handler's result or error into MCP content. */
module Router {
  import opened Results
  import opened Js
  import opened Http
  import opened Schema
  import RepositoryTools
  import BranchTools
  import MergeRequestTools
  import FileTools
  import DiscussionTools

  /** The five tool families, in the order the server lists and routes them. */
  datatype Domain = Repository | Branches | MergeRequests | Files | Discussions

  /** The tool list the server advertises: each family's descriptors, in
      family order. */
  function AllTools(): (t: seq<Tool>)
    ensures ProjectScoped(t)
  {
    var r, b, m, f, d := RepositoryTools.Tools(), BranchTools.Tools(), MergeRequestTools.Tools(),
                         FileTools.Tools(), DiscussionTools.Tools();
    ProjectScopedAppend(r, b);
    ProjectScopedAppend(r + b, m);
    ProjectScopedAppend(r + b + m, f);
    ProjectScopedAppend(r + b + m + f, d);
    r + b + m + f + d
  }

  /** The names the router itself lists for each family; the handlers keep
      their own copies in their `switch`es. */
  function RoutedNames(d: Domain): seq<string> {
    match d
    case Repository => ["list_projects", "get_project"]
    case Branches => ["list_branches", "create_branch", "delete_branch"]
    case MergeRequests => ["create_merge_request", "list_merge_requests", "merge_merge_request"]
    case Files => ["create_file", "update_file", "get_file", "delete_file"]
    case Discussions =>
      [ "list_merge_request_discussions", "get_merge_request_discussion", "create_merge_request_discussion",
        "add_note_to_discussion", "update_discussion_note", "delete_discussion_note", "resolve_discussion" ]
  }

  /** The names a family's handler accepts. */
  function HandlerCases(d: Domain): seq<string> {
    match d
    case Repository => RepositoryTools.Cases
    case Branches => BranchTools.Cases
    case MergeRequests => MergeRequestTools.Cases
    case Files => FileTools.Cases
    case Discussions => DiscussionTools.Cases
  }

  /** All names the handlers accept, in family order. */
  const AllCases: seq<string> :=
    RepositoryTools.Cases + BranchTools.Cases + MergeRequestTools.Cases + FileTools.Cases + DiscussionTools.Cases

  /** The first family, in the order of the `if` chain, whose list holds the name. */
  function Route(name: string): (d: Option<Domain>)
    ensures d.Some? ==> name in RoutedNames(d.value)
    ensures d.None? <==> forall e: Domain :: name !in RoutedNames(e)
  {
    if name in RoutedNames(Repository) then Some(Repository)
    else if name in RoutedNames(Branches) then Some(Branches)
    else if name in RoutedNames(MergeRequests) then Some(MergeRequests)
    else if name in RoutedNames(Files) then Some(Files)
    else if name in RoutedNames(Discussions) then Some(Discussions)
    else None
  }

  /** The family's handler. */
  function Dispatch(d: Domain, name: string, args: JsValue, backend: HttpRequest -> Result<JsValue, Exception>)
    : Result<JsValue, Exception>
  {
    match d
    case Repository => RepositoryTools.Handle(name, args, backend)
    case Branches => BranchTools.Handle(name, args, backend)
    case MergeRequests => MergeRequestTools.Handle(name, args, backend)
    case Files => FileTools.Handle(name, args, backend)
    case Discussions => DiscussionTools.Handle(name, args, backend)
  }

  /** What the `try` block ends with: the handler's result, or the error it
      or the router raised. */
  function Outcome(name: string, args: JsValue, backend: HttpRequest -> Result<JsValue, Exception>)
    : (r: Result<JsValue, Exception>)
    ensures Route(name).None? ==> r == Failure(ErrorObject("Unknown tool: " + name))
    ensures Route(name).Some? ==> r == Dispatch(Route(name).value, name, args, backend)
  {
    match Route(name)
    case None => Failure(ErrorObject("Unknown tool: " + name))
    case Some(d) => Dispatch(d, name, args, backend)
  }

  /** One item of a tool response's `content`; the bridge only emits text. */
  datatype Content = Text(text: string)

  /** A tool response: its content and the `isError` flag, absent on success. */
  datatype CallResult = CallResult(content: seq<Content>, isError: Option<bool>)

  /** `error instanceof Error ? error.message : 'Unknown error occurred'` */
  function ErrorMessage(e: Exception): (m: string)
    ensures e.ErrorObject? ==> m == e.message
    ensures e.ThrownValue? ==> m == "Unknown error occurred"
  {
    match e
    case ErrorObject(message) => message
    case ThrownValue(_) => "Unknown error occurred"
  }

  /** The envelope: a result becomes its JSON text, with no `isError`; an
      error becomes `Error: ` and its message, flagged as an error. Exactly one
      content item either way. */
  function Envelope(outcome: Result<JsValue, Exception>, serialize: JsValue -> string): (r: CallResult)
    ensures |r.content| == 1
    ensures r.isError.Some? <==> outcome.Failure?
    ensures r.isError.Some? ==> r.isError.value
    ensures outcome.Success? ==> r.content[0].text == serialize(outcome.value)
    ensures outcome.Failure? ==> r.content[0].text == "Error: " + ErrorMessage(outcome.error)
  {
    match outcome
    case Success(v) => CallResult([Text(serialize(v))], None)
    case Failure(e) => CallResult([Text("Error: " + ErrorMessage(e))], Some(true))
  }

  /** The `CallTool` request handler. The handler never throws: every error
      ends up inside the envelope. `serialize` stands for
      `JSON.stringify(result, null, 2)`. */
  function CallTool(name: string, args: JsValue, backend: HttpRequest -> Result<JsValue, Exception>,
                    serialize: JsValue -> string): (r: CallResult)
    ensures |r.content| == 1
    ensures Route(name).None? ==> r == CallResult([Text("Error: " + ("Unknown tool: " + name))], Some(true))
    ensures r.isError.Some? <==> Outcome(name, args, backend).Failure?
  {
    Envelope(Outcome(name, args, backend), serialize)
  }

  /** The router's lists are the handlers' `switch` names, family by family. */
  lemma RoutedNamesAreHandlerCases(d: Domain)
    ensures RoutedNames(d) == HandlerCases(d)
  {
  }

  /** Each family's descriptors carry exactly its handler's names. */
  lemma {:induction false} DescriptorNames()
    ensures Names(AllTools()) == AllCases
  {
    RepositoryTools.CasesMatchTools();
    BranchTools.CasesMatchTools();
    MergeRequestTools.CasesMatchTools();
    FileTools.CasesMatchTools();
    DiscussionTools.CasesMatchTools();
    var r, b, m, f, d := RepositoryTools.Tools(), BranchTools.Tools(), MergeRequestTools.Tools(),
                         FileTools.Tools(), DiscussionTools.Tools();
    NamesAppend(r, b);
    NamesAppend(r + b, m);
    NamesAppend(r + b + m, f);
    NamesAppend(r + b + m + f, d);
  }

  /** No two advertised tools share a name: each family's names are
      distinct, and a name shared by two families would be routed to both. */
  lemma NamesUnique()
    ensures Distinct(Names(AllTools()))
  {
    DescriptorNames();
    var r, b, m, f := RepositoryTools.Cases, BranchTools.Cases, MergeRequestTools.Cases, FileTools.Cases;
    assert Distinct(r) && Distinct(b) && Distinct(m) && Distinct(f) && Distinct(DiscussionTools.Cases);
    forall x | x in r ensures x !in b { Disjoint(Repository, Branches, x); }
    DistinctAppend(r, b);
    forall x | x in r + b ensures x !in m {
      Disjoint(Repository, MergeRequests, x);
      Disjoint(Branches, MergeRequests, x);
    }
    DistinctAppend(r + b, m);
    forall x | x in r + b + m ensures x !in f {
      Disjoint(Repository, Files, x);
      Disjoint(Branches, Files, x);
      Disjoint(MergeRequests, Files, x);
    }
    DistinctAppend(r + b + m, f);
    forall x | x in r + b + m + f ensures x !in DiscussionTools.Cases {
      Disjoint(Repository, Discussions, x);
      Disjoint(Branches, Discussions, x);
      Disjoint(MergeRequests, Discussions, x);
      Disjoint(Files, Discussions, x);
    }
    DistinctAppend(r + b + m + f, DiscussionTools.Cases);
  }

  /** No name belongs to two families. */
  lemma Disjoint(d: Domain, e: Domain, x: string)
    requires d != e
    ensures !(x in HandlerCases(d) && x in HandlerCases(e))
  {
    if x in HandlerCases(d) && x in HandlerCases(e) {
      RoutesToOwner(x, d);
      RoutesToOwner(x, e);
    }
  }

  /** A name is routed exactly when a tool by that name is advertised. */
  lemma RoutedIffAdvertised(name: string)
    ensures Route(name).Some? <==> name in Names(AllTools())
  {
    DescriptorNames();
  }

  /** A routed name reaches a handler that accepts it, so the handlers'
      own unknown-tool errors are never raised through the router; and the
      family a name is routed to is the one whose handler accepts it. */
  lemma RoutesToOwner(name: string, d: Domain)
    ensures Route(name) == Some(d) <==> name in HandlerCases(d)
  {
    match d
    case Repository =>
    case Branches => BranchesOwn(name);
    case MergeRequests => MergeRequestsOwn(name);
    case Files => FilesOwn(name);
    case Discussions => DiscussionsOwn(name);
  }

  lemma BranchesOwn(name: string)
    ensures name in BranchTools.Cases ==> name !in RoutedNames(Repository)
  {
  }

  lemma MergeRequestsOwn(name: string)
    ensures name in MergeRequestTools.Cases ==>
      name !in RoutedNames(Repository) && name !in RoutedNames(Branches)
  {
  }

  lemma FilesOwn(name: string)
    ensures name in FileTools.Cases ==>
      name !in RoutedNames(Repository) && name !in RoutedNames(Branches) && name !in RoutedNames(MergeRequests)
  {
  }

  lemma DiscussionsOwn(name: string)
    ensures name in DiscussionTools.Cases ==>
      name !in RoutedNames(Repository) && name !in RoutedNames(Branches)
      && name !in RoutedNames(MergeRequests) && name !in RoutedNames(Files)
  {
  }

  /** Every advertised argument schema is consistent. */
  lemma AllToolsConsistent()
    ensures AllConsistent(AllTools())
  {
    RepositoryTools.ToolsConsistent();
    BranchTools.ToolsConsistent();
    MergeRequestTools.ToolsConsistent();
    FileTools.ToolsConsistent();
    DiscussionTools.ToolsConsistent();
    var r, b, m, f, d := RepositoryTools.Tools(), BranchTools.Tools(), MergeRequestTools.Tools(),
                         FileTools.Tools(), DiscussionTools.Tools();
    AllConsistentAppend(r, b);
    AllConsistentAppend(r + b, m);
    AllConsistentAppend(r + b + m, f);
    AllConsistentAppend(r + b + m + f, d);
  }

  /** A thrown value that is not an `Error` is reported with the fixed
      message, whatever it was. */
  lemma NonErrorThrowIsGeneric(v: JsValue, serialize: JsValue -> string)
    ensures Envelope(Failure(ThrownValue(v)), serialize)
         == CallResult([Text("Error: " + "Unknown error occurred")], Some(true))
  {
  }

  /** A successful call wraps the handler's value, serialised, with no error flag. */
  lemma SuccessEnvelope(name: string, args: JsValue, backend: HttpRequest -> Result<JsValue, Exception>,
                        serialize: JsValue -> string)
    requires Outcome(name, args, backend).Success?
    ensures CallTool(name, args, backend, serialize)
         == CallResult([Text(serialize(Outcome(name, args, backend).value))], None)
  {
  }

  /** A call without arguments to any tool but `list_projects` fails on
      reading `projectId`, and the envelope carries the TypeError's message. */
  lemma MissingArgumentsReported(name: string, backend: HttpRequest -> Result<JsValue, Exception>,
                                 serialize: JsValue -> string)
    requires Route(name).Some? && name != "list_projects"
    ensures CallTool(name, Undefined, backend, serialize)
         == CallResult([Text("Error: " + ReadError(Undefined, "projectId"))], Some(true))
  {
    var d := Route(name).value;
    RoutesToOwner(name, d);
    assert Outcome(name, Undefined, backend) == Failure(ErrorObject(ReadError(Undefined, "projectId")));
  }

  /** A call whose `projectId` cannot be converted to a string, such as an
      object with its own `toString`, to any tool but `list_projects` fails
      while the path is built, and the envelope carries the TypeError's
      message. */
  lemma UnconvertibleProjectIdReported(name: string, args: JsValue, backend: HttpRequest -> Result<JsValue, Exception>,
                                       serialize: JsValue -> string)
    requires Route(name).Some? && name != "list_projects"
    requires !Nullish(args) && !Coercible(Get(args, "projectId"))
    ensures CallTool(name, args, backend, serialize)
         == CallResult([Text("Error: " + ConversionError.message)], Some(true))
  {
    var d := Route(name).value;
    RoutesToOwner(name, d);
    assert Outcome(name, args, backend) == Failure(ConversionError);
  }

  /** `list_projects` answers the same whatever arguments come with it. */
  lemma ListProjectsIgnoresArguments(a: JsValue, b: JsValue, backend: HttpRequest -> Result<JsValue, Exception>,
                                     serialize: JsValue -> string)
    ensures CallTool("list_projects", a, backend, serialize) == CallTool("list_projects", b, backend, serialize)
  {
    RepositoryTools.ListProjectsIgnoresArguments(a, b, backend);
  }
}
