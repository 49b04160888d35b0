/** The merge-request discussion tools: listing and reading discussions,
    opening one (optionally on a diff line), replying, editing and deleting
    notes, and resolving. */
module DiscussionTools {
  import opened Results
  import opened Js
  import opened Http
  import opened Schema
  import Client

  function ListDiscussionsTool(): Tool {
    Tool("list_merge_request_discussions", InputSchema(
        [ Field("projectId", StringType),
          Field("mergeRequestIid", NumberType) ],
        ["projectId", "mergeRequestIid"]))
  }

  function GetDiscussionTool(): Tool {
    Tool("get_merge_request_discussion", InputSchema(
        [ Field("projectId", StringType),
          Field("mergeRequestIid", NumberType),
          Field("discussionId", StringType) ],
        ["projectId", "mergeRequestIid", "discussionId"]))
  }

  /** The nested properties of `position`, a diff location; `position_type`
      admits only `text`. */
  function PositionProperties(): seq<Property> {
    [ Field("base_sha", StringType),
      Field("start_sha", StringType),
      Field("head_sha", StringType),
      Field("old_path", StringType),
      Field("new_path", StringType),
      Property("position_type", StringType, None, ["text"], []),
      Field("old_line", NumberType),
      Field("new_line", NumberType) ]
  }

  function CreateDiscussionTool(): Tool {
    Tool("create_merge_request_discussion", InputSchema(
        [ Field("projectId", StringType),
          Field("mergeRequestIid", NumberType),
          Field("body", StringType),
          Property("position", ObjectType, None, [], PositionProperties()) ],
        ["projectId", "mergeRequestIid", "body"]))
  }

  function AddNoteTool(): Tool {
    Tool("add_note_to_discussion", InputSchema(
        [ Field("projectId", StringType),
          Field("mergeRequestIid", NumberType),
          Field("discussionId", StringType),
          Field("body", StringType) ],
        ["projectId", "mergeRequestIid", "discussionId", "body"]))
  }

  function UpdateNoteTool(): Tool {
    Tool("update_discussion_note", InputSchema(
        [ Field("projectId", StringType),
          Field("mergeRequestIid", NumberType),
          Field("discussionId", StringType),
          Field("noteId", NumberType),
          Field("body", StringType) ],
        ["projectId", "mergeRequestIid", "discussionId", "noteId", "body"]))
  }

  function DeleteNoteTool(): Tool {
    Tool("delete_discussion_note", InputSchema(
        [ Field("projectId", StringType),
          Field("mergeRequestIid", NumberType),
          Field("discussionId", StringType),
          Field("noteId", NumberType) ],
        ["projectId", "mergeRequestIid", "discussionId", "noteId"]))
  }

  function ResolveDiscussionTool(): Tool {
    Tool("resolve_discussion", InputSchema(
        [ Field("projectId", StringType),
          Field("mergeRequestIid", NumberType),
          Field("discussionId", StringType),
          Defaulted("resolved", BooleanType, Bool(true)) ],
        ["projectId", "mergeRequestIid", "discussionId"]))
  }

  /** The descriptors the family advertises. */
  function Tools(): (t: seq<Tool>)
    ensures ProjectScoped(t)
  {
    [ ListDiscussionsTool(), GetDiscussionTool(), CreateDiscussionTool(), AddNoteTool(),
      UpdateNoteTool(), DeleteNoteTool(), ResolveDiscussionTool() ]
  }

  /** The names the handler's `switch` accepts. */
  const Cases: seq<string> :=
    [ "list_merge_request_discussions", "get_merge_request_discussion", "create_merge_request_discussion",
      "add_note_to_discussion", "update_discussion_note", "delete_discussion_note", "resolve_discussion" ]

  function UnknownTool(name: string): Exception {
    ErrorObject("Unknown discussion tool: " + name)
  }

  /** `args.mergeRequestIid`, as the path shows it. */
  function Iid(args: JsValue): string {
    Client.Raw(Get(args, "mergeRequestIid"))
  }

  /** `args.discussionId`, as the path shows it. */
  function DiscussionId(args: JsValue): string {
    Client.Raw(Get(args, "discussionId"))
  }

  /** `args.noteId`, as the path shows it. */
  function NoteId(args: JsValue): string {
    Client.Raw(Get(args, "noteId"))
  }

  /** `case 'list_merge_request_discussions'` */
  function ListDiscussionsCase(args: JsValue): (r: Result<HttpRequest, Exception>)
    ensures r.Failure? <==>
      Nullish(args) || !Coercible(Get(args, "projectId")) || !Coercible(Get(args, "mergeRequestIid"))
    ensures Nullish(args) ==> r == Failure(ErrorObject(ReadError(args, "projectId")))
    ensures !Nullish(args) && r.Failure? ==> r.error == ConversionError
    ensures r.Success? ==> var q := r.value;
      && q.verb == GET && q.params == map[] && q.body == None
      && Client.ScopedTo(q, Get(args, "projectId"))
      && ('/' !in Iid(args) ==>
            Segments(q.path) == ["projects", Client.Encoded(Get(args, "projectId"))]
                                + ["merge_requests", Iid(args), "discussions"])
  {
    var projectId :- Client.ProjectArgument(args);
    Client.ListDiscussions(projectId, Get(args, "mergeRequestIid"))
  }

  /** `case 'get_merge_request_discussion'` */
  function GetDiscussionCase(args: JsValue): (r: Result<HttpRequest, Exception>)
    ensures r.Failure? <==>
      Nullish(args) || !Coercible(Get(args, "projectId")) || !Coercible(Get(args, "mergeRequestIid"))
      || !Coercible(Get(args, "discussionId"))
    ensures Nullish(args) ==> r == Failure(ErrorObject(ReadError(args, "projectId")))
    ensures !Nullish(args) && r.Failure? ==> r.error == ConversionError
    ensures r.Success? ==> var q := r.value;
      && q.verb == GET && q.params == map[] && q.body == None
      && Client.ScopedTo(q, Get(args, "projectId"))
      && ('/' !in Iid(args) && '/' !in DiscussionId(args) ==>
            Segments(q.path) == ["projects", Client.Encoded(Get(args, "projectId"))]
                                + ["merge_requests", Iid(args), "discussions", DiscussionId(args)])
  {
    var projectId :- Client.ProjectArgument(args);
    Client.GetDiscussion(projectId, Get(args, "mergeRequestIid"), Get(args, "discussionId"))
  }

  /** `case 'create_merge_request_discussion'`: the position is forwarded as
      it came and sent only when truthy. */
  function CreateDiscussionCase(args: JsValue): (r: Result<HttpRequest, Exception>)
    ensures r.Failure? <==>
      Nullish(args) || !Coercible(Get(args, "projectId")) || !Coercible(Get(args, "mergeRequestIid"))
    ensures Nullish(args) ==> r == Failure(ErrorObject(ReadError(args, "projectId")))
    ensures !Nullish(args) && r.Failure? ==> r.error == ConversionError
    ensures r.Success? ==> var q := r.value;
      && q.verb == POST && q.params == map[]
      && Client.ScopedTo(q, Get(args, "projectId"))
      && ('/' !in Iid(args) ==>
            Segments(q.path) == ["projects", Client.Encoded(Get(args, "projectId"))]
                                + ["merge_requests", Iid(args), "discussions"])
      && BodyField(q, "body") == Get(args, "body")
      && (BodyKeys(q) == if Truthy(Get(args, "position")) then {"body", "position"} else {"body"})
      && (Truthy(Get(args, "position")) ==> BodyField(q, "position") == Get(args, "position"))
  {
    var projectId :- Client.ProjectArgument(args);
    var q :- Client.CreateDiscussion(projectId, Get(args, "mergeRequestIid"), Get(args, "body"), Get(args, "position"));
    BodyKeysOfDiscussion(BodyKeys(q), Truthy(Get(args, "position")));
    Success(q)
  }

  /** The key set of a new discussion's body, from what the client states
      about each key. */
  lemma BodyKeysOfDiscussion(keys: set<string>, withPosition: bool)
    requires "body" in keys && keys <= {"body", "position"}
    requires "position" in keys <==> withPosition
    ensures keys == if withPosition then {"body", "position"} else {"body"}
  {
  }

  /** `case 'add_note_to_discussion'` */
  function AddNoteCase(args: JsValue): (r: Result<HttpRequest, Exception>)
    ensures r.Failure? <==>
      Nullish(args) || !Coercible(Get(args, "projectId")) || !Coercible(Get(args, "mergeRequestIid"))
      || !Coercible(Get(args, "discussionId"))
    ensures Nullish(args) ==> r == Failure(ErrorObject(ReadError(args, "projectId")))
    ensures !Nullish(args) && r.Failure? ==> r.error == ConversionError
    ensures r.Success? ==> var q := r.value;
      && q.verb == POST && q.params == map[]
      && Client.ScopedTo(q, Get(args, "projectId"))
      && ('/' !in Iid(args) && '/' !in DiscussionId(args) ==>
            Segments(q.path) == ["projects", Client.Encoded(Get(args, "projectId"))]
                                + ["merge_requests", Iid(args), "discussions", DiscussionId(args), "notes"])
      && BodyKeys(q) == {"body"} && BodyField(q, "body") == Get(args, "body")
  {
    var projectId :- Client.ProjectArgument(args);
    Client.AddNoteToDiscussion(projectId, Get(args, "mergeRequestIid"), Get(args, "discussionId"),
      Get(args, "body"))
  }

  /** `case 'update_discussion_note'` */
  function UpdateNoteCase(args: JsValue): (r: Result<HttpRequest, Exception>)
    ensures r.Failure? <==>
      Nullish(args) || !Coercible(Get(args, "projectId")) || !Coercible(Get(args, "mergeRequestIid"))
      || !Coercible(Get(args, "discussionId")) || !Coercible(Get(args, "noteId"))
    ensures Nullish(args) ==> r == Failure(ErrorObject(ReadError(args, "projectId")))
    ensures !Nullish(args) && r.Failure? ==> r.error == ConversionError
    ensures r.Success? ==> var q := r.value;
      && q.verb == PUT && q.params == map[]
      && Client.ScopedTo(q, Get(args, "projectId"))
      && ('/' !in Iid(args) && '/' !in DiscussionId(args) && '/' !in NoteId(args) ==>
            Segments(q.path) == ["projects", Client.Encoded(Get(args, "projectId"))]
                                + ["merge_requests", Iid(args), "discussions", DiscussionId(args),
                                   "notes", NoteId(args)])
      && BodyKeys(q) == {"body"} && BodyField(q, "body") == Get(args, "body")
  {
    var projectId :- Client.ProjectArgument(args);
    Client.UpdateDiscussionNote(projectId, Get(args, "mergeRequestIid"), Get(args, "discussionId"),
      Get(args, "noteId"), Get(args, "body"))
  }

  /** `case 'delete_discussion_note'` */
  function DeleteNoteCase(args: JsValue): (r: Result<HttpRequest, Exception>)
    ensures r.Failure? <==>
      Nullish(args) || !Coercible(Get(args, "projectId")) || !Coercible(Get(args, "mergeRequestIid"))
      || !Coercible(Get(args, "discussionId")) || !Coercible(Get(args, "noteId"))
    ensures Nullish(args) ==> r == Failure(ErrorObject(ReadError(args, "projectId")))
    ensures !Nullish(args) && r.Failure? ==> r.error == ConversionError
    ensures r.Success? ==> var q := r.value;
      && q.verb == DELETE && q.params == map[] && q.body == None
      && Client.ScopedTo(q, Get(args, "projectId"))
      && ('/' !in Iid(args) && '/' !in DiscussionId(args) && '/' !in NoteId(args) ==>
            Segments(q.path) == ["projects", Client.Encoded(Get(args, "projectId"))]
                                + ["merge_requests", Iid(args), "discussions", DiscussionId(args),
                                   "notes", NoteId(args)])
  {
    var projectId :- Client.ProjectArgument(args);
    Client.DeleteDiscussionNote(projectId, Get(args, "mergeRequestIid"), Get(args, "discussionId"),
      Get(args, "noteId"))
  }

  /** `case 'resolve_discussion'`: `args.resolved ?? true`, so only an absent
      or null flag becomes `true`; an explicit `false` unresolves. */
  function ResolveCase(args: JsValue): (r: Result<HttpRequest, Exception>)
    ensures r.Failure? <==>
      Nullish(args) || !Coercible(Get(args, "projectId")) || !Coercible(Get(args, "mergeRequestIid"))
      || !Coercible(Get(args, "discussionId"))
    ensures Nullish(args) ==> r == Failure(ErrorObject(ReadError(args, "projectId")))
    ensures !Nullish(args) && r.Failure? ==> r.error == ConversionError
    ensures r.Success? ==> var q := r.value;
      && q.verb == PUT && q.params == map[]
      && Client.ScopedTo(q, Get(args, "projectId"))
      && ('/' !in Iid(args) && '/' !in DiscussionId(args) ==>
            Segments(q.path) == ["projects", Client.Encoded(Get(args, "projectId"))]
                                + ["merge_requests", Iid(args), "discussions", DiscussionId(args)])
      && BodyKeys(q) == {"resolved"}
      && BodyField(q, "resolved")
         == (if Nullish(Get(args, "resolved")) then Bool(true) else Get(args, "resolved"))
  {
    var projectId :- Client.ProjectArgument(args);
    Client.ResolveDiscussion(projectId, Get(args, "mergeRequestIid"), Get(args, "discussionId"),
      Coalesce(Get(args, "resolved"), Bool(true)))
  }

  /** The request a tool call sends: the `switch` of `handleDiscussionTool`.
      An unknown name raises an error naming it, before any argument is read. */
  function Request(name: string, args: JsValue): (r: Result<HttpRequest, Exception>)
    ensures name !in Cases ==> r == Failure(UnknownTool(name))
    ensures name in Cases && Nullish(args) ==> r == Failure(ErrorObject(ReadError(args, "projectId")))
    ensures name == "list_merge_request_discussions" ==> r == ListDiscussionsCase(args)
    ensures name == "get_merge_request_discussion" ==> r == GetDiscussionCase(args)
    ensures name == "create_merge_request_discussion" ==> r == CreateDiscussionCase(args)
    ensures name == "add_note_to_discussion" ==> r == AddNoteCase(args)
    ensures name == "update_discussion_note" ==> r == UpdateNoteCase(args)
    ensures name == "delete_discussion_note" ==> r == DeleteNoteCase(args)
    ensures name == "resolve_discussion" ==> r == ResolveCase(args)
  {
    if name == "list_merge_request_discussions" then ListDiscussionsCase(args)
    else if name == "get_merge_request_discussion" then GetDiscussionCase(args)
    else if name == "create_merge_request_discussion" then CreateDiscussionCase(args)
    else if name == "add_note_to_discussion" then AddNoteCase(args)
    else if name == "update_discussion_note" then UpdateNoteCase(args)
    else if name == "delete_discussion_note" then DeleteNoteCase(args)
    else if name == "resolve_discussion" then ResolveCase(args)
    else Failure(UnknownTool(name))
  }

  /** `handleDiscussionTool`: builds the request and hands it to the backend,
      whose response or error is the tool's result. */
  function Handle(name: string, args: JsValue, backend: HttpRequest -> Result<JsValue, Exception>): (r: Result<JsValue, Exception>)
    ensures name !in Cases ==> r == Failure(UnknownTool(name))
    ensures name in Cases && Nullish(args) ==> r == Failure(ErrorObject(ReadError(args, "projectId")))
    ensures name in Cases && !Nullish(args) && !Coercible(Get(args, "projectId")) ==> r == Failure(ConversionError)
    ensures Request(name, args).Failure? ==> r == Failure(Request(name, args).error)
    ensures Request(name, args).Success? ==> r == backend(Request(name, args).value)
  {
    var request :- Request(name, args);
    backend(request)
  }

  /** Every argument schema lists only declared properties as required. */
  lemma ToolsConsistent()
    ensures AllConsistent(Tools())
  {
    assert Keys(ListDiscussionsTool().inputSchema.properties) == ["projectId", "mergeRequestIid"];
    GetDiscussionConsistent();
    CreateDiscussionConsistent();
    AddNoteConsistent();
    UpdateNoteConsistent();
    DeleteNoteConsistent();
    ResolveConsistent();
  }

  lemma GetDiscussionConsistent()
    ensures Consistent(GetDiscussionTool().inputSchema)
  {
    assert Keys(GetDiscussionTool().inputSchema.properties) == ["projectId", "mergeRequestIid", "discussionId"];
  }

  lemma CreateDiscussionConsistent()
    ensures Consistent(CreateDiscussionTool().inputSchema)
  {
    assert Keys(CreateDiscussionTool().inputSchema.properties)
        == ["projectId", "mergeRequestIid", "body", "position"];
  }

  lemma AddNoteConsistent()
    ensures Consistent(AddNoteTool().inputSchema)
  {
    assert Keys(AddNoteTool().inputSchema.properties)
        == ["projectId", "mergeRequestIid", "discussionId", "body"];
  }

  lemma UpdateNoteConsistent()
    ensures Consistent(UpdateNoteTool().inputSchema)
  {
    assert Keys(UpdateNoteTool().inputSchema.properties)
        == ["projectId", "mergeRequestIid", "discussionId", "noteId", "body"];
  }

  lemma DeleteNoteConsistent()
    ensures Consistent(DeleteNoteTool().inputSchema)
  {
    assert Keys(DeleteNoteTool().inputSchema.properties)
        == ["projectId", "mergeRequestIid", "discussionId", "noteId"];
  }

  lemma ResolveConsistent()
    ensures Consistent(ResolveDiscussionTool().inputSchema)
  {
    assert Keys(ResolveDiscussionTool().inputSchema.properties)
        == ["projectId", "mergeRequestIid", "discussionId", "resolved"];
  }

  /** The diff position's own properties have distinct keys. */
  lemma PositionKeysDistinct()
    ensures Distinct(Keys(PositionProperties()))
  {
    assert Keys(PositionProperties())
        == ["base_sha", "start_sha", "head_sha", "old_path", "new_path", "position_type", "old_line", "new_line"];
  }

  /** The diff position confines `position_type` to `text`. */
  lemma PositionTypeIsText()
    ensures PropertyOf(PositionProperties(), "position_type").Some?
    ensures PropertyOf(PositionProperties(), "position_type").value.choices == ["text"]
  {
    FirstKeyAt(PositionProperties(), "position_type", 5);
  }

  /** The handler accepts exactly the advertised names, listed in the same
      order. */
  lemma CasesMatchTools()
    ensures Names(Tools()) == Cases
  {
  }

  /** `resolve_discussion` advertises `true` as the default flag. */
  lemma DeclaredResolved()
    ensures DeclaredDefault(Tools(), "resolve_discussion", "resolved") == Some(Bool(true))
  {
    DeclaredDefaultAt(Tools(), 6, 3);
  }

  /** When `resolved` is left out, the discussion is resolved, as the schema
      advertises. */
  lemma ResolvedDefaultApplies(args: JsValue)
    requires args.Obj? && "resolved" !in args.fields
    requires Coercible(Get(args, "projectId")) && Coercible(Get(args, "mergeRequestIid"))
    requires Coercible(Get(args, "discussionId"))
    ensures DeclaredDefault(Tools(), "resolve_discussion", "resolved") == Some(BodyField(ResolveCase(args).value, "resolved"))
  {
    DeclaredResolved();
  }
}
