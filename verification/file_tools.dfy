/** The file tools: `create_file`, `update_file`, `get_file` and
    `delete_file`. `get_file` is the one tool that reshapes the backend's
    answer: it decodes the Base64 `content` back to text. */
module FileTools {
  import opened Results
  import opened Js
  import opened Http
  import opened Schema
  import Utf8
  import Base64
  import UriEncoding
  import Client

  function CreateFileTool(): Tool {
    Tool("create_file", InputSchema(
        [ Field("projectId", StringType),
          Field("filePath", StringType),
          Field("content", StringType),
          Field("commitMessage", StringType),
          Defaulted("branch", StringType, Str("main")) ],
        ["projectId", "filePath", "content", "commitMessage"]))
  }

  function UpdateFileTool(): Tool {
    Tool("update_file", InputSchema(
        [ Field("projectId", StringType),
          Field("filePath", StringType),
          Field("content", StringType),
          Field("commitMessage", StringType),
          Defaulted("branch", StringType, Str("main")) ],
        ["projectId", "filePath", "content", "commitMessage"]))
  }

  function GetFileTool(): Tool {
    Tool("get_file", InputSchema(
        [ Field("projectId", StringType),
          Field("filePath", StringType),
          Defaulted("ref", StringType, Str("main")) ],
        ["projectId", "filePath"]))
  }

  function DeleteFileTool(): Tool {
    Tool("delete_file", InputSchema(
        [ Field("projectId", StringType),
          Field("filePath", StringType),
          Field("commitMessage", StringType),
          Defaulted("branch", StringType, Str("main")) ],
        ["projectId", "filePath", "commitMessage"]))
  }

  /** The descriptors the family advertises. */
  function Tools(): (t: seq<Tool>)
    ensures ProjectScoped(t)
  {
    [CreateFileTool(), UpdateFileTool(), GetFileTool(), DeleteFileTool()]
  }

  /** The names the handler's `switch` accepts. */
  const Cases: seq<string> := ["create_file", "update_file", "get_file", "delete_file"]

  function UnknownTool(name: string): Exception {
    ErrorObject("Unknown file tool: " + name)
  }

  /** `args.branch || 'main'`: the branch every write goes to. */
  function TargetBranch(args: JsValue): JsValue {
    Or(Get(args, "branch"), Str("main"))
  }

  /** `case 'create_file'`: the project is read first, so missing arguments
      fail on `projectId`; the path is converted next, and content that is
      not a string then fails in the Base64 conversion. */
  function CreateFileCase(args: JsValue): (r: Result<HttpRequest, Exception>)
    ensures r.Failure? <==>
      Nullish(args) || !Coercible(Get(args, "projectId")) || !Coercible(Get(args, "filePath"))
      || !Get(args, "content").Str?
    ensures Nullish(args) ==> r == Failure(ErrorObject(ReadError(args, "projectId")))
    ensures !Nullish(args) && !(Coercible(Get(args, "projectId")) && Coercible(Get(args, "filePath"))) ==>
      r == Failure(ConversionError)
    ensures !Nullish(args) && Coercible(Get(args, "projectId")) && Coercible(Get(args, "filePath"))
            && !Get(args, "content").Str? ==>
      r == Failure(ErrorObject(Client.BufferArgumentMessage))
    ensures r.Success? ==> var q := r.value;
      && q.verb == POST && q.params == map[]
      && Segments(q.path) == ["projects", Client.Encoded(Get(args, "projectId"))]
                             + ["repository", "files", Client.Encoded(Get(args, "filePath"))]
      && q.body.Some?
      && Client.WritesText(q.body.value, Get(args, "content").s, Get(args, "commitMessage"),
           if Truthy(Get(args, "branch")) then Get(args, "branch") else Str("main"))
  {
    var projectId :- Client.ProjectArgument(args);
    Client.CreateFile(projectId, Get(args, "filePath"), Get(args, "content"), Get(args, "commitMessage"),
      TargetBranch(args))
  }

  /** `case 'update_file'`: as `create_file`, with `PUT`. */
  function UpdateFileCase(args: JsValue): (r: Result<HttpRequest, Exception>)
    ensures r.Failure? <==>
      Nullish(args) || !Coercible(Get(args, "projectId")) || !Coercible(Get(args, "filePath"))
      || !Get(args, "content").Str?
    ensures Nullish(args) ==> r == Failure(ErrorObject(ReadError(args, "projectId")))
    ensures !Nullish(args) && !(Coercible(Get(args, "projectId")) && Coercible(Get(args, "filePath"))) ==>
      r == Failure(ConversionError)
    ensures !Nullish(args) && Coercible(Get(args, "projectId")) && Coercible(Get(args, "filePath"))
            && !Get(args, "content").Str? ==>
      r == Failure(ErrorObject(Client.BufferArgumentMessage))
    ensures r.Success? ==> var q := r.value;
      && q.verb == PUT && q.params == map[]
      && Segments(q.path) == ["projects", Client.Encoded(Get(args, "projectId"))]
                             + ["repository", "files", Client.Encoded(Get(args, "filePath"))]
      && q.body.Some?
      && Client.WritesText(q.body.value, Get(args, "content").s, Get(args, "commitMessage"),
           if Truthy(Get(args, "branch")) then Get(args, "branch") else Str("main"))
  {
    var projectId :- Client.ProjectArgument(args);
    Client.UpdateFile(projectId, Get(args, "filePath"), Get(args, "content"), Get(args, "commitMessage"),
      TargetBranch(args))
  }

  /** The request of `case 'get_file'`: a falsy `ref` becomes `main`. */
  function GetFileCase(args: JsValue): (r: Result<HttpRequest, Exception>)
    ensures r.Failure? <==>
      Nullish(args) || !Coercible(Get(args, "projectId")) || !Coercible(Get(args, "filePath"))
    ensures Nullish(args) ==> r == Failure(ErrorObject(ReadError(args, "projectId")))
    ensures !Nullish(args) && r.Failure? ==> r.error == ConversionError
    ensures r.Success? ==> var q := r.value;
      && q.verb == GET && q.body == None
      && Segments(q.path) == ["projects", Client.Encoded(Get(args, "projectId"))]
                             + ["repository", "files", Client.Encoded(Get(args, "filePath"))]
      && q.params.Keys == {"ref"}
      && q.params["ref"] == (if Truthy(Get(args, "ref")) then Get(args, "ref") else Str("main"))
  {
    var projectId :- Client.ProjectArgument(args);
    Client.GetFile(projectId, Get(args, "filePath"), Or(Get(args, "ref"), Str("main")))
  }

  /** `case 'delete_file'`: a falsy `branch` becomes `main`. */
  function DeleteFileCase(args: JsValue): (r: Result<HttpRequest, Exception>)
    ensures r.Failure? <==>
      Nullish(args) || !Coercible(Get(args, "projectId")) || !Coercible(Get(args, "filePath"))
    ensures Nullish(args) ==> r == Failure(ErrorObject(ReadError(args, "projectId")))
    ensures !Nullish(args) && r.Failure? ==> r.error == ConversionError
    ensures r.Success? ==> var q := r.value;
      && q.verb == DELETE && q.params == map[]
      && Segments(q.path) == ["projects", Client.Encoded(Get(args, "projectId"))]
                             + ["repository", "files", Client.Encoded(Get(args, "filePath"))]
      && BodyKeys(q) == {"branch", "commit_message"}
      && BodyField(q, "commit_message") == Get(args, "commitMessage")
      && BodyField(q, "branch") == (if Truthy(Get(args, "branch")) then Get(args, "branch") else Str("main"))
  {
    var projectId :- Client.ProjectArgument(args);
    Client.DeleteFile(projectId, Get(args, "filePath"), Get(args, "commitMessage"), TargetBranch(args))
  }

  /** The text a Base64 file body stands for. */
  function DecodedText(content: string): string {
    Utf8.Decode(Base64.Decode(content))
  }

  /** `{ ...file, content: Buffer.from(file.content, 'base64').toString('utf-8') }`:
      reading `content` off a missing file throws; content that is not a
      string is refused by the Buffer conversion; otherwise the answer is the
      backend's object with `content` alone replaced by its decoded text. */
  function DecodeFile(file: JsValue): (r: Result<JsValue, Exception>)
    ensures r.Success? <==> file.Obj? && "content" in file.fields && file.fields["content"].Str?
    ensures Nullish(file) ==> r == Failure(ErrorObject(ReadError(file, "content")))
    ensures !Nullish(file) && !Get(file, "content").Str? ==> r == Failure(ErrorObject(Client.BufferArgumentMessage))
    ensures r.Success? ==> r.value.Obj? && r.value.fields.Keys == file.fields.Keys
    ensures r.Success? ==> forall k :: k in file.fields && k != "content" ==> r.value.fields[k] == file.fields[k]
    ensures r.Success? ==> r.value.fields["content"] == Str(DecodedText(file.fields["content"].s))
  {
    var content :- Read(file, "content");
    if content.Str? then
      Success(Obj(file.fields["content" := Str(DecodedText(content.s))]))
    else
      Failure(ErrorObject(Client.BufferArgumentMessage))
  }

  /** The request a tool call sends: the `switch` of `handleFileTool`. An
      unknown name raises an error naming it, before any argument is read. */
  function Request(name: string, args: JsValue): (r: Result<HttpRequest, Exception>)
    ensures r == Failure(UnknownTool(name)) <==> name !in Cases
    ensures name in Cases && Nullish(args) ==> r == Failure(ErrorObject(ReadError(args, "projectId")))
    ensures name == "create_file" ==> r == CreateFileCase(args)
    ensures name == "update_file" ==> r == UpdateFileCase(args)
    ensures name == "get_file" ==> r == GetFileCase(args)
    ensures name == "delete_file" ==> r == DeleteFileCase(args)
  {
    if name == "create_file" then CreateFileCase(args)
    else if name == "update_file" then UpdateFileCase(args)
    else if name == "get_file" then GetFileCase(args)
    else if name == "delete_file" then DeleteFileCase(args)
    else Failure(UnknownTool(name))
  }

  /** `handleFileTool`: a request error is the tool's error, a backend error
      likewise; the backend's answer is the result, decoded for `get_file`. */
  function Handle(name: string, args: JsValue, backend: HttpRequest -> Result<JsValue, Exception>): (r: Result<JsValue, Exception>)
    ensures Request(name, args).Failure? ==> r == Failure(Request(name, args).error)
    ensures name in Cases && !Nullish(args) && !Coercible(Get(args, "projectId")) ==> r == Failure(ConversionError)
    ensures Request(name, args).Success? && backend(Request(name, args).value).Failure? ==>
      r == backend(Request(name, args).value)
    ensures Request(name, args).Success? && name != "get_file" ==> r == backend(Request(name, args).value)
    ensures Request(name, args).Success? && name == "get_file" && backend(Request(name, args).value).Success? ==>
      r == DecodeFile(backend(Request(name, args).value).value)
  {
    var request :- Request(name, args);
    var response :- backend(request);
    if name == "get_file" then DecodeFile(response) else Success(response)
  }

  /** Text written with `create_file` or `update_file` reads back unchanged
      through `get_file` when the backend returns the stored Base64 content:
      the UTF-8 and Base64 layers undo each other. */
  lemma StoredTextReadsBack(body: JsValue, text: string, commitMessage: JsValue, branch: JsValue, file: JsValue)
    requires Client.WritesText(body, text, commitMessage, branch)
    requires file.Obj? && "content" in file.fields && file.fields["content"] == body.fields["content"]
    ensures DecodeFile(file) == Success(Obj(file.fields["content" := Str(text)]))
  {
    Base64.TextRoundTrip(text);
  }

  /** For any text the caller sends, the content `create_file` stores is
      decoded by `get_file` to exactly that text. */
  lemma CreateThenGet(args: JsValue, file: JsValue)
    requires CreateFileCase(args).Success?
    requires file.Obj? && "content" in file.fields
    requires file.fields["content"] == CreateFileCase(args).value.body.value.fields["content"]
    ensures DecodeFile(file).Success?
    ensures DecodeFile(file).value.fields["content"] == Get(args, "content")
  {
    var q := CreateFileCase(args).value;
    StoredTextReadsBack(q.body.value, Get(args, "content").s, Get(args, "commitMessage"),
      TargetBranch(args), file);
  }

  /** Every argument schema lists only declared properties as required. */
  lemma ToolsConsistent()
    ensures AllConsistent(Tools())
  {
    CreateFileConsistent();
    UpdateFileConsistent();
    GetFileConsistent();
    DeleteFileConsistent();
  }

  lemma CreateFileConsistent()
    ensures Consistent(CreateFileTool().inputSchema)
  {
    var s := CreateFileTool().inputSchema;
    assert Keys(s.properties) == ["projectId", "filePath", "content", "commitMessage", "branch"];
    OnlyLastDefaulted(s);
  }

  lemma UpdateFileConsistent()
    ensures Consistent(UpdateFileTool().inputSchema)
  {
    var s := UpdateFileTool().inputSchema;
    assert Keys(s.properties) == ["projectId", "filePath", "content", "commitMessage", "branch"];
    OnlyLastDefaulted(s);
  }

  /** A write's schema declares a default for `branch` alone, and `branch`
      is not required. */
  lemma OnlyLastDefaulted(s: InputSchema)
    requires s == CreateFileTool().inputSchema || s == UpdateFileTool().inputSchema
    ensures forall i :: 0 <= i < |s.properties| && s.properties[i].default.Some? ==> s.properties[i].key !in s.required
  {
    assert forall i :: 0 <= i < 4 ==> s.properties[i].default.None?;
    assert s.properties[4].key == "branch";
    assert "branch" !in s.required;
  }

  lemma GetFileConsistent()
    ensures Consistent(GetFileTool().inputSchema)
  {
    assert Keys(GetFileTool().inputSchema.properties) == ["projectId", "filePath", "ref"];
  }

  lemma DeleteFileConsistent()
    ensures Consistent(DeleteFileTool().inputSchema)
  {
    assert Keys(DeleteFileTool().inputSchema.properties) == ["projectId", "filePath", "commitMessage", "branch"];
  }

  /** The handler accepts exactly the advertised names, listed in the same
      order. */
  lemma CasesMatchTools()
    ensures Names(Tools()) == Cases
  {
  }

  /** `create_file` advertises `main` as the default branch. */
  lemma DeclaredCreateBranch()
    ensures DeclaredDefault(Tools(), "create_file", "branch") == Some(Str("main"))
  {
    DeclaredDefaultAt(Tools(), 0, 4);
  }

  /** `update_file` advertises `main` as the default branch. */
  lemma DeclaredUpdateBranch()
    ensures DeclaredDefault(Tools(), "update_file", "branch") == Some(Str("main"))
  {
    DeclaredDefaultAt(Tools(), 1, 4);
  }

  /** `get_file` advertises `main` as the default `ref`. */
  lemma DeclaredRef()
    ensures DeclaredDefault(Tools(), "get_file", "ref") == Some(Str("main"))
  {
    DeclaredDefaultAt(Tools(), 2, 2);
  }

  /** `delete_file` advertises `main` as the default branch. */
  lemma DeclaredDeleteBranch()
    ensures DeclaredDefault(Tools(), "delete_file", "branch") == Some(Str("main"))
  {
    DeclaredDefaultAt(Tools(), 3, 3);
  }

  /** When `branch` is left out, `create_file` writes to the branch its
      schema advertises as default. */
  lemma CreateBranchDefaultApplies(args: JsValue)
    requires args.Obj? && "branch" !in args.fields && Get(args, "content").Str?
    requires Coercible(Get(args, "projectId")) && Coercible(Get(args, "filePath"))
    ensures DeclaredDefault(Tools(), "create_file", "branch") == Some(BodyField(CreateFileCase(args).value, "branch"))
  {
    DeclaredCreateBranch();
  }

  /** When `branch` is left out, `update_file` writes to the branch its
      schema advertises as default. */
  lemma UpdateBranchDefaultApplies(args: JsValue)
    requires args.Obj? && "branch" !in args.fields && Get(args, "content").Str?
    requires Coercible(Get(args, "projectId")) && Coercible(Get(args, "filePath"))
    ensures DeclaredDefault(Tools(), "update_file", "branch") == Some(BodyField(UpdateFileCase(args).value, "branch"))
  {
    DeclaredUpdateBranch();
  }

  /** When `branch` is left out, `delete_file` deletes on the branch its
      schema advertises as default. */
  lemma DeleteBranchDefaultApplies(args: JsValue)
    requires args.Obj? && "branch" !in args.fields
    requires Coercible(Get(args, "projectId")) && Coercible(Get(args, "filePath"))
    ensures DeclaredDefault(Tools(), "delete_file", "branch") == Some(BodyField(DeleteFileCase(args).value, "branch"))
  {
    DeclaredDeleteBranch();
  }

  /** When `ref` is left out, `get_file` reads the revision the schema
      advertises as default. */
  lemma RefDefaultApplies(args: JsValue)
    requires args.Obj? && "ref" !in args.fields
    requires Coercible(Get(args, "projectId")) && Coercible(Get(args, "filePath"))
    ensures DeclaredDefault(Tools(), "get_file", "ref") == Some(GetFileCase(args).value.params["ref"])
  {
    DeclaredRef();
  }
}
