/** The GitLab client (`GitLabClient`): one request builder per REST
    operation. Each builder yields exactly the request the client hands to the
    HTTP library; sending it is left to the backend function of the
    dispatchers. Arguments are untyped JavaScript values, because the tool
    arguments reach the client unchecked. */
module Client {
  import opened Results
  import opened Js
  import opened Http
  import UriEncoding
  import Utf8
  import Base64

  /** `encodeURIComponent(v)`, which first converts its argument to a string. */
  function Encoded(v: JsValue): string {
    UriEncoding.EncodeComponent(ToString(v))
  }

  /** `${v}` in a template literal: the value inserted without escaping. */
  function Raw(v: JsValue): string {
    ToString(v)
  }

  /** An encoded identifier is one segment of the path string, and
      percent-decoding it recovers the identifier's string form. */
  lemma EncodedSegment(v: JsValue)
    ensures '/' !in Encoded(v)
    ensures UriEncoding.DecodeComponent(Encoded(v)) == Some(ToString(v))
  {
    UriEncoding.EncodedCharacters(ToString(v));
    UriEncoding.DecodeEncode(ToString(v));
  }

  /** The request addresses project `projectId`: its path starts with the
      segment `projects` and then the encoded id as one segment. */
  predicate ScopedTo(r: HttpRequest, projectId: JsValue) {
    var segs := Segments(r.path);
    |segs| >= 2 && segs[0] == "projects" && segs[1] == Encoded(projectId)
  }

  predicate NoSlash(pieces: seq<string>) {
    forall i :: 0 <= i < |pieces| ==> '/' !in pieces[i]
  }

  /** `/projects/${encodeURIComponent(projectId)}` followed by `/piece` for
      each piece. Whatever the pieces hold, the project id stays one segment. */
  function ProjectPath(projectId: JsValue, pieces: seq<string>): (path: string)
    ensures var segs := Segments(path);
      && |segs| >= 2 && segs[0] == "projects" && segs[1] == Encoded(projectId)
    ensures NoSlash(pieces) ==> Segments(path) == ["projects", Encoded(projectId)] + pieces
  {
    ProjectPathSegments(projectId, pieces);
    EncodedSegment(projectId);
    PlainPieces(pieces);
    Path(["projects", Encoded(projectId)] + pieces)
  }

  lemma ProjectPathSegments(projectId: JsValue, pieces: seq<string>)
    ensures Segments(Path(["projects", Encoded(projectId)] + pieces))
         == ["projects", Encoded(projectId)] + SplitAll(pieces)
  {
    EncodedSegment(projectId);
    FrontSegments(Encoded(projectId), pieces);
  }

  lemma FrontSegments(e: string, pieces: seq<string>)
    requires '/' !in e
    ensures Segments(Path(["projects", e] + pieces)) == ["projects", e] + SplitAll(pieces)
  {
    SegmentsOfPath(["projects", e] + pieces);
    SplitAllFront(e, pieces);
    ProjectsSegment();
    SplitWithoutSlash(e);
  }

  lemma ProjectsSegment()
    ensures Split("projects") == ["projects"]
  {
    SplitWithoutSlash("projects");
  }

  lemma SplitAllFront(e: string, pieces: seq<string>)
    ensures SplitAll(["projects", e] + pieces) == Split("projects") + Split(e) + SplitAll(pieces)
  {
    var all := ["projects", e] + pieces;
    assert all[1..] == [e] + pieces;
    assert all[1..][1..] == pieces;
  }

  /** The fixed pieces of the client's paths are single segments. */
  lemma LiteralPieces()
    ensures '/' !in "repository" && '/' !in "branches" && '/' !in "files" && '/' !in "commits"
    ensures '/' !in "merge_requests" && '/' !in "merge" && '/' !in "issues"
    ensures '/' !in "discussions" && '/' !in "notes"
  {
  }

  lemma PlainPieces(pieces: seq<string>)
    ensures NoSlash(pieces) ==> SplitAll(pieces) == pieces
  {
    if NoSlash(pieces) {
      SplitAllWithoutSlash(pieces);
    }
  }

  /** The message of the TypeError `Buffer.from` raises for an argument it
      cannot convert. */
  const BufferArgumentMessage: string :=
    "The first argument must be of type string or an instance of Buffer, ArrayBuffer, or Array or an Array-like Object."

  /** `Buffer.from(content).toString('base64')`. */
  function Base64Content(content: JsValue): (r: Result<string, Exception>)
    ensures r.Success? <==> content.Str?
    ensures r.Success? ==> r.value == Base64.Encode(Utf8.Encode(content.s))
    ensures r.Success? ==> Base64.Decode(r.value) == Utf8.Encode(content.s)
    ensures r.Success? ==> Utf8.Decode(Base64.Decode(r.value)) == content.s
    ensures r.Failure? ==> r.error == ErrorObject(BufferArgumentMessage)
  {
    if content.Str? then
      var bytes := Utf8.Encode(content.s);
      Base64.DecodeEncode(bytes);
      Utf8.DecodeEncode(content.s);
      Success(Base64.Encode(bytes))
    else Failure(ErrorObject(BufferArgumentMessage))
  }

  /** `args.projectId`, the first argument every project-scoped tool reads:
      it throws when the tool was called without arguments. */
  function ProjectArgument(args: JsValue): (r: Result<JsValue, Exception>)
    ensures r.Failure? <==> Nullish(args)
    ensures r.Failure? ==> r.error == ErrorObject(ReadError(args, "projectId"))
    ensures r.Success? ==> r.value == Get(args, "projectId")
  {
    Read(args, "projectId")
  }

  // Every builder that interpolates an argument into its path converts it to
  // a string first; a value that cannot be converted raises the TypeError
  // before any request is made (`Js.Convert` fails exactly when `Coercible`
  // does not hold). `<Builder>Request` is the request once the conversions
  // have succeeded.

  // Repository operations

  function GetProject(projectId: JsValue): (r: Result<HttpRequest, Exception>)
    ensures r.Success? <==> Coercible(projectId)
    ensures r.Failure? ==> r.error == ConversionError
    ensures r.Success? ==> r.value.verb == GET && r.value.params == map[] && r.value.body == None
    ensures r.Success? ==> Segments(r.value.path) == ["projects", Encoded(projectId)]
  {
    if !Coercible(projectId) then Failure(ConversionError)
    else Success(GetProjectRequest(projectId))
  }

  function GetProjectRequest(projectId: JsValue): (r: HttpRequest)
    ensures r.verb == GET && r.params == map[] && r.body == None
    ensures Segments(r.path) == ["projects", Encoded(projectId)]
  {
    HttpRequest(GET, ProjectPath(projectId, []), map[], None)
  }

  /** The listing is limited to projects the caller is a member of, in the
      simplified representation; the filter is written into the path rather
      than passed as parameters. */
  const ListProjectsPath: string := "/projects?membership=true&simple=true"

  function ListProjects(): (r: HttpRequest)
    ensures r.verb == GET && r.params == map[] && r.body == None
    ensures r.path == ListProjectsPath
  {
    HttpRequest(GET, ListProjectsPath, map[], None)
  }

  // Branch operations

  function ListBranches(projectId: JsValue): (r: Result<HttpRequest, Exception>)
    ensures r.Success? <==> Coercible(projectId)
    ensures r.Failure? ==> r.error == ConversionError
    ensures r.Success? ==> r.value.verb == GET && r.value.params == map[] && r.value.body == None
    ensures r.Success? ==> Segments(r.value.path) == ["projects", Encoded(projectId)] + ["repository", "branches"]
  {
    if !Coercible(projectId) then Failure(ConversionError)
    else Success(ListBranchesRequest(projectId))
  }

  function ListBranchesRequest(projectId: JsValue): (r: HttpRequest)
    ensures r.verb == GET && r.params == map[] && r.body == None
    ensures Segments(r.path) == ["projects", Encoded(projectId)] + ["repository", "branches"]
  {
    LiteralPieces();
    assert NoSlash(["repository", "branches"]);
    HttpRequest(GET, ProjectPath(projectId, ["repository", "branches"]), map[], None)
  }

  function CreateBranch(projectId: JsValue, branchName: JsValue, ref: JsValue): (r: Result<HttpRequest, Exception>)
    ensures r.Success? <==> Coercible(projectId)
    ensures r.Failure? ==> r.error == ConversionError
    ensures r.Success? ==> r.value.verb == POST && r.value.params == map[]
    ensures r.Success? ==> Segments(r.value.path) == ["projects", Encoded(projectId)] + ["repository", "branches"]
    ensures r.Success? ==> BodyKeys(r.value) == {"branch", "ref"}
    ensures r.Success? ==> BodyField(r.value, "branch") == branchName
    ensures r.Success? && ref.Undefined? ==> BodyField(r.value, "ref") == Str("main")
    ensures r.Success? && !ref.Undefined? ==> BodyField(r.value, "ref") == ref
  {
    if !Coercible(projectId) then Failure(ConversionError)
    else Success(CreateBranchRequest(projectId, branchName, ref))
  }

  function CreateBranchRequest(projectId: JsValue, branchName: JsValue, ref: JsValue): (r: HttpRequest)
    ensures r.verb == POST && r.params == map[]
    ensures Segments(r.path) == ["projects", Encoded(projectId)] + ["repository", "branches"]
    ensures BodyKeys(r) == {"branch", "ref"}
    ensures BodyField(r, "branch") == branchName
    ensures ref.Undefined? ==> BodyField(r, "ref") == Str("main")
    ensures !ref.Undefined? ==> BodyField(r, "ref") == ref
  {
    LiteralPieces();
    assert NoSlash(["repository", "branches"]);
    HttpRequest(POST, ProjectPath(projectId, ["repository", "branches"]), map[],
      Some(Obj(map["branch" := branchName, "ref" := DefaultParam(ref, Str("main"))])))
  }

  function DeleteBranch(projectId: JsValue, branchName: JsValue): (r: Result<HttpRequest, Exception>)
    ensures r.Success? <==> Coercible(projectId) && Coercible(branchName)
    ensures r.Failure? ==> r.error == ConversionError
    ensures r.Success? ==> r.value.verb == DELETE && r.value.params == map[] && r.value.body == None
    ensures r.Success? ==>
      Segments(r.value.path) == ["projects", Encoded(projectId)] + ["repository", "branches", Encoded(branchName)]
    ensures r.Success? ==> UriEncoding.DecodeComponent(Segments(r.value.path)[4]) == Some(ToString(branchName))
  {
    if !Coercible(projectId) || !Coercible(branchName) then Failure(ConversionError)
    else Success(DeleteBranchRequest(projectId, branchName))
  }

  function DeleteBranchRequest(projectId: JsValue, branchName: JsValue): (r: HttpRequest)
    ensures r.verb == DELETE && r.params == map[] && r.body == None
    ensures
      Segments(r.path) == ["projects", Encoded(projectId)] + ["repository", "branches", Encoded(branchName)]
    ensures UriEncoding.DecodeComponent(Segments(r.path)[4]) == Some(ToString(branchName))
  {
    EncodedSegment(branchName);
    LiteralPieces();
    assert NoSlash(["repository", "branches", Encoded(branchName)]);
    HttpRequest(DELETE, ProjectPath(projectId, ["repository", "branches", Encoded(branchName)]), map[], None)
  }

  // File operations

  function GetFile(projectId: JsValue, filePath: JsValue, ref: JsValue): (r: Result<HttpRequest, Exception>)
    ensures r.Success? <==> Coercible(projectId) && Coercible(filePath)
    ensures r.Failure? ==> r.error == ConversionError
    ensures r.Success? ==> r.value.verb == GET && r.value.body == None
    ensures r.Success? ==>
      Segments(r.value.path) == ["projects", Encoded(projectId)] + ["repository", "files", Encoded(filePath)]
    ensures r.Success? ==> UriEncoding.DecodeComponent(Segments(r.value.path)[4]) == Some(ToString(filePath))
    ensures r.Success? ==> r.value.params.Keys == {"ref"}
    ensures r.Success? && ref.Undefined? ==> r.value.params["ref"] == Str("main")
    ensures r.Success? && !ref.Undefined? ==> r.value.params["ref"] == ref
  {
    if !Coercible(projectId) || !Coercible(filePath) then Failure(ConversionError)
    else Success(GetFileRequest(projectId, filePath, ref))
  }

  function GetFileRequest(projectId: JsValue, filePath: JsValue, ref: JsValue): (r: HttpRequest)
    ensures r.verb == GET && r.body == None
    ensures
      Segments(r.path) == ["projects", Encoded(projectId)] + ["repository", "files", Encoded(filePath)]
    ensures UriEncoding.DecodeComponent(Segments(r.path)[4]) == Some(ToString(filePath))
    ensures r.params.Keys == {"ref"}
    ensures ref.Undefined? ==> r.params["ref"] == Str("main")
    ensures !ref.Undefined? ==> r.params["ref"] == ref
  {
    HttpRequest(GET, FilePath(projectId, filePath),
      map["ref" := DefaultParam(ref, Str("main"))], None)
  }

  /** `/projects/${encodeURIComponent(projectId)}/repository/files/${encodeURIComponent(filePath)}`:
      the file path, slashes included, is one segment that percent-decodes back. */
  function FilePath(projectId: JsValue, filePath: JsValue): (path: string)
    ensures Segments(path) == ["projects", Encoded(projectId)] + ["repository", "files", Encoded(filePath)]
    ensures UriEncoding.DecodeComponent(Segments(path)[4]) == Some(ToString(filePath))
  {
    EncodedSegment(filePath);
    LiteralPieces();
    assert NoSlash(["repository", "files", Encoded(filePath)]);
    ProjectPath(projectId, ["repository", "files", Encoded(filePath)])
  }

  /** The body `createFile` and `updateFile` send for the text `text`: the
      branch (default `main`), the Base64 of the text's UTF-8 bytes, the
      `base64` encoding tag and the commit message, and nothing else. */
  predicate WritesText(body: JsValue, text: string, commitMessage: JsValue, branch: JsValue) {
    && body.Obj?
    && body.fields.Keys == {"branch", "content", "encoding", "commit_message"}
    && body.fields["encoding"] == Str("base64")
    && body.fields["content"].Str?
    && body.fields["content"].s == Base64.Encode(Utf8.Encode(text))
    && body.fields["commit_message"] == commitMessage
    && body.fields["branch"] == (if branch.Undefined? then Str("main") else branch)
  }

  function FileWriteBody(content: JsValue, commitMessage: JsValue, branch: JsValue): (r: Result<JsValue, Exception>)
    ensures r.Success? <==> content.Str?
    ensures r.Failure? ==> r.error == ErrorObject(BufferArgumentMessage)
    ensures r.Success? ==> WritesText(r.value, content.s, commitMessage, branch)
  {
    var encoded :- Base64Content(content);
    Success(Obj(map[
      "branch" := DefaultParam(branch, Str("main")),
      "content" := Str(encoded),
      "encoding" := Str("base64"),
      "commit_message" := commitMessage]))
  }

  /** The path of a file write is converted before its body, so a conversion
      error wins over the `Buffer` error. */
  function CreateFile(projectId: JsValue, filePath: JsValue, content: JsValue, commitMessage: JsValue,
                      branch: JsValue): (r: Result<HttpRequest, Exception>)
    ensures r.Success? <==> Coercible(projectId) && Coercible(filePath) && content.Str?
    ensures !(Coercible(projectId) && Coercible(filePath)) ==> r == Failure(ConversionError)
    ensures Coercible(projectId) && Coercible(filePath) && !content.Str? ==>
      r == Failure(ErrorObject(BufferArgumentMessage))
    ensures r.Success? ==> r.value.verb == POST && r.value.params == map[]
    ensures r.Success? ==>
      Segments(r.value.path) == ["projects", Encoded(projectId)] + ["repository", "files", Encoded(filePath)]
    ensures r.Success? ==> UriEncoding.DecodeComponent(Segments(r.value.path)[4]) == Some(ToString(filePath))
    ensures r.Success? ==> r.value.body.Some? && WritesText(r.value.body.value, content.s, commitMessage, branch)
  {
    if !Coercible(projectId) || !Coercible(filePath) then Failure(ConversionError)
    else
      var body :- FileWriteBody(content, commitMessage, branch);
      Success(HttpRequest(POST, FilePath(projectId, filePath), map[], Some(body)))
  }

  function UpdateFile(projectId: JsValue, filePath: JsValue, content: JsValue, commitMessage: JsValue,
                      branch: JsValue): (r: Result<HttpRequest, Exception>)
    ensures r.Success? <==> Coercible(projectId) && Coercible(filePath) && content.Str?
    ensures !(Coercible(projectId) && Coercible(filePath)) ==> r == Failure(ConversionError)
    ensures Coercible(projectId) && Coercible(filePath) && !content.Str? ==>
      r == Failure(ErrorObject(BufferArgumentMessage))
    ensures r.Success? ==> r.value.verb == PUT && r.value.params == map[]
    ensures r.Success? ==>
      Segments(r.value.path) == ["projects", Encoded(projectId)] + ["repository", "files", Encoded(filePath)]
    ensures r.Success? ==> UriEncoding.DecodeComponent(Segments(r.value.path)[4]) == Some(ToString(filePath))
    ensures r.Success? ==> r.value.body.Some? && WritesText(r.value.body.value, content.s, commitMessage, branch)
  {
    if !Coercible(projectId) || !Coercible(filePath) then Failure(ConversionError)
    else
      var body :- FileWriteBody(content, commitMessage, branch);
      Success(HttpRequest(PUT, FilePath(projectId, filePath), map[], Some(body)))
  }

  function DeleteFile(projectId: JsValue, filePath: JsValue, commitMessage: JsValue, branch: JsValue)
    : (r: Result<HttpRequest, Exception>)
    ensures r.Success? <==> Coercible(projectId) && Coercible(filePath)
    ensures r.Failure? ==> r.error == ConversionError
    ensures r.Success? ==> r.value.verb == DELETE && r.value.params == map[]
    ensures r.Success? ==>
      Segments(r.value.path) == ["projects", Encoded(projectId)] + ["repository", "files", Encoded(filePath)]
    ensures r.Success? ==> UriEncoding.DecodeComponent(Segments(r.value.path)[4]) == Some(ToString(filePath))
    ensures r.Success? ==> BodyKeys(r.value) == {"branch", "commit_message"}
    ensures r.Success? ==> BodyField(r.value, "commit_message") == commitMessage
    ensures r.Success? ==> BodyField(r.value, "branch") == (if branch.Undefined? then Str("main") else branch)
  {
    if !Coercible(projectId) || !Coercible(filePath) then Failure(ConversionError)
    else Success(DeleteFileRequest(projectId, filePath, commitMessage, branch))
  }

  function DeleteFileRequest(projectId: JsValue, filePath: JsValue, commitMessage: JsValue, branch: JsValue)
    : (r: HttpRequest)
    ensures r.verb == DELETE && r.params == map[]
    ensures
      Segments(r.path) == ["projects", Encoded(projectId)] + ["repository", "files", Encoded(filePath)]
    ensures UriEncoding.DecodeComponent(Segments(r.path)[4]) == Some(ToString(filePath))
    ensures BodyKeys(r) == {"branch", "commit_message"}
    ensures BodyField(r, "commit_message") == commitMessage
    ensures BodyField(r, "branch") == (if branch.Undefined? then Str("main") else branch)
  {
    HttpRequest(DELETE, FilePath(projectId, filePath), map[],
      Some(Obj(map["branch" := DefaultParam(branch, Str("main")), "commit_message" := commitMessage])))
  }

  // Commit operations

  function GetCommits(projectId: JsValue, branch: JsValue): (r: Result<HttpRequest, Exception>)
    ensures r.Success? <==> Coercible(projectId)
    ensures r.Failure? ==> r.error == ConversionError
    ensures r.Success? ==> r.value.verb == GET && r.value.body == None
    ensures r.Success? ==> Segments(r.value.path) == ["projects", Encoded(projectId)] + ["repository", "commits"]
    ensures r.Success? ==> ("ref_name" in r.value.params <==> Truthy(branch))
    ensures r.Success? ==> r.value.params.Keys <= {"ref_name"}
    ensures r.Success? && "ref_name" in r.value.params ==> r.value.params["ref_name"] == branch
  {
    if !Coercible(projectId) then Failure(ConversionError)
    else Success(GetCommitsRequest(projectId, branch))
  }

  function GetCommitsRequest(projectId: JsValue, branch: JsValue): (r: HttpRequest)
    ensures r.verb == GET && r.body == None
    ensures Segments(r.path) == ["projects", Encoded(projectId)] + ["repository", "commits"]
    ensures ("ref_name" in r.params <==> Truthy(branch))
    ensures r.params.Keys <= {"ref_name"}
    ensures "ref_name" in r.params ==> r.params["ref_name"] == branch
  {
    var params := if Truthy(branch) then map["ref_name" := branch] else map[];
    LiteralPieces();
    assert NoSlash(["repository", "commits"]);
    HttpRequest(GET, ProjectPath(projectId, ["repository", "commits"]), params, None)
  }

  function CreateCommit(projectId: JsValue, branch: JsValue, commitMessage: JsValue, actions: JsValue)
    : (r: Result<HttpRequest, Exception>)
    ensures r.Success? <==> Coercible(projectId)
    ensures r.Failure? ==> r.error == ConversionError
    ensures r.Success? ==> r.value.verb == POST && r.value.params == map[]
    ensures r.Success? ==> Segments(r.value.path) == ["projects", Encoded(projectId)] + ["repository", "commits"]
    ensures r.Success? ==> BodyKeys(r.value) == {"branch", "commit_message", "actions"}
    ensures r.Success? ==> BodyField(r.value, "branch") == branch
    ensures r.Success? ==> BodyField(r.value, "commit_message") == commitMessage
    ensures r.Success? ==> BodyField(r.value, "actions") == actions
  {
    if !Coercible(projectId) then Failure(ConversionError)
    else Success(CreateCommitRequest(projectId, branch, commitMessage, actions))
  }

  function CreateCommitRequest(projectId: JsValue, branch: JsValue, commitMessage: JsValue, actions: JsValue)
    : (r: HttpRequest)
    ensures r.verb == POST && r.params == map[]
    ensures Segments(r.path) == ["projects", Encoded(projectId)] + ["repository", "commits"]
    ensures BodyKeys(r) == {"branch", "commit_message", "actions"}
    ensures BodyField(r, "branch") == branch
    ensures BodyField(r, "commit_message") == commitMessage
    ensures BodyField(r, "actions") == actions
  {
    LiteralPieces();
    assert NoSlash(["repository", "commits"]);
    HttpRequest(POST, ProjectPath(projectId, ["repository", "commits"]), map[],
      Some(Obj(map["branch" := branch, "commit_message" := commitMessage, "actions" := actions])))
  }

  // Merge request operations

  function ListMergeRequests(projectId: JsValue, state: JsValue): (r: Result<HttpRequest, Exception>)
    ensures r.Success? <==> Coercible(projectId)
    ensures r.Failure? ==> r.error == ConversionError
    ensures r.Success? ==> r.value.verb == GET && r.value.body == None
    ensures r.Success? ==> Segments(r.value.path) == ["projects", Encoded(projectId)] + ["merge_requests"]
    ensures r.Success? ==> r.value.params.Keys == {"state"}
    ensures r.Success? && state.Undefined? ==> r.value.params["state"] == Str("opened")
    ensures r.Success? && !state.Undefined? ==> r.value.params["state"] == state
  {
    if !Coercible(projectId) then Failure(ConversionError)
    else Success(ListMergeRequestsRequest(projectId, state))
  }

  function ListMergeRequestsRequest(projectId: JsValue, state: JsValue): (r: HttpRequest)
    ensures r.verb == GET && r.body == None
    ensures Segments(r.path) == ["projects", Encoded(projectId)] + ["merge_requests"]
    ensures r.params.Keys == {"state"}
    ensures state.Undefined? ==> r.params["state"] == Str("opened")
    ensures !state.Undefined? ==> r.params["state"] == state
  {
    LiteralPieces();
    assert NoSlash(["merge_requests"]);
    HttpRequest(GET, ProjectPath(projectId, ["merge_requests"]),
      map["state" := DefaultParam(state, Str("opened"))], None)
  }

  function CreateMergeRequest(projectId: JsValue, sourceBranch: JsValue, targetBranch: JsValue, title: JsValue,
                              description: JsValue): (r: Result<HttpRequest, Exception>)
    ensures r.Success? <==> Coercible(projectId)
    ensures r.Failure? ==> r.error == ConversionError
    ensures r.Success? ==> r.value.verb == POST && r.value.params == map[]
    ensures r.Success? ==> Segments(r.value.path) == ["projects", Encoded(projectId)] + ["merge_requests"]
    ensures r.Success? ==> BodyKeys(r.value) == {"source_branch", "target_branch", "title", "description"}
    ensures r.Success? ==> BodyField(r.value, "source_branch") == sourceBranch
    ensures r.Success? ==> BodyField(r.value, "target_branch") == targetBranch
    ensures r.Success? ==> BodyField(r.value, "title") == title
    ensures r.Success? && !Truthy(description) ==> BodyField(r.value, "description") == Str("")
    ensures r.Success? && Truthy(description) ==> BodyField(r.value, "description") == description
  {
    if !Coercible(projectId) then Failure(ConversionError)
    else Success(CreateMergeRequestRequest(projectId, sourceBranch, targetBranch, title, description))
  }

  function CreateMergeRequestRequest(projectId: JsValue, sourceBranch: JsValue, targetBranch: JsValue, title: JsValue,
                                     description: JsValue): (r: HttpRequest)
    ensures r.verb == POST && r.params == map[]
    ensures Segments(r.path) == ["projects", Encoded(projectId)] + ["merge_requests"]
    ensures BodyKeys(r) == {"source_branch", "target_branch", "title", "description"}
    ensures BodyField(r, "source_branch") == sourceBranch
    ensures BodyField(r, "target_branch") == targetBranch
    ensures BodyField(r, "title") == title
    ensures !Truthy(description) ==> BodyField(r, "description") == Str("")
    ensures Truthy(description) ==> BodyField(r, "description") == description
  {
    LiteralPieces();
    assert NoSlash(["merge_requests"]);
    HttpRequest(POST, ProjectPath(projectId, ["merge_requests"]), map[],
      Some(Obj(map[
        "source_branch" := sourceBranch,
        "target_branch" := targetBranch,
        "title" := title,
        "description" := Or(description, Str(""))])))
  }

  function GetMergeRequest(projectId: JsValue, mergeRequestIid: JsValue): (r: Result<HttpRequest, Exception>)
    ensures r.Success? <==> Coercible(projectId) && Coercible(mergeRequestIid)
    ensures r.Failure? ==> r.error == ConversionError
    ensures r.Success? ==> r.value.verb == GET && r.value.params == map[] && r.value.body == None
    ensures r.Success? ==> ScopedTo(r.value, projectId)
    ensures r.Success? && '/' !in Raw(mergeRequestIid) ==>
      Segments(r.value.path) == ["projects", Encoded(projectId)] + ["merge_requests", Raw(mergeRequestIid)]
  {
    if !Coercible(projectId) || !Coercible(mergeRequestIid) then Failure(ConversionError)
    else Success(GetMergeRequestRequest(projectId, mergeRequestIid))
  }

  function GetMergeRequestRequest(projectId: JsValue, mergeRequestIid: JsValue): (r: HttpRequest)
    ensures r.verb == GET && r.params == map[] && r.body == None
    ensures ScopedTo(r, projectId)
    ensures '/' !in Raw(mergeRequestIid) ==>
      Segments(r.path) == ["projects", Encoded(projectId)] + ["merge_requests", Raw(mergeRequestIid)]
  {
    LiteralPieces();
    assert '/' !in Raw(mergeRequestIid) ==> NoSlash(["merge_requests", Raw(mergeRequestIid)]);
    HttpRequest(GET, ProjectPath(projectId, ["merge_requests", Raw(mergeRequestIid)]), map[], None)
  }

  function UpdateMergeRequest(projectId: JsValue, mergeRequestIid: JsValue, updates: JsValue)
    : (r: Result<HttpRequest, Exception>)
    ensures r.Success? <==> Coercible(projectId) && Coercible(mergeRequestIid)
    ensures r.Failure? ==> r.error == ConversionError
    ensures r.Success? ==> r.value.verb == PUT && r.value.params == map[] && r.value.body == Some(updates)
    ensures r.Success? ==> ScopedTo(r.value, projectId)
    ensures r.Success? && '/' !in Raw(mergeRequestIid) ==>
      Segments(r.value.path) == ["projects", Encoded(projectId)] + ["merge_requests", Raw(mergeRequestIid)]
  {
    if !Coercible(projectId) || !Coercible(mergeRequestIid) then Failure(ConversionError)
    else Success(UpdateMergeRequestRequest(projectId, mergeRequestIid, updates))
  }

  function UpdateMergeRequestRequest(projectId: JsValue, mergeRequestIid: JsValue, updates: JsValue)
    : (r: HttpRequest)
    ensures r.verb == PUT && r.params == map[] && r.body == Some(updates)
    ensures ScopedTo(r, projectId)
    ensures '/' !in Raw(mergeRequestIid) ==>
      Segments(r.path) == ["projects", Encoded(projectId)] + ["merge_requests", Raw(mergeRequestIid)]
  {
    LiteralPieces();
    assert '/' !in Raw(mergeRequestIid) ==> NoSlash(["merge_requests", Raw(mergeRequestIid)]);
    HttpRequest(PUT, ProjectPath(projectId, ["merge_requests", Raw(mergeRequestIid)]), map[], Some(updates))
  }

  function MergeMergeRequest(projectId: JsValue, mergeRequestIid: JsValue, mergeCommitMessage: JsValue)
    : (r: Result<HttpRequest, Exception>)
    ensures r.Success? <==> Coercible(projectId) && Coercible(mergeRequestIid)
    ensures r.Failure? ==> r.error == ConversionError
    ensures r.Success? ==> r.value.verb == PUT && r.value.params == map[]
    ensures r.Success? ==> ScopedTo(r.value, projectId)
    ensures r.Success? && '/' !in Raw(mergeRequestIid) ==>
      Segments(r.value.path) == ["projects", Encoded(projectId)] + ["merge_requests", Raw(mergeRequestIid), "merge"]
    ensures r.Success? ==> BodyKeys(r.value) == {"merge_commit_message"}
    ensures r.Success? ==> BodyField(r.value, "merge_commit_message") == mergeCommitMessage
  {
    if !Coercible(projectId) || !Coercible(mergeRequestIid) then Failure(ConversionError)
    else Success(MergeMergeRequestRequest(projectId, mergeRequestIid, mergeCommitMessage))
  }

  function MergeMergeRequestRequest(projectId: JsValue, mergeRequestIid: JsValue, mergeCommitMessage: JsValue)
    : (r: HttpRequest)
    ensures r.verb == PUT && r.params == map[]
    ensures ScopedTo(r, projectId)
    ensures '/' !in Raw(mergeRequestIid) ==>
      Segments(r.path) == ["projects", Encoded(projectId)] + ["merge_requests", Raw(mergeRequestIid), "merge"]
    ensures BodyKeys(r) == {"merge_commit_message"}
    ensures BodyField(r, "merge_commit_message") == mergeCommitMessage
  {
    LiteralPieces();
    assert '/' !in Raw(mergeRequestIid) ==> NoSlash(["merge_requests", Raw(mergeRequestIid), "merge"]);
    HttpRequest(PUT, ProjectPath(projectId, ["merge_requests", Raw(mergeRequestIid), "merge"]), map[],
      Some(Obj(map["merge_commit_message" := mergeCommitMessage])))
  }

  // Issue operations

  function ListIssues(projectId: JsValue, state: JsValue): (r: Result<HttpRequest, Exception>)
    ensures r.Success? <==> Coercible(projectId)
    ensures r.Failure? ==> r.error == ConversionError
    ensures r.Success? ==> r.value.verb == GET && r.value.body == None
    ensures r.Success? ==> Segments(r.value.path) == ["projects", Encoded(projectId)] + ["issues"]
    ensures r.Success? ==> r.value.params.Keys == {"state"}
    ensures r.Success? && state.Undefined? ==> r.value.params["state"] == Str("opened")
    ensures r.Success? && !state.Undefined? ==> r.value.params["state"] == state
  {
    if !Coercible(projectId) then Failure(ConversionError)
    else Success(ListIssuesRequest(projectId, state))
  }

  function ListIssuesRequest(projectId: JsValue, state: JsValue): (r: HttpRequest)
    ensures r.verb == GET && r.body == None
    ensures Segments(r.path) == ["projects", Encoded(projectId)] + ["issues"]
    ensures r.params.Keys == {"state"}
    ensures state.Undefined? ==> r.params["state"] == Str("opened")
    ensures !state.Undefined? ==> r.params["state"] == state
  {
    LiteralPieces();
    assert NoSlash(["issues"]);
    HttpRequest(GET, ProjectPath(projectId, ["issues"]), map["state" := DefaultParam(state, Str("opened"))], None)
  }

  function CreateIssue(projectId: JsValue, title: JsValue, description: JsValue, labels: JsValue)
    : (r: Result<HttpRequest, Exception>)
    ensures r.Success? <==> Coercible(projectId)
    ensures r.Failure? ==> r.error == ConversionError
    ensures r.Success? ==> r.value.verb == POST && r.value.params == map[]
    ensures r.Success? ==> Segments(r.value.path) == ["projects", Encoded(projectId)] + ["issues"]
    ensures r.Success? ==> BodyKeys(r.value) == {"title", "description", "labels"}
    ensures r.Success? ==> BodyField(r.value, "title") == title
    ensures r.Success? && !Truthy(description) ==> BodyField(r.value, "description") == Str("")
    ensures r.Success? && Truthy(description) ==> BodyField(r.value, "description") == description
    ensures r.Success? && !Truthy(labels) ==> BodyField(r.value, "labels") == Arr([])
    ensures r.Success? && Truthy(labels) ==> BodyField(r.value, "labels") == labels
  {
    if !Coercible(projectId) then Failure(ConversionError)
    else Success(CreateIssueRequest(projectId, title, description, labels))
  }

  function CreateIssueRequest(projectId: JsValue, title: JsValue, description: JsValue, labels: JsValue)
    : (r: HttpRequest)
    ensures r.verb == POST && r.params == map[]
    ensures Segments(r.path) == ["projects", Encoded(projectId)] + ["issues"]
    ensures BodyKeys(r) == {"title", "description", "labels"}
    ensures BodyField(r, "title") == title
    ensures !Truthy(description) ==> BodyField(r, "description") == Str("")
    ensures Truthy(description) ==> BodyField(r, "description") == description
    ensures !Truthy(labels) ==> BodyField(r, "labels") == Arr([])
    ensures Truthy(labels) ==> BodyField(r, "labels") == labels
  {
    LiteralPieces();
    assert NoSlash(["issues"]);
    HttpRequest(POST, ProjectPath(projectId, ["issues"]), map[],
      Some(Obj(map[
        "title" := title,
        "description" := Or(description, Str("")),
        "labels" := Or(labels, Arr([]))])))
  }

  // Discussion operations

  function ListDiscussions(projectId: JsValue, mergeRequestIid: JsValue): (r: Result<HttpRequest, Exception>)
    ensures r.Success? <==> Coercible(projectId) && Coercible(mergeRequestIid)
    ensures r.Failure? ==> r.error == ConversionError
    ensures r.Success? ==> r.value.verb == GET && r.value.params == map[] && r.value.body == None
    ensures r.Success? ==> ScopedTo(r.value, projectId)
    ensures r.Success? && '/' !in Raw(mergeRequestIid) ==>
      Segments(r.value.path) == ["projects", Encoded(projectId)] + ["merge_requests", Raw(mergeRequestIid), "discussions"]
  {
    if !Coercible(projectId) || !Coercible(mergeRequestIid) then Failure(ConversionError)
    else Success(ListDiscussionsRequest(projectId, mergeRequestIid))
  }

  function ListDiscussionsRequest(projectId: JsValue, mergeRequestIid: JsValue): (r: HttpRequest)
    ensures r.verb == GET && r.params == map[] && r.body == None
    ensures ScopedTo(r, projectId)
    ensures '/' !in Raw(mergeRequestIid) ==>
      Segments(r.path) == ["projects", Encoded(projectId)] + ["merge_requests", Raw(mergeRequestIid), "discussions"]
  {
    HttpRequest(GET, DiscussionsPath(projectId, mergeRequestIid), map[], None)
  }

  function GetDiscussion(projectId: JsValue, mergeRequestIid: JsValue, discussionId: JsValue)
    : (r: Result<HttpRequest, Exception>)
    ensures r.Success? <==> Coercible(projectId) && Coercible(mergeRequestIid) && Coercible(discussionId)
    ensures r.Failure? ==> r.error == ConversionError
    ensures r.Success? ==> r.value.verb == GET && r.value.params == map[] && r.value.body == None
    ensures r.Success? ==> ScopedTo(r.value, projectId)
    ensures r.Success? && '/' !in Raw(mergeRequestIid) && '/' !in Raw(discussionId) ==>
      Segments(r.value.path) == ["projects", Encoded(projectId)] + ["merge_requests", Raw(mergeRequestIid),
                                 "discussions", Raw(discussionId)]
  {
    if !Coercible(projectId) || !Coercible(mergeRequestIid) || !Coercible(discussionId) then Failure(ConversionError)
    else Success(GetDiscussionRequest(projectId, mergeRequestIid, discussionId))
  }

  function GetDiscussionRequest(projectId: JsValue, mergeRequestIid: JsValue, discussionId: JsValue)
    : (r: HttpRequest)
    ensures r.verb == GET && r.params == map[] && r.body == None
    ensures ScopedTo(r, projectId)
    ensures '/' !in Raw(mergeRequestIid) && '/' !in Raw(discussionId) ==>
      Segments(r.path) == ["projects", Encoded(projectId)] + ["merge_requests", Raw(mergeRequestIid),
                                 "discussions", Raw(discussionId)]
  {
    LiteralPieces();
    assert '/' !in Raw(mergeRequestIid) && '/' !in Raw(discussionId) ==> NoSlash(["merge_requests", Raw(mergeRequestIid), "discussions", Raw(discussionId)]);
    HttpRequest(GET, ProjectPath(projectId, ["merge_requests", Raw(mergeRequestIid), "discussions", Raw(discussionId)]),
      map[], None)
  }

  function CreateDiscussion(projectId: JsValue, mergeRequestIid: JsValue, body: JsValue, position: JsValue)
    : (r: Result<HttpRequest, Exception>)
    ensures r.Success? <==> Coercible(projectId) && Coercible(mergeRequestIid)
    ensures r.Failure? ==> r.error == ConversionError
    ensures r.Success? ==> r.value.verb == POST && r.value.params == map[]
    ensures r.Success? ==> ScopedTo(r.value, projectId)
    ensures r.Success? && '/' !in Raw(mergeRequestIid) ==>
      Segments(r.value.path) == ["projects", Encoded(projectId)] + ["merge_requests", Raw(mergeRequestIid), "discussions"]
    ensures r.Success? ==> "body" in BodyKeys(r.value) && BodyField(r.value, "body") == body
    ensures r.Success? ==> ("position" in BodyKeys(r.value) <==> Truthy(position))
    ensures r.Success? ==> BodyKeys(r.value) <= {"body", "position"}
    ensures r.Success? && Truthy(position) ==> BodyField(r.value, "position") == position
  {
    if !Coercible(projectId) || !Coercible(mergeRequestIid) then Failure(ConversionError)
    else Success(CreateDiscussionRequest(projectId, mergeRequestIid, body, position))
  }

  function CreateDiscussionRequest(projectId: JsValue, mergeRequestIid: JsValue, body: JsValue, position: JsValue)
    : (r: HttpRequest)
    ensures r.verb == POST && r.params == map[]
    ensures ScopedTo(r, projectId)
    ensures '/' !in Raw(mergeRequestIid) ==>
      Segments(r.path) == ["projects", Encoded(projectId)] + ["merge_requests", Raw(mergeRequestIid), "discussions"]
    ensures "body" in BodyKeys(r) && BodyField(r, "body") == body
    ensures "position" in BodyKeys(r) <==> Truthy(position)
    ensures BodyKeys(r) <= {"body", "position"}
    ensures Truthy(position) ==> BodyField(r, "position") == position
  {
    var payload := if Truthy(position) then map["body" := body, "position" := position] else map["body" := body];
    HttpRequest(POST, DiscussionsPath(projectId, mergeRequestIid), map[], Some(Obj(payload)))
  }

  /** `/projects/${encodeURIComponent(projectId)}/merge_requests/${mergeRequestIid}/discussions` */
  function DiscussionsPath(projectId: JsValue, mergeRequestIid: JsValue): (path: string)
    ensures var segs := Segments(path);
      && |segs| >= 2 && segs[0] == "projects" && segs[1] == Encoded(projectId)
    ensures '/' !in Raw(mergeRequestIid) ==>
      Segments(path) == ["projects", Encoded(projectId)] + ["merge_requests", Raw(mergeRequestIid), "discussions"]
  {
    LiteralPieces();
    assert '/' !in Raw(mergeRequestIid) ==> NoSlash(["merge_requests", Raw(mergeRequestIid), "discussions"]);
    ProjectPath(projectId, ["merge_requests", Raw(mergeRequestIid), "discussions"])
  }

  function AddNoteToDiscussion(projectId: JsValue, mergeRequestIid: JsValue, discussionId: JsValue,
                               body: JsValue): (r: Result<HttpRequest, Exception>)
    ensures r.Success? <==> Coercible(projectId) && Coercible(mergeRequestIid) && Coercible(discussionId)
    ensures r.Failure? ==> r.error == ConversionError
    ensures r.Success? ==> r.value.verb == POST && r.value.params == map[]
    ensures r.Success? ==> ScopedTo(r.value, projectId)
    ensures r.Success? && '/' !in Raw(mergeRequestIid) && '/' !in Raw(discussionId) ==>
      Segments(r.value.path) == ["projects", Encoded(projectId)] + ["merge_requests", Raw(mergeRequestIid),
                                 "discussions", Raw(discussionId), "notes"]
    ensures r.Success? ==> BodyKeys(r.value) == {"body"} && BodyField(r.value, "body") == body
  {
    if !Coercible(projectId) || !Coercible(mergeRequestIid) || !Coercible(discussionId) then Failure(ConversionError)
    else Success(AddNoteToDiscussionRequest(projectId, mergeRequestIid, discussionId, body))
  }

  function AddNoteToDiscussionRequest(projectId: JsValue, mergeRequestIid: JsValue, discussionId: JsValue,
                                      body: JsValue): (r: HttpRequest)
    ensures r.verb == POST && r.params == map[]
    ensures ScopedTo(r, projectId)
    ensures '/' !in Raw(mergeRequestIid) && '/' !in Raw(discussionId) ==>
      Segments(r.path) == ["projects", Encoded(projectId)] + ["merge_requests", Raw(mergeRequestIid),
                                 "discussions", Raw(discussionId), "notes"]
    ensures BodyKeys(r) == {"body"} && BodyField(r, "body") == body
  {
    LiteralPieces();
    assert '/' !in Raw(mergeRequestIid) && '/' !in Raw(discussionId) ==> NoSlash(["merge_requests", Raw(mergeRequestIid), "discussions", Raw(discussionId), "notes"]);
    HttpRequest(POST, ProjectPath(projectId, ["merge_requests", Raw(mergeRequestIid), "discussions", Raw(discussionId), "notes"]),
      map[], Some(Obj(map["body" := body])))
  }

  function UpdateDiscussionNote(projectId: JsValue, mergeRequestIid: JsValue, discussionId: JsValue, noteId: JsValue,
                                body: JsValue): (r: Result<HttpRequest, Exception>)
    ensures r.Success? <==>
      Coercible(projectId) && Coercible(mergeRequestIid) && Coercible(discussionId) && Coercible(noteId)
    ensures r.Failure? ==> r.error == ConversionError
    ensures r.Success? ==> r.value.verb == PUT && r.value.params == map[]
    ensures r.Success? ==> ScopedTo(r.value, projectId)
    ensures r.Success? && '/' !in Raw(mergeRequestIid) && '/' !in Raw(discussionId) && '/' !in Raw(noteId) ==>
      Segments(r.value.path) == ["projects", Encoded(projectId)] + ["merge_requests", Raw(mergeRequestIid),
                                 "discussions", Raw(discussionId), "notes", Raw(noteId)]
    ensures r.Success? ==> BodyKeys(r.value) == {"body"} && BodyField(r.value, "body") == body
  {
    if !Coercible(projectId) || !Coercible(mergeRequestIid) || !Coercible(discussionId) || !Coercible(noteId) then
      Failure(ConversionError)
    else Success(UpdateDiscussionNoteRequest(projectId, mergeRequestIid, discussionId, noteId, body))
  }

  function UpdateDiscussionNoteRequest(projectId: JsValue, mergeRequestIid: JsValue, discussionId: JsValue,
                                       noteId: JsValue, body: JsValue): (r: HttpRequest)
    ensures r.verb == PUT && r.params == map[]
    ensures ScopedTo(r, projectId)
    ensures '/' !in Raw(mergeRequestIid) && '/' !in Raw(discussionId) && '/' !in Raw(noteId) ==>
      Segments(r.path) == ["projects", Encoded(projectId)] + ["merge_requests", Raw(mergeRequestIid),
                                 "discussions", Raw(discussionId), "notes", Raw(noteId)]
    ensures BodyKeys(r) == {"body"} && BodyField(r, "body") == body
  {
    var rest := ["merge_requests", Raw(mergeRequestIid), "discussions", Raw(discussionId), "notes", Raw(noteId)];
    LiteralPieces();
    assert '/' !in Raw(mergeRequestIid) && '/' !in Raw(discussionId) && '/' !in Raw(noteId) ==> NoSlash(rest);
    HttpRequest(PUT, ProjectPath(projectId, rest), map[], Some(Obj(map["body" := body])))
  }

  function DeleteDiscussionNote(projectId: JsValue, mergeRequestIid: JsValue, discussionId: JsValue,
                                noteId: JsValue): (r: Result<HttpRequest, Exception>)
    ensures r.Success? <==>
      Coercible(projectId) && Coercible(mergeRequestIid) && Coercible(discussionId) && Coercible(noteId)
    ensures r.Failure? ==> r.error == ConversionError
    ensures r.Success? ==> r.value.verb == DELETE && r.value.params == map[] && r.value.body == None
    ensures r.Success? ==> ScopedTo(r.value, projectId)
    ensures r.Success? && '/' !in Raw(mergeRequestIid) && '/' !in Raw(discussionId) && '/' !in Raw(noteId) ==>
      Segments(r.value.path) == ["projects", Encoded(projectId)] + ["merge_requests", Raw(mergeRequestIid),
                                 "discussions", Raw(discussionId), "notes", Raw(noteId)]
  {
    if !Coercible(projectId) || !Coercible(mergeRequestIid) || !Coercible(discussionId) || !Coercible(noteId) then
      Failure(ConversionError)
    else Success(DeleteDiscussionNoteRequest(projectId, mergeRequestIid, discussionId, noteId))
  }

  function DeleteDiscussionNoteRequest(projectId: JsValue, mergeRequestIid: JsValue, discussionId: JsValue,
                                       noteId: JsValue): (r: HttpRequest)
    ensures r.verb == DELETE && r.params == map[] && r.body == None
    ensures ScopedTo(r, projectId)
    ensures '/' !in Raw(mergeRequestIid) && '/' !in Raw(discussionId) && '/' !in Raw(noteId) ==>
      Segments(r.path) == ["projects", Encoded(projectId)] + ["merge_requests", Raw(mergeRequestIid),
                                 "discussions", Raw(discussionId), "notes", Raw(noteId)]
  {
    var rest := ["merge_requests", Raw(mergeRequestIid), "discussions", Raw(discussionId), "notes", Raw(noteId)];
    LiteralPieces();
    assert '/' !in Raw(mergeRequestIid) && '/' !in Raw(discussionId) && '/' !in Raw(noteId) ==> NoSlash(rest);
    HttpRequest(DELETE, ProjectPath(projectId, rest), map[], None)
  }

  function ResolveDiscussion(projectId: JsValue, mergeRequestIid: JsValue, discussionId: JsValue,
                             resolved: JsValue): (r: Result<HttpRequest, Exception>)
    ensures r.Success? <==> Coercible(projectId) && Coercible(mergeRequestIid) && Coercible(discussionId)
    ensures r.Failure? ==> r.error == ConversionError
    ensures r.Success? ==> r.value.verb == PUT && r.value.params == map[]
    ensures r.Success? ==> ScopedTo(r.value, projectId)
    ensures r.Success? && '/' !in Raw(mergeRequestIid) && '/' !in Raw(discussionId) ==>
      Segments(r.value.path) == ["projects", Encoded(projectId)] + ["merge_requests", Raw(mergeRequestIid),
                                 "discussions", Raw(discussionId)]
    ensures r.Success? ==> BodyKeys(r.value) == {"resolved"}
    ensures r.Success? && resolved.Undefined? ==> BodyField(r.value, "resolved") == Bool(true)
    ensures r.Success? && !resolved.Undefined? ==> BodyField(r.value, "resolved") == resolved
  {
    if !Coercible(projectId) || !Coercible(mergeRequestIid) || !Coercible(discussionId) then Failure(ConversionError)
    else Success(ResolveDiscussionRequest(projectId, mergeRequestIid, discussionId, resolved))
  }

  function ResolveDiscussionRequest(projectId: JsValue, mergeRequestIid: JsValue, discussionId: JsValue,
                                    resolved: JsValue): (r: HttpRequest)
    ensures r.verb == PUT && r.params == map[]
    ensures ScopedTo(r, projectId)
    ensures '/' !in Raw(mergeRequestIid) && '/' !in Raw(discussionId) ==>
      Segments(r.path) == ["projects", Encoded(projectId)] + ["merge_requests", Raw(mergeRequestIid),
                                 "discussions", Raw(discussionId)]
    ensures BodyKeys(r) == {"resolved"}
    ensures resolved.Undefined? ==> BodyField(r, "resolved") == Bool(true)
    ensures !resolved.Undefined? ==> BodyField(r, "resolved") == resolved
  {
    LiteralPieces();
    assert '/' !in Raw(mergeRequestIid) && '/' !in Raw(discussionId) ==> NoSlash(["merge_requests", Raw(mergeRequestIid), "discussions", Raw(discussionId)]);
    HttpRequest(PUT, ProjectPath(projectId, ["merge_requests", Raw(mergeRequestIid), "discussions", Raw(discussionId)]),
      map[], Some(Obj(map["resolved" := DefaultParam(resolved, Bool(true))])))
  }

  /** Merge-request, discussion and note identifiers are inserted without
      escaping: a discussion id `x/y` becomes the two segments `x` and `y`,
      so the request names a different resource. */
  lemma DiscussionIdIsNotEscaped(projectId: JsValue, mergeRequestIid: JsValue, discussionId: JsValue,
                                  x: string, y: string)
    requires Coercible(projectId) && Coercible(mergeRequestIid) && Coercible(discussionId)
    requires '/' !in Raw(mergeRequestIid) && '/' !in x && '/' !in y
    requires Raw(discussionId) == x + "/" + y
    ensures GetDiscussion(projectId, mergeRequestIid, discussionId).Success?
    ensures Segments(GetDiscussion(projectId, mergeRequestIid, discussionId).value.path)
         == ["projects", Encoded(projectId), "merge_requests", Raw(mergeRequestIid), "discussions", x, y]
  {
    var front := ["merge_requests", Raw(mergeRequestIid), "discussions"];
    DiscussionsFrontPlain(Raw(mergeRequestIid));
    DiscussionPath(projectId, mergeRequestIid, discussionId, front, x + "/" + y);
    SlashInLastPiece(projectId, front, x, y);
    SevenSegments(Encoded(projectId), Raw(mergeRequestIid), x, y);
  }

  lemma SevenSegments(e: string, iid: string, x: string, y: string)
    ensures ["projects", e] + ["merge_requests", iid, "discussions"] + [x, y]
         == ["projects", e, "merge_requests", iid, "discussions", x, y]
  {
  }

  lemma DiscussionsFrontPlain(iid: string)
    requires '/' !in iid
    ensures NoSlash(["merge_requests", iid, "discussions"])
  {
    LiteralPieces();
  }

  lemma DiscussionPath(projectId: JsValue, mergeRequestIid: JsValue, discussionId: JsValue,
                       front: seq<string>, last: string)
    requires Coercible(projectId) && Coercible(mergeRequestIid) && Coercible(discussionId)
    requires front == ["merge_requests", Raw(mergeRequestIid), "discussions"] && last == Raw(discussionId)
    ensures GetDiscussion(projectId, mergeRequestIid, discussionId).value.path == ProjectPath(projectId, front + [last])
  {
    assert front + [last] == ["merge_requests", Raw(mergeRequestIid), "discussions", Raw(discussionId)];
  }

  lemma SlashInLastPiece(projectId: JsValue, front: seq<string>, x: string, y: string)
    requires NoSlash(front) && '/' !in x && '/' !in y
    ensures Segments(ProjectPath(projectId, front + [x + "/" + y])) == ["projects", Encoded(projectId)] + front + [x, y]
  {
    var pieces := front + [x + "/" + y];
    assert ProjectPath(projectId, pieces) == Path(["projects", Encoded(projectId)] + pieces);
    ProjectPathSegments(projectId, pieces);
    TwoSegmentsAtEnd(front, x, y);
  }

  /** A last piece `x/y` contributes two segments. */
  lemma TwoSegmentsAtEnd(front: seq<string>, x: string, y: string)
    requires NoSlash(front) && '/' !in x && '/' !in y
    ensures SplitAll(front + [x + "/" + y]) == front + [x, y]
  {
    SplitAllAppend(front, [x + "/" + y]);
    PlainPieces(front);
    assert [x + "/" + y][1..] == [];
    assert SplitAll([x + "/" + y]) == Split(x + "/" + y);
    SplitAtSlash(x, y);
    SplitWithoutSlash(x);
    SplitWithoutSlash(y);
  }

  /** A numeric identifier, the documented type of merge-request iids and
      note ids, is always a single segment. */
  lemma NumericIdIsOneSegment(n: int)
    ensures '/' !in Raw(Num(n))
  {
    NumberStringHasNoSlash(n);
  }
}
