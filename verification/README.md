# GitLab MCP bridge — a Dafny model

The GitLab MCP server exposes GitLab operations as tools of the Model Context
Protocol. A client calls a tool by name with an untyped argument object. The
server routes the call to the handler of the tool's family (repository,
branches, merge requests, files, discussions). The handler fills in defaults
and calls one method of `GitLabClient`. That method sends one REST request to
GitLab. The answer, or the error raised on the way, is wrapped in an MCP text
response.

This project models that core as pure functions:

- `Js` holds the JavaScript semantics the code relies on: untyped values,
  truthiness, `||`, `??`, default parameters, property reads that throw on
  `undefined`, and string conversion.
- `Utf8`, `Base64` and `UriEncoding` model `Buffer`'s UTF-8 and Base64 codecs
  and `encodeURIComponent`. Each codec comes with the decoding that undoes it.
- `Http` is the outbound request, plus the reading of a path string as
  `/`-separated segments.
- `Client` has one request builder per `GitLabClient` method.
- `Schema` and the five `*Tools` modules hold the tool descriptors (names,
  argument schemas, defaults, required keys) and each family's `switch`.
- `Router` holds the combined tool list, the routing `if` chain of the
  `CallTool` handler and the response envelope.

The HTTP library is not modelled. A handler receives a `backend` function
from request to result, which stands for "send this request and return
`response.data`, or throw". `JSON.stringify(result, null, 2)` is the
`serialize` parameter.

The client percent-encodes only the project id, the branch name and the file
path. Merge-request iids, discussion ids and note ids are inserted raw.
`Client.DiscussionIdIsNotEscaped` shows what a `/` in a discussion id does.

Paths are modelled as strings, and `Http.Segments` reads segments from the
path string the client builds. Every identifier is converted to a string
before it enters the path. A value that cannot be converted, such as an
object with its own `toString` key, makes the builder throw a TypeError, and
no request is made. Bodies are modelled as the JavaScript objects
handed to the HTTP library, before any serialisation.

## Model

| member | source | states |
|---|---|---|
| Js.DefaultingOperators | src/tools/discussions.ts:215 | `||`, `??` and a default parameter all keep a truthy value. Only `||` replaces `false`, `0` and `""`. `??` also replaces `null`. A default parameter replaces only `undefined`. |
| Js.Read | src/tools/repository.ts:37-38 | Reading a key throws exactly when the receiver is `undefined` or `null`, with V8's "Cannot read properties of …" TypeError. Otherwise it yields the own field, or `undefined`. |
| Js.NumberStringHasNoSlash | src/gitlab-client.ts:129 | A number placed in a template literal is a non-empty string without `/`. |
| Js.Convert | src/gitlab-client.ts:26 | String conversion succeeds exactly for the values `Coercible` admits, and then yields `ToString`. An object with its own `toString` key, or an array holding one among its non-nullish elements, throws "Cannot convert object to primitive value". |
| Js.ConvertItems | src/gitlab-client.ts:129 | Joining an array's elements succeeds exactly when every non-nullish element converts, and then yields the comma-joined text. Otherwise it throws the conversion TypeError. |
| Js.OwnToStringThrows | src/gitlab-client.ts:26 | An object with its own `toString` key fails to convert, and so does any array ending in one. |
| Utf8.DecodeEncode | src/tools/files.ts:145 | The UTF-8 bytes of any string are well-formed, and decoding them gives back the string. |
| Utf8.EncodeDecode | src/tools/files.ts:145 | Well-formed UTF-8 bytes are exactly the encoding of their decoded text. |
| Utf8.DecodeStrictIsInverse | src/gitlab-client.ts:26 | Strict decoding yields `s` if and only if the bytes are the UTF-8 encoding of `s`. |
| Base64.DecodeEncode | src/gitlab-client.ts:65 | Reading Base64 recovers every byte sequence from the text `Buffer` writes for it. |
| Base64.TextRoundTrip | src/gitlab-client.ts:65 | Text encoded as UTF-8 and then as Base64 decodes back to the same text. |
| UriEncoding.EncodedCharacters | src/gitlab-client.ts:26 | `encodeURIComponent` outputs only unreserved characters and `%`, so never a `/`. |
| UriEncoding.DecodeEncode | src/gitlab-client.ts:26 | Percent-decoding an encoded component gives back the original string. |
| UriEncoding.EncodeInjective | src/gitlab-client.ts:26 | Distinct strings encode to distinct path segments. |
| Http.SegmentsOfPath | src/gitlab-client.ts:169 | A path built from pieces reads back as the segments of those pieces, so a piece holding `/` becomes several segments. |
| Http.SegmentsOfPlainPath | src/gitlab-client.ts:37 | A path built from slash-free pieces reads back as exactly those pieces. |
| Client.EncodedSegment | src/gitlab-client.ts:26 | An encoded identifier is one segment of the path string, and percent-decoding it gives back the identifier's string form. |
| Client.ProjectPath | src/gitlab-client.ts:37 | Every project path begins with the segment `projects` and then the encoded project id. When the remaining pieces have no `/`, they are the remaining segments. |
| Client.Base64Content | src/gitlab-client.ts:65 | The conversion succeeds exactly for string content. It yields the Base64 of the text's UTF-8 bytes, whose decoding gives back those bytes and then the text. Any other value raises `Buffer`'s TypeError. |
| Client.ProjectArgument | src/tools/branches.ts:67 | `args.projectId` fails exactly on missing arguments, with the TypeError naming `projectId`. Otherwise it is the field's value. |
| Client.GetProject | src/gitlab-client.ts:25-28 | Fails with the conversion TypeError exactly when the project id cannot be converted to a string. Otherwise: A GET whose segments are `projects` and the encoded project id. |
| Client.GetProjectRequest | src/gitlab-client.ts:25-28 | The request once the ids are converted. A GET whose segments are `projects` and the encoded project id. |
| Client.ListProjects | src/gitlab-client.ts:30-33 | A GET of the fixed membership-filtered listing, with no parameters and no body. |
| Client.ListBranches | src/gitlab-client.ts:36-39 | Fails with the conversion TypeError exactly when the project id cannot be converted to a string. Otherwise: A GET of `projects/<encoded id>/repository/branches`. |
| Client.ListBranchesRequest | src/gitlab-client.ts:36-39 | The request once the ids are converted. A GET of `projects/<encoded id>/repository/branches`. |
| Client.CreateBranch | src/gitlab-client.ts:41-47 | Fails with the conversion TypeError exactly when the project id cannot be converted to a string. Otherwise: A POST whose body holds exactly `branch` and `ref`. `ref` falls back to `main` only when it is `undefined`. |
| Client.CreateBranchRequest | src/gitlab-client.ts:41-47 | The request once the ids are converted. A POST whose body holds exactly `branch` and `ref`. `ref` falls back to `main` only when it is `undefined`. |
| Client.DeleteBranch | src/gitlab-client.ts:49-52 | Fails with the conversion TypeError exactly when the project id or the branch name cannot be converted to a string. Otherwise: A DELETE whose fifth path-string segment is the encoded branch name, which percent-decodes to the name even if the name contains `/`. |
| Client.DeleteBranchRequest | src/gitlab-client.ts:49-52 | The request once the ids are converted. A DELETE whose fifth path-string segment is the encoded branch name, which percent-decodes to the name even if the name contains `/`. |
| Client.GetFile | src/gitlab-client.ts:55-60 | Fails with the conversion TypeError exactly when the project id or the file path cannot be converted to a string. Otherwise: A GET whose file path is one path-string segment that percent-decodes to the path. The only parameter is `ref`, defaulting to `main` when `undefined`. |
| Client.GetFileRequest | src/gitlab-client.ts:55-60 | The request once the ids are converted. A GET whose file path is one path-string segment that percent-decodes to the path. The only parameter is `ref`, defaulting to `main` when `undefined`. |
| Client.FilePath | src/gitlab-client.ts:63 | A file path, slashes included, is one path-string segment after `repository/files`, and it percent-decodes to the path. |
| Client.FileWriteBody | src/gitlab-client.ts:63-68 | The body exists exactly for string content. It holds the Base64 of the text's UTF-8 bytes, the `base64` tag, the commit message and the branch (`main` when `undefined`), and nothing else. |
| Client.CreateFile | src/gitlab-client.ts:62-70 | A conversion TypeError on the project id or the file path comes first. Then non-string content fails with the `Buffer` error. Otherwise it is a POST to the file's one-segment path, and the body carries the Base64 of the text's UTF-8 bytes, as `WritesText` states. |
| Client.UpdateFile | src/gitlab-client.ts:72-80 | As `CreateFile`, with PUT: the same error order and the same exact body, with the Base64 of the text's UTF-8 bytes. |
| Client.DeleteFile | src/gitlab-client.ts:82-90 | Fails with the conversion TypeError exactly when the project id or the file path cannot be converted to a string. Otherwise: A DELETE whose body holds exactly `branch`, defaulting to `main`, and `commit_message`. |
| Client.DeleteFileRequest | src/gitlab-client.ts:82-90 | The request once the ids are converted. A DELETE whose body holds exactly `branch`, defaulting to `main`, and `commit_message`. |
| Client.GetCommits | src/gitlab-client.ts:93-99 | Fails with the conversion TypeError exactly when the project id cannot be converted to a string. Otherwise: `ref_name` is sent if and only if the branch is truthy, and then it is the branch. No other parameter is sent. |
| Client.GetCommitsRequest | src/gitlab-client.ts:93-99 | The request once the ids are converted. `ref_name` is sent if and only if the branch is truthy, and then it is the branch. No other parameter is sent. |
| Client.CreateCommit | src/gitlab-client.ts:101-108 | Fails with the conversion TypeError exactly when the project id cannot be converted to a string. Otherwise: A POST whose body holds exactly the branch, the commit message and the actions, unchanged. |
| Client.CreateCommitRequest | src/gitlab-client.ts:101-108 | The request once the ids are converted. A POST whose body holds exactly the branch, the commit message and the actions, unchanged. |
| Client.ListMergeRequests | src/gitlab-client.ts:111-116 | Fails with the conversion TypeError exactly when the project id cannot be converted to a string. Otherwise: The only parameter is `state`, defaulting to `opened` when `undefined`. |
| Client.ListMergeRequestsRequest | src/gitlab-client.ts:111-116 | The request once the ids are converted. The only parameter is `state`, defaulting to `opened` when `undefined`. |
| Client.CreateMergeRequest | src/gitlab-client.ts:118-126 | Fails with the conversion TypeError exactly when the project id cannot be converted to a string. Otherwise: A falsy description is sent as `""`. The other three fields are sent as given, and there is no fifth field. |
| Client.CreateMergeRequestRequest | src/gitlab-client.ts:118-126 | The request once the ids are converted. A falsy description is sent as `""`. The other three fields are sent as given, and there is no fifth field. |
| Client.GetMergeRequest | src/gitlab-client.ts:128-131 | Fails with the conversion TypeError exactly when the project id or the iid cannot be converted to a string. Otherwise: Scoped to the project. With a slash-free iid, the segments end `merge_requests/<iid>` with the iid raw. |
| Client.GetMergeRequestRequest | src/gitlab-client.ts:128-131 | The request once the ids are converted. Scoped to the project. With a slash-free iid, the segments end `merge_requests/<iid>` with the iid raw. |
| Client.UpdateMergeRequest | src/gitlab-client.ts:133-136 | Fails with the conversion TypeError exactly when the project id or the iid cannot be converted to a string. Otherwise: The updates object is the whole body, unchanged. |
| Client.UpdateMergeRequestRequest | src/gitlab-client.ts:133-136 | The request once the ids are converted. The updates object is the whole body, unchanged. |
| Client.MergeMergeRequest | src/gitlab-client.ts:138-143 | Fails with the conversion TypeError exactly when the project id or the iid cannot be converted to a string. Otherwise: A PUT to `…/merge_requests/<iid>/merge`. The body object holds exactly the key `merge_commit_message`, even when its value is `undefined`. |
| Client.MergeMergeRequestRequest | src/gitlab-client.ts:138-143 | The request once the ids are converted. A PUT to `…/merge_requests/<iid>/merge`. The body object holds exactly the key `merge_commit_message`, even when its value is `undefined`. |
| Client.ListIssues | src/gitlab-client.ts:146-151 | Fails with the conversion TypeError exactly when the project id cannot be converted to a string. Otherwise: The only parameter is `state`, defaulting to `opened` when `undefined`. |
| Client.ListIssuesRequest | src/gitlab-client.ts:146-151 | The request once the ids are converted. The only parameter is `state`, defaulting to `opened` when `undefined`. |
| Client.CreateIssue | src/gitlab-client.ts:153-160 | Fails with the conversion TypeError exactly when the project id cannot be converted to a string. Otherwise: A falsy description becomes `""` and falsy labels become `[]`. The title is kept, and there are no other fields. |
| Client.CreateIssueRequest | src/gitlab-client.ts:153-160 | The request once the ids are converted. A falsy description becomes `""` and falsy labels become `[]`. The title is kept, and there are no other fields. |
| Client.ListDiscussions | src/gitlab-client.ts:163-166 | Fails with the conversion TypeError exactly when the project id or the iid cannot be converted to a string. Otherwise: Scoped to the project. With a slash-free iid, the segments end `merge_requests/<iid>/discussions`. |
| Client.ListDiscussionsRequest | src/gitlab-client.ts:163-166 | The request once the ids are converted. Scoped to the project. With a slash-free iid, the segments end `merge_requests/<iid>/discussions`. |
| Client.GetDiscussion | src/gitlab-client.ts:168-171 | Fails with the conversion TypeError exactly when the project id, the iid or the discussion id cannot be converted to a string. Otherwise: Scoped to the project. With slash-free ids, the last two segments are `discussions` and the raw discussion id. |
| Client.GetDiscussionRequest | src/gitlab-client.ts:168-171 | The request once the ids are converted. Scoped to the project. With slash-free ids, the last two segments are `discussions` and the raw discussion id. |
| Client.CreateDiscussion | src/gitlab-client.ts:173-180 | Fails with the conversion TypeError exactly when the project id or the iid cannot be converted to a string. Otherwise: `body` is always sent. `position` is sent if and only if it is truthy, and then unchanged. Nothing else is sent. |
| Client.CreateDiscussionRequest | src/gitlab-client.ts:173-180 | The request once the ids are converted. `body` is always sent. `position` is sent if and only if it is truthy, and then unchanged. Nothing else is sent. |
| Client.AddNoteToDiscussion | src/gitlab-client.ts:182-187 | Fails with the conversion TypeError exactly when the project id, the iid or the discussion id cannot be converted to a string. Otherwise: A POST to `…/discussions/<id>/notes` whose only body field is `body`. |
| Client.AddNoteToDiscussionRequest | src/gitlab-client.ts:182-187 | The request once the ids are converted. A POST to `…/discussions/<id>/notes` whose only body field is `body`. |
| Client.UpdateDiscussionNote | src/gitlab-client.ts:189-194 | Fails with the conversion TypeError exactly when one of the four ids cannot be converted to a string. Otherwise: A PUT to `…/notes/<note id>` with the ids raw, whose only body field is `body`. |
| Client.UpdateDiscussionNoteRequest | src/gitlab-client.ts:189-194 | The request once the ids are converted. A PUT to `…/notes/<note id>` with the ids raw, whose only body field is `body`. |
| Client.DeleteDiscussionNote | src/gitlab-client.ts:196-199 | Fails with the conversion TypeError exactly when one of the four ids cannot be converted to a string. Otherwise: A DELETE of `…/notes/<note id>`, with no body. |
| Client.DeleteDiscussionNoteRequest | src/gitlab-client.ts:196-199 | The request once the ids are converted. A DELETE of `…/notes/<note id>`, with no body. |
| Client.ResolveDiscussion | src/gitlab-client.ts:201-206 | Fails with the conversion TypeError exactly when the project id, the iid or the discussion id cannot be converted to a string. Otherwise: The only body field is `resolved`, defaulting to `true` only when `undefined`. |
| Client.ResolveDiscussionRequest | src/gitlab-client.ts:201-206 | The request once the ids are converted. The only body field is `resolved`, defaulting to `true` only when `undefined`. |
| Client.DiscussionIdIsNotEscaped | src/gitlab-client.ts:168-171 | For ids that convert, a discussion id `x/y` puts two segments `x` and `y` in the path string, so the request names another resource. |
| Client.NumericIdIsOneSegment | src/gitlab-client.ts:129 | A numeric iid or note id, the documented type, is always one segment. |
| Schema.PropertyOf | src/tools/files.ts:28-32 | The property found carries the key asked for. Nothing is found exactly when the key is not declared. |
| Schema.ToolNamed | src/index.ts:50-56 | The tool found carries the name asked for. Nothing is found exactly when no tool has that name. |
| Schema.DistinctAppend | src/index.ts:50-56 | Two repetition-free lists with no common element concatenate to a repetition-free list. |
| Schema.DeclaredDefaultAt | src/tools/branches.ts:34-38 | The default the schema declares is the one of the first tool and property carrying the names. |
| Schema.ProjectScopedAppend | src/index.ts:50-56 | Two lists in which only `list_projects` lacks a required `projectId` concatenate to such a list. |
| RepositoryTools.Tools | src/tools/repository.ts:4-30 | `get_project` requires `projectId`, and `list_projects` is the one tool that does not. |
| RepositoryTools.ToolsConsistent | src/tools/repository.ts:4-30 | Both argument schemas are consistent: distinct keys, distinct required keys, required keys declared, and no required key with a default. |
| RepositoryTools.CasesMatchTools | src/tools/repository.ts:4-42 | The advertised names are the `switch` cases, in order. |
| RepositoryTools.Request | src/tools/repository.ts:32-42 | An unknown name fails with the repository error, and exactly those. `list_projects` is `ListProjects` whatever the arguments. `get_project` fails exactly on missing arguments (the `projectId` read error) or an unconvertible project id (the conversion error). Otherwise it is a GET addressing the project. |
| RepositoryTools.Handle | src/tools/repository.ts:32-42 | Unknown names fail before the backend is called. For `get_project`, missing arguments give the `projectId` read error and an unconvertible id gives the conversion error, both before the backend is called. Otherwise the result is the backend's answer to that request. |
| RepositoryTools.ListProjectsIgnoresArguments | src/tools/repository.ts:34-35 | `list_projects` answers the same for any two argument values. |
| RepositoryTools.ListProjectsSchema | src/tools/repository.ts:6-13 | `list_projects` advertises a schema with no properties and nothing required. |
| BranchTools.Tools | src/tools/branches.ts:4-62 | Every branch tool requires `projectId`. |
| BranchTools.ToolsConsistent | src/tools/branches.ts:4-62 | Every branch tool's argument schema is consistent. In particular, no property with a declared default is required. |
| BranchTools.CasesMatchTools | src/tools/branches.ts:4-77 | The advertised names are the `switch` cases, in order. |
| BranchTools.ListBranchesCase | src/tools/branches.ts:66-67 | Fails exactly on missing arguments, with the `projectId` TypeError, or on a project id that cannot be converted, with the conversion TypeError. Otherwise it is a GET of the project's `repository/branches`, with no parameters and no body. |
| BranchTools.CreateBranchCase | src/tools/branches.ts:69-70 | Every falsy `ref` (absent, `""`, `null`) becomes `main`. A truthy one is sent unchanged. |
| BranchTools.DeleteBranchCase | src/tools/branches.ts:72-73 | Deletes the named branch of the named project, with the name encoded. |
| BranchTools.Request | src/tools/branches.ts:64-77 | Unknown names fail with the branch error, and exactly those. Known names fail on missing arguments with the `projectId` TypeError. Otherwise each name gives its case's request or error. |
| BranchTools.Handle | src/tools/branches.ts:64-77 | Unknown names fail before the backend is called. Missing arguments give the `projectId` TypeError, and an unconvertible project id gives the conversion TypeError. Any request error is the result. Otherwise the result is the backend's answer to that request. |
| BranchTools.DeclaredDefaultApplies | src/tools/branches.ts:34-38 | With `ref` left out, the branch is created from the default the schema advertises. |
| MergeRequestTools.CreateMergeRequestCase | src/tools/merge-requests.ts:83-90 | A falsy target branch becomes `main` and a falsy description becomes `""`. The source branch and title pass unchanged. |
| MergeRequestTools.Tools | src/tools/merge-requests.ts:4-79 | Every merge-request tool requires `projectId`. |
| MergeRequestTools.ToolsConsistent | src/tools/merge-requests.ts:4-79 | Every merge-request tool's argument schema is consistent. In particular, no property with a declared default is required. |
| MergeRequestTools.CasesMatchTools | src/tools/merge-requests.ts:4-100 | The advertised names are the `switch` cases, in order. |
| MergeRequestTools.ListMergeRequestsCase | src/tools/merge-requests.ts:92-93 | A falsy `state` becomes `opened`. |
| MergeRequestTools.MergeMergeRequestCase | src/tools/merge-requests.ts:95-96 | The commit message value is forwarded as it came, and the body object holds its key even when the value is `undefined`. |
| MergeRequestTools.Request | src/tools/merge-requests.ts:81-100 | Unknown names fail with the merge-request error, and exactly those. Known names fail on missing arguments with the `projectId` TypeError. Otherwise each name gives its case's request or error. |
| MergeRequestTools.Handle | src/tools/merge-requests.ts:81-100 | Unknown names fail before the backend is called. Missing arguments give the `projectId` TypeError, and an unconvertible project id gives the conversion TypeError. Any request error is the result. Otherwise the result is the backend's answer to that request. |
| MergeRequestTools.TargetBranchDefaultApplies | src/tools/merge-requests.ts:20-24 | With `targetBranch` left out, the request targets the advertised default. |
| MergeRequestTools.StateDefaultApplies | src/tools/merge-requests.ts:47-51 | With `state` left out, the listing uses the advertised default. |
| FileTools.CreateFileCase | src/tools/files.ts:123-130 | Missing arguments fail on `projectId`. Next, a project id or file path that cannot be converted fails with the conversion TypeError. Next, non-string content fails in `Buffer`. Nothing else fails. Otherwise the body carries the Base64 of the given text's UTF-8 bytes and targets the branch (falsy means `main`). |
| FileTools.Tools | src/tools/files.ts:4-119 | Every file tool requires `projectId`. |
| FileTools.ToolsConsistent | src/tools/files.ts:4-119 | Every file tool's argument schema is consistent. In particular, no property with a declared default is required. |
| FileTools.CasesMatchTools | src/tools/files.ts:4-158 | The advertised names are the `switch` cases, in order. |
| FileTools.UpdateFileCase | src/tools/files.ts:132-139 | As `create_file`, with PUT: the same three errors in the same order, and the same exact content bytes. |
| FileTools.GetFileCase | src/tools/files.ts:141-142 | A falsy `ref` becomes `main`, and the file path stays one segment. |
| FileTools.DeleteFileCase | src/tools/files.ts:148-154 | A falsy `branch` becomes `main`, and the commit message is forwarded. |
| FileTools.DecodeFile | src/tools/files.ts:143-146 | Succeeds exactly for an object with string `content`. The result has the same keys and the same other fields, with `content` replaced by its decoded text. A missing file gives the TypeError on `content`. |
| FileTools.Request | src/tools/files.ts:121-158 | Unknown names fail with the file error, and exactly those. Known names fail on missing arguments with the `projectId` TypeError. Otherwise each name gives its case's request or error. |
| FileTools.Handle | src/tools/files.ts:121-158 | Request errors pass through, so an unconvertible project id gives the conversion TypeError. Backend errors pass through too. Only `get_file` reshapes the backend's answer, through `DecodeFile`. |
| FileTools.StoredTextReadsBack | src/tools/files.ts:145 | Content stored by a write decodes, through `get_file`, to the text that was written. |
| FileTools.CreateThenGet | src/tools/files.ts:123-146 | The file content a `create_file` call sends reads back through `get_file` as the caller's string. |
| FileTools.CreateBranchDefaultApplies | src/tools/files.ts:28-32 | With `branch` left out, `create_file` writes to the advertised default. |
| FileTools.UpdateBranchDefaultApplies | src/tools/files.ts:59-63 | With `branch` left out, `update_file` writes to the advertised default. |
| FileTools.DeleteBranchDefaultApplies | src/tools/files.ts:109-113 | With `branch` left out, `delete_file` deletes on the advertised default. |
| FileTools.RefDefaultApplies | src/tools/files.ts:82-86 | With `ref` left out, `get_file` reads the advertised default. |
| DiscussionTools.CreateDiscussionCase | src/tools/discussions.ts:202-203 | The position is forwarded and is in the body exactly when it is truthy. |
| DiscussionTools.Tools | src/tools/discussions.ts:4-192 | Every discussion tool requires `projectId`. |
| DiscussionTools.ToolsConsistent | src/tools/discussions.ts:4-192 | Every discussion tool's argument schema is consistent. In particular, no property with a declared default is required. |
| DiscussionTools.CasesMatchTools | src/tools/discussions.ts:4-219 | The advertised names are the `switch` cases, in order. |
| DiscussionTools.ListDiscussionsCase | src/tools/discussions.ts:196-197 | Fails exactly on missing arguments (the `projectId` TypeError) or on a project id or iid that cannot be converted (the conversion TypeError). Otherwise it is a GET scoped to the project, ending `merge_requests/<iid>/discussions` for a slash-free iid, with no parameters and no body. |
| DiscussionTools.GetDiscussionCase | src/tools/discussions.ts:199-200 | Fails exactly on missing arguments, or on a project id, iid or discussion id that cannot be converted, in that order. Otherwise it is a GET scoped to the project, ending `discussions/<id>` with the ids raw. |
| DiscussionTools.AddNoteCase | src/tools/discussions.ts:205-206 | Fails exactly on missing arguments, or on a project id, iid or discussion id that cannot be converted, in that order. Otherwise it is a POST to `…/discussions/<id>/notes` whose only body key is `body`. |
| DiscussionTools.DeleteNoteCase | src/tools/discussions.ts:211-212 | Fails exactly on missing arguments, or on one of the four ids that cannot be converted, in that order. Otherwise it is a DELETE of `…/notes/<note id>` with the ids raw and no body. |
| DiscussionTools.ResolveCase | src/tools/discussions.ts:214-215 | Only an absent or `null` flag becomes `true`. An explicit `false` unresolves. |
| DiscussionTools.UpdateNoteCase | src/tools/discussions.ts:208-209 | Edits the addressed note, with the iid, discussion id and note id raw in the path. |
| DiscussionTools.Request | src/tools/discussions.ts:194-219 | Unknown names fail with the discussion error. Known names fail on missing arguments with the `projectId` TypeError. Otherwise each name gives its case's request or error. |
| DiscussionTools.Handle | src/tools/discussions.ts:194-219 | Unknown names fail before the backend is called. Missing arguments to a known tool give the `projectId` TypeError, and an unconvertible project id gives the conversion TypeError. Any request error is the result. Otherwise the result is the backend's answer to that request. |
| DiscussionTools.PositionTypeIsText | src/tools/discussions.ts:64-77 | The nested `position_type` admits only `text`. |
| DiscussionTools.ResolvedDefaultApplies | src/tools/discussions.ts:182-186 | With `resolved` left out, the discussion is resolved, as the schema advertises. |
| Router.Route | src/index.ts:73-85 | A name is routed to a family whose list holds it, and to none exactly when no list does. |
| Router.AllTools | src/index.ts:50-56 | Across the whole advertised list, `projectId` is required by every tool except `list_projects`. |
| Router.Outcome | src/index.ts:73-85 | A name no family lists fails with `Unknown tool: <name>` before any handler runs. Any other name gets its family handler's result. |
| Router.CallTool | src/index.ts:66-106 | The handler always answers with one text item, and never throws. An unrouted name gives `Error: Unknown tool: <name>` flagged as an error. The error flag is set exactly when routing or the handler failed. |
| Router.RoutedNamesAreHandlerCases | src/index.ts:73-82 | The router's name list for each family equals that family's `switch` cases. |
| Router.ErrorMessage | src/index.ts:96 | An `Error` contributes its message. Any other thrown value gives "Unknown error occurred". |
| Router.Envelope | src/index.ts:87-105 | Always exactly one text item. The error flag is present, and `true`, exactly on failure. Success carries the serialised result, and failure carries `Error: ` and the message. |
| Router.DescriptorNames | src/index.ts:50-56 | The advertised names are the handlers' `switch` names, family by family, in order. |
| Router.NamesUnique | src/index.ts:50-56 | No two advertised tools share a name. |
| Router.RoutedIffAdvertised | src/index.ts:73-85 | A call is routed if and only if a tool of that name is advertised. |
| Router.RoutesToOwner | src/index.ts:73-82 | A name is routed to a family if and only if that family's handler accepts it, so no handler-level unknown-tool error can occur. |
| Router.AllToolsConsistent | src/index.ts:50-56 | Every advertised schema has distinct keys and distinct required keys. Every required key is a declared property, and none of them declares a default. |
| Router.NonErrorThrowIsGeneric | src/index.ts:95-105 | A non-`Error` throw is reported as `Error: Unknown error occurred`, flagged as an error. |
| Router.SuccessEnvelope | src/index.ts:87-94 | A successful call carries the serialised handler value and no error flag. |
| Router.MissingArgumentsReported | src/index.ts:66-106 | A call without arguments to any tool except `list_projects` reports the `projectId` TypeError. |
| Router.UnconvertibleProjectIdReported | src/index.ts:66-106 | A call with arguments whose `projectId` cannot be converted to a string, to any tool except `list_projects`, reports the conversion TypeError flagged as an error. |
| Router.ListProjectsIgnoresArguments | src/index.ts:73-74 | The `list_projects` response does not depend on the arguments. |

## Left out

- The HTTP library, the network and GitLab itself. A handler gets a `backend` function, and its errors are `Error`s whose messages the model does not fix.
- The MCP server object, the stdio transport, `main`, reading the environment and the process exit. They are I/O with no logic of the bridge.
- `JSON.stringify` is the `serialize` parameter. It is not modelled that it returns `undefined` for an `undefined` result.
- The human-readable description texts of tools and properties. They are prose, and every other part of each descriptor is modelled.
- Numbers are integers. Fractions, `NaN`, `-0` and exponent notation in `String(n)` are not modelled.
- Strings are sequences of Unicode scalar values, so lone surrogates cannot be written. `encodeURIComponent` would throw `URIError` on them.
- Client.Base64Content: treats every non-string as the TypeError. `Buffer.from` also accepts arrays, array-likes and buffers, and the model omits the "Received …" suffix of Node's message.
- FileTools.DecodeFile: treats every non-string `content` as the same TypeError. `Buffer.from` accepts arrays and array-likes there as well.
- Base64.DecodeEncode: the round trip covers the text `Buffer` writes. Node's leniency for other input (skipped characters, URL-safe letters, early `=`) is modelled in `Decode`, but nothing is proved about it.
- `defaultProjectId` of the client configuration is stored but never read, so it is not modelled.
- Property reads see own fields only. The bridge reads no key that `Object.prototype` defines, so inherited values are left out. String conversion does model an own `toString` key, through `Js.Coercible`.
- Concurrency: each call is one independent evaluation.
- Bodies are the objects handed to the HTTP library. `BodyKeys` and `BodyField` describe those objects. Serialising them with `JSON.stringify` drops members whose value is `undefined`, so such a key (an absent `merge_commit_message`, say) does not reach GitLab. That step is not modelled.
- The segment properties are about the path string only (`Client.EncodedSegment`, `Client.ProjectPath` and the path clauses of the builders). How the HTTP library turns that string into a URL is not modelled. URL parsing removes dot segments, and `encodeURIComponent` leaves `.` unescaped, so an id `.` or `..` is affected. Raw ids are not escaped at all, so a `?` or `#` in an iid, discussion id or note id starts the query or fragment.
