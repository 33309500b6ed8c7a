# dynamic-todo core, modelled in Dafny

This project models the server core of **dynamic-todo**. In this Next.js app, an AI assistant reshapes a
user's to-do interface. The interface is a JSON tree of registered components. The assistant edits it
through an MCP (Model Context Protocol) server that speaks JSON-RPC 2.0. These parts are modelled:

- **The component registry** (`Components`): the 17 built-in component types, with their categories,
  the flag for whether they take children, and their prop names. Also registry lookups and
  `validateTreeComponents`, which scans a tree for unknown types and for leaves that have children.
- **The tree validator** (`ValidateTreeTool`, `ValidateTreeProperties`): `validate_tree` combines the
  scan with a structural walk over `component`, `props` and `children`.
- **The patch engine** (`ModifyUITool`, `ModifyUIProperties`, `PathSyntax`, `Navigation`):
  `modify_ui` adds, removes, updates or replaces one node at a JSONPath-like path. It stores the new
  tree under the next version.
- **The optimistic-locking state endpoint** (`UIStateRoute`): `GET` and `PUT /api/ui/state`.
- **The task service** (`TaskService`): title validation, create/get/list/update/delete, and the bulk
  loop with its success and failure counting.
- **The error taxonomy** (`ErrorHandling`) and the two JSON-RPC error-code mappings (`McpServer`,
  `McpRoute`). The codes follow section 5.1 of the JSON-RPC 2.0 Specification. The server adds its own
  -32000 to -32002.
- **The MCP server** (`McpServer`): dispatch of `handleRequest` and `handleToolCall`, the registry
  resource, and the SSE client register/unregister/notify bookkeeping.
- **The `/api/mcp` endpoint** (`McpRoute`): the envelope checks and the HTTP status chosen for a
  JSON-RPC error.
- **The client chat store** (`ChatStore`): the store's actions, and the event accumulation of
  `sendMessage`.

JSON values are dynamic (`JsonValue.Json`). An object keeps its key order, because `Object.assign`,
`Object.keys` and the order of validation errors depend on it. JavaScript's truthiness, `String(v)`
and property reads are written out in `JsonValue`. Persistence is an abstract map from user id to
record: `UIStateStorage.UIStateStore` for UI states and `TaskService.TaskStore` for task lists.
Timestamps, uuids and client callbacks are parameters.

Code that changes state is modelled as classes with `modifies` clauses. This covers the registry, the
stores, the MCP server's client map, the chat store and the route handlers. Each method is proved
against a function that specifies it. Loops are kept as loops: bulk operations, sorting, notifying
clients, the backward scan for the last assistant message and the streaming loop. Pure logic becomes
functions, and lemmas relate those functions to each other.

A few behaviours of the code as written are modelled faithfully. They may surprise a reader:

- `validate_tree` reads the path of a scan error as the text between the first and second `" at "`. A
  "cannot have children" message therefore yields the path `$ cannot have children`
  (`ValidateTreeProperties.LeafScanErrorPath`).
- A leaf component with `children: []` is reported invalid. The scan treats an empty array as truthy,
  although the structural walk accepts it (`ValidateTreeProperties.EmptyChildrenOnLeaf`).
- `validateTreeComponents` throws a `TypeError` on a `null` node and on truthy `children` that are not an
  array. `validate_tree` then fails before its own "Children must be an array" check can run.
- `sendMessage` splits each received chunk on `"\n"` by itself. An event line that arrives split across
  two chunks is therefore skipped (`ChatStore.Lines`).
- The server answers an unknown JSON-RPC method with `Method not found: <m>`. This differs from the
  message of the `MCPError.methodNotFound` factory, which is `Method '<m>' not found`.

## Model

| member | source | states |
|---|---|---|
| Text.SplitOnJoin | src/lib/stores/chatStore.ts:106 | splitting text joined from separator-free pieces gives those pieces back |
| Text.SplitOnFirst | src/lib/mcp/tools/validateTree.ts:36 | the first piece of a split ends at the separator's first occurrence |
| Text.TrimEmpty | src/lib/services/taskService.ts:23 | `trim()` gives the empty string iff every character is JavaScript whitespace |
| Text.LexLessIrreflexive | src/lib/services/taskService.ts:110-111 | string `<` never holds between a string and itself |
| Text.LexLessAsymmetric | src/lib/services/taskService.ts:110-111 | string `<` never holds in both directions |
| Text.LexLessTransitive | src/lib/services/taskService.ts:110-111 | string `<` is transitive |
| Text.LexLessTotal | src/lib/services/taskService.ts:110-111 | of two different strings, one is `<` the other |
| JsonValue.AssignSpec | src/lib/mcp/tools/modifyUI.ts:222 | after `Object.assign`, each key of the source has the source's value and every other key keeps the target's |
| JsonValue.AssignIntoEmpty | src/lib/mcp/tools/modifyUI.ts:222 | assigning into `{}` copies the source, key order included |
| ModifyUIProperties.RemoveInserted | src/lib/mcp/tools/modifyUI.ts:181-193 | removing at the index just inserted at restores the list |
| ModifyUIProperties.AssignIdempotent | src/lib/mcp/tools/modifyUI.ts:222 | assigning the same props twice is the same as once |
| TaskService.Missing | src/lib/services/taskService.ts:187-222 | exactly the requested ids that name no task |
| TaskService.FindIndexByIds | src/lib/services/taskService.ts:130 | the lookup fails iff the id is not among the task ids |
| TaskService.TaskStore.TasksOf | src/lib/storage/userState.ts:48-52 | a user with no stored list has no tasks |
| Components.BuiltInNamesDistinct | src/lib/mcp/components.ts:32-486 | the registry holds 17 components whose names are distinct |
| Components.BuiltInContainers | src/lib/mcp/components.ts:32-486 | exactly Container, Card, TodoApp and TaskList may have children |
| Components.BuiltInClassName | src/lib/mcp/components.ts:32-486 | every built-in component accepts a `className` prop |
| Components.ComponentRegistry.constructor | src/lib/mcp/components.ts:26-486 | the registry starts with the built-ins, keyed by name, in declaration order |
| Components.ComponentRegistry.GetComponentDetails | src/lib/mcp/components.ts:504-506 | finds details iff the name is registered, and the details carry that name |
| Components.ComponentRegistry.GetAllComponents | src/lib/mcp/components.ts:495-499 | every registered component once, in insertion order, and nothing else |
| Components.ComponentRegistry.GetComponentsByCategory | src/lib/mcp/components.ts:518-522 | exactly the registered components of the category, as a subsequence of the full list |
| Components.ComponentRegistry.RegisterComponent | src/lib/mcp/components.ts:556-558 | the entry is set or overwritten; a new name goes last and a re-registered name keeps its place |
| Components.OfCategory | src/lib/mcp/components.ts:521 | the filter keeps exactly the matching elements, in order |
| Components.Scan | src/lib/mcp/components.ts:527-551 | the scan succeeds iff no node on the way is `null` and no truthy `children` is a non-array |
| Components.LeafWithEmptyChildren | src/lib/mcp/components.ts:535-541 | a leaf with `children: []` is reported as unable to have children |
| Components.UnknownReportedFirst | src/lib/mcp/components.ts:531-533 | an unregistered component's message comes first in its node's report |
| Components.ValidateTreeComponents | src/lib/mcp/components.ts:527-551 | the error-collecting walk returns the messages of `Scan`, or the `TypeError` |
| Components.Visit | src/lib/mcp/components.ts:530-547 | visiting a node appends exactly the node's scan messages to those collected so far |
| Components.VisitChildren | src/lib/mcp/components.ts:543-545 | the `forEach` over the children appends their scan messages in order, or stops at the first `TypeError` |
| ErrorHandling.NewAppError | src/lib/errorHandling.ts:15-26 | message, code and suggestion as given; the status defaults to 500 |
| ErrorHandling.NewMcpError | src/lib/errorHandling.ts:87-94 | `data` is present iff a non-empty suggestion is given |
| ErrorHandling.McpFactoryCodes | src/lib/errorHandling.ts:96-128 | each factory uses its reserved code; only `versionConflict` carries a suggestion |
| ErrorHandling.SubclassStatus | src/lib/errorHandling.ts:40-78 | NotFoundError is 404 NOT_FOUND, ValidationError 400 VALIDATION_ERROR, VersionConflictError 409 with a suggestion |
| ErrorHandling.GenericUnlessApp | src/lib/errorHandling.ts:187-217 | a non-AppError gives 500 and INTERNAL_ERROR, or UNKNOWN_ERROR when it is not an Error at all |
| ErrorHandling.AppErrorAnswer | src/lib/errorHandling.ts:192-194 | an AppError answers with its own status code and its `toJSON` body |
| PathSyntax.Parts | src/lib/mcp/tools/modifyUI.ts:97 | the path is split into non-empty parts after the root is stripped |
| PathSyntax.PartsOfRender | src/lib/mcp/tools/modifyUI.ts:97 | tokenising a rendered path gives back the texts of its keys |
| PathSyntax.PathKeysOfRender | src/lib/mcp/tools/modifyUI.ts:97-110 | rendering keys as `$.a[0].b` and tokenising the result gives the keys back |
| PathSyntax.TrailingDigits | src/lib/mcp/tools/modifyUI.ts:134 | the longest run of digits at the end of a string |
| PathSyntax.SplitChildPath | src/lib/mcp/tools/modifyUI.ts:134-140 | `<parent>.children[N]` splits back into the parent path and N |
| PathSyntax.NoSlotWithoutBracket | src/lib/mcp/tools/modifyUI.ts:134-137 | a path that does not end in `]` has no child slot |
| Navigation.AtSetAt | src/lib/mcp/tools/modifyUI.ts:112-113 | after writing at a key path, reading there gives the written value |
| Navigation.SetAtFrame | src/lib/mcp/tools/modifyUI.ts:112-113 | writing at a key path leaves every diverging path unchanged |
| Navigation.SetAtSame | src/lib/mcp/tools/modifyUI.ts:112-113 | writing back the value already there changes nothing |
| Navigation.Walk | src/lib/mcp/tools/modifyUI.ts:103-117 | a walk that gets stuck stops at one of the path's parts; a walk that reaches a value reaches the value at the key path |
| Navigation.WalkFindsAt | src/lib/mcp/tools/modifyUI.ts:103-117 | where a key path exists, the walk reaches exactly its value |
| Navigation.NavigateRendered | src/lib/mcp/tools/modifyUI.ts:93-124 | navigating to a rendered path finds the value at its keys |
| Navigation.NavigateToPath | src/lib/mcp/tools/modifyUI.ts:93-124 | the loop returns what the `Navigate` specification gives |
| ModifyUITool.CheckComponent | src/lib/mcp/tools/modifyUI.ts:159-162 | a fragment passes iff its `component` is a registered name |
| ModifyUITool.NavigateToParent | src/lib/mcp/tools/modifyUI.ts:129-156 | a resolved parent is a node found at the parent path's keys; a path without a child slot is an invalid path |
| ModifyUITool.Insert | src/lib/mcp/tools/modifyUI.ts:181 | splice-insert at N, or append when N is past the end |
| ModifyUITool.RemoveAt | src/lib/mcp/tools/modifyUI.ts:193 | exactly element N goes; the rest keep their order |
| ModifyUITool.ModifyUI | src/lib/mcp/tools/modifyUI.ts:20-87 | an unknown user is NotFound; a failed operation is a ValidationError and stores nothing; success stores the new tree at version + 1 |
| ModifyUITool.Commit | src/lib/mcp/tools/modifyUI.ts:65-86 | a failed operation becomes "Failed to apply" and stores nothing; an applied one stores the tree at version + 1 and returns it with its description |
| ModifyUIProperties.AddThenRemoveRestores | src/lib/mcp/tools/modifyUI.ts:158-195 | removing at the slot just added to restores the tree |
| ModifyUIProperties.AddAtSlot | src/lib/mcp/tools/modifyUI.ts:174-182 | a successful add at a child slot writes the parent back with the fragment spliced in at the index |
| ModifyUIProperties.RemoveAtSlot | src/lib/mcp/tools/modifyUI.ts:185-195 | removing a non-null array child splices it out of the parent and names it in the description |
| ModifyUIProperties.RootAddIsAppend | src/lib/mcp/tools/modifyUI.ts:164-182 | `add` at `$` is the same as `add` at `$.children[length]` |
| ModifyUIProperties.RootAddThenRemoveRestores | src/lib/mcp/tools/modifyUI.ts:164-195 | a root append followed by removing the last child restores the tree |
| ModifyUIProperties.ReplaceTwiceRestores | src/lib/mcp/tools/modifyUI.ts:239-247 | replacing a slot and then putting the old child back restores the tree |
| ModifyUIProperties.ReplaceInArray | src/lib/mcp/tools/modifyUI.ts:239-247 | a registered fragment replaces a non-null array child at its index and nothing else in the parent |
| ModifyUIProperties.ReplaceRootMerges | src/lib/mcp/tools/modifyUI.ts:233-236 | replace at `$` copies the fragment's fields over the root; omitted fields survive and the old key order is kept |
| ModifyUIProperties.UnknownComponentRejected | src/lib/mcp/tools/modifyUI.ts:159-162 | `add` and `replace` of an unregistered type fail before the tree is touched |
| ModifyUIProperties.AddFrame | src/lib/mcp/tools/modifyUI.ts:174-182 | `add` changes nothing outside the parent's subtree |
| ModifyUIProperties.RemoveFrame | src/lib/mcp/tools/modifyUI.ts:185-195 | `remove` changes nothing outside the parent's subtree |
| ModifyUIProperties.ReplaceFrame | src/lib/mcp/tools/modifyUI.ts:239-247 | a slot `replace` changes nothing outside the parent's subtree |
| ModifyUIProperties.UpdateMergesProps | src/lib/mcp/tools/modifyUI.ts:197-225 | supplied props win, other props keep their values, props is created if absent, other fields and paths are unchanged |
| ModifyUIProperties.UpdateAtNode | src/lib/mcp/tools/modifyUI.ts:197-225 | an update of a node with absent, falsy or object props writes `Object.assign` of those props and the update into that node |
| ModifyUIProperties.UpdateIdempotent | src/lib/mcp/tools/modifyUI.ts:216-222 | applying the same update twice is the same as once |
| ModifyUIProperties.MergePropsAgain | src/lib/mcp/tools/modifyUI.ts:216-222 | merging the same props into object, falsy or array props a second time changes nothing |
| ModifyUIProperties.AssignArrayShape | src/lib/mcp/tools/modifyUI.ts:222 | assigning props onto array props fails (invalid array length) iff a `length` written is not a whole number below 2^32; otherwise the length is the last length set raised by later index writes, each written index holds its last value, cut-off or padded slots are holes, and the rest keep their elements |
| ModifyUIProperties.WrittenLengthShape | src/lib/mcp/tools/modifyUI.ts:222 | the array's final length ignores its old length once a `length` is written, and is otherwise the larger of the old length and one past the highest index written |
| ModifyUIProperties.AssignArrayAgain | src/lib/mcp/tools/modifyUI.ts:222 | assigning the same props onto an array a second time changes nothing |
| ModifyUIProperties.ArrayPropsWritten | src/lib/mcp/tools/modifyUI.ts:216-222 | props `[1,2]` updated with `{"0":5}` become `[5,2]`; `{"length":-1}` fails with an invalid array length; `{"length":1}` cuts to `[1]`; writing index 2 of `[1]` pads with a hole |
| ModifyUIProperties.ParentAfterPutNode | src/lib/mcp/tools/modifyUI.ts:129-156 | after a node is written at the parent slot, the same path resolves to the new node |
| UIStateStorage.UIStateStore.GetUserUIState | src/lib/storage/userState.ts:65-76 | finds the user's record iff one is stored |
| UIStateStorage.UIStateStore.SaveUserUIState | src/lib/storage/userState.ts:80-86 | overwrites exactly the user's record |
| ValidateTreeTool.ScanErrors | src/lib/mcp/tools/validateTree.ts:33-40 | one error per scan message, in order, each with the registry hint |
| ValidateTreeTool.Validate | src/lib/mcp/tools/validateTree.ts:28-49 | defined iff the scan does not throw; valid iff there are no errors; the scan messages come first |
| ValidateTreeTool.ValidateTree | src/lib/mcp/tools/validateTree.ts:28-49 | the procedure returns what `Validate` specifies |
| ValidateTreeTool.ValidateNode | src/lib/mcp/tools/validateTree.ts:51-122 | the recursive walk appends exactly the node's structural errors |
| ValidateTreeTool.ValidateChildren | src/lib/mcp/tools/validateTree.ts:116-119 | children are walked in order under `path.children[i]` |
| ValidateTreeTool.ValidateChildList | src/lib/mcp/tools/validateTree.ts:102-121 | falsy children add nothing; a non-array, or children on a leaf, add one error at `path.children`; otherwise the children are walked |
| ValidateTreeProperties.UnknownPropErrorsEmpty | src/lib/mcp/tools/validateTree.ts:80-90 | no unknown-prop errors iff every prop key is declared |
| ValidateTreeProperties.NodeErrorsEmpty | src/lib/mcp/tools/validateTree.ts:51-122 | the structural walk reports nothing iff the node satisfies the independent `StructurallyValid` |
| ValidateTreeProperties.NodeErrorsWithin | src/lib/mcp/tools/validateTree.ts:57-118 | every structural error's path lies under the node's path |
| ValidateTreeProperties.ValidIff | src/lib/mcp/tools/validateTree.ts:28-49 | valid iff the scan is clean and the tree is structurally valid |
| ValidateTreeProperties.UnknownScanErrorPath | src/lib/mcp/tools/validateTree.ts:36 | the path of an unknown-component error is the node's path |
| ValidateTreeProperties.LeafScanErrorPath | src/lib/mcp/tools/validateTree.ts:36 | the path of a cannot-have-children error is `<path> cannot have children` |
| ValidateTreeProperties.MissingRequiredPropsAccepted | src/lib/mcp/tools/validateTree.ts:92-98 | a missing required prop is not an error |
| ValidateTreeProperties.CanBeChildOfAgrees | src/lib/mcp/tools/validateTree.ts:127-137 | a one-child tree validates iff `canBeChildOf(child, parent)` |
| ValidateTreeProperties.ScanWithChild | src/lib/mcp/components.ts:527-551 | the scan of a parent holding one bare child is clean iff `canBeChildOf(child, parent)` |
| ValidateTreeProperties.EmptyChildrenOnLeaf | src/lib/mcp/components.ts:535-541 | a leaf with `children: []` is invalid, with exactly the scan's error |
| UIStateRoute.QueryUser | src/app/api/ui/state/route.ts:22 | an absent or empty `userId` query means `default` |
| UIStateRoute.GetOutcome | src/app/api/ui/state/route.ts:20-49 | the stored record with 200, or 404 "User state not found" |
| UIStateRoute.HandleGet | src/app/api/ui/state/route.ts:20-49 | the handler answers what `GetOutcome` specifies |
| UIStateRoute.CheckPut | src/app/api/ui/state/route.ts:55-79 | passes iff userId is a non-empty string, version is a number and the tree has a truthy component; otherwise 400 or 500 |
| UIStateRoute.HandlePut | src/app/api/ui/state/route.ts:55-121 | the handler answers and stores what `PutOutcome` specifies |
| UIStateRoute.PutWritesOnlyOnSuccess | src/app/api/ui/state/route.ts:82-113 | the store changes only on 200; then it holds the given tree at the matched version + 1 |
| UIStateRoute.StaleVersionConflicts | src/app/api/ui/state/route.ts:92-101 | a version mismatch answers 409 with both versions and stores nothing |
| UIStateRoute.SecondWriterConflicts | src/app/api/ui/state/route.ts:92-113 | of two writers that read the same version, the second gets 409 |
| UIStateRoute.GetAfterPut | src/app/api/ui/state/route.ts:20-49 | after a successful PUT, GET returns the record PUT returned |
| UIStateRoute.RejectedBeforeStore | src/app/api/ui/state/route.ts:60-79 | a rejected request never reaches the store |
| TaskService.ValidateTitle | src/lib/services/taskService.ts:22-32 | accepted iff the trimmed title is non-empty and the untrimmed title has at most 500 UTF-16 code units; errors name the field `title` |
| TaskService.AstralTitleLimit | src/lib/services/taskService.ts:26 | a title made only of characters outside the Basic Multilingual Plane is accepted iff it is non-empty and has at most 250 characters, since each counts twice |
| Text.Utf16Length | src/lib/services/taskService.ts:26 | a string's JavaScript `length` lies between its character count and twice it; it equals the character count iff every character is in the Basic Multilingual Plane |
| Text.Utf16LengthConcat | src/lib/services/taskService.ts:26 | the code-unit length of a concatenation is the sum of the lengths |
| TaskService.EmptyTitleIffBlank | src/lib/services/taskService.ts:23-25 | the "cannot be empty" error occurs iff the title is all whitespace |
| TaskService.FindIndex | src/lib/services/taskService.ts:130 | the first index with the id, or none iff no task has it |
| TaskService.MergeSpec | src/lib/services/taskService.ts:151-154 | the spread merge gives supplied keys their new values and keeps the others |
| TaskService.UpdatedSpec | src/lib/services/taskService.ts:136-155 | the title is trimmed; completing stamps `completedAt` and uncompleting removes it; metadata is merged key-wise; id and createdAt are kept |
| TaskService.Filtered | src/lib/services/taskService.ts:77-81 | keeps exactly the tasks matching the filter, and all of them when the filter is absent or `all` |
| TaskService.BeforeOrder | src/lib/services/taskService.ts:87-113 | the comparator is a strict order: irreflexive and transitive |
| TaskService.Insert | src/lib/services/taskService.ts:87-113 | the result holds the input's tasks plus the inserted one (as a multiset) |
| TaskService.InsertSorted | src/lib/services/taskService.ts:87-113 | insertion keeps the list sorted |
| TaskService.SortTasks | src/lib/services/taskService.ts:84-113 | the result is sorted by the key and order, and is a permutation of the input |
| TaskService.BulkCounts | src/lib/services/taskService.ts:184-222 | updated + failed equals the number of ids |
| TaskService.BulkNonDelete | src/lib/services/taskService.ts:187-222 | without delete, the task ids are unchanged and the failures are exactly the missing ids |
| TaskService.BulkDeleteShrinks | src/lib/services/taskService.ts:208-211 | each successful delete removes one task |
| TaskService.DeleteRemovesOne | src/lib/services/taskService.ts:173 | deleting removes exactly that task and keeps the order of the rest |
| TaskService.TaskStore.CreateTask | src/lib/services/taskService.ts:37-54 | an invalid title stores nothing; otherwise the trimmed, uncompleted task is appended to the user's list |
| TaskService.TaskStore.GetTask | src/lib/services/taskService.ts:59-68 | the first task with the id, or NotFound iff there is none |
| TaskService.TaskStore.ListTasks | src/lib/services/taskService.ts:73-119 | the filtered tasks, sorted (ascending only for `asc`), with their count |
| TaskService.TaskStore.UpdateTask | src/lib/services/taskService.ts:124-160 | NotFound or a title error store nothing; otherwise exactly the task at its index is replaced by `Updated` |
| TaskService.TaskStore.DeleteTask | src/lib/services/taskService.ts:165-175 | NotFound stores nothing; otherwise the task at its index is spliced out |
| TaskService.TaskStore.BulkTaskOperation | src/lib/services/taskService.ts:180-231 | the loop matches `BulkRun`; the list is saved unless it is a delete with no success |
| TaskService.BulkOne | src/lib/services/taskService.ts:187-222 | one id: a missing id is recorded as failed; otherwise the operation is applied at its index and counted |
| McpServer.ToolCatalogue | src/lib/mcp/server.ts:67-144 | four tools with distinct names; required arguments are declared; `modify_ui` has four operations |
| McpServer.ErrorToMcpError | src/lib/mcp/server.ts:335-367 | the code is one of four, the message is kept, and a non-Error gives "Unknown error" |
| McpServer.ErrorCodes | src/lib/mcp/server.ts:338-360 | NotFound gives -32000, Validation -32602, VersionConflict -32002, anything else -32603 |
| McpServer.Deliveries | src/lib/mcp/server.ts:322-330 | one delivery per registered client, in registration order |
| McpServer.OnlyModifyWrites | src/lib/mcp/server.ts:257-300 | only `modify_ui` changes the store or notifies, and it stores version + 1 and announces the change |
| McpServer.UnknownNamesAreInternal | src/lib/mcp/server.ts:235-252 | an unknown tool or resource is an internal error that names it |
| McpServer.Without | src/lib/mcp/server.ts:315-317 | removal keeps exactly the other ids and keeps them distinct |
| McpServer.McpServer.RegisterSSEClient | src/lib/mcp/server.ts:305-310 | sets the callback; a new id goes last, and a re-registered id keeps its place |
| McpServer.McpServer.UnregisterSSEClient | src/lib/mcp/server.ts:315-317 | removes exactly that client |
| McpServer.McpServer.NotifyClients | src/lib/mcp/server.ts:322-330 | every client is called in order; a throwing callback does not stop the rest |
| McpServer.McpServer.HandleToolCall | src/lib/mcp/server.ts:257-300 | answers, stores and notifies as `ToolCallOutcome` specifies |
| McpServer.McpServer.CallGetCurrentTree | src/lib/mcp/server.ts:266-268 | answers what `TreeOutcome` specifies and changes nothing |
| McpServer.McpServer.CallGetComponentDetails | src/lib/mcp/server.ts:270-272 | answers what `DetailsOutcome` specifies and changes nothing |
| McpServer.McpServer.CallValidateTree | src/lib/mcp/server.ts:274-276 | answers what `ValidationOutcome` specifies and changes nothing |
| McpServer.McpServer.CallModifyUI | src/lib/mcp/server.ts:278-286 | stores and notifies as `ModifyToolOutcome` specifies; on failure nothing is stored or sent |
| McpServer.McpServer.HandleRequest | src/lib/mcp/server.ts:165-213 | keeps the request id; an unknown method gets -32601; thrown errors are translated; it changes no state beyond what the tool does |
| McpRoute.Envelope | src/app/api/mcp/route.ts:10-48 | forwards iff the body has `jsonrpc` "2.0" and a non-empty string `method`, with id `?? 1`; otherwise 400 with the id `?? null` |
| McpRoute.GetErrorStatus | src/app/api/mcp/route.ts:77-94 | every status is one of 400/404/409/422/500; 500 iff the code is not a known one |
| McpRoute.ResponseStatus | src/app/api/mcp/route.ts:54 | 200 iff the response carries no error |
| McpRoute.StatusMatchesAppError | src/app/api/mcp/route.ts:77-94 | for the three error subclasses, the HTTP status equals the error's own status code |
| McpRoute.DispatchStatuses | src/app/api/mcp/route.ts:77-94 | an unknown method is 404; any other Error is 500 |
| McpRoute.Post | src/app/api/mcp/route.ts:10-72 | envelope errors never reach the server; a forwarded request keeps its id and gets the status of its response; for a known method the response, the new store and the notifications sent are exactly those of `RequestOutcome` |
| ChatStore.LastAssistant | src/lib/stores/chatStore.ts:56-61 | the index of the last assistant message, or none iff there is no assistant message |
| ChatStore.UpdatedLast | src/lib/stores/chatStore.ts:53-64 | only the last assistant message takes the update; without one nothing changes |
| ChatStore.Payload | src/lib/stores/chatStore.ts:109-112 | a payload exists iff the line starts with `data: ` and is not `[DONE]` |
| ChatStore.ReplayContent | src/lib/stores/chatStore.ts:117-121 | the accumulated text is the concatenation of every `text` payload, in order |
| ChatStore.ReplayTracks | src/lib/stores/chatStore.ts:94-147 | the answer's message keeps its id, role and timestamp, and shows the text, reasoning and tool calls received so far |
| ChatStore.SkippedLine | src/lib/stores/chatStore.ts:109-151 | lines without the prefix, the `[DONE]` marker and malformed JSON change nothing |
| ChatStore.LinesOfOneChunk | src/lib/stores/chatStore.ts:105-106 | a chunk of complete newline-free lines yields exactly those lines |
| ChatStore.ChatStore.SetCurrentUser | src/lib/stores/chatStore.ts:35-40 | the store publishes a change only when the id differs |
| ChatStore.ChatStore.AddMessage | src/lib/stores/chatStore.ts:42-51 | appends exactly one message with the given id and timestamp |
| ChatStore.ChatStore.UpdateLastAssistantMessage | src/lib/stores/chatStore.ts:53-64 | the backward loop produces `UpdatedLast` |
| ChatStore.ChatStore.ClearMessages | src/lib/stores/chatStore.ts:168-170 | empties the messages and clears the error |
| ChatStore.ChatStore.ClearError | src/lib/stores/chatStore.ts:172-174 | clears only the error; the persisted part is unchanged |
| ChatStore.ChatStore.SendMessage | src/lib/stores/chatStore.ts:66-166 | the user message comes first, then the streamed answer (its content is the concatenated text) or the error reply; loading ends false |
| ChatStore.ChatStore.ReadStream | src/lib/stores/chatStore.ts:101-152 | after the reading loop, the answer and the error are what `Replay` gives for the chunks' lines |
| ChatStore.ChatStore.ReadChunk | src/lib/stores/chatStore.ts:105-152 | one chunk advances the state as `Replay` does over its `"\n"`-separated lines |
| ChatStore.ChatStore.ReadLine | src/lib/stores/chatStore.ts:108-151 | one line advances the state as `StepLine` specifies |
| ChatStore.ChatStore.HandleEvent | src/lib/stores/chatStore.ts:117-148 | one parsed event updates the answer and the error as `Absorb` specifies |
| ChatStore.ChatStore.UpdateAssistantLast | src/lib/stores/chatStore.ts:53-64 | with the answer last, the update merges into exactly that message and publishes once |

## Left out

- I/O: file storage, `fetch`, the stream reader, `console` logging and `withErrorLogging`. Storage is an abstract per-user map. For `sendMessage`, the HTTP outcome is a parameter.
- Clocks and ids: `new Date().toISOString()` and `uuidv4()` are parameters.
- `TextDecoder`: chunks arrive as strings. `JSON.parse` is a parameter that returns `None` where it throws.
- Numbers are integers: JSON floats and NaN are not modelled.
- Object keys that look like integers are not enumerated first, as JavaScript does.
- Prototype properties are not modelled.
- `ModifyUITool.ModifyUI`: the tree is modelled as a value rebuilt along the edited path, not as a clone mutated in place. The clone shares nothing, so results agree. Aliasing between the stored tree and an inserted fragment is not represented.
- `ModifyUITool.ApplyUpdate`: the description joins the prop names of the update in key order, the same as `Object.keys`. Integer-like keys are not reordered.
- `ModifyUITool.MergeProps`: on array props, holes left by a longer `length` or a far index are stored as `null`, which is how JSON renders them; a key that is neither an index nor `length` becomes a named property of the array, which its JSON value does not hold, so the model drops it.
- `ModifyUITool.ErrorText`: every TypeError the engine raises is reported with the one message "TypeError"; the engine's own wording (which names the property and the value) is not modelled.
- `ErrorHandling.EngineTypeError`: the same single "TypeError" message stands for every engine TypeError.
- `ModifyUITool.StringToNumber`: reads blank strings and runs of decimal digits only; signs, exponents, hexadecimal, `Infinity` and decimals (such as "-1", "1e3", "0x10") are read as NaN, where JavaScript reads numbers.
- `JsonValue.AsSource`: a string passed as props is split into one key per character; JavaScript splits it into UTF-16 code units, so characters outside the Basic Multilingual Plane are not split into their two halves.
- `TaskService.SortTasks`: modelled as a stable insertion sort on a sequence, not as `Array.prototype.sort` on an array. The contract states sortedness and permutation, not stability.
- `TaskService.TaskStore.ListTasks`: the contract states that the listed tasks are sorted and a permutation of the filtered ones, not that equal keys keep their stored order.
- `TaskService.SortKey`: a non-string `priority` or `dueDate` is compared by its string form. JavaScript's `<` on mixed types is not modelled.
- `TaskService.ValidateTitle`: titles are strings. A non-string title, which makes `trim` throw, is not modelled.
- `McpServer`: tool results are kept as structured values. The `JSON.stringify` rendering into the `content` text is not modelled.
- `McpServer.McpServer.NotifyClients`: callbacks are opaque handles. Which ones throw is a parameter. What a callback does beyond receiving the notification is not modelled.
- `ChatStore.ChatStore.SendMessage`: the `userId` is only passed to `fetch` and to `fetchUIState`. Both are I/O, so it is not a parameter.
- `ChatStore.ChatStore.SendMessage`: the count of published states is not stated, and neither is `isLoading` while the request runs.
- `ChatStore.ChatStore.SendMessage`: errors thrown while reading the stream are not modelled, nor concurrent calls.
- `ChatStore.ChatStore.SendMessage`: the UI refresh after a tool-call event (`fetchUIState`) is I/O and is left out.
- `ChatStore.Patch`: an update can set only content, reasoning, tool calls and summary, which are the fields the store's callers set.
- Persistence of the chat store to `localStorage`: `ChatStore.PersistedState` names the part that is persisted, which is the messages and the current user.
- The registry's `description` and `examples` texts are documentation only. One example calls `new Date()`.
- Text.LowerAscii: `toLowerCase` is modelled on ASCII letters only, and other characters are left unchanged. Full Unicode case mapping is out of scope.
- String `<` compares characters by code point. JavaScript compares UTF-16 code units, so the two orders differ for characters outside the Basic Multilingual Plane.
- The other routes, the LLM client, the SSE stream route, the React components and the client UI store are not part of this model.
