# editor-fe core, modelled in Dafny

editor-fe is a browser code editor. It holds a workspace of projects as a
tree of named files and folders. It lets the user add, delete, rename and
edit nodes in that tree. It previews each project in one of three ways:
- an in-browser bundler (a "sandbox" project, React or static HTML);
- a Flutter web build served by a compile server;
- an Express API started by the same server.

This project models the parts of it that decide things:
- the workspace hook and the tree data (`useFileStructure`, the initial
  workspace and the folder templates);
- how a project is flattened into a path-to-content record, and how the
  preview picks an entry file, a bundler template and a view;
- the compile state machine and log of the preview provider;
- the sandbox console buffer;
- the bookkeeping of the file tree, the editor panel, the preview header
  and the preview navigator.

Layout, one module per source file, plus two shared modules:

| module | models |
|---|---|
| `Wrappers`, `Strings` | `Option`; JavaScript's `split`, `trim`, `toLowerCase`, `Number.toString` and the `//+` collapse used for keys |
| `FileSystemNode` | the node type and the initial workspace (`src/constants/initialFileStructure.ts`) |
| `Templates` | the folder template catalog (`src/utils/templates.ts`) |
| `WorkspaceTree` | the recursive meaning of "walk a cursor down a name path and edit the list there" |
| `UseFileStructure` | the hook's state as a class; each tree operation is a loop that walks the path and rebuilds the copy, proved equal to `WorkspaceTree.EditAt` |
| `FileUtils` | `getLanguageFromExtension`; `getSandpackFiles` as a recursive method that fills an ordered record |
| `PreviewRouter` | `findEntry`, `detectTemplate`, the classification and the choice of view |
| `PreviewContext` | the compile state machine, session-id extraction and the log socket's events |
| `SandpackContext` | the console buffer |
| `FileTree` | one tree level's component state and handlers |
| `EditorPanel` | project classification, compile handlers, the terminal and the editor's text |
| `CustomPreviewHeader`, `PreviewNavigator` | the project-name fallback chains and the preview route |
| `Scenarios` | the concrete workspace and templates run through the definitions above |

Conventions of the model:
- JavaScript truthiness of an optional string is `PreviewContext.Truthy`:
  present and not empty.
- The `files` record, a JavaScript object filled key by key, is a sequence
  of `(key, value)` pairs in insertion order. Assigning to an existing key
  keeps its position, as JavaScript does for non-integer keys. The template
  catalog, a constant object literal, is a `match` on the key
  (`Templates.Lookup`).
- A traversal that reads `.children` of `undefined`, or iterates a missing
  `children`, throws in the source. The model returns `None` there, and the
  store's methods report it as the outcome `Crashed` and leave the tree
  unchanged, as a thrown exception does.
- A compile is two events: `Start`, the synchronous update, and `Settle`,
  the reply or fault arriving later. Replies of several compiles may arrive
  in any order, and the state is the replay of the events as they happened.
- HTTP replies, socket events, `Date.now()` and `toLocaleTimeString()` are
  parameters.

Three behaviours of the code the model keeps:
- `findEntry` falls back to the first `/src/` script key even when its content
  is empty. Only the twelve fixed candidates are tested for truthy content.
- The `node` template can never be chosen. `/server.js` and `/app.js` end in
  `.js`, so the `react` branch fires first.
- The editor panel's compile handlers look up `selectedFile.path[0]` even
  when it is `""`. The classification treats `""` as "no project". The two
  differ only when a top-level node is named `""`.

## Model

| member | source | states |
|---|---|---|
| FileSystemNode.InitialProjects | src/constants/initialFileStructure.ts:8-219 | the workspace starts with four folders, named my-project, web-project, flutter-project and express-api, in that order |
| FileSystemNode.InitialWellFormed | src/constants/initialFileStructure.ts:8-219 | in the initial data, sibling names are distinct at every level, only files carry content and only folders carry children |
| Templates.Lookup | src/utils/templates.ts:4-225 | the catalog has an entry exactly for blank, express, react, flutter and html |
| Templates.TemplateChildren | src/hooks/useFileStructure.ts:102 | an unknown template name gives an empty child list |
| Templates.CatalogKeys | src/utils/templates.ts:4-5 | the catalog keys are distinct and `blank` is the empty list |
| Templates.TemplatesWellFormed | src/utils/templates.ts:4-225 | in every template, sibling names are distinct, files carry content and folders carry children |
| WorkspaceTree.FindIndex | src/hooks/useFileStructure.ts:72 | `findIndex` by name: -1 or an index holding that name, and no earlier sibling has it |
| WorkspaceTree.FindIndexFindsPresentName | src/hooks/useFileStructure.ts:72 | the search succeeds exactly when some sibling has the name |
| WorkspaceTree.FindFileIndex | src/hooks/useFileStructure.ts:41 | the first non-folder sibling with the name, or -1 when every sibling is a folder or named otherwise |
| WorkspaceTree.ParentPath | src/components/FileTree.tsx:155 | `slice(0, -1)`: the path is the result plus its last segment; the empty path stays empty |
| WorkspaceTree.Descend | src/hooks/useFileStructure.ts:55-57 | the cursor walk `curr = curr.find(n => n.name === part).children`, failing where the source throws; EditLandsAtPath and MissingSegmentFails state its properties |
| WorkspaceTree.EditAt | src/hooks/useFileStructure.ts:53-59 | an edit applied to the list the walk reaches, with the copy rebuilt around it; EditLandsAtPath, EditLeavesOtherPathsAlone, NeutralEditKeepsTree and CancellingEditsRestoreTree state its properties |
| WorkspaceTree.EditLandsAtPath | src/hooks/useFileStructure.ts:53-59 | an edit at a path succeeds exactly when the path can be walked, and the list reached by the same path afterwards is the edited list |
| WorkspaceTree.EditLeavesOtherPathsAlone | src/hooks/useFileStructure.ts:53-59 | after an edit, a walk down any path that branches off the edited one (neither is a prefix of the other) reaches the same list as before |
| WorkspaceTree.MissingSegmentFails | src/hooks/useFileStructure.ts:55-57 | a path segment that no sibling carries makes both the walk and the edit fail |
| WorkspaceTree.NeutralEditKeepsTree | src/hooks/useFileStructure.ts:53-59 | an edit that leaves the reached list as it was leaves the whole tree as it was |
| WorkspaceTree.CancellingEditsRestoreTree | src/hooks/useFileStructure.ts:53-74 | two edits at one path whose combined effect on that list is nothing restore the whole tree |
| WorkspaceTree.AppendAddsLastChild | src/hooks/useFileStructure.ts:51-59 | `addNode` puts the node last in the list the path reaches, with no duplicate-name check |
| WorkspaceTree.AddThenDeleteRestores | src/hooks/useFileStructure.ts:58-73 | adding a node whose name no sibling has and then deleting that name restores the tree |
| WorkspaceTree.AddThenDeleteRemovesEarlierTwin | src/hooks/useFileStructure.ts:58-73 | when a sibling already has the name, add-then-delete removes that earlier sibling and keeps the new node at the end |
| WorkspaceTree.RemoveDeletesFirstMatch | src/hooks/useFileStructure.ts:72-73 | delete removes exactly the first sibling with the name and keeps the rest in order; with no match the list is unchanged |
| WorkspaceTree.RenameChangesFirstMatchOnly | src/hooks/useFileStructure.ts:87-91 | rename changes only the name of the first sibling called `oldName`, keeping kind, content and children; with no match nothing changes |
| WorkspaceTree.RenameToSameNameKeepsTree | src/hooks/useFileStructure.ts:80-94 | `renameNode(p, a, a)` leaves the tree equal to before when the path exists |
| WorkspaceTree.SetContentWritesFirstFile | src/hooks/useFileStructure.ts:41-45 | the content write hits the first non-folder sibling with the name, never a folder, and nothing else; with no such file nothing changes |
| WorkspaceTree.AddDuplicateBreaksDistinctNames | src/hooks/useFileStructure.ts:58 | adding a node whose name a sibling already has leaves two siblings with one name |
| WorkspaceTree.AddFreshKeepsDistinctNames | src/hooks/useFileStructure.ts:58 | adding a node with a fresh name keeps sibling names distinct |
| UseFileStructure.WalkStep | src/hooks/useFileStructure.ts:55-57 | entering the first child named by the next path segment records its frame and leaves the rest of the path to edit, with the final result unchanged |
| UseFileStructure.EditCopy | src/hooks/useFileStructure.ts:53-59 | the cursor loop over the path, followed by the edit and the rebuild of the copy, computes exactly `EditAt` |
| UseFileStructure.EditList | src/hooks/useFileStructure.ts:58 | the in-place `push`, `splice` or field write on the reached list is exactly `ApplyEdit` |
| UseFileStructure.PutBack | src/hooks/useFileStructure.ts:53-59 | putting the edited list back into its recorded ancestors is exactly `Rebuild` |
| UseFileStructure.FileStructureStore.constructor | src/hooks/useFileStructure.ts:11-19 | the initial tree, no selection, both counters at zero |
| UseFileStructure.FileStructureStore.SelectFile | src/hooks/useFileStructure.ts:22-27 | only the selection changes, to the node and path given |
| UseFileStructure.FileStructureStore.UpdateFileContent | src/hooks/useFileStructure.ts:30-48 | with no selection or no string value, nothing happens; otherwise the first file named like the selection under its parent path gets the value, and a broken path crashes with the tree kept; the selection is never changed |
| UseFileStructure.FileStructureStore.AddNode | src/hooks/useFileStructure.ts:51-62 | a walkable path gets the node as its last child and nothing else changes; an unwalkable one crashes with the tree kept |
| UseFileStructure.FileStructureStore.DeleteNode | src/hooks/useFileStructure.ts:65-77 | the tree becomes the delete-first-match edit at the path, or stays put on a crash |
| UseFileStructure.FileStructureStore.RenameNode | src/hooks/useFileStructure.ts:80-94 | the tree becomes the rename-first-match edit at the path, or stays put on a crash |
| UseFileStructure.FileStructureStore.CreateFolder | src/hooks/useFileStructure.ts:97-106 | adds a folder whose children are the template's list, or empty for an unknown name, as the last child at the path |
| UseFileStructure.FileStructureStore.TriggerNewFile | src/hooks/useFileStructure.ts:109-111 | the new-file counter goes up by exactly one and nothing else changes |
| UseFileStructure.FileStructureStore.TriggerNewFolder | src/hooks/useFileStructure.ts:113-115 | the new-folder counter goes up by exactly one and nothing else changes |
| Strings.Split | src/contexts/PreviewContext.tsx:75 | `split` gives at least one field, no field holds the separator, and one field exactly when the separator is absent |
| Strings.JoinSplit | src/contexts/PreviewContext.tsx:75 | joining the fields of a split gives back the string |
| Strings.SplitJoin | src/components/FileTree.tsx:121 | splitting a join of separator-free fields gives back the fields |
| Strings.LastField | src/utils/fileUtils.ts:5 | `split(c).pop()`: a separator-free suffix of the string that follows the last separator, or the whole string when there is none |
| Strings.TrimEmptyIffBlank | src/components/FileTree.tsx:128 | `trim()` is empty exactly when the string is all whitespace |
| Strings.Lower | src/utils/fileUtils.ts:5 | lowercasing keeps the length and maps each character |
| Strings.CollapseSlashes | src/utils/fileUtils.ts:27 | the result has no "//", is no longer than the input and keeps its first character |
| Strings.CollapseDoubleSlash | src/utils/fileUtils.ts:27 | anywhere in the text, "//" collapses as "/" does; with CollapseKeepsSingleSlashes this makes every run of slashes one slash and changes nothing else |
| Strings.CollapseKeepsSingleSlashes | src/utils/fileUtils.ts:27 | text without "//" is left as it is |
| Strings.CollapseIdempotent | src/utils/fileUtils.ts:27 | collapsing twice is the same as collapsing once |
| Strings.NatToString | src/components/FileTree.tsx:139 | `${Date.now()}`: at least one character, all decimal digits; NatToStringRoundTrip states its value |
| Strings.NatToStringRoundTrip | src/components/FileTree.tsx:139 | the decimal text of a timestamp reads back as that number |
| Strings.Trim | src/components/FileTree.tsx:128 | `trim()`: the result neither starts nor ends with JavaScript whitespace; TrimEmptyIffBlank states when it is empty |
| FileUtils.GetLanguageFromExtension | src/utils/fileUtils.ts:4-20 | for the lowercased text after the last '.': html exactly for html, css exactly for css, javascript exactly for js or jsx, typescript exactly for ts or tsx, plaintext exactly for anything else |
| FileUtils.LanguageOf | src/utils/fileUtils.ts:6-18 | the `switch` on the extension; its meaning is stated by GetLanguageFromExtension |
| FileUtils.BareExtensionIsLanguage | src/utils/fileUtils.ts:5 | a name without a '.' is its own extension: "js" is javascript |
| FileUtils.UpperCaseExtension | src/utils/fileUtils.ts:5 | "App.TSX" is typescript |
| FileUtils.UnknownExtensionIsPlaintext | src/utils/fileUtils.ts:16-17 | "notes.md" is plaintext |
| FileUtils.LanguageFollowsLastExtension | src/utils/fileUtils.ts:5 | only the text after the last '.' decides, and a name without '.' is its own extension |
| FileUtils.LanguageIgnoresCase | src/utils/fileUtils.ts:5 | the extension is compared lowercased |
| FileUtils.Get | src/components/PreviewRouter.tsx:58 | a record lookup is missing exactly when the key is not in the record |
| FileUtils.GetStoredValue | src/utils/fileUtils.ts:29 | in a record with distinct keys each stored value is found under its key |
| FileUtils.Assign | src/utils/fileUtils.ts:29 | `files[raw] = content`; AssignSpec states its meaning |
| FileUtils.AssignAll | src/utils/fileUtils.ts:29 | the assignments made in order; AssignAllAppend, LastAssignmentWins, RecordKeys and RecordOrder state its meaning |
| FileUtils.AssignSpec | src/utils/fileUtils.ts:29 | `files[raw] = content` stores the value under that key, changes no other key, and adds the key at the end only if it is new |
| FileUtils.AssignAllAppend | src/utils/fileUtils.ts:29 | assigning two runs of entries is assigning them one after the other |
| FileUtils.LastAssignmentWins | src/utils/fileUtils.ts:29 | after a run of assignments a key holds the value of its last assignment, or its earlier value if it was never assigned |
| FileUtils.RecordKeys | src/utils/fileUtils.ts:22-37 | the record's keys are exactly the keys that were assigned |
| FileUtils.RecordOrder | src/utils/fileUtils.ts:22-37 | the record's keys are ordered by their first assignment |
| FileUtils.DistinctEntriesAreKept | src/utils/fileUtils.ts:22-37 | with distinct keys the record is the emitted entries themselves, in order |
| FileUtils.AssignFreshAppends | src/utils/fileUtils.ts:29 | assigning a new key appends one entry |
| FileUtils.KeyFor | src/utils/fileUtils.ts:27-28 | a key starts with '/' and contains no "//" |
| FileUtils.EmittedAllSnoc | src/utils/fileUtils.ts:31 | the entries of a list of children are those of the earlier children followed by those of the last, in depth-first pre-order |
| FileUtils.OwnThenChildren | src/utils/fileUtils.ts:25-32 | a node emits its own entry (a file with non-null content) before its children's, which are under `currPath/name` |
| FileUtils.Emitted | src/utils/fileUtils.ts:25-32 | the assignments `traverse(node, currPath)` makes, own entry first; OwnThenChildren, EmittedKeysAreRooted and EmittedMatchesFilePaths state its meaning |
| FileUtils.GetSandpackFiles | src/utils/fileUtils.ts:22-37 | the filled record is the assignment of the project's entries, children in order, the project's own name left out of the keys |
| FileUtils.Traverse | src/utils/fileUtils.ts:25-32 | the recursive walk adds exactly the node's entries to the record it is given |
| FileUtils.RecordOwn | src/utils/fileUtils.ts:26-30 | a file with content is stored under its collapsed, slash-rooted path; a folder or a file without content adds nothing |
| FileUtils.TraverseChildren | src/utils/fileUtils.ts:31 | visiting the children in order adds their entries one child after another |
| FileUtils.EmittedKeysAreRooted | src/utils/fileUtils.ts:27-28 | every key a node emits starts with '/' and contains no "//" |
| FileUtils.EmittedAllKeysAreRooted | src/utils/fileUtils.ts:34 | every key a list of nodes emits starts with '/' and contains no "//" |
| FileUtils.EmittedMatchesFilePaths | src/utils/fileUtils.ts:25-32 | for non-empty names without '/', each key is the prefix, '/', and the names from the node down to the file, and only files with content appear |
| FileUtils.EmittedAllMatchesFilePaths | src/utils/fileUtils.ts:34 | the same for a list of nodes with non-empty names without '/': the key is the '/'-joined name path under the prefix |
| PreviewRouter.FirstPresent | src/components/PreviewRouter.tsx:57-59 | the first candidate whose content is truthy; no earlier candidate has truthy content |
| PreviewRouter.FirstSourceScript | src/components/PreviewRouter.tsx:60-65 | the first key, in insertion order, under /src/ ending .js, .jsx, .ts or .tsx; no earlier key is one |
| PreviewRouter.FindEntry | src/components/PreviewRouter.tsx:56-68 | the entry, when there is one, is a key of the record |
| PreviewRouter.EntryIsEarliestPresentCandidate | src/components/PreviewRouter.tsx:57-59 | the earliest of the twelve candidates with truthy content is the entry |
| PreviewRouter.MainJsxWins | src/components/PreviewRouter.tsx:41-49 | /src/main.jsx with content wins over /index.html |
| PreviewRouter.FallbackIsFirstSourceScript | src/components/PreviewRouter.tsx:60-65 | with no candidate present, the first source script in insertion order is the entry, even with empty content |
| PreviewRouter.IndexHtmlRecheckIsDead | src/components/PreviewRouter.tsx:66 | the closing /index.html test can never succeed, because the candidate loop already tried it |
| PreviewRouter.NoEntryIff | src/components/PreviewRouter.tsx:56-68 | there is no entry exactly when no candidate has content and no key is a source script |
| PreviewRouter.NonEmptyEntry | src/components/PreviewRouter.tsx:307 | an entry that is found is never the empty string |
| PreviewRouter.DetectTemplate | src/components/PreviewRouter.tsx:71-83 | the extension tests in order; TemplateFollowsExtension, NodeTemplateIsUnreachable and ResolvedTemplateIsStaticOrReact state its meaning |
| PreviewRouter.NodeTemplateIsUnreachable | src/components/PreviewRouter.tsx:76-82 | `node` is never the template, because the `.js` test fires first |
| PreviewRouter.TemplateFollowsExtension | src/components/PreviewRouter.tsx:75-78 | .js/.jsx give react and otherwise .ts/.tsx give react-ts |
| PreviewRouter.CandidateExtensions | src/components/PreviewRouter.tsx:40-53 | every fixed candidate ends in .js, .jsx, .ts, .tsx or .html |
| PreviewRouter.ResolvedTemplateIsStaticOrReact | src/components/PreviewRouter.tsx:303-304 | the template of the found entry is always static, react or react-ts |
| PreviewRouter.IsFlutterProject | src/components/PreviewRouter.tsx:149-150 | a direct child is named pubspec.yaml; Classify and BackendBeatsFlutter state how it is used |
| PreviewRouter.IsBackendProject | src/components/PreviewRouter.tsx:153-154 | a direct child is named server.js; Classify and BackendBeatsFlutter state how it is used |
| PreviewRouter.Classify | src/components/PreviewRouter.tsx:149-157 | backend exactly when a direct child is server.js; Flutter when a direct child is pubspec.yaml and none is server.js; sandbox otherwise |
| PreviewRouter.BackendBeatsFlutter | src/components/PreviewRouter.tsx:157 | a project with both marker files gets the backend view |
| PreviewRouter.FindProject | src/components/PreviewRouter.tsx:138-139 | the first project named by the route, else the first project; none only for an empty workspace |
| PreviewRouter.CompileView | src/components/PreviewRouter.tsx:157-299 | the backend and Flutter views; CompileViewPrecedence and OtherProjectsStateShowsPrompt state which view shows with what |
| PreviewRouter.SandpackView | src/components/PreviewRouter.tsx:302-332 | the bundler view; SandpackViewShape states it |
| PreviewRouter.ChooseView | src/components/PreviewRouter.tsx:136-332 | the project the route names, then the view for its kind; FindProject and the Scenarios lemmas state it for the workspace |
| PreviewRouter.OtherProjectsStateShowsPrompt | src/components/PreviewRouter.tsx:158-299 | compile state that belongs to another project never shows: the prompt does |
| PreviewRouter.CompileViewPrecedence | src/components/PreviewRouter.tsx:158-299 | for the shown project: compiling exactly when loading, else the error text when it is truthy, else for a backend the API view at "http://localhost:3000" plus the API URL, for Flutter the frame of the preview URL, else the prompt for the kind |
| PreviewRouter.SandpackViewShape | src/components/PreviewRouter.tsx:303-332 | invalid configuration exactly when there is no entry; otherwise the bundler gets the entry, a static/react/react-ts template, and react dependencies exactly for the react templates |
| PreviewContext.StartState | src/contexts/PreviewContext.tsx:55 | a start sets loading, clears the error and names the project; the preview URL is kept, and the API URL too unless it is a backend compile |
| PreviewContext.SettleState | src/contexts/PreviewContext.tsx:65-91 | a reply ends loading and names the project; a success sets its own URL and clears the other; an error or fault sets the error and keeps both URLs |
| PreviewContext.MobileSessionId | src/contexts/PreviewContext.tsx:75 | the mobile id is the last '/'-separated segment of the preview URL |
| PreviewContext.BackendSessionId | src/contexts/PreviewContext.tsx:122 | the backend id exists exactly when the API URL splits on '/' into at least four fields, and is then the fourth field |
| PreviewContext.SessionId | src/contexts/PreviewContext.tsx:75-76 | the mobile or the backend id, by target; MobileSessionId and BackendSessionId state them |
| PreviewContext.MobileSessionIdRoundTrip | src/contexts/PreviewContext.tsx:75 | a URL ending in "/id" gives back id |
| PreviewContext.BackendSessionIdRoundTrip | src/contexts/PreviewContext.tsx:122 | "/a/b/id" gives back id |
| PreviewContext.ShortApiUrlHasNoSessionId | src/contexts/PreviewContext.tsx:122 | an API URL such as "/api/xyz789" has no backend id |
| PreviewContext.Step | src/contexts/PreviewContext.tsx:55-138 | a start or a reply applied to the state; StartState and SettleState state them |
| PreviewContext.Replay | src/contexts/PreviewContext.tsx:54-140 | the events applied in the order they happened; ReplaySnoc, ReplayKeepsAtMostOneUrl and LastReplyWins state it |
| PreviewContext.StepKeepsAtMostOneUrl | src/contexts/PreviewContext.tsx:77-130 | no start or reply makes both URLs set when at most one was |
| PreviewContext.ReplayKeepsAtMostOneUrl | src/contexts/PreviewContext.tsx:54-140 | any interleaving of compiles keeps at most one of the two URLs set |
| PreviewContext.ReplaySnoc | src/contexts/PreviewContext.tsx:54-140 | replaying one more event is one more step |
| PreviewContext.LastReplyWins | src/contexts/PreviewContext.tsx:65-138 | whatever came before, the last reply to arrive names the project and ends loading; a success sets its URL and keeps the error; an error reply sets its text, or the TypeError message when it is empty; a fault sets its message |
| PreviewContext.CrossedRepliesKeepLaterUrl | src/contexts/PreviewContext.tsx:65-83 | when an earlier compile's error arrives after a later one's success, the state names the earlier project, keeps the later URL and shows the error |
| PreviewContext.SuccessKeepsCrossedError | src/contexts/PreviewContext.tsx:77-83 | a success does not clear an error left by a crossed reply |
| PreviewContext.PreviewProvider.constructor | src/contexts/PreviewContext.tsx:24-32 | the initial state, an empty log and no socket |
| PreviewContext.PreviewProvider.ConnectWebSocket | src/contexts/PreviewContext.tsx:34-52 | the socket for the id is stored; state and log are unchanged |
| PreviewContext.PreviewProvider.OnLog | src/contexts/PreviewContext.tsx:36-39 | a log event is appended at the end |
| PreviewContext.PreviewProvider.OnConnectError | src/contexts/PreviewContext.tsx:40-46 | a connection error appends one error entry "WebSocket error: ..." |
| PreviewContext.PreviewProvider.OnDisconnect | src/contexts/PreviewContext.tsx:47-50 | a disconnect clears the stored socket and nothing else |
| PreviewContext.PreviewProvider.BeginCompile | src/contexts/PreviewContext.tsx:55-56 | the start update is applied and the log is emptied |
| PreviewContext.PreviewProvider.FinishCompile | src/contexts/PreviewContext.tsx:64-91 | the reply update is applied; only a success opens a socket, with the extracted session id |
| PreviewContext.PreviewProvider.CompileProject | src/contexts/PreviewContext.tsx:54-93 | a compile with no reply in between is the replay of its start and its reply |
| SandpackContext.ConsoleBuffer.constructor | src/contexts/SandpackContext.tsx:18 | the buffer starts empty |
| SandpackContext.ConsoleBuffer.AddConsoleMessage | src/contexts/SandpackContext.tsx:20-22 | exactly one message is appended; earlier ones keep their values and order |
| SandpackContext.ConsoleBuffer.ClearConsoleMessages | src/contexts/SandpackContext.tsx:24-26 | the buffer becomes empty, so clearing twice is clearing once |
| FileTree.RemoveAll | src/components/FileTree.tsx:92 | `filter(n => n !== name)` removes every occurrence and keeps every other member |
| FileTree.Toggled | src/components/FileTree.tsx:90-94 | the name is expanded afterwards exactly when it was not; other names keep their state |
| FileTree.ToggleTwiceRestoresMembership | src/components/FileTree.tsx:90-94 | toggling twice restores membership |
| FileTree.ToggleAbsentTwiceIsIdentity | src/components/FileTree.tsx:90-94 | toggling an absent name twice restores the list exactly |
| FileTree.RemoveAppended | src/components/FileTree.tsx:92 | removing a name just appended gives back the list |
| FileTree.JoinOfTwoOrMoreHasSlash | src/components/FileTree.tsx:121 | joining two or more segments with '/' gives a string with '/' |
| FileTree.NestedAddFileKeyOpensNoRow | src/components/FileTree.tsx:121-123 | for a nested folder, the joined key added by `handleAddFile` never matches the folder's own row, whose key is its bare name |
| FileTree.TopLevelAddFileOpensRow | src/components/FileTree.tsx:121-123 | for a top-level folder, `handleAddFile` leaves the folder's row expanded |
| FileTree.WithDefaultExtension | src/components/FileTree.tsx:129-130 | the name is unchanged exactly when it already ends in .html, .css or .js; otherwise it is the name followed by ".js" |
| FileTree.NewFileNode | src/components/FileTree.tsx:127-131 | a blank name makes no file; otherwise a non-folder with content "// New file", named the untrimmed name, followed by ".js" exactly when its extension is not .html, .css or .js |
| FileTree.JsxGetsJsAppended | src/components/FileTree.tsx:129 | "App.jsx" becomes "App.jsx.js" |
| FileTree.SameNameNeverCommits | src/components/FileTree.tsx:171 | renaming to the same name never calls rename |
| FileTree.FileTreeLevel.constructor | src/components/FileTree.tsx:58-73 | the whole initial state: nothing expanded, no menu, input or dialog open, empty texts, template blank, both last-seen counters at zero |
| FileTree.FileTreeLevel.ToggleExpand | src/components/FileTree.tsx:90-94 | the expanded list becomes the toggle of the name; every other field of the level is kept |
| FileTree.FileTreeLevel.OpenContextMenu | src/components/FileTree.tsx:96-104 | the root menu closes and the node menu opens on the clicked node with its full path; every other field is kept |
| FileTree.FileTreeLevel.OpenRootContextMenu | src/components/FileTree.tsx:106-112 | a click on the list itself closes the node menu and opens the root menu; a click from a row changes nothing |
| FileTree.FileTreeLevel.CloseMenus | src/components/FileTree.tsx:114-117 | both menus close and every other field is kept |
| FileTree.FileTreeLevel.HandleAddFile | src/components/FileTree.tsx:119-125 | the new-file input opens empty at the path, the joined key is added only if absent, the menus close, and every other field is kept |
| FileTree.FileTreeLevel.EditNewFileName | src/components/FileTree.tsx:233 | typing changes only the open input's name; every other field is kept |
| FileTree.FileTreeLevel.CommitNewFile | src/components/FileTree.tsx:127-133 | a blank name adds nothing; otherwise the new file is added at the path; the input closes unless the add crashed; every other field of the level, the selection and the store's triggers are kept |
| FileTree.FileTreeLevel.CancelNewFile | src/components/FileTree.tsx:135 | the input closes and every other field is kept |
| FileTree.FileTreeLevel.HandleAddFolder | src/components/FileTree.tsx:137-142 | the dialog opens at the path with name "new-folder-" and the time, template blank, menus closed; every other field is kept |
| FileTree.FileTreeLevel.EditFolderName | src/components/FileTree.tsx:291 | typing changes only the folder name |
| FileTree.FileTreeLevel.ChooseTemplate | src/components/FileTree.tsx:298 | choosing changes only the template |
| FileTree.FileTreeLevel.CommitNewFolder | src/components/FileTree.tsx:144-150 | with a dialog open the folder is created from the chosen template and, unless the create crashed, its name is appended to the expanded list; the dialog closes unless the create crashed; every other field of the level, the selection and the store's triggers are kept |
| FileTree.FileTreeLevel.CancelNewFolder | src/components/FileTree.tsx:152 | the dialog closes and every other field is kept |
| FileTree.FileTreeLevel.HandleDelete | src/components/FileTree.tsx:154-157 | deletes the name under the node's path minus its last segment, then closes the menus; a crashed delete changes nothing in the level; the selection and the store's triggers are kept |
| FileTree.FileTreeLevel.HandleRename | src/components/FileTree.tsx:159-168 | starts renaming the node under its parent path, with the old name as the text, and closes the menus; every other field is kept |
| FileTree.FileTreeLevel.EditNewName | src/components/FileTree.tsx:212 | typing changes only the rename text |
| FileTree.FileTreeLevel.CommitRename | src/components/FileTree.tsx:170-175 | rename is called only for a non-blank, different name; renaming ends unless the rename crashed; every other field of the level, the selection and the store's triggers are kept |
| FileTree.FileTreeLevel.CancelRename | src/components/FileTree.tsx:177 | renaming ends and every other field is kept |
| FileTree.FileTreeLevel.MenuNewFile | src/components/FileTree.tsx:269-271 | on a folder's menu: exactly handleAddFile at the remembered folder path |
| FileTree.FileTreeLevel.MenuNewFolder | src/components/FileTree.tsx:269-272 | on a folder's menu: exactly handleAddFolder at the remembered folder path |
| FileTree.FileTreeLevel.MenuRename | src/components/FileTree.tsx:275 | with a node menu open, renaming starts on the remembered node under its parent path, seeded with its name, and the menus close; with none nothing changes |
| FileTree.FileTreeLevel.MenuDelete | src/components/FileTree.tsx:276 | with a node menu open, the remembered node's name is deleted under its parent path and the menus close unless the delete crashed; with none nothing changes; the selection and triggers are kept |
| FileTree.FileTreeLevel.RootMenuNewFile | src/components/FileTree.tsx:280 | with the root menu open: exactly handleAddFile at the level's own path |
| FileTree.FileTreeLevel.RootMenuNewFolder | src/components/FileTree.tsx:281 | with the root menu open: exactly handleAddFolder at the level's own path |
| FileTree.FileTreeLevel.ClickRow | src/components/FileTree.tsx:197 | a folder row toggles its name and changes nothing else; a file row selects the file with its full path and changes nothing in the level; the tree and the store's triggers are untouched |
| FileTree.FileTreeLevel.OnNewFileTrigger | src/components/FileTree.tsx:76-81 | only a counter above the last seen one acts: it is recorded and the level changes exactly as `handleAddFile` at its own path does (input open, key expanded, menus closed); otherwise nothing changes |
| FileTree.FileTreeLevel.OnNewFolderTrigger | src/components/FileTree.tsx:83-88 | only a counter above the last seen one acts: it is recorded and the level changes exactly as `handleAddFolder` at its own path does; otherwise nothing changes |
| EditorPanel.FirstSegment | src/components/EditorPanel.tsx:91 | the first path segment exists exactly when there is a selection with a non-empty path |
| EditorPanel.FindByName | src/components/EditorPanel.tsx:124 | `find` by name: none exactly when the name is absent, else the first project with it |
| EditorPanel.ActiveProject | src/components/EditorPanel.tsx:91-92 | a project exactly when the first segment is non-empty and names a project, and then it is that project |
| EditorPanel.CompileTarget | src/components/EditorPanel.tsx:122-124 | a project exactly when there is a first segment, empty or not, naming a project |
| EditorPanel.IsFlutter | src/components/EditorPanel.tsx:93 | the active project has a pubspec.yaml child; ClassificationMatchesPreview relates it to the preview |
| EditorPanel.IsBackend | src/components/EditorPanel.tsx:94 | the active project has a server.js child; ClassificationMatchesPreview relates it to the preview |
| EditorPanel.IsSandpack | src/components/EditorPanel.tsx:95 | neither marker; ClassificationMatchesPreview and TerminalFeed state its use |
| EditorPanel.ToolbarOf | src/components/EditorPanel.tsx:235-244 | a compile button shows exactly when the project is not a sandbox project; both show for a project with both marker files |
| EditorPanel.ClassificationMatchesPreview | src/components/EditorPanel.tsx:93-95 | the panel's classification of the active project agrees with the preview's |
| EditorPanel.ButtonCompilesActiveProject | src/components/EditorPanel.tsx:121-139 | when a compile button shows, the handler compiles the active project |
| EditorPanel.EmptySegmentIsNoActiveProject | src/components/EditorPanel.tsx:91-92 | a first segment of "" gives no active project although the compile lookup would find a project named "" |
| EditorPanel.FromSandbox | src/components/EditorPanel.tsx:117 | the sandbox log becomes terminal lines one for one, in order |
| EditorPanel.TerminalFeed | src/components/EditorPanel.tsx:112-119 | Flutter and backend projects feed the preview log; sandbox projects and no project feed the sandbox log |
| EditorPanel.EditorContentOf | src/components/EditorPanel.tsx:265-281 | a placeholder exactly when nothing is selected; else the file's name, its language, and its content or '' when it has none |
| EditorPanel.EditKeepsEditorText | src/components/EditorPanel.tsx:276 | saving an edit does not change what the editor shows, because the selection holds the node as selected |
| EditorPanel.HandleCompile | src/components/EditorPanel.tsx:121-139 | without a target nothing happens; with one the preview log is emptied, the state is the start-then-settle replay for the project, and a success stores the socket of the reply's session id (otherwise the socket is kept); the preview is opened if hidden and never hidden |
| EditorPanel.EditorPanelView.constructor | src/components/EditorPanel.tsx:70-73 | the terminal starts hidden and empty |
| EditorPanel.EditorPanelView.ToggleTerminal | src/components/EditorPanel.tsx:213 | the terminal's visibility flips and its lines are kept |
| EditorPanel.EditorPanelView.HandleClearTerminal | src/components/EditorPanel.tsx:215-218 | both the sandbox buffer and the terminal lines become empty |
| EditorPanel.EditorPanelView.SyncTerminal | src/components/EditorPanel.tsx:112-119 | the terminal lines become the feed for the project's kind |
| EditorPanel.EditorPanelView.OnPreviewError | src/components/EditorPanel.tsx:98-109 | a truthy error of the selected project appends one error line; otherwise nothing changes |
| EditorPanel.ReportsError | src/components/EditorPanel.tsx:99 | a truthy error under the selected project's name; OnPreviewError and FailedCompileIsReported state its use |
| EditorPanel.FailedCompileIsReported | src/components/EditorPanel.tsx:98-109 | a compile of the selection's project that replies with an error is reported in the terminal |
| PreviewNavigator.TargetProject | src/components/PreviewNavigator.tsx:19 | the non-empty first segment, else the first project's non-empty name, else nothing; never "" |
| PreviewNavigator.Navigation | src/components/PreviewNavigator.tsx:20-21 | a route exactly when there is a target, and it is "/preview/" followed by the target |
| PreviewNavigator.RouteProjectName | src/components/PreviewNavigator.tsx:21 | reading a route back gives a non-empty name without '/' that the route ends with |
| PreviewNavigator.NavigationRoundTrip | src/components/PreviewNavigator.tsx:19-21 | a target without '/' is read back from its route unchanged |
| PreviewNavigator.SelectionNodeIsIrrelevant | src/components/PreviewNavigator.tsx:19 | only the selection's path decides the route, not the node |
| CustomPreviewHeader.DisplayedProject | src/components/CustomPreviewHeader.tsx:16-21 | the route name if non-empty, else the first segment if non-empty, else the first project's name if non-empty, else "No project"; without a route name this is the navigator's target or "No project"; never empty |
| CustomPreviewHeader.HeaderFollowsNavigatorTarget | src/components/CustomPreviewHeader.tsx:17-21 | without a route name, the header shows the navigator's target or "No project" |
| CustomPreviewHeader.HeaderShowsNavigatedProject | src/components/CustomPreviewHeader.tsx:16-18 | after the navigator's route is taken, the header shows the navigator's target |
| Scenarios.ReactShapeEntries | src/constants/initialFileStructure.ts:12-72 | a project shaped like my-project flattens to /index.html, /src/App.jsx, /src/main.jsx, /package.json, in that order |
| Scenarios.ReactShapeRecord | src/constants/initialFileStructure.ts:12-72 | the record of such a project is those four entries |
| Scenarios.MyProjectShape | src/constants/initialFileStructure.ts:9-73 | my-project has that shape |
| Scenarios.ReactShapeView | src/constants/initialFileStructure.ts:12-72 | such a project is a sandbox project with entry /src/main.jsx and template react |
| Scenarios.StaticShapeRecord | src/constants/initialFileStructure.ts:78-114 | a project shaped like web-project flattens to /index.html, /styles.css, /script.js |
| Scenarios.StaticShapeEntries | src/constants/initialFileStructure.ts:78-114 | the emitted entries are those three, in order |
| Scenarios.StaticEntry | src/utils/templates.ts:192-224 | /index.html with content is the entry; /script.js is not a candidate |
| Scenarios.StaticShapeView | src/constants/initialFileStructure.ts:78-114 | such a project is a sandbox project with entry /index.html and template static |
| Scenarios.WebProjectShape | src/constants/initialFileStructure.ts:75-115 | web-project has that shape |
| Scenarios.FindsNamedProject | src/components/PreviewRouter.tsx:138-139 | a route naming a project with no earlier namesake shows that project |
| Scenarios.MyProjectPreview | src/constants/initialFileStructure.ts:9-73 | the my-project route shows the bundler with entry /src/main.jsx, template react and react dependencies |
| Scenarios.WebProjectPreview | src/constants/initialFileStructure.ts:75-115 | the web-project route shows the bundler with entry /index.html and template static |
| Scenarios.FlutterProjectPreview | src/constants/initialFileStructure.ts:117-174 | flutter-project is Flutter and, before any compile, shows the compile prompt |
| Scenarios.ExpressApiPreview | src/constants/initialFileStructure.ts:175-218 | express-api is backend and, before any compile, shows the compile prompt |
| Scenarios.ExpressTemplateIsBackend | src/utils/templates.ts:7-41 | a folder built from the express template is a backend project |
| Scenarios.FlutterTemplateIsFlutter | src/utils/templates.ts:106-190 | a folder built from the flutter template is a Flutter project |
| Scenarios.HtmlTemplatePreview | src/utils/templates.ts:192-224 | a folder built from the html template previews with entry /index.html and template static |
| Scenarios.BlankTemplatePreview | src/utils/templates.ts:5 | a folder built from the blank template, or an unknown one, has no entry and shows the invalid-configuration notice |
| Scenarios.ReactTemplateRecord | src/utils/templates.ts:43-104 | the react template flattens to /src/App.jsx, /src/main.jsx, /index.html, /package.json |
| Scenarios.ReactTemplatePreview | src/utils/templates.ts:43-104 | a folder built from the react template previews with entry /src/main.jsx and template react |

## Left out

- JSX rendering, MUI styling, the theme constants, the resizable panels and `App.tsx` (routing, layout and its floating-point show/hide hysteresis): these are UI, not decisions over the workspace.
- The Monaco setup and the Dart completion provider in the editor panel: foreign editor APIs.
- The debounced save: a foreign timer library. `EditKeepsEditorText` models only what one save does.
- `fetch` to the compile endpoints and the socket.io client: their replies and events are inputs (`HttpResult`, `OnLog`, `OnConnectError`, `OnDisconnect`). Which server receives which request is not modelled.
- The effect that closes the socket on teardown, the order in which React runs effects, and async interleaving beyond the order in which replies arrive: framework and concurrency semantics.
- The time a reply takes: `PreviewContext.PreviewProvider.CompileProject` is the case with no other event between start and reply. Other orders are covered by `Replay` and its lemmas.
- `SandpackConsoleHandler` in the preview router: it depends on the bundler's console hook, `setTimeout` and `JSON.stringify`.
- `PreviewControls.tsx` (window location and `window.open`) and `ErrorBoundary.tsx` (the React error lifecycle).
- `toLocaleTimeString()` and `Date.now()`: parameters (`now`, `timestamp`), so their values are opaque.
- The JSON deep clone: value semantics stand in for it. Object identity is not modelled, so the rename row test `renamingNode.node === node` and aliasing between the selection and the tree are left out.
- The menus' DOM anchors (`anchorEl`) and the `preventDefault`/`stopPropagation` calls: they only place menus on screen and steer the browser's own event handling. The target test `e.currentTarget === e.target` of `handleRootContextMenu` is the `onList` argument of `OpenRootContextMenu`.
- The recursive nesting of tree levels: one `FileTreeLevel` is one component instance with its own path. Which nested instance shows an input is not modelled.
- FileUtils.EmittedMatchesFilePaths: proved only for trees whose names are non-empty and hold no '/'. An empty folder name adds an empty segment that the slash collapse then merges, so the key "/a" differs from the name path "//a"; a name with '/' is split by it.
- FileUtils.EmittedAllMatchesFilePaths: the same restriction, for a list of nodes.
- CustomPreviewHeader.DisplayedProject: the route parameter is kept as an input, but `App.tsx` renders the header outside the `<Routes>` that declares `preview/:projectName`, so `useParams()` gives no project name there and only the fallback chain applies in the running app.
- CustomPreviewHeader.HeaderShowsNavigatedProject: it states what the header would show with the navigated route's name; because of the placement above, the app reaches that result through the fallback chain, as HeaderFollowsNavigatorTarget states.
- `PreviewContext.MissingUrlMessage`: the text of the TypeError is V8's wording (Chrome, Node.js). Other JavaScript engines word the same error differently.
- `Strings.Lower`: lowercases ASCII letters only. Case mapping beyond ASCII is not modelled.
- The template catalog's inherited object keys, such as `toString`: `Templates.Lookup` treats only the five own keys as present.
- React Router's route matching and URL encoding: `PreviewNavigator.RouteProjectName` reads back only names without '/'.
- The `replace: true` option of `navigate` and its re-run when the selection or tree changes: history handling belongs to the router.
- `PreviewRouter.FindProject`: an empty workspace gives no view. The source throws there: `project` is undefined, and `getSandpackFiles(project)` (src/components/PreviewRouter.tsx:140) reads `project.children` (src/utils/fileUtils.ts:34) before anything reads `project.name`.
- The svelte, vue and node branches of `detectTemplate` are kept, but `NodeTemplateIsUnreachable` and `ResolvedTemplateIsStaticOrReact` show that the found entry never reaches them.
