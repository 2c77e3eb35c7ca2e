/**
 * How the preview pane decides what to show (src/components/PreviewRouter.tsx):
 * which project the route names, whether it is a backend, a Flutter or a
 * sandbox project, and for a sandbox project which file the bundler starts
 * from and with which template.
 */
module PreviewRouter {
  import opened Wrappers
  import opened Strings
  import opened FileSystemNode
  import opened WorkspaceTree
  import opened FileUtils
  import opened PreviewContext

  /** The bundler templates this code can name. */
  datatype SandpackTemplate = React | Static | ReactTs | Svelte | Vue | NodeTemplate

  /** The entry candidates, most preferred first. */
  const EntryFiles: seq<string> := [
    "/src/main.jsx", "/src/main.js", "/src/main.tsx", "/src/main.ts",
    "/src/index.jsx", "/src/index.js", "/src/index.tsx", "/src/index.ts",
    "/index.html", "/server.js", "/app.js", "/index.js"
  ]

  /** `files[key]` as a condition: the key is there and its content is not empty. */
  predicate Present(files: FileMap, key: string) {
    Truthy(Get(files, key))
  }

  /** The index of the first candidate present in `files`. */
  function FirstPresent(candidates: seq<string>, files: FileMap): (r: Option<nat>)
    ensures r.Some? ==> r.value < |candidates| && Present(files, candidates[r.value])
    ensures forall j :: 0 <= j < |candidates| && (r.None? || j < r.value) ==> !Present(files, candidates[j])
  {
    if candidates == [] then None
    else if Present(files, candidates[0]) then Some(0)
    else match FirstPresent(candidates[1..], files)
      case None => None
      case Some(k) => Some(k + 1)
  }

  /** A key under /src/ with a script extension. */
  predicate IsSourceScript(key: string) {
    && StartsWith(key, "/src/")
    && (EndsWith(key, ".js") || EndsWith(key, ".jsx") || EndsWith(key, ".ts") || EndsWith(key, ".tsx"))
  }

  /** The index of the first key that is a source script. */
  function FirstSourceScript(keys: seq<string>): (r: Option<nat>)
    ensures r.Some? ==> r.value < |keys| && IsSourceScript(keys[r.value])
    ensures forall j :: 0 <= j < |keys| && (r.None? || j < r.value) ==> !IsSourceScript(keys[j])
  {
    if keys == [] then None
    else if IsSourceScript(keys[0]) then Some(0)
    else match FirstSourceScript(keys[1..])
      case None => None
      case Some(k) => Some(k + 1)
  }

  /**
   * findEntry: the first listed candidate with content; else the first key,
   * in insertion order, that is a source script; else /index.html if it has
   * content; else nothing.
   */
  function FindEntry(files: FileMap): (entry: Option<string>)
    ensures entry.Some? ==> entry.value in Keys(files)
  {
    match FirstPresent(EntryFiles, files)
    case Some(i) => Some(EntryFiles[i])
    case None =>
      match FirstSourceScript(Keys(files))
      case Some(j) => Some(Keys(files)[j])
      case None => if Present(files, "/index.html") then Some("/index.html") else None
  }

  /** The earliest listed candidate with content is the entry. */
  lemma EntryIsEarliestPresentCandidate(files: FileMap, i: nat)
    requires i < |EntryFiles| && Present(files, EntryFiles[i])
    requires forall j :: 0 <= j < i ==> !Present(files, EntryFiles[j])
    ensures FindEntry(files) == Some(EntryFiles[i])
  {
    var r := FirstPresent(EntryFiles, files);
    assert r.Some?;
    assert r.value == i;
  }

  /** /src/main.jsx with content wins over every other file, /index.html included. */
  lemma MainJsxWins(files: FileMap)
    requires Present(files, "/src/main.jsx")
    ensures FindEntry(files) == Some("/src/main.jsx")
  {
    EntryIsEarliestPresentCandidate(files, 0);
  }

  /**
   * When no listed candidate has content, the entry is the first source
   * script in insertion order, even one whose content is empty.
   */
  lemma FallbackIsFirstSourceScript(files: FileMap, j: nat)
    requires forall i :: 0 <= i < |EntryFiles| ==> !Present(files, EntryFiles[i])
    requires j < |files| && IsSourceScript(files[j].0)
    requires forall k :: 0 <= k < j ==> !IsSourceScript(files[k].0)
    ensures FindEntry(files) == Some(files[j].0)
  {
    var r := FirstSourceScript(Keys(files));
    assert Keys(files)[j] == files[j].0;
    assert r.Some? && r.value == j;
  }

  /** The closing /index.html test never decides anything: the candidate list already tried it. */
  lemma IndexHtmlRecheckIsDead(files: FileMap)
    requires FirstPresent(EntryFiles, files).None?
    ensures !Present(files, "/index.html")
  {
    assert EntryFiles[8] == "/index.html";
  }

  /** There is no entry exactly when no candidate has content and no key is a source script. */
  lemma NoEntryIff(files: FileMap)
    ensures FindEntry(files).None? <==>
      && (forall i :: 0 <= i < |EntryFiles| ==> !Present(files, EntryFiles[i]))
      && (forall k :: 0 <= k < |files| ==> !IsSourceScript(files[k].0))
  {
    if FirstPresent(EntryFiles, files).None? {
      IndexHtmlRecheckIsDead(files);
      if FirstSourceScript(Keys(files)).None? {
        forall k | 0 <= k < |files| ensures !IsSourceScript(files[k].0) {
          assert Keys(files)[k] == files[k].0;
        }
      } else {
        var j := FirstSourceScript(Keys(files)).value;
        assert IsSourceScript(files[j].0);
      }
    }
  }

  /** detectTemplate, test by test. */
  function DetectTemplate(files: FileMap, entry: Option<string>): SandpackTemplate {
    if !Truthy(entry) then Static
    else
      var e := entry.value;
      if EndsWith(e, ".jsx") || EndsWith(e, ".js") then React
      else if EndsWith(e, ".tsx") || EndsWith(e, ".ts") then ReactTs
      else if EndsWith(e, ".html") then Static
      else if EndsWith(e, ".svelte") then Svelte
      else if EndsWith(e, ".vue") then Vue
      else if (e == "/server.js" || e == "/app.js") && Present(files, "/package.json") then NodeTemplate
      else Static
  }

  /** The node template is never chosen: /server.js and /app.js already end in ".js". */
  lemma NodeTemplateIsUnreachable(files: FileMap, entry: Option<string>)
    ensures DetectTemplate(files, entry) != NodeTemplate
  {
    if Truthy(entry) && (entry.value == "/server.js" || entry.value == "/app.js") {
      assert EndsWith(entry.value, ".js");
    }
  }

  /** The template follows the entry's extension. */
  lemma TemplateFollowsExtension(files: FileMap, e: string)
    requires e != ""
    ensures DetectTemplate(files, Some(e)) == React <==> EndsWith(e, ".jsx") || EndsWith(e, ".js")
    ensures DetectTemplate(files, Some(e)) == ReactTs <==>
      !(EndsWith(e, ".jsx") || EndsWith(e, ".js")) && (EndsWith(e, ".tsx") || EndsWith(e, ".ts"))
  {
    NodeTemplateIsUnreachable(files, Some(e));
  }

  lemma CandidateExtensions(i: nat)
    requires i < |EntryFiles|
    ensures var e := EntryFiles[i];
      EndsWith(e, ".js") || EndsWith(e, ".jsx") || EndsWith(e, ".ts") || EndsWith(e, ".tsx") || EndsWith(e, ".html")
  {
  }

  /** For the entry findEntry picks, the template is static, react or react-ts. */
  lemma ResolvedTemplateIsStaticOrReact(files: FileMap)
    ensures DetectTemplate(files, FindEntry(files)) in {Static, React, ReactTs}
  {
    match FirstPresent(EntryFiles, files)
    case Some(i) => CandidateExtensions(i);
    case None =>
  }

  // ---------------------------------------------------------------------
  // Projects
  // ---------------------------------------------------------------------

  /** Some direct child carries the name. */
  predicate HasChildNamed(project: Node, name: string) {
    project.children.Present? && name in Names(project.children.nodes)
  }

  predicate IsFlutterProject(project: Node) {
    HasChildNamed(project, "pubspec.yaml")
  }

  predicate IsBackendProject(project: Node) {
    HasChildNamed(project, "server.js")
  }

  datatype ProjectKind = BackendKind | FlutterKind | SandboxKind

  /** The kind of preview: the backend test comes first, then Flutter. */
  function Classify(project: Node): (k: ProjectKind)
    ensures k == BackendKind <==> IsBackendProject(project)
    ensures k == FlutterKind <==> IsFlutterProject(project) && !IsBackendProject(project)
    ensures k == SandboxKind <==> !IsFlutterProject(project) && !IsBackendProject(project)
  {
    if IsBackendProject(project) then BackendKind
    else if IsFlutterProject(project) then FlutterKind
    else SandboxKind
  }

  /**
   * The project the route names, else the first project; None when the
   * workspace is empty, where the code fails on the missing project.
   */
  function FindProject(fileStructure: seq<Node>, routeName: Option<string>): (r: Option<Node>)
    ensures r.None? <==> fileStructure == []
    ensures r.Some? && routeName.Some? && routeName.value in Names(fileStructure) ==>
      exists i :: 0 <= i < |fileStructure| && fileStructure[i] == r.value && r.value.name == routeName.value
        && forall j :: 0 <= j < i ==> fileStructure[j].name != routeName.value
    ensures r.Some? && (routeName.None? || routeName.value !in Names(fileStructure)) ==> r.value == fileStructure[0]
  {
    if fileStructure == [] then None
    else if routeName.Some? then
      FindIndexFindsPresentName(fileStructure, routeName.value);
      var i := FindIndex(fileStructure, routeName.value);
      if i >= 0 then Some(fileStructure[i]) else Some(fileStructure[0])
    else
      Some(fileStructure[0])
  }

  // ---------------------------------------------------------------------
  // The view
  // ---------------------------------------------------------------------

  /** The versions of react and react-dom a react template gets. */
  const ReactDependencies: seq<(string, string)> := [("react", "^18.2.0"), ("react-dom", "^18.2.0")]

  /** What the preview pane renders. */
  datatype View =
    | Compiling(kind: ProjectKind)
    | ErrorMessage(error: string)
    | ApiReady(baseUrl: string)
    | FlutterFrame(src: string)
    | CompilePrompt(kind: ProjectKind)
    | InvalidConfiguration
    | Sandpack(template: SandpackTemplate, files: FileMap, entry: string, dependencies: seq<(string, string)>)

  /** The backend and Flutter views: loading, then error, then the ready URL, then a prompt. */
  function CompileView(kind: ProjectKind, project: Node, state: PreviewState): View
    requires kind != SandboxKind
  {
    var mine := state.projectName == Some(project.name);
    if state.loading && mine then Compiling(kind)
    else if Truthy(state.error) && mine then ErrorMessage(state.error.value)
    else if kind == BackendKind && Truthy(state.apiUrl) && mine then ApiReady("http://localhost:3000" + state.apiUrl.value)
    else if kind == FlutterKind && Truthy(state.previewUrl) && mine then FlutterFrame(state.previewUrl.value)
    else CompilePrompt(kind)
  }

  /** The sandbox view: an invalid-configuration notice, or the bundler set up with entry and template. */
  function SandpackView(files: FileMap): View {
    var entry := FindEntry(files);
    var template := DetectTemplate(files, entry);
    if !Truthy(entry) || |files| == 0 then InvalidConfiguration
    else Sandpack(template, files, entry.value, if template == React || template == ReactTs then ReactDependencies else [])
  }

  /** The whole decision; None when there is no project to show. */
  function ChooseView(fileStructure: seq<Node>, routeName: Option<string>, state: PreviewState): Option<View> {
    match FindProject(fileStructure, routeName)
    case None => None
    case Some(project) =>
      var kind := Classify(project);
      Some(if kind == SandboxKind then SandpackView(ProjectEntriesRecord(project)) else CompileView(kind, project, state))
  }

  /** getSandpackFiles(project) as the record it returns. */
  function ProjectEntriesRecord(project: Node): FileMap {
    AssignAll([], ProjectEntries(project))
  }

  /** State left by a compile of another project never shows: the prompt does. */
  lemma OtherProjectsStateShowsPrompt(kind: ProjectKind, project: Node, state: PreviewState)
    requires kind != SandboxKind
    requires state.projectName != Some(project.name)
    ensures CompileView(kind, project, state) == CompilePrompt(kind)
  {
  }

  /**
   * For the shown project, each view appears exactly under its condition:
   * loading beats an error, an error beats a ready URL.
   */
  lemma CompileViewPrecedence(kind: ProjectKind, project: Node, state: PreviewState)
    requires kind != SandboxKind
    requires state.projectName == Some(project.name)
    ensures CompileView(kind, project, state).Compiling? <==> state.loading
    ensures CompileView(kind, project, state).ErrorMessage? <==> !state.loading && Truthy(state.error)
    ensures CompileView(kind, project, state).CompilePrompt? <==>
      !state.loading && !Truthy(state.error)
      && !(kind == BackendKind && Truthy(state.apiUrl))
      && !(kind == FlutterKind && Truthy(state.previewUrl))
    ensures CompileView(kind, project, state).ApiReady? <==>
      !state.loading && !Truthy(state.error) && kind == BackendKind && Truthy(state.apiUrl)
    ensures CompileView(kind, project, state).FlutterFrame? <==>
      !state.loading && !Truthy(state.error) && kind == FlutterKind && Truthy(state.previewUrl)
    ensures var v := CompileView(kind, project, state);
      && (v.Compiling? ==> v == Compiling(kind))
      && (v.ErrorMessage? ==> v.error == state.error.value)
      && (v.ApiReady? ==> v.baseUrl == "http://localhost:3000" + state.apiUrl.value)
      && (v.FlutterFrame? ==> v.src == state.previewUrl.value)
      && (v.CompilePrompt? ==> v == CompilePrompt(kind))
  {
  }

  /** A project with both server.js and pubspec.yaml gets the backend views. */
  lemma BackendBeatsFlutter(project: Node)
    requires IsBackendProject(project) && IsFlutterProject(project)
    ensures Classify(project) == BackendKind
  {
  }

  /**
   * The invalid-configuration notice appears exactly when there is no entry
   * (the empty-record test adds nothing), and a configured bundler has a
   * static, react or react-ts template with react dependencies only for the
   * react ones.
   */
  lemma SandpackViewShape(files: FileMap)
    ensures SandpackView(files) == InvalidConfiguration <==> FindEntry(files).None?
    ensures SandpackView(files).Sandpack? ==>
      && Some(SandpackView(files).entry) == FindEntry(files)
      && SandpackView(files).template in {Static, React, ReactTs}
      && (SandpackView(files).dependencies != [] <==> SandpackView(files).template != Static)
  {
    ResolvedTemplateIsStaticOrReact(files);
    var entry := FindEntry(files);
    if entry.Some? {
      assert entry.value in Keys(files);
      NonEmptyEntry(files);
    }
  }

  /** Every candidate and every source script is a non-empty key. */
  lemma NonEmptyEntry(files: FileMap)
    ensures FindEntry(files).Some? ==> FindEntry(files).value != ""
  {
    match FirstPresent(EntryFiles, files)
    case Some(i) =>
    case None =>
      match FirstSourceScript(Keys(files))
      case Some(j) =>
      case None =>
  }
}
