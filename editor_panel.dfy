/**
 * The editor panel (src/components/EditorPanel.tsx): which project the
 * selection belongs to, which compile buttons and which log it shows, the
 * compile handlers and the terminal's own state.
 */
module EditorPanel {
  import opened Wrappers
  import opened FileSystemNode
  import opened WorkspaceTree
  import opened UseFileStructure
  import FileUtils
  import opened PreviewContext
  import PreviewRouter
  import SandpackContext

  /** `selectedFile?.path[0]`: absent without a selection or with an empty path. */
  function FirstSegment(selected: Option<Selection>): (r: Option<string>)
    ensures r.Some? <==> selected.Some? && |selected.value.path| > 0
    ensures r.Some? ==> r.value == selected.value.path[0]
  {
    if selected.Some? && |selected.value.path| > 0 then Some(selected.value.path[0]) else None
  }

  /** `fileStructure.find((p) => p.name === name)`: the first top-level node with that name. */
  function FindByName(fileStructure: seq<Node>, name: string): (r: Option<Node>)
    ensures r.None? <==> name !in Names(fileStructure)
    ensures r.Some? ==> exists i :: 0 <= i < |fileStructure| && fileStructure[i] == r.value
                          && r.value.name == name
                          && forall j :: 0 <= j < i ==> fileStructure[j].name != name
  {
    FindIndexFindsPresentName(fileStructure, name);
    var i := FindIndex(fileStructure, name);
    if i < 0 then None else Some(fileStructure[i])
  }

  /**
   * The project the panel classifies: only a non-empty first segment is
   * looked up, and then by name among the top-level nodes.
   */
  function ActiveProject(selected: Option<Selection>, fileStructure: seq<Node>): (r: Option<Node>)
    ensures r.Some? <==> Truthy(FirstSegment(selected)) && FirstSegment(selected).value in Names(fileStructure)
    ensures r.Some? ==> r.value in fileStructure && r.value.name == selected.value.path[0]
  {
    var name := FirstSegment(selected);
    if Truthy(name) then FindByName(fileStructure, name.value) else None
  }

  /** The project handleCompile and handleCompileBackend look up: path[0] as it is, empty or not. */
  function CompileTarget(selected: Option<Selection>, fileStructure: seq<Node>): (r: Option<Node>)
    ensures r.Some? <==> FirstSegment(selected).Some? && FirstSegment(selected).value in Names(fileStructure)
    ensures r.Some? ==> r.value in fileStructure && r.value.name == selected.value.path[0]
  {
    var name := FirstSegment(selected);
    if name.Some? then FindByName(fileStructure, name.value) else None
  }

  /** `isFlutterProject`: the active project has a direct child named pubspec.yaml. */
  predicate IsFlutter(selected: Option<Selection>, fileStructure: seq<Node>) {
    var p := ActiveProject(selected, fileStructure);
    p.Some? && PreviewRouter.IsFlutterProject(p.value)
  }

  /** `isBackendProject`: the active project has a direct child named server.js. */
  predicate IsBackend(selected: Option<Selection>, fileStructure: seq<Node>) {
    var p := ActiveProject(selected, fileStructure);
    p.Some? && PreviewRouter.IsBackendProject(p.value)
  }

  /** `isSandpackProject`: neither of the two, which includes having no project at all. */
  predicate IsSandpack(selected: Option<Selection>, fileStructure: seq<Node>) {
    !(IsFlutter(selected, fileStructure) || IsBackend(selected, fileStructure))
  }

  /** The two compile buttons, each shown on its own test; both can be shown at once. */
  datatype Toolbar = Toolbar(compileFlutter: bool, compileBackend: bool)

  function ToolbarOf(selected: Option<Selection>, fileStructure: seq<Node>): (t: Toolbar)
    ensures t.compileFlutter || t.compileBackend <==> !IsSandpack(selected, fileStructure)
    ensures t.compileFlutter || t.compileBackend ==> ActiveProject(selected, fileStructure).Some?
    ensures t.compileFlutter && t.compileBackend <==>
      var p := ActiveProject(selected, fileStructure);
      p.Some? && PreviewRouter.IsFlutterProject(p.value) && PreviewRouter.IsBackendProject(p.value)
  {
    Toolbar(IsFlutter(selected, fileStructure), IsBackend(selected, fileStructure))
  }

  /**
   * Classification agrees with the preview: for the selection's project the
   * panel's tests are the router's, and a project with both marker files
   * shows both buttons while the preview treats it as a backend.
   */
  lemma ClassificationMatchesPreview(selected: Option<Selection>, fileStructure: seq<Node>)
    requires ActiveProject(selected, fileStructure).Some?
    ensures var k := PreviewRouter.Classify(ActiveProject(selected, fileStructure).value);
      && (k == PreviewRouter.SandboxKind <==> IsSandpack(selected, fileStructure))
      && (k == PreviewRouter.BackendKind <==> IsBackend(selected, fileStructure))
      && (k == PreviewRouter.FlutterKind <==> IsFlutter(selected, fileStructure) && !IsBackend(selected, fileStructure))
  {
  }

  /**
   * A shown compile button always compiles the project it was shown for:
   * the handlers' looser lookup meets the classification's wherever a
   * button is on screen.
   */
  lemma {:induction false} ButtonCompilesActiveProject(selected: Option<Selection>, fileStructure: seq<Node>)
    requires IsFlutter(selected, fileStructure) || IsBackend(selected, fileStructure)
    ensures CompileTarget(selected, fileStructure) == ActiveProject(selected, fileStructure)
    ensures CompileTarget(selected, fileStructure).Some?
  {
    var name := FirstSegment(selected);
    assert Truthy(name);
    assert CompileTarget(selected, fileStructure) == FindByName(fileStructure, name.value);
  }

  /**
   * The two lookups part only on an empty first segment: a project named ""
   * is a compile target there but never the classified project.
   */
  lemma EmptySegmentIsNoActiveProject(node: Node, fileStructure: seq<Node>)
    requires "" in Names(fileStructure)
    ensures ActiveProject(Some(Selection(node, [""])), fileStructure).None?
    ensures CompileTarget(Some(Selection(node, [""])), fileStructure).Some?
  {
  }

  // ---------------------------------------------------------------------
  // The terminal
  // ---------------------------------------------------------------------

  /** The `type` string a sandbox message carries. */
  function KindName(k: SandpackContext.MessageType): string {
    match k
    case Log => "log"
    case Error => "error"
    case Warn => "warn"
    case Info => "info"
  }

  /** The sandbox's messages as terminal lines, one for one and in order. */
  function FromSandbox(ms: seq<SandpackContext.ConsoleMessage>): (r: seq<LogEntry>)
    ensures |r| == |ms|
    ensures forall i :: 0 <= i < |ms| ==> r[i] == LogEntry(KindName(ms[i].kind), ms[i].message, ms[i].timestamp)
  {
    seq(|ms|, i requires 0 <= i < |ms| => LogEntry(KindName(ms[i].kind), ms[i].message, ms[i].timestamp))
  }

  /** What the terminal-source effect copies into the terminal. */
  function TerminalFeed(selected: Option<Selection>, fileStructure: seq<Node>,
                        previewMessages: seq<LogEntry>,
                        sandboxMessages: seq<SandpackContext.ConsoleMessage>): (r: seq<LogEntry>)
    ensures !IsSandpack(selected, fileStructure) ==> r == previewMessages
    ensures IsSandpack(selected, fileStructure) ==> r == FromSandbox(sandboxMessages)
    ensures ActiveProject(selected, fileStructure).None? ==> r == FromSandbox(sandboxMessages)
  {
    if IsFlutter(selected, fileStructure) || IsBackend(selected, fileStructure) then previewMessages
    else FromSandbox(sandboxMessages)
  }

  /**
   * The error effect fires when the preview has a non-empty error recorded
   * under exactly the selection's first segment.
   */
  predicate ReportsError(state: PreviewState, selected: Option<Selection>) {
    Truthy(state.error) && state.projectName.Some? && FirstSegment(selected) == state.projectName
  }

  /** The editor area: a placeholder, or the selected file's name, language and text. */
  datatype EditorContent = Placeholder | Open(title: string, language: string, value: string)

  function EditorContentOf(selected: Option<Selection>): (c: EditorContent)
    ensures c.Placeholder? <==> selected.None?
    ensures c.Open? ==> && c.title == selected.value.node.name
                        && c.language == FileUtils.GetLanguageFromExtension(selected.value.node.name)
                        && (selected.value.node.content.None? ==> c.value == "")
                        && (selected.value.node.content.Some? ==> c.value == selected.value.node.content.value)
  {
    match selected
    case None => Placeholder
    case Some(sel) =>
      Open(sel.node.name, FileUtils.GetLanguageFromExtension(sel.node.name), sel.node.content.GetOr(""))
  }

  /**
   * Editing does not move the editor: after `updateFileContent` the
   * selection still holds the node as selected, so the editor keeps
   * showing the text it had.
   */
  method EditKeepsEditorText(store: FileStructureStore, value: Option<string>) returns (outcome: Outcome)
    modifies store
    ensures EditorContentOf(store.selectedFile) == old(EditorContentOf(store.selectedFile))
  {
    outcome := store.UpdateFileContent(value);
  }

  /**
   * A compile handler: nothing without a selection or a project named by
   * path[0]; otherwise the log is cleared, the project is compiled against
   * the given reply, a success opens the session's socket, and a hidden
   * preview is shown. The result is the preview's visibility after
   * the click.
   */
  method HandleCompile(selected: Option<Selection>, fileStructure: seq<Node>, isPreviewVisible: bool,
                       preview: PreviewProvider, target: Target, result: HttpResult)
    returns (previewVisible: bool)
    modifies preview
    ensures previewVisible == (isPreviewVisible || CompileTarget(selected, fileStructure).Some?)
    ensures isPreviewVisible ==> previewVisible
    ensures CompileTarget(selected, fileStructure).None? ==>
      preview.state == old(preview.state) && preview.consoleMessages == old(preview.consoleMessages)
      && preview.ws == old(preview.ws)
    ensures CompileTarget(selected, fileStructure).Some? ==>
      var name := CompileTarget(selected, fileStructure).value.name;
      && preview.state == Replay(old(preview.state), [Start(name, target), Settle(name, target, result)])
      && preview.consoleMessages == []
      && preview.ws == (if Succeeds(result) then Some(Socket(SessionId(target, result.url))) else old(preview.ws))
  {
    previewVisible := isPreviewVisible;
    if selected.None? {
      return;
    }
    var project := CompileTarget(selected, fileStructure);
    if project.Some? {
      preview.CompileProject(project.value, target, result);
      if !isPreviewVisible {
        previewVisible := !previewVisible;
      }
    }
  }

  /** The panel's own state: the terminal's visibility and its lines. */
  class EditorPanelView {
    var isTerminalVisible: bool
    var terminalMessages: seq<LogEntry>

    constructor ()
      ensures !isTerminalVisible && terminalMessages == []
    {
      isTerminalVisible := false;
      terminalMessages := [];
    }

    /** `toggleTerminal`: flips the visibility; the lines stay. */
    method ToggleTerminal()
      modifies this
      ensures isTerminalVisible == !old(isTerminalVisible)
      ensures terminalMessages == old(terminalMessages)
    {
      isTerminalVisible := !isTerminalVisible;
    }

    /** `handleClearTerminal`: empties the sandbox buffer and the terminal alike. */
    method HandleClearTerminal(sandbox: SandpackContext.ConsoleBuffer)
      modifies this, sandbox
      ensures sandbox.consoleMessages == [] && terminalMessages == []
      ensures isTerminalVisible == old(isTerminalVisible)
    {
      sandbox.ClearConsoleMessages();
      terminalMessages := [];
    }

    /** The terminal-source effect: the terminal is replaced by the log the project's kind calls for. */
    method SyncTerminal(selected: Option<Selection>, fileStructure: seq<Node>,
                        previewMessages: seq<LogEntry>,
                        sandboxMessages: seq<SandpackContext.ConsoleMessage>)
      modifies this
      ensures terminalMessages == TerminalFeed(selected, fileStructure, previewMessages, sandboxMessages)
      ensures isTerminalVisible == old(isTerminalVisible)
    {
      if IsFlutter(selected, fileStructure) || IsBackend(selected, fileStructure) {
        terminalMessages := previewMessages;
      } else if IsSandpack(selected, fileStructure) {
        terminalMessages := FromSandbox(sandboxMessages);
      }
    }

    /** The error effect: one error line, stamped `now`, when the preview's error is this project's. */
    method OnPreviewError(state: PreviewState, selected: Option<Selection>, now: string)
      modifies this
      ensures ReportsError(state, selected) ==>
        terminalMessages == old(terminalMessages) + [LogEntry("error", state.error.value, now)]
      ensures !ReportsError(state, selected) ==> terminalMessages == old(terminalMessages)
      ensures isTerminalVisible == old(isTerminalVisible)
    {
      if Truthy(state.error) && state.projectName.Some? && FirstSegment(selected) == state.projectName {
        terminalMessages := terminalMessages + [LogEntry("error", state.error.value, now)];
      }
    }
  }

  /**
   * A failed compile of the selected project is reported in its terminal:
   * after the reply the preview's error names the selected project.
   */
  lemma {:induction false} FailedCompileIsReported(s: PreviewState, selected: Option<Selection>,
                                                   fileStructure: seq<Node>, target: Target, msg: string)
    requires CompileTarget(selected, fileStructure).Some? && msg != ""
    ensures var name := CompileTarget(selected, fileStructure).value.name;
      var r := Replay(s, [Start(name, target), Settle(name, target, ErrResult(msg))]);
      ReportsError(r, selected) && r.error == Some(msg)
  {
    var name := CompileTarget(selected, fileStructure).value.name;
    ReplayTwo(s, [Start(name, target), Settle(name, target, ErrResult(msg))]);
  }
}
