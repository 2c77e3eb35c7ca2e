/**
 * The bookkeeping of one level of the file explorer (src/components/FileTree.tsx):
 * which folders are expanded, the new-file input, the rename field, the
 * new-folder dialog and the trigger counters last seen. The tree edits are
 * the workspace store's operations; a traversal that fails there throws,
 * and the rest of the handler does not run.
 */
module FileTree {
  import opened Wrappers
  import opened Strings
  import opened FileSystemNode
  import opened WorkspaceTree
  import opened UseFileStructure
  import Templates

  // ---------------------------------------------------------------------
  // The expanded list
  // ---------------------------------------------------------------------

  /** `xs.filter(n => n !== x)`. */
  function RemoveAll(xs: seq<string>, x: string): (r: seq<string>)
    ensures x !in r
    ensures forall y :: y != x ==> (y in r <==> y in xs)
    ensures x !in xs ==> r == xs
  {
    if xs == [] then []
    else if xs[0] == x then RemoveAll(xs[1..], x)
    else [xs[0]] + RemoveAll(xs[1..], x)
  }

  /** toggleExpand's update: remove every copy of a present name, or append an absent one. */
  function Toggled(expanded: seq<string>, name: string): (r: seq<string>)
    ensures name in r <==> name !in expanded
    ensures forall y :: y != name ==> (y in r <==> y in expanded)
  {
    if name in expanded then RemoveAll(expanded, name) else expanded + [name]
  }

  /** Toggling a name twice gives back the same set of expanded names. */
  lemma ToggleTwiceRestoresMembership(expanded: seq<string>, name: string)
    ensures forall y :: y in Toggled(Toggled(expanded, name), name) <==> y in expanded
  {
  }

  /** Toggling an absent name twice gives back the very same list. */
  lemma {:induction false} ToggleAbsentTwiceIsIdentity(expanded: seq<string>, name: string)
    requires name !in expanded
    ensures Toggled(Toggled(expanded, name), name) == expanded
  {
    RemoveAppended(expanded, name);
  }

  lemma {:induction false} RemoveAppended(xs: seq<string>, x: string)
    requires x !in xs
    ensures RemoveAll(xs + [x], x) == xs
    decreases |xs|
  {
    if xs == [] {
      assert [x][1..] == [];
    } else {
      assert (xs + [x])[1..] == xs[1..] + [x];
      RemoveAppended(xs[1..], x);
    }
  }

  /** The key handleAddFile puts in the expanded list: the parent path joined with '/'. */
  function ExpandKey(parentPath: seq<string>): string {
    Join(parentPath, '/')
  }

  /** A row shows its folder open when the folder's own name is in the list. */
  predicate RowExpanded(expanded: seq<string>, node: Node) {
    node.isFolder && node.name in expanded
  }

  lemma {:induction false} JoinOfTwoOrMoreHasSlash(parts: seq<string>)
    requires |parts| >= 2
    ensures '/' in Join(parts, '/')
  {
    var s := Join(parts, '/');
    assert s == parts[0] + ['/'] + Join(parts[1..], '/');
    assert s[|parts[0]|] == '/';
  }

  /**
   * Adding a file under a folder that sits below the top level puts the
   * folder's joined path in the list, which no row compares against: the
   * folder's own row stays closed.
   */
  lemma NestedAddFileKeyOpensNoRow(expanded: seq<string>, parentPath: seq<string>, folder: Node)
    requires |parentPath| >= 2 && parentPath[|parentPath| - 1] == folder.name
    requires '/' !in folder.name
    requires !RowExpanded(expanded, folder)
    ensures !RowExpanded(if ExpandKey(parentPath) in expanded then expanded else expanded + [ExpandKey(parentPath)], folder)
  {
    JoinOfTwoOrMoreHasSlash(parentPath);
    assert ExpandKey(parentPath) != folder.name;
  }

  /** At the top level the joined path is the folder's name, so the row opens. */
  lemma TopLevelAddFileOpensRow(expanded: seq<string>, folder: Node)
    requires folder.isFolder
    ensures RowExpanded(if ExpandKey([folder.name]) in expanded then expanded else expanded + [ExpandKey([folder.name])], folder)
  {
  }

  // ---------------------------------------------------------------------
  // New files
  // ---------------------------------------------------------------------

  /** `/\.(html|css|js)$/.test(name)`. */
  predicate HasKnownExtension(name: string) {
    EndsWith(name, ".html") || EndsWith(name, ".css") || EndsWith(name, ".js")
  }

  /** The name as typed, with ".js" added unless its extension is known. */
  function WithDefaultExtension(name: string): (r: string)
    ensures StartsWith(r, name) && HasKnownExtension(r)
    ensures HasKnownExtension(name) <==> r == name
    ensures !HasKnownExtension(name) ==> r == name + ".js"
  {
    if HasKnownExtension(name) then
      assert name[..|name|] == name;
      name
    else
      var r := name + ".js";
      assert r[..|name|] == name;
      assert r[|r| - 3..] == ".js";
      r
  }

  /** commitNewFile's node: none for a blank name; else a file named by WithDefaultExtension. */
  function NewFileNode(name: string): (r: Option<Node>)
    ensures r.None? <==> IsBlank(name)
    ensures r.Some? ==> && !r.value.isFolder && r.value.children == Absent
                        && r.value.content == Some("// New file")
                        && StartsWith(r.value.name, name)
                        && HasKnownExtension(r.value.name)
                        && (HasKnownExtension(name) <==> r.value.name == name)
                        && (!HasKnownExtension(name) ==> r.value.name == name + ".js")
  {
    TrimEmptyIffBlank(name);
    if Trim(name) == "" then None
    else Some(File(WithDefaultExtension(name), "// New file"))
  }

  /** A ".jsx" name is not recognised and becomes "<name>.js". */
  lemma JsxGetsJsAppended()
    ensures NewFileNode("App.jsx") == Some(File("App.jsx.js", "// New file"))
  {
    assert !IsJsSpace("App.jsx"[0]);
    assert !IsBlank("App.jsx");
    assert !EndsWith("App.jsx", ".js");
    assert !EndsWith("App.jsx", ".html") && !EndsWith("App.jsx", ".css");
    assert WithDefaultExtension("App.jsx") == "App.jsx.js";
  }

  // ---------------------------------------------------------------------
  // Renames
  // ---------------------------------------------------------------------

  /** commitRename's test: a non-blank name that differs from the old one. */
  predicate RenameCommits(oldName: string, newName: string) {
    Trim(newName) != "" && newName != oldName
  }

  /** Renaming to the same name is never sent to the store. */
  lemma SameNameNeverCommits(name: string)
    ensures !RenameCommits(name, name)
  {
  }

  // ---------------------------------------------------------------------
  // The component state
  // ---------------------------------------------------------------------

  datatype NewFileInput = NewFileInput(parentPath: seq<string>, name: string)

  /** The row a context menu was opened on. */
  datatype MenuTarget = MenuTarget(node: Node, path: seq<string>)

  /** Everything one level of the explorer keeps between renders: its state hooks and its two refs. */
  datatype LevelState = LevelState(
    expanded: seq<string>,
    contextMenu: Option<MenuTarget>,
    rootContextMenu: bool,
    renamingNode: Option<Selection>,
    newName: string,
    showFolderDialog: Option<seq<string>>,
    folderName: string,
    template: string,
    newFileInput: Option<NewFileInput>,
    prevFileTrigger: nat,
    prevFolderTrigger: nat)

  /** The state a level starts with. */
  const InitialLevelState: LevelState :=
    LevelState([], None, false, None, "", None, "", "blank", None, 0, 0)

  /** The state with both context menus closed. */
  function MenusClosed(st: LevelState): (r: LevelState)
    ensures r.contextMenu == None && !r.rootContextMenu
  {
    st.(contextMenu := None, rootContextMenu := false)
  }

  /** handleAddFile's update: the input opens under `parentPath`, its joined path is expanded once, the menus close. */
  function AddFileState(st: LevelState, parentPath: seq<string>): LevelState {
    var key := ExpandKey(parentPath);
    MenusClosed(st.(newFileInput := Some(NewFileInput(parentPath, "")),
                    expanded := if key in st.expanded then st.expanded else st.expanded + [key]))
  }

  /** handleAddFolder's update: the dialog opens under `parentPath` with a timestamped name and the blank template, the menus close. */
  function AddFolderState(st: LevelState, parentPath: seq<string>, now: nat): LevelState {
    MenusClosed(st.(showFolderDialog := Some(parentPath), folderName := "new-folder-" + NatToString(now),
                    template := "blank"))
  }

  /** A store's selection and its two trigger counters, which no handler of a level changes. */
  predicate StoreKept(store: FileStructureStore, selectedFile: Option<Selection>, fileTrigger: nat, folderTrigger: nat)
    reads store
  {
    store.selectedFile == selectedFile && store.newFileTrigger == fileTrigger && store.newFolderTrigger == folderTrigger
  }

  class FileTreeLevel {
    /** The `path` prop: the names leading to the nodes this level lists. */
    const path: seq<string>
    var expanded: seq<string>
    var contextMenu: Option<MenuTarget>
    var rootContextMenu: bool
    var renamingNode: Option<Selection>
    var newName: string
    var showFolderDialog: Option<seq<string>>
    var folderName: string
    var template: string
    var newFileInput: Option<NewFileInput>
    var prevFileTrigger: nat
    var prevFolderTrigger: nat

    /** All of this level's state at once. */
    function State(): LevelState
      reads this
    {
      LevelState(expanded, contextMenu, rootContextMenu, renamingNode, newName, showFolderDialog,
                 folderName, template, newFileInput, prevFileTrigger, prevFolderTrigger)
    }

    constructor (path: seq<string>)
      ensures this.path == path && State() == InitialLevelState
    {
      this.path := path;
      expanded := [];
      contextMenu := None;
      rootContextMenu := false;
      renamingNode := None;
      newName := "";
      showFolderDialog := None;
      folderName := "";
      template := "blank";
      newFileInput := None;
      prevFileTrigger := 0;
      prevFolderTrigger := 0;
    }

    method ToggleExpand(name: string)
      modifies this
      ensures State() == old(State()).(expanded := Toggled(old(expanded), name))
    {
      expanded := Toggled(expanded, name);
    }

    /**
     * handleContextMenu: a right-click on a row closes the root menu and
     * opens the node menu on that row, remembering its node and full path.
     */
    method OpenContextMenu(node: Node, nodePath: seq<string>)
      modifies this
      ensures State() == old(State()).(rootContextMenu := false, contextMenu := Some(MenuTarget(node, nodePath)))
    {
      rootContextMenu := false;
      contextMenu := Some(MenuTarget(node, nodePath));
    }

    /**
     * handleRootContextMenu: a right-click on the list itself (not on one of
     * its rows, `onList`) closes the node menu and opens the root menu; a
     * click that bubbled up from a row changes nothing.
     */
    method OpenRootContextMenu(onList: bool)
      modifies this
      ensures State() == if onList then old(State()).(contextMenu := None, rootContextMenu := true) else old(State())
    {
      if onList {
        contextMenu := None;
        rootContextMenu := true;
      }
    }

    method CloseMenus()
      modifies this
      ensures State() == MenusClosed(old(State()))
    {
      contextMenu := None;
      rootContextMenu := false;
    }

    /** Opens the new-file input under `parentPath` and records the joined path as expanded once. */
    method HandleAddFile(parentPath: seq<string>)
      modifies this
      ensures State() == AddFileState(old(State()), parentPath)
    {
      newFileInput := Some(NewFileInput(parentPath, ""));
      var key := Join(parentPath, '/');
      if key !in expanded {
        expanded := expanded + [key];
      }
      CloseMenus();
    }

    /** Typing in the new-file input, which is shown only while it is open. */
    method EditNewFileName(name: string)
      modifies this
      requires newFileInput.Some?
      ensures State() == old(State()).(newFileInput := Some(old(newFileInput).value.(name := name)))
    {
      newFileInput := Some(newFileInput.value.(name := name));
    }

    /**
     * commitNewFile: a non-blank name adds a file node through the store;
     * the input closes unless the store's walk failed.
     */
    method CommitNewFile(store: FileStructureStore, parentPath: seq<string>, name: string) returns (outcome: Outcome)
      modifies this, store
      ensures NewFileNode(name).None? ==> outcome == Skipped && store.fileStructure == old(store.fileStructure)
      ensures NewFileNode(name).Some? ==>
        && outcome == (if Descend(old(store.fileStructure), parentPath).Some? then Done else Crashed)
        && store.fileStructure == EditAt(old(store.fileStructure), parentPath, Append(NewFileNode(name).value)).GetOr(old(store.fileStructure))
      ensures State() == old(State()).(newFileInput := if outcome == Crashed then old(newFileInput) else None)
      ensures StoreKept(store, old(store.selectedFile), old(store.newFileTrigger), old(store.newFolderTrigger))
    {
      var node := NewFileNode(name);
      outcome := Skipped;
      if node.Some? {
        outcome := store.AddNode(parentPath, node.value);
        if outcome == Crashed {
          return;
        }
      }
      newFileInput := None;
    }

    method CancelNewFile()
      modifies this
      ensures State() == old(State()).(newFileInput := None)
    {
      newFileInput := None;
    }

    /** Opens the folder dialog with the name "new-folder-<now>" and the blank template. */
    method HandleAddFolder(parentPath: seq<string>, now: nat)
      modifies this
      ensures State() == AddFolderState(old(State()), parentPath, now)
    {
      showFolderDialog := Some(parentPath);
      folderName := "new-folder-" + NatToString(now);
      template := "blank";
      CloseMenus();
    }

    method EditFolderName(name: string)
      modifies this
      ensures State() == old(State()).(folderName := name)
    {
      folderName := name;
    }

    method ChooseTemplate(name: string)
      modifies this
      ensures State() == old(State()).(template := name)
    {
      template := name;
    }

    /**
     * commitNewFolder: with the dialog open, creates the folder through the
     * store and appends its bare name to the expanded list, without checking
     * for a copy; the dialog then closes.
     */
    method CommitNewFolder(store: FileStructureStore) returns (outcome: Outcome)
      modifies this, store
      ensures old(showFolderDialog).None? ==> outcome == Skipped && store.fileStructure == old(store.fileStructure)
      ensures old(showFolderDialog).Some? ==>
        && outcome == (if Descend(old(store.fileStructure), old(showFolderDialog).value).Some? then Done else Crashed)
        && store.fileStructure == EditAt(old(store.fileStructure), old(showFolderDialog).value,
             Append(Folder(old(folderName), Templates.TemplateChildren(old(template))))).GetOr(old(store.fileStructure))
      ensures State() == old(State()).(
        showFolderDialog := if outcome == Crashed then old(showFolderDialog) else None,
        expanded := if outcome == Done then old(expanded) + [old(folderName)] else old(expanded))
      ensures StoreKept(store, old(store.selectedFile), old(store.newFileTrigger), old(store.newFolderTrigger))
    {
      outcome := Skipped;
      if showFolderDialog.Some? {
        outcome := store.CreateFolder(showFolderDialog.value, folderName, template);
        if outcome == Crashed {
          return;
        }
        expanded := expanded + [folderName];
      }
      showFolderDialog := None;
    }

    method CancelNewFolder()
      modifies this
      ensures State() == old(State()).(showFolderDialog := None)
    {
      showFolderDialog := None;
    }

    /** handleDelete: removes `name` under the node path minus its last segment, then closes the menus. */
    method HandleDelete(store: FileStructureStore, nodePath: seq<string>, name: string) returns (outcome: Outcome)
      modifies this, store
      ensures outcome == if Descend(old(store.fileStructure), ParentPath(nodePath)).Some? then Done else Crashed
      ensures store.fileStructure == EditAt(old(store.fileStructure), ParentPath(nodePath), RemoveFirst(name)).GetOr(old(store.fileStructure))
      ensures State() == if outcome == Done then MenusClosed(old(State())) else old(State())
      ensures StoreKept(store, old(store.selectedFile), old(store.newFileTrigger), old(store.newFolderTrigger))
    {
      outcome := store.DeleteNode(ParentPath(nodePath), name);
      if outcome == Crashed {
        return;
      }
      CloseMenus();
    }

    /** handleRename: opens the rename field on the node, seeded with its current name. */
    method HandleRename(node: Node, nodePath: seq<string>)
      modifies this
      ensures State() == MenusClosed(old(State()).(renamingNode := Some(Selection(node, ParentPath(nodePath))),
                                                    newName := node.name))
    {
      renamingNode := Some(Selection(node, ParentPath(nodePath)));
      newName := node.name;
      CloseMenus();
    }

    method EditNewName(name: string)
      modifies this
      ensures State() == old(State()).(newName := name)
    {
      newName := name;
    }

    /**
     * commitRename: the store renames only for a non-blank name that differs
     * from the old one; the field then closes.
     */
    method CommitRename(store: FileStructureStore) returns (outcome: Outcome)
      modifies this, store
      ensures old(renamingNode).None? || !RenameCommits(old(renamingNode).value.node.name, old(newName)) ==>
        outcome == Skipped && store.fileStructure == old(store.fileStructure)
      ensures old(renamingNode).Some? && RenameCommits(old(renamingNode).value.node.name, old(newName)) ==>
        && outcome == (if Descend(old(store.fileStructure), old(renamingNode).value.path).Some? then Done else Crashed)
        && store.fileStructure == EditAt(old(store.fileStructure), old(renamingNode).value.path,
             RenameFirst(old(renamingNode).value.node.name, old(newName))).GetOr(old(store.fileStructure))
      ensures State() == old(State()).(renamingNode := if outcome == Crashed then old(renamingNode) else None)
      ensures StoreKept(store, old(store.selectedFile), old(store.newFileTrigger), old(store.newFolderTrigger))
    {
      outcome := Skipped;
      if renamingNode.Some? && Trim(newName) != "" && newName != renamingNode.value.node.name {
        outcome := store.RenameNode(renamingNode.value.path, renamingNode.value.node.name, newName);
        if outcome == Crashed {
          return;
        }
      }
      renamingNode := None;
    }

    method CancelRename()
      modifies this
      ensures State() == old(State()).(renamingNode := None)
    {
      renamingNode := None;
    }

    /** The node menu's "New File", shown only on a folder: handleAddFile at the folder's path. */
    method MenuNewFile()
      modifies this
      requires contextMenu.Some? && contextMenu.value.node.isFolder
      ensures State() == AddFileState(old(State()), old(contextMenu).value.path)
    {
      HandleAddFile(contextMenu.value.path);
    }

    /** The node menu's "New Folder", shown only on a folder: handleAddFolder at the folder's path. */
    method MenuNewFolder(now: nat)
      modifies this
      requires contextMenu.Some? && contextMenu.value.node.isFolder
      ensures State() == AddFolderState(old(State()), old(contextMenu).value.path, now)
    {
      HandleAddFolder(contextMenu.value.path, now);
    }

    /** The node menu's "Rename": handleRename on the remembered node and path; nothing without a menu. */
    method MenuRename()
      modifies this
      ensures State() == if old(contextMenu).None? then old(State()) else
        var t := old(contextMenu).value;
        MenusClosed(old(State()).(renamingNode := Some(Selection(t.node, ParentPath(t.path))), newName := t.node.name))
    {
      if contextMenu.Some? {
        HandleRename(contextMenu.value.node, contextMenu.value.path);
      }
    }

    /** The node menu's "Delete": handleDelete of the remembered node's name under its parent path; nothing without a menu. */
    method MenuDelete(store: FileStructureStore) returns (outcome: Outcome)
      modifies this, store
      ensures old(contextMenu).None? ==>
        outcome == Skipped && State() == old(State()) && store.fileStructure == old(store.fileStructure)
      ensures old(contextMenu).Some? ==>
        var t := old(contextMenu).value;
        && outcome == (if Descend(old(store.fileStructure), ParentPath(t.path)).Some? then Done else Crashed)
        && store.fileStructure == EditAt(old(store.fileStructure), ParentPath(t.path), RemoveFirst(t.node.name)).GetOr(old(store.fileStructure))
        && State() == (if outcome == Done then MenusClosed(old(State())) else old(State()))
      ensures StoreKept(store, old(store.selectedFile), old(store.newFileTrigger), old(store.newFolderTrigger))
    {
      outcome := Skipped;
      if contextMenu.Some? {
        outcome := HandleDelete(store, contextMenu.value.path, contextMenu.value.node.name);
      }
    }

    /** The root menu's "New File": handleAddFile at this level's own path. */
    method RootMenuNewFile()
      modifies this
      requires rootContextMenu
      ensures State() == AddFileState(old(State()), path)
    {
      HandleAddFile(path);
    }

    /** The root menu's "New Folder": handleAddFolder at this level's own path. */
    method RootMenuNewFolder(now: nat)
      modifies this
      requires rootContextMenu
      ensures State() == AddFolderState(old(State()), path, now)
    {
      HandleAddFolder(path, now);
    }

    /** A click on a row: a folder toggles open or closed, a file is selected with its full path. */
    method ClickRow(store: FileStructureStore, node: Node)
      modifies this, store
      ensures State() == if node.isFolder then old(State()).(expanded := Toggled(old(expanded), node.name)) else old(State())
      ensures StoreKept(store, if node.isFolder then old(store.selectedFile) else Some(Selection(node, path + [node.name])),
                        old(store.newFileTrigger), old(store.newFolderTrigger))
      ensures store.fileStructure == old(store.fileStructure)
    {
      if node.isFolder {
        ToggleExpand(node.name);
      } else {
        store.SelectFile(node, path + [node.name]);
      }
    }

    /** The new-file trigger effect: a counter above the last one seen opens the input at this level. */
    method OnNewFileTrigger(newFileTrigger: nat)
      modifies this
      ensures State() == if newFileTrigger > old(prevFileTrigger)
        then AddFileState(old(State()), path).(prevFileTrigger := newFileTrigger)
        else old(State())
    {
      if newFileTrigger > prevFileTrigger {
        HandleAddFile(path);
        prevFileTrigger := newFileTrigger;
      }
    }

    /** The new-folder trigger effect, with `now` standing for Date.now(). */
    method OnNewFolderTrigger(newFolderTrigger: nat, now: nat)
      modifies this
      ensures State() == if newFolderTrigger > old(prevFolderTrigger)
        then AddFolderState(old(State()), path, now).(prevFolderTrigger := newFolderTrigger)
        else old(State())
    {
      if newFolderTrigger > prevFolderTrigger {
        HandleAddFolder(path, now);
        prevFolderTrigger := newFolderTrigger;
      }
    }
  }
}
