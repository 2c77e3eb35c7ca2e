/**
 * The workspace hook (src/hooks/useFileStructure.ts): the tree, the
 * selection and two trigger counters, and the operations that replace the
 * tree with an edited copy.
 */
module UseFileStructure {
  import opened Wrappers
  import opened FileSystemNode
  import opened WorkspaceTree
  import Templates

  /** The selected file: the node as it was when selected, and its path of names from the top level. */
  datatype Selection = Selection(node: Node, path: seq<string>)

  /** How a tree operation ended: it ran, it returned early, or the cursor walk threw. */
  datatype Outcome = Done | Skipped | Crashed

  /**
   * Copy the tree, walk a cursor down `path` and make the edit `e` there.
   * The walk records each list it passes and the index it enters; once the
   * edit is made, the edited list is put back into its ancestors. The input
   * tree is a value and is never changed: the result is a new tree.
   */
  method EditCopy(tree: seq<Node>, path: seq<string>, e: Edit) returns (r: Option<seq<Node>>)
    ensures r == EditAt(tree, path, e)
  {
    var curr := tree;
    var frames: seq<Frame> := [];
    var k := 0;
    while k < |path|
      invariant 0 <= k <= |path|
      invariant ValidFrames(frames)
      invariant EditAt(tree, path, e) == Lift(frames, EditAt(curr, path[k..], e))
    {
      var i := FindIndex(curr, path[k]);
      if i < 0 || curr[i].children.Absent? {
        return None;
      }
      WalkStep(frames, curr, path[k..], e);
      assert path[k..][1..] == path[k + 1..];
      frames := frames + [Frame(curr, i)];
      curr := curr[i].children.nodes;
      k := k + 1;
    }
    assert path[k..] == [];
    var edited := EditList(curr, e);
    var rebuilt := PutBack(frames, edited);
    r := Some(rebuilt);
  }

  /** One step of the walk: entering the first sibling named `p[0]` adds its frame and leaves `p[1..]` to edit. */
  lemma WalkStep(frames: seq<Frame>, curr: seq<Node>, p: seq<string>, e: Edit)
    requires ValidFrames(frames) && p != []
    requires FindIndex(curr, p[0]) >= 0 && curr[FindIndex(curr, p[0])].children.Present?
    ensures var i := FindIndex(curr, p[0]);
      && ValidFrames(frames + [Frame(curr, i)])
      && Lift(frames, EditAt(curr, p, e)) == Lift(frames + [Frame(curr, i)], EditAt(curr[i].children.nodes, p[1..], e))
  {
    var i := FindIndex(curr, p[0]);
    RebuildSnoc(frames, Frame(curr, i), []);
    var rest := EditAt(curr[i].children.nodes, p[1..], e);
    if rest.Some? {
      RebuildSnoc(frames, Frame(curr, i), rest.value);
    }
  }

  /** The in-place edit of the sibling list the cursor reached: `push`, `splice`, or a field assignment. */
  method EditList(curr: seq<Node>, e: Edit) returns (r: seq<Node>)
    ensures r == ApplyEdit(curr, e)
  {
    r := curr;
    match e {
      case Append(n) =>
        r := r + [n];
      case RemoveFirst(name) =>
        var idx := FindIndex(r, name);
        if idx > -1 {
          r := r[..idx] + r[idx + 1..];
        }
      case RenameFirst(oldName, newName) =>
        var idx := FindIndex(r, oldName);
        if idx > -1 {
          r := r[idx := r[idx].(name := newName)];
        }
      case SetFileContent(fileName, value) =>
        var idx := FindFileIndex(r, fileName);
        if idx > -1 {
          r := r[idx := r[idx].(content := Some(value))];
        }
    }
  }

  /** Put an edited list back through the frames of the walk, innermost first. */
  method PutBack(frames: seq<Frame>, edited: seq<Node>) returns (r: seq<Node>)
    requires ValidFrames(frames)
    ensures r == Rebuild(frames, edited)
  {
    r := edited;
    var j := |frames|;
    assert frames[..j] == frames;
    while j > 0
      invariant 0 <= j <= |frames|
      invariant ValidFrames(frames[..j])
      invariant Rebuild(frames, edited) == Rebuild(frames[..j], r)
    {
      RebuildSnoc(frames[..j - 1], frames[j - 1], r);
      assert frames[..j - 1] + [frames[j - 1]] == frames[..j];
      r := Plug(frames[j - 1], r);
      j := j - 1;
    }
  }


  /** The hook's state: the workspace tree, the selected file and the two new-file/new-folder triggers. */
  class FileStructureStore {
    var fileStructure: seq<Node>
    var selectedFile: Option<Selection>
    var newFileTrigger: nat
    var newFolderTrigger: nat

    constructor (initial: seq<Node>)
      ensures fileStructure == initial && selectedFile == None
      ensures newFileTrigger == 0 && newFolderTrigger == 0
    {
      fileStructure := initial;
      selectedFile := None;
      newFileTrigger := 0;
      newFolderTrigger := 0;
    }

    /** `selectFile`: only the selection changes. */
    method SelectFile(node: Node, path: seq<string>)
      modifies this
      ensures selectedFile == Some(Selection(node, path))
      ensures fileStructure == old(fileStructure)
      ensures newFileTrigger == old(newFileTrigger) && newFolderTrigger == old(newFolderTrigger)
    {
      selectedFile := Some(Selection(node, path));
    }

    /**
     * `updateFileContent(value)`: nothing happens without a selection or
     * when no string is given. Otherwise the first non-folder sibling named
     * like the selected node, under the selection's parent path, gets the
     * new content. The selection itself keeps the node as it was.
     */
    method UpdateFileContent(value: Option<string>) returns (outcome: Outcome)
      modifies this
      ensures selectedFile == old(selectedFile)
      ensures newFileTrigger == old(newFileTrigger) && newFolderTrigger == old(newFolderTrigger)
      ensures old(selectedFile).None? || value.None? ==> outcome == Skipped && fileStructure == old(fileStructure)
      ensures old(selectedFile).Some? && value.Some? ==>
        var r := EditAt(old(fileStructure), ParentPath(old(selectedFile).value.path),
                        SetFileContent(old(selectedFile).value.node.name, value.value));
        && (outcome == if r.Some? then Done else Crashed)
        && fileStructure == r.GetOr(old(fileStructure))
    {
      if selectedFile.None? || value.None? {
        return Skipped;
      }
      var sel := selectedFile.value;
      var r := EditCopy(fileStructure, ParentPath(sel.path), SetFileContent(sel.node.name, value.value));
      if r.None? {
        return Crashed;
      }
      fileStructure := r.value;
      outcome := Done;
    }

    /** Replace the tree by `e` applied at `path`, or leave it when the walk throws. */
    method ApplyAt(path: seq<string>, e: Edit) returns (outcome: Outcome)
      modifies this
      ensures selectedFile == old(selectedFile)
      ensures newFileTrigger == old(newFileTrigger) && newFolderTrigger == old(newFolderTrigger)
      ensures outcome == if EditAt(old(fileStructure), path, e).Some? then Done else Crashed
      ensures fileStructure == EditAt(old(fileStructure), path, e).GetOr(old(fileStructure))
    {
      var r := EditCopy(fileStructure, path, e);
      if r.None? {
        return Crashed;
      }
      fileStructure := r.value;
      outcome := Done;
    }

    /** `addNode(parentPath, newNode)`: append `newNode` to the list reached by `parentPath`; no name check. */
    method AddNode(parentPath: seq<string>, newNode: Node) returns (outcome: Outcome)
      modifies this
      ensures selectedFile == old(selectedFile)
      ensures newFileTrigger == old(newFileTrigger) && newFolderTrigger == old(newFolderTrigger)
      ensures outcome == if Descend(old(fileStructure), parentPath).Some? then Done else Crashed
      ensures outcome == Done ==>
        Descend(fileStructure, parentPath) == Some(Descend(old(fileStructure), parentPath).value + [newNode])
      ensures fileStructure == EditAt(old(fileStructure), parentPath, Append(newNode)).GetOr(old(fileStructure))
    {
      AppendAddsLastChild(fileStructure, parentPath, newNode);
      outcome := ApplyAt(parentPath, Append(newNode));
    }

    /** `deleteNode(parentPath, name)`: remove the first sibling called `name`, if any. */
    method DeleteNode(parentPath: seq<string>, name: string) returns (outcome: Outcome)
      modifies this
      ensures selectedFile == old(selectedFile)
      ensures newFileTrigger == old(newFileTrigger) && newFolderTrigger == old(newFolderTrigger)
      ensures outcome == if Descend(old(fileStructure), parentPath).Some? then Done else Crashed
      ensures fileStructure == EditAt(old(fileStructure), parentPath, RemoveFirst(name)).GetOr(old(fileStructure))
    {
      EditLandsAtPath(fileStructure, parentPath, RemoveFirst(name));
      outcome := ApplyAt(parentPath, RemoveFirst(name));
    }

    /** `renameNode(parentPath, oldName, newName)`: rename the first sibling called `oldName`; no collision check. */
    method RenameNode(parentPath: seq<string>, oldName: string, newName: string) returns (outcome: Outcome)
      modifies this
      ensures selectedFile == old(selectedFile)
      ensures newFileTrigger == old(newFileTrigger) && newFolderTrigger == old(newFolderTrigger)
      ensures outcome == if Descend(old(fileStructure), parentPath).Some? then Done else Crashed
      ensures fileStructure == EditAt(old(fileStructure), parentPath, RenameFirst(oldName, newName)).GetOr(old(fileStructure))
    {
      EditLandsAtPath(fileStructure, parentPath, RenameFirst(oldName, newName));
      outcome := ApplyAt(parentPath, RenameFirst(oldName, newName));
    }

    /** `createFolder(parentPath, folderName, template)`: add a folder whose children are the template's list (empty if unknown). */
    method CreateFolder(parentPath: seq<string>, folderName: string, template: string) returns (outcome: Outcome)
      modifies this
      ensures selectedFile == old(selectedFile)
      ensures newFileTrigger == old(newFileTrigger) && newFolderTrigger == old(newFolderTrigger)
      ensures outcome == if Descend(old(fileStructure), parentPath).Some? then Done else Crashed
      ensures outcome == Done ==>
        Descend(fileStructure, parentPath) ==
          Some(Descend(old(fileStructure), parentPath).value + [Folder(folderName, Templates.TemplateChildren(template))])
      ensures fileStructure ==
        EditAt(old(fileStructure), parentPath, Append(Folder(folderName, Templates.TemplateChildren(template)))).GetOr(old(fileStructure))
    {
      outcome := AddNode(parentPath, Folder(folderName, Templates.TemplateChildren(template)));
    }

    /** `triggerNewFile`: the new-file counter goes up by one; nothing else changes. */
    method TriggerNewFile()
      modifies this
      ensures newFileTrigger == old(newFileTrigger) + 1
      ensures newFolderTrigger == old(newFolderTrigger)
      ensures fileStructure == old(fileStructure) && selectedFile == old(selectedFile)
    {
      newFileTrigger := newFileTrigger + 1;
    }

    /** `triggerNewFolder`: the new-folder counter goes up by one; nothing else changes. */
    method TriggerNewFolder()
      modifies this
      ensures newFolderTrigger == old(newFolderTrigger) + 1
      ensures newFileTrigger == old(newFileTrigger)
      ensures fileStructure == old(fileStructure) && selectedFile == old(selectedFile)
    {
      newFolderTrigger := newFolderTrigger + 1;
    }
  }
}
