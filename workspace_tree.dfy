/**
 * The tree edits behind the workspace hook (src/hooks/useFileStructure.ts),
 * stated on tree values. Every operation walks a cursor from the top-level
 * list down a path of names, each step moving to the children of the FIRST
 * sibling with that name, then edits the list it reached. A path segment
 * that names no sibling, or names a node without a `children` field, makes
 * the walk fail (a TypeError in the source).
 */
module WorkspaceTree {
  import opened Wrappers
  import opened FileSystemNode

  /** `nodes.findIndex(n => n.name === name)`: the first sibling with that name, or -1. */
  function FindIndex(nodes: seq<Node>, name: string): (i: int)
    ensures -1 <= i < |nodes|
    ensures i >= 0 ==> nodes[i].name == name
    ensures forall j :: 0 <= j < |nodes| && (i < 0 || j < i) ==> nodes[j].name != name
  {
    if nodes == [] then -1
    else if nodes[0].name == name then 0
    else
      var k := FindIndex(nodes[1..], name);
      if k < 0 then -1 else k + 1
  }

  /** The search finds a sibling exactly when some sibling has the name. */
  lemma {:induction false} FindIndexFindsPresentName(nodes: seq<Node>, name: string)
    ensures FindIndex(nodes, name) >= 0 <==> name in Names(nodes)
  {
    var i := FindIndex(nodes, name);
    if name in Names(nodes) {
      var k :| 0 <= k < |nodes| && Names(nodes)[k] == name;
      assert nodes[k].name == name;
    }
  }

  /** The first sibling that is not a folder and has that name, or -1. */
  function FindFileIndex(nodes: seq<Node>, name: string): (i: int)
    ensures -1 <= i < |nodes|
    ensures i >= 0 ==> !nodes[i].isFolder && nodes[i].name == name
    ensures forall j :: 0 <= j < |nodes| && (i < 0 || j < i) ==> nodes[j].isFolder || nodes[j].name != name
  {
    if nodes == [] then -1
    else if !nodes[0].isFolder && nodes[0].name == name then 0
    else
      var k := FindFileIndex(nodes[1..], name);
      if k < 0 then -1 else k + 1
  }

  /** `path.slice(0, -1)`: all segments but the last (none for an empty path). */
  function ParentPath(path: seq<string>): (r: seq<string>)
    ensures path == [] ==> r == []
    ensures path != [] ==> path == r + [path[|path| - 1]]
  {
    if path == [] then [] else path[..|path| - 1]
  }

  /** The in-place edit each operation makes to the sibling list the cursor reached. */
  datatype Edit =
    | Append(node: Node)                              // `curr.push(newNode)`
    | RemoveFirst(name: string)                       // `curr.splice(curr.findIndex(...), 1)`
    | RenameFirst(oldName: string, newName: string)   // `node.name = newName`
    | SetFileContent(fileName: string, value: string) // `fileNode.content = value`

  function ApplyEdit(nodes: seq<Node>, e: Edit): seq<Node> {
    match e
    case Append(n) => nodes + [n]
    case RemoveFirst(name) =>
      var i := FindIndex(nodes, name);
      if i < 0 then nodes else nodes[..i] + nodes[i + 1..]
    case RenameFirst(oldName, newName) =>
      var i := FindIndex(nodes, oldName);
      if i < 0 then nodes else nodes[i := nodes[i].(name := newName)]
    case SetFileContent(fileName, value) =>
      var i := FindFileIndex(nodes, fileName);
      if i < 0 then nodes else nodes[i := nodes[i].(content := Some(value))]
  }

  /** The sibling list the cursor reaches by walking `path` down from `nodes`; None when the walk fails. */
  function Descend(nodes: seq<Node>, path: seq<string>): Option<seq<Node>>
    decreases path
  {
    if path == [] then Some(nodes)
    else
      var i := FindIndex(nodes, path[0]);
      if i < 0 || nodes[i].children.Absent? then None
      else Descend(nodes[i].children.nodes, path[1..])
  }

  /** The whole tree after applying `e` at the end of `path`; None when the walk fails. */
  function EditAt(nodes: seq<Node>, path: seq<string>, e: Edit): Option<seq<Node>>
    decreases path
  {
    if path == [] then Some(ApplyEdit(nodes, e))
    else
      var i := FindIndex(nodes, path[0]);
      if i < 0 || nodes[i].children.Absent? then None
      else
        match EditAt(nodes[i].children.nodes, path[1..], e)
        case None => None
        case Some(kids) => Some(nodes[i := nodes[i].(children := Present(kids))])
  }

  // ---------------------------------------------------------------------
  // Cursor frames: what a walk down the tree passes through, and putting
  // an edited child list back into its ancestors.
  // ---------------------------------------------------------------------

  /** One step of the walk: the sibling list and the index of the node whose children were entered. */
  datatype Frame = Frame(siblings: seq<Node>, index: nat)

  predicate ValidFrames(frames: seq<Frame>) {
    forall k :: 0 <= k < |frames| ==> frames[k].index < |frames[k].siblings|
  }

  /** Put `kids` back as the children of the frame's node. */
  function Plug(f: Frame, kids: seq<Node>): (r: seq<Node>)
    requires f.index < |f.siblings|
    ensures Names(r) == Names(f.siblings)
  {
    f.siblings[f.index := f.siblings[f.index].(children := Present(kids))]
  }

  /** Put an edited innermost list back through every frame, innermost first. */
  function Rebuild(frames: seq<Frame>, inner: seq<Node>): seq<Node>
    requires ValidFrames(frames)
  {
    if frames == [] then inner else Plug(frames[0], Rebuild(frames[1..], inner))
  }

  /** Rebuilding through one more inner frame is plugging into that frame first. */
  lemma {:induction false} RebuildSnoc(frames: seq<Frame>, f: Frame, inner: seq<Node>)
    requires ValidFrames(frames) && f.index < |f.siblings|
    ensures ValidFrames(frames + [f])
    ensures Rebuild(frames + [f], inner) == Rebuild(frames, Plug(f, inner))
  {
    if frames != [] {
      assert (frames + [f])[1..] == frames[1..] + [f];
      RebuildSnoc(frames[1..], f, inner);
    }
  }

  /** A failed walk stays failed; a successful one is rebuilt through the frames. */
  function Lift(frames: seq<Frame>, r: Option<seq<Node>>): Option<seq<Node>>
    requires ValidFrames(frames)
  {
    match r
    case None => None
    case Some(inner) => Some(Rebuild(frames, inner))
  }

  // ---------------------------------------------------------------------
  // Properties of the edits.
  // ---------------------------------------------------------------------

  /** The first-match search depends on the names alone. */
  lemma {:induction false} FindIndexByNames(a: seq<Node>, b: seq<Node>, name: string)
    requires Names(a) == Names(b)
    ensures FindIndex(a, name) == FindIndex(b, name)
  {
    if a != [] {
      assert Names(a[1..]) == Names(a)[1..];
      assert Names(b[1..]) == Names(b)[1..];
      FindIndexByNames(a[1..], b[1..], name);
    }
  }

  /**
   * An edit succeeds exactly when the walk succeeds, and afterwards the
   * same walk reaches the edited list: the edit lands where the path points.
   */
  lemma {:induction false} EditLandsAtPath(nodes: seq<Node>, path: seq<string>, e: Edit)
    ensures EditAt(nodes, path, e).Some? <==> Descend(nodes, path).Some?
    ensures EditAt(nodes, path, e).Some? ==>
      Descend(EditAt(nodes, path, e).value, path) == Some(ApplyEdit(Descend(nodes, path).value, e))
    decreases path
  {
    if path != [] {
      var i := FindIndex(nodes, path[0]);
      if i >= 0 && nodes[i].children.Present? {
        var kids := nodes[i].children.nodes;
        EditLandsAtPath(kids, path[1..], e);
        var r := EditAt(kids, path[1..], e);
        if r.Some? {
          var after := nodes[i := nodes[i].(children := Present(r.value))];
          assert Names(after) == Names(nodes);
          FindIndexByNames(after, nodes, path[0]);
        }
      }
    }
  }

  /**
   * The edit's frame: a walk down a path that branches off the edited one
   * (neither path is a prefix of the other) reaches the same list before
   * and after the edit. Only the nodes along the edited path are rebuilt.
   */
  lemma {:induction false} EditLeavesOtherPathsAlone(nodes: seq<Node>, p: seq<string>, q: seq<string>, e: Edit)
    requires EditAt(nodes, p, e).Some?
    requires !(p <= q) && !(q <= p)
    ensures Descend(EditAt(nodes, p, e).value, q) == Descend(nodes, q)
    decreases p
  {
    var i := FindIndex(nodes, p[0]);
    var kids := EditAt(nodes[i].children.nodes, p[1..], e).value;
    var after := nodes[i := nodes[i].(children := Present(kids))];
    assert EditAt(nodes, p, e).value == after;
    assert Names(after) == Names(nodes);
    FindIndexByNames(after, nodes, q[0]);
    var j := FindIndex(nodes, q[0]);
    if p[0] == q[0] {
      assert !(p[1..] <= q[1..]) && !(q[1..] <= p[1..]) by {
        assert p == [p[0]] + p[1..] && q == [q[0]] + q[1..];
      }
      EditLeavesOtherPathsAlone(nodes[i].children.nodes, p[1..], q[1..], e);
    } else if j >= 0 {
      assert j != i;
      assert after[j] == nodes[j];
    }
  }

  /** When the edit leaves the reached list as it was, the whole tree is left as it was. */
  lemma {:induction false} NeutralEditKeepsTree(nodes: seq<Node>, path: seq<string>, e: Edit)
    requires Descend(nodes, path).Some?
    requires ApplyEdit(Descend(nodes, path).value, e) == Descend(nodes, path).value
    ensures EditAt(nodes, path, e) == Some(nodes)
    decreases path
  {
    if path != [] {
      var i := FindIndex(nodes, path[0]);
      NeutralEditKeepsTree(nodes[i].children.nodes, path[1..], e);
      assert nodes[i := nodes[i].(children := Present(nodes[i].children.nodes))] == nodes;
    }
  }

  /**
   * Two edits at the same path whose list effects cancel cancel on the
   * whole tree: the second walk finds the same nodes, and nothing off the
   * path was touched by either.
   */
  lemma {:induction false} CancellingEditsRestoreTree(nodes: seq<Node>, path: seq<string>, e1: Edit, e2: Edit)
    requires Descend(nodes, path).Some?
    requires ApplyEdit(ApplyEdit(Descend(nodes, path).value, e1), e2) == Descend(nodes, path).value
    ensures EditAt(nodes, path, e1).Some?
    ensures EditAt(EditAt(nodes, path, e1).value, path, e2) == Some(nodes)
    decreases path
  {
    EditLandsAtPath(nodes, path, e1);
    if path != [] {
      var i := FindIndex(nodes, path[0]);
      var kids := nodes[i].children.nodes;
      CancellingEditsRestoreTree(kids, path[1..], e1, e2);
      var kids1 := EditAt(kids, path[1..], e1).value;
      var after := nodes[i := nodes[i].(children := Present(kids1))];
      assert Names(after) == Names(nodes);
      FindIndexByNames(after, nodes, path[0]);
      assert after[i := after[i].(children := Present(kids))] == nodes;
    }
  }

  /** A missing segment anywhere along the path makes the walk, and so every edit, fail. */
  lemma {:induction false} MissingSegmentFails(nodes: seq<Node>, path: seq<string>, k: nat, e: Edit)
    requires k < |path|
    requires Descend(nodes, path[..k]).Some?
    requires path[k] !in Names(Descend(nodes, path[..k]).value)
    ensures Descend(nodes, path) == None
    ensures EditAt(nodes, path, e) == None
    decreases k
  {
    EditLandsAtPath(nodes, path, e);
    if k == 0 {
    } else {
      var i := FindIndex(nodes, path[0]);
      assert path[..k][0] == path[0] && path[..k][1..] == path[1..][..k - 1];
      MissingSegmentFails(nodes[i].children.nodes, path[1..], k - 1, e);
    }
  }

  /** `addNode`: the new node becomes the last entry of the reached list; nothing checks its name. */
  lemma {:induction false} AppendAddsLastChild(nodes: seq<Node>, path: seq<string>, n: Node)
    ensures EditAt(nodes, path, Append(n)).Some? <==> Descend(nodes, path).Some?
    ensures Descend(nodes, path).Some? ==>
      Descend(EditAt(nodes, path, Append(n)).value, path) == Some(Descend(nodes, path).value + [n])
  {
    EditLandsAtPath(nodes, path, Append(n));
  }

  /**
   * `addNode` followed by `deleteNode` of the same name restores the tree
   * when no sibling already had that name.
   */
  lemma {:induction false} AddThenDeleteRestores(nodes: seq<Node>, path: seq<string>, n: Node)
    requires Descend(nodes, path).Some?
    requires n.name !in Names(Descend(nodes, path).value)
    ensures EditAt(nodes, path, Append(n)).Some?
    ensures EditAt(EditAt(nodes, path, Append(n)).value, path, RemoveFirst(n.name)) == Some(nodes)
  {
    var list := Descend(nodes, path).value;
    var added := list + [n];
    forall j | 0 <= j < |list| ensures added[j].name != n.name {
      assert Names(list)[j] == list[j].name;
    }
    assert added[|list|].name == n.name;
    assert FindIndex(added, n.name) == |list|;
    assert added[..|list|] + added[|list| + 1..] == list;
    CancellingEditsRestoreTree(nodes, path, Append(n), RemoveFirst(n.name));
  }

  /**
   * When an earlier sibling already has the new node's name, the delete
   * after the add removes that earlier sibling instead, and the new node stays.
   */
  lemma {:induction false} AddThenDeleteRemovesEarlierTwin(list: seq<Node>, n: Node)
    requires n.name in Names(list)
    ensures var i := FindIndex(list, n.name);
      0 <= i < |list| &&
      ApplyEdit(ApplyEdit(list, Append(n)), RemoveFirst(n.name)) == list[..i] + list[i + 1..] + [n]
  {
    var i := FindIndex(list, n.name);
    var added := list + [n];
    FindIndexFindsPresentName(list, n.name);
    FindIndexOfPrefix(list, [n], n.name);
    assert ApplyEdit(added, RemoveFirst(n.name)) == added[..i] + added[i + 1..];
    assert added[..i] == list[..i];
    assert added[i + 1..] == list[i + 1..] + [n];
    assert ApplyEdit(ApplyEdit(list, Append(n)), RemoveFirst(n.name)) == list[..i] + list[i + 1..] + [n];
  }

  /** Searching a longer list finds a match in its prefix first. */
  lemma {:induction false} FindIndexOfPrefix(list: seq<Node>, tail: seq<Node>, name: string)
    requires FindIndex(list, name) >= 0
    ensures FindIndex(list + tail, name) == FindIndex(list, name)
  {
    if list[0].name != name {
      assert (list + tail)[1..] == list[1..] + tail;
      FindIndexOfPrefix(list[1..], tail, name);
    }
  }

  /** `deleteNode` removes exactly the first sibling with the name, or nothing when none has it. */
  lemma {:induction false} RemoveDeletesFirstMatch(list: seq<Node>, name: string)
    ensures name !in Names(list) ==> ApplyEdit(list, RemoveFirst(name)) == list
    ensures name in Names(list) ==>
      exists i ::
        && 0 <= i < |list| && list[i].name == name
        && (forall j :: 0 <= j < i ==> list[j].name != name)
        && ApplyEdit(list, RemoveFirst(name)) == list[..i] + list[i + 1..]
    ensures name in Names(list) ==> |ApplyEdit(list, RemoveFirst(name))| == |list| - 1
  {
    FindIndexFindsPresentName(list, name);
    var i := FindIndex(list, name);
    if i >= 0 {
      var r := list[..i] + list[i + 1..];
      assert ApplyEdit(list, RemoveFirst(name)) == r;
      assert |r| == i + (|list| - i - 1);
      assert list[i].name == name;
      assert forall j :: 0 <= j < i ==> list[j].name != name;
    }
  }

  /**
   * `renameNode` changes only the name of the first sibling called `oldName`,
   * keeping its kind, content and children; with no such sibling nothing changes.
   */
  lemma {:induction false} RenameChangesFirstMatchOnly(list: seq<Node>, oldName: string, newName: string)
    ensures oldName !in Names(list) ==> ApplyEdit(list, RenameFirst(oldName, newName)) == list
    ensures oldName in Names(list) ==>
      exists i ::
        && 0 <= i < |list| && list[i].name == oldName
        && (forall j :: 0 <= j < i ==> list[j].name != oldName)
        && var r := ApplyEdit(list, RenameFirst(oldName, newName));
           && |r| == |list|
           && r[i] == Node(newName, list[i].isFolder, list[i].children, list[i].content)
           && forall j :: 0 <= j < |list| && j != i ==> r[j] == list[j]
  {
    FindIndexFindsPresentName(list, oldName);
  }

  /** `renameNode(p, a, a)` leaves the tree as it was (and still fails when the walk fails). */
  lemma {:induction false} RenameToSameNameKeepsTree(nodes: seq<Node>, path: seq<string>, a: string)
    ensures EditAt(nodes, path, RenameFirst(a, a)) == if Descend(nodes, path).Some? then Some(nodes) else None
  {
    EditLandsAtPath(nodes, path, RenameFirst(a, a));
    if Descend(nodes, path).Some? {
      var list := Descend(nodes, path).value;
      var i := FindIndex(list, a);
      if i >= 0 {
        assert list[i := list[i].(name := a)] == list;
      }
      NeutralEditKeepsTree(nodes, path, RenameFirst(a, a));
    }
  }

  /**
   * `updateFileContent` writes the content of the first non-folder sibling
   * with the file's name; folders are never written, and with no such file
   * nothing changes.
   */
  lemma {:induction false} SetContentWritesFirstFile(list: seq<Node>, fileName: string, value: string)
    ensures var r := ApplyEdit(list, SetFileContent(fileName, value));
      |r| == |list| &&
      (forall j :: 0 <= j < |list| && list[j].isFolder ==> r[j] == list[j]) &&
      ((forall j :: 0 <= j < |list| ==> list[j].isFolder || list[j].name != fileName) ==> r == list) &&
      (forall i ::
         (0 <= i < |list| && !list[i].isFolder && list[i].name == fileName &&
          forall j :: 0 <= j < i ==> list[j].isFolder || list[j].name != fileName) ==>
         r[i] == list[i].(content := Some(value)) && forall j :: 0 <= j < |list| && j != i ==> r[j] == list[j])
  {
  }

  /** Appending a node whose name a sibling already has breaks the distinct-names shape. */
  lemma {:induction false} AddDuplicateBreaksDistinctNames(list: seq<Node>, n: Node)
    requires n.name in Names(list)
    ensures !DistinctNames(ApplyEdit(list, Append(n)))
  {
    var k :| 0 <= k < |list| && Names(list)[k] == n.name;
    assert (list + [n])[k].name == (list + [n])[|list|].name;
  }

  /** Appending a node with a fresh name keeps sibling names distinct. */
  lemma {:induction false} AddFreshKeepsDistinctNames(list: seq<Node>, n: Node)
    requires DistinctNames(list)
    requires n.name !in Names(list)
    ensures DistinctNames(ApplyEdit(list, Append(n)))
  {
    var r := list + [n];
    forall i, j | 0 <= i < j < |r| ensures r[i].name != r[j].name {
      if j == |list| {
        assert Names(list)[i] == r[i].name;
      }
    }
  }
}
