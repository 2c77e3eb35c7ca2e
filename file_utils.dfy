/**
 * The editor-language mapping and the flattening of a project tree into the
 * record of files the in-browser bundler consumes (src/utils/fileUtils.ts).
 */
module FileUtils {
  import opened Wrappers
  import opened Strings
  import opened FileSystemNode

  // ---------------------------------------------------------------------
  // Editor language
  // ---------------------------------------------------------------------

  /** The editor language for a lower-cased extension. */
  function LanguageOf(ext: string): string {
    match ext
    case "html" => "html"
    case "css" => "css"
    case "js" => "javascript"
    case "jsx" => "javascript"
    case "ts" => "typescript"
    case "tsx" => "typescript"
    case _ => "plaintext"
  }

  /**
   * The extension is the text after the last '.', or the whole name when it
   * has no '.'; it is lower-cased before it is looked up.
   */
  function GetLanguageFromExtension(fileName: string): (lang: string)
    ensures var ext := Lower(LastField(fileName, '.'));
      && (lang == "html" <==> ext == "html")
      && (lang == "css" <==> ext == "css")
      && (lang == "javascript" <==> ext == "js" || ext == "jsx")
      && (lang == "typescript" <==> ext == "ts" || ext == "tsx")
      && (lang == "plaintext" <==> ext !in ["html", "css", "js", "jsx", "ts", "tsx"])
  {
    LanguageOf(Lower(LastField(fileName, '.')))
  }

  /** Only the text after the last dot decides the language. */
  lemma LanguageFollowsLastExtension(stem: string, ext: string)
    requires '.' !in ext
    ensures GetLanguageFromExtension(stem + "." + ext) == GetLanguageFromExtension(ext)
  {
    assert stem + "." + ext == stem + ['.'] + ext;
    LastFieldAfterSeparator(stem, '.', ext);
  }

  /** A name without a dot is its own extension: a file named "js" is javascript. */
  lemma BareExtensionIsLanguage()
    ensures GetLanguageFromExtension("js") == "javascript"
  {
    assert LastField("js", '.') == "js";
    assert LowerChar('j') == 'j' && LowerChar('s') == 's';
    assert Lower("js") == "js";
  }

  /** An upper-case extension is looked up lower-cased: "App.TSX" is typescript. */
  lemma UpperCaseExtension()
    ensures GetLanguageFromExtension("App.TSX") == "typescript"
  {
    LastFieldAfterSeparator("App", '.', "TSX");
    assert "App" + ['.'] + "TSX" == "App.TSX";
    assert LowerChar('T') == 't' && LowerChar('S') == 's' && LowerChar('X') == 'x';
    assert Lower("TSX") == "tsx";
  }

  /** Any other extension is plain text: "notes.md". */
  lemma UnknownExtensionIsPlaintext()
    ensures GetLanguageFromExtension("notes.md") == "plaintext"
  {
    LastFieldAfterSeparator("notes", '.', "md");
    assert "notes" + ['.'] + "md" == "notes.md";
    assert LowerChar('m') == 'm' && LowerChar('d') == 'd';
    assert Lower("md") == "md";
    assert "md"[0] != "html"[0] && "md"[0] != "css"[0] && "md"[0] != "js"[0] && "md"[0] != "ts"[0];
    assert LanguageOf("md") == "plaintext";
  }

  /** The mapping ignores letter case in the extension. */
  lemma LanguageIgnoresCase(fileName: string)
    ensures GetLanguageFromExtension(Lower(fileName)) == GetLanguageFromExtension(fileName)
  {
    var a := LastField(fileName, '.');
    LastFieldOfLower(fileName);
    LowerIdempotent(a);
    assert Lower(LastField(Lower(fileName), '.')) == Lower(a);
  }

  lemma LowerIdempotent(s: string)
    ensures Lower(Lower(s)) == Lower(s)
  {
    assert forall i :: 0 <= i < |s| ==> Lower(Lower(s))[i] == Lower(s)[i];
  }

  lemma LowerKeepsDots(s: string)
    ensures forall i :: 0 <= i < |s| ==> (Lower(s)[i] == '.' <==> s[i] == '.')
  {
  }

  /** Lower-casing commutes with taking the last field. */
  lemma {:induction false} LastFieldOfLower(s: string)
    ensures LastField(Lower(s), '.') == Lower(LastField(s, '.'))
  {
    var r := LastField(s, '.');
    var t := LastField(Lower(s), '.');
    var ls := Lower(s);
    LowerKeepsDots(s);
    assert '.' in s <==> '.' in ls by {
      if '.' in s {
        var i :| 0 <= i < |s| && s[i] == '.';
        assert ls[i] == '.';
      }
      if '.' in ls {
        var i :| 0 <= i < |ls| && ls[i] == '.';
        assert s[i] == '.';
      }
    }
    assert |t| == |r|;
    assert t == ls[|ls| - |t|..];
    assert r == s[|s| - |r|..];
    assert forall i :: 0 <= i < |t| ==> t[i] == LowerChar(r[i]) by {
      forall i | 0 <= i < |t| ensures t[i] == LowerChar(r[i]) {
        assert t[i] == ls[|s| - |t| + i];
        assert r[i] == s[|s| - |t| + i];
      }
    }
  }

  // ---------------------------------------------------------------------
  // The files record, in insertion order
  // ---------------------------------------------------------------------

  /** A JavaScript object used as a record: its entries in insertion order. */
  type FileMap = seq<(string, string)>

  function Keys(files: FileMap): (ks: seq<string>)
    ensures |ks| == |files|
    ensures forall i :: 0 <= i < |files| ==> ks[i] == files[i].0
  {
    if files == [] then [] else [files[0].0] + Keys(files[1..])
  }

  predicate DistinctKeys(files: FileMap) {
    forall i, j :: 0 <= i < j < |files| ==> files[i].0 != files[j].0
  }

  /** `files[key]`: the value stored under `key`, if any. */
  function Get(files: FileMap, key: string): (r: Option<string>)
    ensures r.None? <==> key !in Keys(files)
  {
    if files == [] then None
    else if files[0].0 == key then Some(files[0].1)
    else Get(files[1..], key)
  }

  /** With distinct keys, looking up a stored key yields the value stored with it. */
  lemma {:induction false} GetStoredValue(files: FileMap, i: nat)
    requires DistinctKeys(files) && i < |files|
    ensures Get(files, files[i].0) == Some(files[i].1)
    decreases i
  {
    if i > 0 {
      assert files[0].0 != files[i].0;
      GetStoredValue(files[1..], i - 1);
    }
  }

  /**
   * `files[key] = value`: an existing key keeps its place and takes the new
   * value; a new key goes to the end.
   */
  function Assign(files: FileMap, key: string, value: string): FileMap {
    if files == [] then [(key, value)]
    else if files[0].0 == key then [(key, value)] + files[1..]
    else [files[0]] + Assign(files[1..], key, value)
  }

  /**
   * After the assignment the key holds the value, every other key holds what
   * it held, and the keys keep their order with a new key last.
   */
  lemma AssignSpec(files: FileMap, key: string, value: string)
    ensures Get(Assign(files, key, value), key) == Some(value)
    ensures forall k :: k != key ==> Get(Assign(files, key, value), k) == Get(files, k)
    ensures Keys(Assign(files, key, value)) == if key in Keys(files) then Keys(files) else Keys(files) + [key]
  {
    AssignStores(files, key, value);
    forall k | k != key ensures Get(Assign(files, key, value), k) == Get(files, k) {
      AssignKeepsOthers(files, key, value, k);
    }
    AssignKeys(files, key, value);
  }

  lemma {:induction false} AssignStores(files: FileMap, key: string, value: string)
    ensures Get(Assign(files, key, value), key) == Some(value)
    decreases |files|
  {
    if files != [] && files[0].0 != key {
      var rest := Assign(files[1..], key, value);
      AssignStores(files[1..], key, value);
      assert ([files[0]] + rest)[1..] == rest;
    }
  }

  lemma {:induction false} AssignKeepsOthers(files: FileMap, key: string, value: string, k: string)
    requires k != key
    ensures Get(Assign(files, key, value), k) == Get(files, k)
    decreases |files|
  {
    if files == [] {
      assert Get([(key, value)][1..], k) == None;
    } else if files[0].0 == key {
      assert ([(key, value)] + files[1..])[1..] == files[1..];
    } else {
      var rest := Assign(files[1..], key, value);
      AssignKeepsOthers(files[1..], key, value, k);
      assert ([files[0]] + rest)[1..] == rest;
    }
  }

  lemma {:induction false} AssignKeys(files: FileMap, key: string, value: string)
    ensures Keys(Assign(files, key, value)) == if key in Keys(files) then Keys(files) else Keys(files) + [key]
    decreases |files|
  {
    if files != [] && files[0].0 != key {
      var r := Assign(files, key, value);
      var rest := Assign(files[1..], key, value);
      AssignKeys(files[1..], key, value);
      assert r == [files[0]] + rest && r[1..] == rest;
      assert Keys(files) == [files[0].0] + Keys(files[1..]);
      assert Keys(r) == [files[0].0] + Keys(rest);
      assert key in Keys(files) <==> key in Keys(files[1..]);
    } else if files != [] {
      var r := Assign(files, key, value);
      assert r[1..] == files[1..];
      assert Keys(r) == [key] + Keys(files[1..]);
      assert Keys(files) == [key] + Keys(files[1..]);
    }
  }

  /** Assigns each entry in turn. */
  function AssignAll(files: FileMap, entries: seq<(string, string)>): FileMap
    decreases |entries|
  {
    if entries == [] then files
    else AssignAll(Assign(files, entries[0].0, entries[0].1), entries[1..])
  }

  lemma {:induction false} AssignAllAppend(files: FileMap, a: seq<(string, string)>, b: seq<(string, string)>)
    ensures AssignAll(files, a + b) == AssignAll(AssignAll(files, a), b)
    decreases |a|
  {
    if a != [] {
      assert (a + b)[1..] == a[1..] + b;
      AssignAllAppend(Assign(files, a[0].0, a[0].1), a[1..], b);
    } else {
      assert a + b == b;
    }
  }

  /** The value the last entry for `key` carries, if any entry has it. */
  function LastValue(entries: seq<(string, string)>, key: string): Option<string> {
    if entries == [] then None
    else if entries[|entries| - 1].0 == key then Some(entries[|entries| - 1].1)
    else LastValue(entries[..|entries| - 1], key)
  }

  /** Of several entries with the same key, the last one's value is kept. */
  lemma {:induction false} LastAssignmentWins(files: FileMap, entries: seq<(string, string)>, key: string)
    ensures Get(AssignAll(files, entries), key)
         == if LastValue(entries, key).Some? then LastValue(entries, key) else Get(files, key)
    decreases |entries|
  {
    if entries != [] {
      var n := |entries| - 1;
      var init := entries[..n];
      assert entries == init + [entries[n]];
      AssignAllAppend(files, init, [entries[n]]);
      var mid := AssignAll(files, init);
      assert AssignAll(mid, [entries[n]]) == AssignAll(Assign(mid, entries[n].0, entries[n].1), []);
      AssignSpec(mid, entries[n].0, entries[n].1);
      LastAssignmentWins(files, init, key);
    }
  }

  /** The index of the first entry with `key`, or |entries| when none has it. */
  function FirstIndex(entries: seq<(string, string)>, key: string): (i: nat)
    ensures i <= |entries|
    ensures i < |entries| ==> entries[i].0 == key
  {
    if entries == [] then 0
    else if entries[0].0 == key then 0
    else 1 + FirstIndex(entries[1..], key)
  }

  /** Filling a record entry by entry: the last entry is one more assignment. */
  lemma FillSnoc(init: seq<(string, string)>, e: (string, string))
    ensures AssignAll([], init + [e]) == Assign(AssignAll([], init), e.0, e.1)
  {
    AssignAllAppend([], init, [e]);
    var mid := AssignAll([], init);
    assert AssignAll(mid, [e]) == AssignAll(Assign(mid, e.0, e.1), []);
  }

  /** The keys the entries carry. */
  function EntryKeys(entries: seq<(string, string)>): set<string> {
    if entries == [] then {} else EntryKeys(entries[..|entries| - 1]) + {entries[|entries| - 1].0}
  }

  /** A key some entry carries is found before the end. */
  lemma {:induction false} CarriedKeyIsFound(entries: seq<(string, string)>, k: string)
    requires k in EntryKeys(entries)
    ensures FirstIndex(entries, k) < |entries|
    decreases |entries|
  {
    var n := |entries| - 1;
    var init := entries[..n];
    assert entries == init + [entries[n]];
    FirstIndexOfPrefix(init, [entries[n]], k);
    if k in EntryKeys(init) {
      CarriedKeyIsFound(init, k);
    }
  }

  /** The record holds exactly the keys some entry carries. */
  lemma {:induction false} RecordKeys(entries: seq<(string, string)>)
    ensures forall k :: k in Keys(AssignAll([], entries)) <==> k in EntryKeys(entries)
    decreases |entries|
  {
    if entries != [] {
      var n := |entries| - 1;
      var init := entries[..n];
      assert entries == init + [entries[n]];
      FillSnoc(init, entries[n]);
      AssignSpec(AssignAll([], init), entries[n].0, entries[n].1);
      RecordKeys(init);
    }
  }

  /** `ks` lists keys in the order of their first entry in `entries`. */
  predicate OrderedByFirst(entries: seq<(string, string)>, ks: seq<string>) {
    forall i, j :: 0 <= i < j < |ks| ==> FirstIndex(entries, ks[i]) < FirstIndex(entries, ks[j])
  }

  /**
   * Filling an empty record gives each key once, in the order of its first
   * assignment.
   */
  lemma {:induction false} RecordOrder(entries: seq<(string, string)>)
    ensures OrderedByFirst(entries, Keys(AssignAll([], entries)))
    decreases |entries|
  {
    if entries != [] {
      var n := |entries| - 1;
      var init := entries[..n];
      var e := entries[n];
      assert entries == init + [e];
      FillSnoc(init, e);
      AssignSpec(AssignAll([], init), e.0, e.1);
      RecordOrder(init);
      RecordKeys(init);
      var mks := Keys(AssignAll([], init));
      var ks := Keys(AssignAll([], entries));
      assert ks == if e.0 in mks then mks else mks + [e.0];
      OrderStep(init, e, mks, ks);
      assert OrderedByFirst(init + [e], ks);
    }
  }

  /** One more entry keeps the order of first assignment. */
  lemma OrderStep(init: seq<(string, string)>, e: (string, string), mks: seq<string>, ks: seq<string>)
    requires OrderedByFirst(init, mks)
    requires forall k :: k in mks <==> k in EntryKeys(init)
    requires ks == if e.0 in mks then mks else mks + [e.0]
    ensures OrderedByFirst(init + [e], ks)
  {
    KeptKeysKeepFirstIndex(init, e, mks);
    if e.0 !in mks {
      NewKeyComesLast(init, e, mks);
      OrderAfterNewKey(init + [e], mks, e.0);
    } else {
      OrderAfterOldKey(init, init + [e], mks);
    }
  }

  lemma KeptKeysKeepFirstIndex(init: seq<(string, string)>, e: (string, string), mks: seq<string>)
    requires forall k :: k in mks <==> k in EntryKeys(init)
    ensures forall k :: k in mks ==> FirstIndex(init + [e], k) == FirstIndex(init, k) < |init|
  {
    forall k | k in mks ensures FirstIndex(init + [e], k) == FirstIndex(init, k) < |init| {
      CarriedKeyIsFound(init, k);
      FirstIndexOfPrefix(init, [e], k);
    }
  }

  lemma NewKeyComesLast(init: seq<(string, string)>, e: (string, string), mks: seq<string>)
    requires forall k :: k in mks <==> k in EntryKeys(init)
    requires e.0 !in mks
    ensures FirstIndex(init + [e], e.0) == |init|
  {
    FirstIndexOfPrefix(init, [e], e.0);
    if FirstIndex(init, e.0) < |init| {
      KeyAtIsCarried(init, FirstIndex(init, e.0));
    }
  }

  lemma OrderAfterNewKey(entries: seq<(string, string)>, mks: seq<string>, k: string)
    requires forall i, j :: 0 <= i < j < |mks| ==> FirstIndex(entries, mks[i]) < FirstIndex(entries, mks[j])
    requires forall x :: x in mks ==> FirstIndex(entries, x) < FirstIndex(entries, k)
    ensures var ks := mks + [k];
      forall i, j :: 0 <= i < j < |ks| ==> FirstIndex(entries, ks[i]) < FirstIndex(entries, ks[j])
  {
    var ks := mks + [k];
    forall i, j | 0 <= i < j < |ks| ensures FirstIndex(entries, ks[i]) < FirstIndex(entries, ks[j]) {
      assert ks[i] == mks[i] && ks[i] in mks;
      if j < |mks| {
        assert ks[j] == mks[j];
      }
    }
  }

  lemma OrderAfterOldKey(init: seq<(string, string)>, entries: seq<(string, string)>, mks: seq<string>)
    requires forall i, j :: 0 <= i < j < |mks| ==> FirstIndex(init, mks[i]) < FirstIndex(init, mks[j])
    requires forall x :: x in mks ==> FirstIndex(entries, x) == FirstIndex(init, x)
    ensures forall i, j :: 0 <= i < j < |mks| ==> FirstIndex(entries, mks[i]) < FirstIndex(entries, mks[j])
  {
    forall i, j | 0 <= i < j < |mks| ensures FirstIndex(entries, mks[i]) < FirstIndex(entries, mks[j]) {
      assert mks[i] in mks && mks[j] in mks;
    }
  }

  lemma {:induction false} KeyAtIsCarried(entries: seq<(string, string)>, i: nat)
    requires i < |entries|
    ensures entries[i].0 in EntryKeys(entries)
    decreases |entries|
  {
    var n := |entries| - 1;
    if i < n {
      KeyAtIsCarried(entries[..n], i);
    }
  }

  lemma {:induction false} FirstIndexOfPrefix(a: seq<(string, string)>, b: seq<(string, string)>, key: string)
    ensures FirstIndex(a, key) < |a| ==> FirstIndex(a + b, key) == FirstIndex(a, key)
    ensures FirstIndex(a, key) == |a| ==> FirstIndex(a + b, key) == |a| + FirstIndex(b, key)
    decreases |a|
  {
    if a != [] {
      assert (a + b)[1..] == a[1..] + b;
      FirstIndexOfPrefix(a[1..], b, key);
    } else {
      assert a + b == b;
    }
  }

  /** With no repeated key, filling an empty record keeps every entry as it is. */
  lemma {:induction false} DistinctEntriesAreKept(entries: seq<(string, string)>)
    requires DistinctKeys(entries)
    ensures AssignAll([], entries) == entries
    decreases |entries|
  {
    if entries != [] {
      var n := |entries| - 1;
      var init := entries[..n];
      var e := entries[n];
      assert entries == init + [e];
      AssignAllAppend([], init, [e]);
      assert AssignAll(init, [e]) == AssignAll(Assign(init, e.0, e.1), []);
      DistinctEntriesAreKept(init);
      AssignFreshAppends(init, e.0, e.1);
    }
  }

  lemma {:induction false} AssignFreshAppends(files: FileMap, key: string, value: string)
    requires key !in Keys(files)
    ensures Assign(files, key, value) == files + [(key, value)]
    decreases |files|
  {
    if files != [] {
      assert files[0].0 != key;
      assert Keys(files[1..]) == Keys(files)[1..];
      AssignFreshAppends(files[1..], key, value);
    }
  }

  // ---------------------------------------------------------------------
  // getSandpackFiles
  // ---------------------------------------------------------------------

  /** The record key of a file named `name` reached through `currPath`. */
  function KeyFor(currPath: string, name: string): (key: string)
    ensures |key| >= 1 && key[0] == '/'
    ensures NoDoubleSlash(key)
  {
    var raw := CollapseSlashes(currPath + "/" + name);
    if StartsWith(raw, "/") then raw
    else
      assert raw != [] && raw[0] != '/';
      NoDoubleSlashConcat("/", raw);
      "/" + raw
  }

  /** The assignments traverse(node, currPath) makes, in order. */
  function Emitted(node: Node, currPath: string): seq<(string, string)>
    decreases node, 1
  {
    (if !node.isFolder && node.content.Some? then [(KeyFor(currPath, node.name), node.content.value)] else [])
    + match node.children
      case Absent => []
      case Present(kids) => EmittedAll(kids, currPath + "/" + node.name)
  }

  function EmittedAll(nodes: seq<Node>, currPath: string): seq<(string, string)>
    decreases nodes, 0
  {
    if nodes == [] then [] else Emitted(nodes[0], currPath) + EmittedAll(nodes[1..], currPath)
  }

  /** The assignments getSandpackFiles(project) makes: each child of the project from "". */
  function ProjectEntries(project: Node): seq<(string, string)> {
    match project.children
    case Absent => []
    case Present(kids) => EmittedAll(kids, "")
  }

  lemma {:induction false} EmittedAllSnoc(nodes: seq<Node>, n: Node, currPath: string)
    ensures EmittedAll(nodes + [n], currPath) == EmittedAll(nodes, currPath) + Emitted(n, currPath)
    decreases |nodes|
  {
    if nodes == [] {
      assert [n][1..] == [];
    } else {
      var m := nodes + [n];
      assert m[0] == nodes[0] && m[1..] == nodes[1..] + [n];
      var head := Emitted(nodes[0], currPath);
      var tail := EmittedAll(nodes[1..], currPath);
      EmittedAllSnoc(nodes[1..], n, currPath);
      calc {
        EmittedAll(m, currPath);
        head + EmittedAll(nodes[1..] + [n], currPath);
        head + (tail + Emitted(n, currPath));
        { assert head + (tail + Emitted(n, currPath)) == (head + tail) + Emitted(n, currPath); }
        (head + tail) + Emitted(n, currPath);
      }
    }
  }

  /** The record getSandpackFiles builds, as it builds it. */
  method GetSandpackFiles(project: Node) returns (files: FileMap)
    ensures files == AssignAll([], ProjectEntries(project))
  {
    files := [];
    if project.children.Present? {
      files := TraverseChildren(project.children.nodes, "", files);
    }
  }

  /** traverse: records `node` if it is a file with content, then visits its children. */
  method Traverse(node: Node, currPath: string, files: FileMap) returns (result: FileMap)
    ensures result == AssignAll(files, Emitted(node, currPath))
    decreases node, 1
  {
    ghost var own := if !node.isFolder && node.content.Some? then [(KeyFor(currPath, node.name), node.content.value)] else [];
    result := RecordOwn(node, currPath, files);
    ghost var kids: seq<Node> := [];
    if node.children.Present? {
      kids := node.children.nodes;
      result := TraverseChildren(node.children.nodes, currPath + "/" + node.name, result);
    }
    OwnThenChildren(node, currPath, own, kids);
    AssignAllAppend(files, own, EmittedAll(kids, currPath + "/" + node.name));
  }

  /** The second half of traverse: `children.forEach(child => traverse(child, path))`. */
  method TraverseChildren(kids: seq<Node>, path: string, files: FileMap) returns (result: FileMap)
    ensures result == AssignAll(files, EmittedAll(kids, path))
    decreases kids, 0
  {
    result := files;
    for i := 0 to |kids|
      invariant result == AssignAll(files, EmittedAll(kids[..i], path))
    {
      EmittedAllSnoc(kids[..i], kids[i], path);
      AssignAllAppend(files, EmittedAll(kids[..i], path), Emitted(kids[i], path));
      assert kids[..i + 1] == kids[..i] + [kids[i]];
      result := Traverse(kids[i], path, result);
    }
    assert kids[..|kids|] == kids;
  }

  /** The first half of traverse: the assignment `files[raw] = content` for a file with content. */
  method RecordOwn(node: Node, currPath: string, files: FileMap) returns (result: FileMap)
    ensures result == AssignAll(files, if !node.isFolder && node.content.Some? then [(KeyFor(currPath, node.name), node.content.value)] else [])
  {
    result := files;
    if !node.isFolder && node.content.Some? {
      var raw := CollapseSlashes(currPath + "/" + node.name);
      if !StartsWith(raw, "/") {
        raw := "/" + raw;
      }
      result := Assign(result, raw, node.content.value);
      assert AssignAll(files, [(raw, node.content.value)]) == AssignAll(result, []);
    }
  }

  lemma OwnThenChildren(node: Node, currPath: string, own: seq<(string, string)>, kids: seq<Node>)
    requires own == if !node.isFolder && node.content.Some? then [(KeyFor(currPath, node.name), node.content.value)] else []
    requires kids == if node.children.Present? then node.children.nodes else []
    ensures Emitted(node, currPath) == own + EmittedAll(kids, currPath + "/" + node.name)
  {
  }

  /** Every key of the record starts with a slash and has no double slash. */
  lemma {:induction false} EmittedKeysAreRooted(node: Node, currPath: string)
    ensures forall i :: 0 <= i < |Emitted(node, currPath)| ==>
      var k := Emitted(node, currPath)[i].0; |k| >= 1 && k[0] == '/' && NoDoubleSlash(k)
    decreases node, 1
  {
    match node.children {
      case Absent =>
      case Present(kids) => EmittedAllKeysAreRooted(kids, currPath + "/" + node.name);
    }
  }

  lemma {:induction false} EmittedAllKeysAreRooted(nodes: seq<Node>, currPath: string)
    ensures forall i :: 0 <= i < |EmittedAll(nodes, currPath)| ==>
      var k := EmittedAll(nodes, currPath)[i].0; |k| >= 1 && k[0] == '/' && NoDoubleSlash(k)
    decreases nodes, 0
  {
    if nodes != [] {
      EmittedKeysAreRooted(nodes[0], currPath);
      EmittedAllKeysAreRooted(nodes[1..], currPath);
    }
  }

  // ---------------------------------------------------------------------
  // The record against the tree's own file paths
  // ---------------------------------------------------------------------

  /** A name that is a single path segment. */
  predicate PlainName(name: string) {
    name != "" && '/' !in name
  }

  predicate PlainTree(node: Node)
    decreases node, 1
  {
    && PlainName(node.name)
    && match node.children
       case Absent => true
       case Present(kids) => PlainForest(kids)
  }

  predicate PlainForest(nodes: seq<Node>)
    decreases nodes, 0
  {
    forall i :: 0 <= i < |nodes| ==> PlainTree(nodes[i])
  }

  /** A file path from some node down, with the file's content. */
  type Located = (seq<string>, string)

  /** Puts `name` in front of every path. */
  function Under(name: string, files: seq<Located>): (r: seq<Located>)
    ensures |r| == |files|
    ensures forall i :: 0 <= i < |files| ==> r[i] == ([name] + files[i].0, files[i].1)
  {
    if files == [] then [] else [([name] + files[0].0, files[0].1)] + Under(name, files[1..])
  }

  /**
   * The files with content at or below `node`, in pre-order, each with the
   * names leading from `node` to it.
   */
  function FilesOf(node: Node): (r: seq<Located>)
    ensures forall i :: 0 <= i < |r| ==> |r[i].0| >= 1
    decreases node, 1
  {
    (if !node.isFolder && node.content.Some? then [([node.name], node.content.value)] else [])
    + match node.children
      case Absent => []
      case Present(kids) => Under(node.name, FilesOfAll(kids))
  }

  function FilesOfAll(nodes: seq<Node>): (r: seq<Located>)
    ensures forall i :: 0 <= i < |r| ==> |r[i].0| >= 1
    decreases nodes, 0
  {
    if nodes == [] then [] else FilesOf(nodes[0]) + FilesOfAll(nodes[1..])
  }

  /** The record entries for located files under the path `prefix`. */
  function Rooted(prefix: string, files: seq<Located>): (r: seq<(string, string)>)
    ensures |r| == |files|
    ensures forall i :: 0 <= i < |files| ==> r[i] == (prefix + "/" + Join(files[i].0, '/'), files[i].1)
  {
    if files == [] then [] else [(prefix + "/" + Join(files[0].0, '/'), files[0].1)] + Rooted(prefix, files[1..])
  }

  /** A path prefix traverse can be handed: "" or slash-separated plain names. */
  predicate GoodPrefix(p: string) {
    p == "" || (p[0] == '/' && p[|p| - 1] != '/' && NoDoubleSlash(p))
  }

  lemma ExtendPrefix(p: string, name: string)
    requires GoodPrefix(p) && PlainName(name)
    ensures GoodPrefix(p + "/" + name)
    ensures KeyFor(p, name) == p + "/" + name
  {
    assert NoDoubleSlash(name) by {
      forall i | 0 <= i < |name| - 1 ensures name[i] != '/' {
        assert name[i] in name;
      }
    }
    assert name[0] != '/' by { assert name[0] in name; }
    assert name[|name| - 1] != '/' by { assert name[|name| - 1] in name; }
    NoDoubleSlashConcat("/", name);
    if p != "" {
      NoDoubleSlashConcat(p, "/" + name);
    }
    assert p + "/" + name == p + ("/" + name);
    var s := p + "/" + name;
    CollapseKeepsSingleSlashes(s);
    assert s[0] == '/';
  }

  lemma RootedUnder(p: string, name: string, files: seq<Located>)
    requires forall i :: 0 <= i < |files| ==> |files[i].0| >= 1
    ensures Rooted(p + "/" + name, files) == Rooted(p, Under(name, files))
  {
    var a := Rooted(p + "/" + name, files);
    var b := Rooted(p, Under(name, files));
    forall i | 0 <= i < |files| ensures a[i] == b[i] {
      var q := files[i].0;
      JoinCons(name, q);
      assert Under(name, files)[i].0 == [name] + q;
      calc {
        b[i].0;
        p + "/" + Join([name] + q, '/');
        p + "/" + (name + "/" + Join(q, '/'));
        { assert p + "/" + (name + "/" + Join(q, '/')) == (p + "/" + name) + "/" + Join(q, '/'); }
        (p + "/" + name) + "/" + Join(q, '/');
        a[i].0;
      }
    }
  }

  lemma JoinCons(name: string, q: seq<string>)
    requires |q| >= 1
    ensures Join([name] + q, '/') == name + "/" + Join(q, '/')
  {
    assert ([name] + q)[1..] == q;
  }

  /**
   * For a tree of plain names, the record's entries are exactly the tree's
   * files in pre-order, keyed by "/" followed by their names joined with "/".
   */
  lemma {:induction false} EmittedMatchesFilePaths(node: Node, prefix: string)
    requires PlainTree(node) && GoodPrefix(prefix)
    ensures Emitted(node, prefix) == Rooted(prefix, FilesOf(node))
    decreases node, 1
  {
    ExtendPrefix(prefix, node.name);
    var own: seq<Located> := if !node.isFolder && node.content.Some? then [([node.name], node.content.value)] else [];
    match node.children {
      case Absent =>
        RootedAppend(prefix, own, []);
      case Present(kids) =>
        var inner := prefix + "/" + node.name;
        EmittedAllMatchesFilePaths(kids, inner);
        RootedUnder(prefix, node.name, FilesOfAll(kids));
        RootedAppend(prefix, own, Under(node.name, FilesOfAll(kids)));
    }
  }

  lemma {:induction false} EmittedAllMatchesFilePaths(nodes: seq<Node>, prefix: string)
    requires PlainForest(nodes) && GoodPrefix(prefix)
    ensures EmittedAll(nodes, prefix) == Rooted(prefix, FilesOfAll(nodes))
    decreases nodes, 0
  {
    if nodes != [] {
      EmittedMatchesFilePaths(nodes[0], prefix);
      EmittedAllMatchesFilePaths(nodes[1..], prefix);
      RootedAppend(prefix, FilesOf(nodes[0]), FilesOfAll(nodes[1..]));
    }
  }

  lemma RootedAppend(p: string, a: seq<Located>, b: seq<Located>)
    ensures Rooted(p, a + b) == Rooted(p, a) + Rooted(p, b)
  {
  }
}
