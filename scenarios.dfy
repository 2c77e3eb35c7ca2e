/**
 * The shipped workspace and templates run through the preview's decisions:
 * what each initial project and each template folder shows.
 */
module Scenarios {
  import opened Wrappers
  import opened Strings
  import opened FileSystemNode
  import opened FileUtils
  import opened PreviewContext
  import opened PreviewRouter
  import Templates

  /** A file under a well-formed path emits one entry keyed by the joined path. */
  lemma EmittedFileAt(p: string, name: string, text: string)
    requires GoodPrefix(p) && PlainName(name)
    ensures Emitted(File(name, text), p) == [(p + "/" + name, text)]
  {
    ExtendPrefix(p, name);
  }

  lemma EmittedAllTwo(a: Node, b: Node, p: string)
    ensures EmittedAll([a, b], p) == Emitted(a, p) + Emitted(b, p)
  {
    assert [a, b][1..] == [b];
    assert [b][1..] == [];
    assert EmittedAll([b], p) == Emitted(b, p) + [];
  }

  lemma EmittedAllThree(a: Node, b: Node, c: Node, p: string)
    ensures EmittedAll([a, b, c], p) == Emitted(a, p) + Emitted(b, p) + Emitted(c, p)
  {
    assert [a, b, c][1..] == [b, c];
    EmittedAllTwo(b, c, p);
  }

  /** The shape of my-project: index.html, src/App.jsx, src/main.jsx and package.json. */
  function ReactShape(root: string, index: string, app: string, main: string, package: string): Node {
    Folder(root, [File("index.html", index), Folder("src", [File("App.jsx", app), File("main.jsx", main)]),
                  File("package.json", package)])
  }

  /** A folder emits what its children emit one level down. */
  lemma EmittedFolderAt(p: string, name: string, kids: seq<Node>)
    ensures Emitted(Folder(name, kids), p) == EmittedAll(kids, p + "/" + name)
  {
  }

  lemma FileEntries2(p: string, n1: string, t1: string, n2: string, t2: string)
    requires GoodPrefix(p) && PlainName(n1) && PlainName(n2)
    ensures EmittedAll([File(n1, t1), File(n2, t2)], p) == [(p + "/" + n1, t1), (p + "/" + n2, t2)]
  {
    EmittedAllTwo(File(n1, t1), File(n2, t2), p);
    EmittedFileAt(p, n1, t1);
    EmittedFileAt(p, n2, t2);
  }

  // Record keys of the template files, joined one piece at a time.

  lemma RootKey(name: string)
    ensures "" + "/" + name == "/" + name
  {
  }

  lemma SrcKey(name: string)
    ensures "" + "/" + "src" + "/" + name == "/src/" + name
  {
    assert "" + "/" + "src" == "/src";
    assert "/src" + "/" == "/src/";
  }

  lemma IndexHtmlKey()
    ensures "" + "/" + "index.html" == "/index.html"
  {
    RootKey("index.html");
  }

  lemma PackageJsonKey()
    ensures "" + "/" + "package.json" == "/package.json"
  {
    RootKey("package.json");
  }

  lemma StylesCssKey()
    ensures "" + "/" + "styles.css" == "/styles.css"
  {
    RootKey("styles.css");
  }

  lemma ScriptJsKey()
    ensures "" + "/" + "script.js" == "/script.js"
  {
    RootKey("script.js");
  }

  lemma AppJsxKey()
    ensures "/src/" + "App.jsx" == "/src/App.jsx"
  {
  }

  lemma MainJsxKey()
    ensures "/src/" + "main.jsx" == "/src/main.jsx"
  {
  }

  lemma ReactShapeEntriesAt(p: string, index: string, app: string, main: string, package: string,
                            kIndex: string, kSrc: string, kApp: string, kMain: string, kPackage: string)
    requires GoodPrefix(p)
    requires PlainName(kIndex) && PlainName(kSrc) && PlainName(kApp) && PlainName(kMain) && PlainName(kPackage)
    ensures var src := Folder(kSrc, [File(kApp, app), File(kMain, main)]);
      EmittedAll([File(kIndex, index), src, File(kPackage, package)], p) ==
      [(p + "/" + kIndex, index), (p + "/" + kSrc + "/" + kApp, app), (p + "/" + kSrc + "/" + kMain, main),
       (p + "/" + kPackage, package)]
  {
    var src := Folder(kSrc, [File(kApp, app), File(kMain, main)]);
    EmittedAllThree(File(kIndex, index), src, File(kPackage, package), p);
    EmittedFileAt(p, kIndex, index);
    EmittedFileAt(p, kPackage, package);
    EmittedFolderAt(p, kSrc, [File(kApp, app), File(kMain, main)]);
    ExtendPrefix(p, kSrc);
    FileEntries2(p + "/" + kSrc, kApp, app, kMain, main);
  }

  lemma ReactShapeEntries(root: string, index: string, app: string, main: string, package: string)
    ensures ProjectEntries(ReactShape(root, index, app, main, package)) ==
      [("/index.html", index), ("/src/App.jsx", app), ("/src/main.jsx", main), ("/package.json", package)]
  {
    ReactShapeEntriesAt("", index, app, main, package, "index.html", "src", "App.jsx", "main.jsx", "package.json");
    assert ReactShape(root, index, app, main, package).children.nodes ==
      [File("index.html", index), Folder("src", [File("App.jsx", app), File("main.jsx", main)]), File("package.json", package)];
    IndexHtmlKey();
    SrcKey("App.jsx");
    AppJsxKey();
    SrcKey("main.jsx");
    MainJsxKey();
    PackageJsonKey();
  }

  /** Any project of that shape flattens to its four files, in tree order, under rooted keys. */
  lemma ReactShapeRecord(root: string, index: string, app: string, main: string, package: string)
    ensures ProjectEntriesRecord(ReactShape(root, index, app, main, package)) ==
      [("/index.html", index), ("/src/App.jsx", app), ("/src/main.jsx", main), ("/package.json", package)]
  {
    ReactShapeEntries(root, index, app, main, package);
    DistinctEntriesAreKept([("/index.html", index), ("/src/App.jsx", app), ("/src/main.jsx", main), ("/package.json", package)]);
  }

  /** my-project has that shape. */
  lemma MyProjectShape()
    ensures var kids := MyProject.children.nodes;
      MyProject == ReactShape("my-project", kids[0].content.value, kids[1].children.nodes[0].content.value,
                              kids[1].children.nodes[1].content.value, kids[2].content.value)
  {
  }

  /** my-project, once shown, is a sandbox with entry /src/main.jsx and the react template. */
  lemma ReactShapeView(root: string, index: string, app: string, main: string, package: string)
    requires main != ""
    ensures var project := ReactShape(root, index, app, main, package);
      var files := ProjectEntriesRecord(project);
      && Classify(project) == SandboxKind
      && SandpackView(files) == Sandpack(React, files, "/src/main.jsx", ReactDependencies)
  {
    var project := ReactShape(root, index, app, main, package);
    ReactShapeRecord(root, index, app, main, package);
    var files := [("/index.html", index), ("/src/App.jsx", app), ("/src/main.jsx", main), ("/package.json", package)];
    assert ProjectEntriesRecord(project) == files;
    GetStoredValue(files, 2);
    MainJsxWins(files);
    assert EndsWith("/src/main.jsx", ".jsx");
    assert Names(project.children.nodes) == ["index.html", "src", "package.json"];
  }

  /** The shape of web-project and of the html template: index.html, styles.css and script.js. */
  function StaticShape(root: string, index: string, styles: string, script: string): Node {
    Folder(root, [File("index.html", index), File("styles.css", styles), File("script.js", script)])
  }

  lemma ThreeFilesAt(p: string, n1: string, t1: string, n2: string, t2: string, n3: string, t3: string)
    requires GoodPrefix(p) && PlainName(n1) && PlainName(n2) && PlainName(n3)
    ensures EmittedAll([File(n1, t1), File(n2, t2), File(n3, t3)], p) ==
      [(p + "/" + n1, t1), (p + "/" + n2, t2), (p + "/" + n3, t3)]
  {
    EmittedAllThree(File(n1, t1), File(n2, t2), File(n3, t3), p);
    EmittedFileAt(p, n1, t1);
    EmittedFileAt(p, n2, t2);
    EmittedFileAt(p, n3, t3);
  }

  lemma StaticShapeRecord(root: string, index: string, styles: string, script: string)
    ensures ProjectEntriesRecord(StaticShape(root, index, styles, script)) ==
      [("/index.html", index), ("/styles.css", styles), ("/script.js", script)]
  {
    StaticShapeEntries(root, index, styles, script);
    DistinctEntriesAreKept([("/index.html", index), ("/styles.css", styles), ("/script.js", script)]);
  }

  lemma StaticShapeEntries(root: string, index: string, styles: string, script: string)
    ensures ProjectEntries(StaticShape(root, index, styles, script)) ==
      [("/index.html", index), ("/styles.css", styles), ("/script.js", script)]
  {
    ThreeFilesAt("", "index.html", index, "styles.css", styles, "script.js", script);
    assert StaticShape(root, index, styles, script).children.nodes ==
      [File("index.html", index), File("styles.css", styles), File("script.js", script)];
    IndexHtmlKey();
    StylesCssKey();
    ScriptJsKey();
  }

  /** In a record keyed like web-project, /index.html with content is the entry. */
  lemma StaticEntry(index: string, styles: string, script: string)
    requires index != ""
    ensures FindEntry([("/index.html", index), ("/styles.css", styles), ("/script.js", script)]) == Some("/index.html")
  {
    var files := [("/index.html", index), ("/styles.css", styles), ("/script.js", script)];
    GetStoredValue(files, 0);
    assert Keys(files) == ["/index.html", "/styles.css", "/script.js"];
    forall j | 0 <= j < 8 ensures !PreviewRouter.Present(files, EntryFiles[j]) {
      assert |EntryFiles[j]| > 11;
    }
    EntryIsEarliestPresentCandidate(files, 8);
  }

  /**
   * A project of that shape is a sandbox whose entry is /index.html with the
   * static template: /script.js is not a candidate and lies outside /src/.
   */
  lemma StaticShapeView(root: string, index: string, styles: string, script: string)
    requires index != ""
    ensures var project := StaticShape(root, index, styles, script);
      var files := ProjectEntriesRecord(project);
      && Classify(project) == SandboxKind
      && SandpackView(files) == Sandpack(Static, files, "/index.html", [])
  {
    var project := StaticShape(root, index, styles, script);
    StaticShapeRecord(root, index, styles, script);
    StaticEntry(index, styles, script);
    HtmlEntryView([("/index.html", index), ("/styles.css", styles), ("/script.js", script)]);
    assert Names(project.children.nodes) == ["index.html", "styles.css", "script.js"];
  }

  /** Whatever else a record holds, an /index.html entry is shown with the static template and no dependencies. */
  lemma HtmlEntryView(files: FileMap)
    requires files != [] && FindEntry(files) == Some("/index.html")
    ensures SandpackView(files) == Sandpack(Static, files, "/index.html", [])
  {
    assert !EndsWith("/index.html", ".jsx") && !EndsWith("/index.html", ".js");
    assert !EndsWith("/index.html", ".tsx") && !EndsWith("/index.html", ".ts");
    assert EndsWith("/index.html", ".html");
  }

  /** web-project has that shape. */
  lemma WebProjectShape()
    ensures var kids := WebProject.children.nodes;
      WebProject == StaticShape("web-project", kids[0].content.value, kids[1].content.value, kids[2].content.value)
  {
  }

  /** A route naming the i-th project shows it, when no earlier project shares its name. */
  lemma FindsNamedProject(fileStructure: seq<Node>, i: nat)
    requires i < |fileStructure|
    requires forall j :: 0 <= j < i ==> fileStructure[j].name != fileStructure[i].name
    ensures FindProject(fileStructure, Some(fileStructure[i].name)) == Some(fileStructure[i])
  {
    assert fileStructure[i].name in Names(fileStructure);
  }

  /** my-project, as routed, shows the bundler on /src/main.jsx with the react template. */
  lemma MyProjectPreview(state: PreviewState)
    ensures ChooseView(InitialFileStructure, Some("my-project"), state) ==
      Some(Sandpack(React, ProjectEntriesRecord(MyProject), "/src/main.jsx", ReactDependencies))
  {
    FindsNamedProject(InitialFileStructure, 0);
    MyProjectShape();
    var m := MyProject.children.nodes;
    assert |m[1].children.nodes[1].content.value| > 0;
    ReactShapeView("my-project", m[0].content.value, m[1].children.nodes[0].content.value,
                   m[1].children.nodes[1].content.value, m[2].content.value);
  }

  /** web-project shows the bundler on /index.html with the static template. */
  lemma WebProjectPreview(state: PreviewState)
    ensures ChooseView(InitialFileStructure, Some("web-project"), state) ==
      Some(Sandpack(Static, ProjectEntriesRecord(WebProject), "/index.html", []))
  {
    InitialProjects();
    FindsNamedProject(InitialFileStructure, 1);
    WebProjectShape();
    var w := WebProject.children.nodes;
    assert |w[0].content.value| > 0;
    StaticShapeView("web-project", w[0].content.value, w[1].content.value, w[2].content.value);
  }

  /** flutter-project is a Flutter project; before a compile it shows the prompt. */
  lemma FlutterProjectPreview()
    ensures Classify(FlutterProject) == FlutterKind
    ensures ChooseView(InitialFileStructure, Some("flutter-project"), InitialState) == Some(CompilePrompt(FlutterKind))
  {
    InitialProjects();
    FindsNamedProject(InitialFileStructure, 2);
    assert Names(FlutterProject.children.nodes) == ["pubspec.yaml", "lib"];
  }

  /** express-api is a backend project; before a compile it shows the prompt. */
  lemma ExpressApiPreview()
    ensures Classify(ExpressApi) == BackendKind
    ensures ChooseView(InitialFileStructure, Some("express-api"), InitialState) == Some(CompilePrompt(BackendKind))
  {
    InitialProjects();
    FindsNamedProject(InitialFileStructure, 3);
    assert Names(ExpressApi.children.nodes)[1] == "server.js";
  }

  // ---------------------------------------------------------------------
  // Folders created from a template
  // ---------------------------------------------------------------------

  /** A folder made from the express template is a backend project. */
  lemma ExpressTemplateIsBackend(name: string)
    ensures Classify(Folder(name, Templates.TemplateChildren("express"))) == BackendKind
  {
    assert Names(Templates.Express)[0] == "server.js";
  }

  /** A folder made from the flutter template is a Flutter project. */
  lemma FlutterTemplateIsFlutter(name: string)
    ensures Classify(Folder(name, Templates.TemplateChildren("flutter"))) == FlutterKind
  {
    assert Names(Templates.Flutter) == ["lib", "pubspec.yaml", "web"];
  }

  /** A folder made from the html template shows /index.html with the static template. */
  lemma HtmlTemplatePreview(name: string)
    ensures var project := Folder(name, Templates.TemplateChildren("html"));
      var files := ProjectEntriesRecord(project);
      && Classify(project) == SandboxKind
      && SandpackView(files) == Sandpack(Static, files, "/index.html", [])
  {
    var h := Templates.Html;
    assert Folder(name, Templates.TemplateChildren("html")) ==
      StaticShape(name, h[0].content.value, h[1].content.value, h[2].content.value);
    assert |h[0].content.value| > 0;
    StaticShapeView(name, h[0].content.value, h[1].content.value, h[2].content.value);
  }

  /** A blank folder, or one made from an unknown template, has no files and shows the invalid-configuration notice. */
  lemma BlankTemplatePreview(name: string, template: string)
    requires template == "blank" || template !in Templates.TemplateNames
    ensures SandpackView(ProjectEntriesRecord(Folder(name, Templates.TemplateChildren(template)))) == InvalidConfiguration
  {
    assert Templates.TemplateChildren(template) == [];
    assert ProjectEntriesRecord(Folder(name, [])) == [];
    NoEntryIff([]);
  }

  /** The shape of the react template: src/App.jsx, src/main.jsx, index.html and package.json. */
  function ReactTemplateShape(root: string, app: string, main: string, index: string, package: string): Node {
    Folder(root, [Folder("src", [File("App.jsx", app), File("main.jsx", main)]), File("index.html", index),
                  File("package.json", package)])
  }

  lemma ReactTemplateEntriesAt(p: string, app: string, main: string, index: string, package: string,
                               kSrc: string, kApp: string, kMain: string, kIndex: string, kPackage: string)
    requires GoodPrefix(p)
    requires PlainName(kIndex) && PlainName(kSrc) && PlainName(kApp) && PlainName(kMain) && PlainName(kPackage)
    ensures var src := Folder(kSrc, [File(kApp, app), File(kMain, main)]);
      EmittedAll([src, File(kIndex, index), File(kPackage, package)], p) ==
      [(p + "/" + kSrc + "/" + kApp, app), (p + "/" + kSrc + "/" + kMain, main),
       (p + "/" + kIndex, index), (p + "/" + kPackage, package)]
  {
    var src := Folder(kSrc, [File(kApp, app), File(kMain, main)]);
    EmittedAllThree(src, File(kIndex, index), File(kPackage, package), p);
    EmittedFileAt(p, kIndex, index);
    EmittedFileAt(p, kPackage, package);
    EmittedFolderAt(p, kSrc, [File(kApp, app), File(kMain, main)]);
    ExtendPrefix(p, kSrc);
    FileEntries2(p + "/" + kSrc, kApp, app, kMain, main);
  }

  lemma ReactTemplateEntries(root: string, app: string, main: string, index: string, package: string)
    ensures ProjectEntries(ReactTemplateShape(root, app, main, index, package)) ==
      [("/src/App.jsx", app), ("/src/main.jsx", main), ("/index.html", index), ("/package.json", package)]
  {
    ReactTemplateEntriesAt("", app, main, index, package, "src", "App.jsx", "main.jsx", "index.html", "package.json");
    assert ReactTemplateShape(root, app, main, index, package).children.nodes ==
      [Folder("src", [File("App.jsx", app), File("main.jsx", main)]), File("index.html", index), File("package.json", package)];
    IndexHtmlKey();
    SrcKey("App.jsx");
    AppJsxKey();
    SrcKey("main.jsx");
    MainJsxKey();
    PackageJsonKey();
  }

  lemma ReactTemplateRecord(root: string, app: string, main: string, index: string, package: string)
    ensures ProjectEntriesRecord(ReactTemplateShape(root, app, main, index, package)) ==
      [("/src/App.jsx", app), ("/src/main.jsx", main), ("/index.html", index), ("/package.json", package)]
  {
    ReactTemplateEntries(root, app, main, index, package);
    DistinctEntriesAreKept([("/src/App.jsx", app), ("/src/main.jsx", main), ("/index.html", index), ("/package.json", package)]);
  }

  lemma ReactTemplateShapeView(root: string, app: string, main: string, index: string, package: string)
    requires main != ""
    ensures var project := ReactTemplateShape(root, app, main, index, package);
      var files := ProjectEntriesRecord(project);
      && Classify(project) == SandboxKind
      && SandpackView(files) == Sandpack(React, files, "/src/main.jsx", ReactDependencies)
  {
    var project := ReactTemplateShape(root, app, main, index, package);
    ReactTemplateRecord(root, app, main, index, package);
    var files := [("/src/App.jsx", app), ("/src/main.jsx", main), ("/index.html", index), ("/package.json", package)];
    GetStoredValue(files, 1);
    MainJsxWins(files);
    assert EndsWith("/src/main.jsx", ".jsx");
    assert Names(project.children.nodes) == ["src", "index.html", "package.json"];
  }

  /** A folder made from the react template shows /src/main.jsx with the react template, ahead of its index.html. */
  lemma ReactTemplatePreview(name: string)
    ensures var project := Folder(name, Templates.TemplateChildren("react"));
      var files := ProjectEntriesRecord(project);
      && Classify(project) == SandboxKind
      && SandpackView(files) == Sandpack(React, files, "/src/main.jsx", ReactDependencies)
  {
    var r := Templates.React;
    var main := r[0].children.nodes[1].content.value;
    assert Folder(name, Templates.TemplateChildren("react")) ==
      ReactTemplateShape(name, r[0].children.nodes[0].content.value, main, r[1].content.value, r[2].content.value);
    assert |main| > 0;
    ReactTemplateShapeView(name, r[0].children.nodes[0].content.value, main, r[1].content.value, r[2].content.value);
  }
}
