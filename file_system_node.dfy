/**
 * The workspace tree's node type and the workspace the editor starts with
 * (src/constants/initialFileStructure.ts).
 */
module FileSystemNode {
  import opened Wrappers

  /** A node's optional `children` list: absent, or present (possibly empty). */
  datatype Children = Absent | Present(nodes: seq<Node>)

  /**
   * One file or folder: a name, the `isFolder` flag, optional children and
   * optional text content. Nothing ties the flag to the two optional fields;
   * the static data keeps them consistent (see `WellFormed`).
   */
  datatype Node = Node(name: string, isFolder: bool, children: Children, content: Option<string>)

  /** A file literal as the static data writes it: a name and its text, no children. */
  function File(name: string, text: string): Node {
    Node(name, false, Absent, Some(text))
  }

  /** A folder literal as the static data writes it: a name and its child list, no content. */
  function Folder(name: string, nodes: seq<Node>): Node {
    Node(name, true, Present(nodes), None)
  }

  /** The names of a sibling list, in order. */
  function Names(nodes: seq<Node>): (r: seq<string>)
    ensures |r| == |nodes|
    ensures forall i :: 0 <= i < |nodes| ==> r[i] == nodes[i].name
  {
    if nodes == [] then [] else [nodes[0].name] + Names(nodes[1..])
  }

  /** No two siblings share a name. */
  predicate DistinctNames(nodes: seq<Node>) {
    forall i, j :: 0 <= i < j < |nodes| ==> nodes[i].name != nodes[j].name
  }

  /**
   * The shape the static data has everywhere, though no operation checks it:
   * folders carry children and no content, files carry content and no
   * children, and sibling names are distinct at every level.
   */
  predicate WellFormed(n: Node) {
    (if n.isFolder then n.children.Present? && n.content.None? else n.children.Absent? && n.content.Some?)
    && (n.children.Present? ==> WellFormedList(n.children.nodes))
  }

  predicate WellFormedList(nodes: seq<Node>) {
    DistinctNames(nodes) && forall i :: 0 <= i < |nodes| ==> WellFormed(nodes[i])
  }

  /** Every file literal is well formed, whatever its text. */
  lemma FileWellFormed(name: string, text: string)
    ensures WellFormed(File(name, text))
  {
  }

  /** The workspace the editor opens with: four projects. */
  const InitialFileStructure: seq<Node> := [MyProject, WebProject, FlutterProject, ExpressApi]

  const MyProject: Node :=
    Folder("my-project", [
      File("index.html", @"<!DOCTYPE html>
<html lang=""en"">
<head>
  <meta charset=""UTF-8"" />
  <meta name=""viewport"" content=""width=device-width, initial-scale=1.0"" />
  <title>My React App</title>
</head>
<body>
  <div id=""root""></div>
  <script type=""module"" src=""/src/main.jsx""></script>
</body>
</html>"),
      Folder("src", [
        File("App.jsx", @"import React from 'react';

export default function App() {
  return <div style={{ color: 'blue' }}>Hello, My React Project!</div>;
}"),
        File("main.jsx", @"import React from 'react';
import ReactDOM from 'react-dom/client';
import App from './App';

ReactDOM.createRoot(document.getElementById('root')).render(
  <React.StrictMode>
    <App />
  </React.StrictMode>
);")
      ]),
      File("package.json", @"{
  ""name"": ""my-project"",
  ""version"": ""1.0.0"",
  ""private"": true,
  ""dependencies"": {
    ""react"": ""^18.2.0"",
    ""react-dom"": ""^18.2.0""
  },
  ""devDependencies"": {
    ""vite"": ""^4.0.0""
  }
}")
    ])

  const WebProject: Node :=
    Folder("web-project", [
      File("index.html", @"<!DOCTYPE html>
<html>
<head>
  <meta charset=""UTF-8"" />
  <meta name=""viewport"" content=""width=device-width, initial-scale=1.0"" />
  <title>My Web App</title>
  <link rel=""stylesheet"" href=""/styles.css"">
</head>
<body>
  <h1>Welcome to My Web App</h1>
  <div id=""app""></div>
  <script src=""/script.js""></script>
</body>
</html>"),
      File("styles.css", @"body {
  font-family: Arial, sans-serif;
  background-color: #f0f0f0;
}

#app {
  padding: 20px;
  color: green;
}"),
      File("script.js", @"document.getElementById(""app"").innerHTML = ""<p>This is a dynamic message!</p>"";")
    ])

  const FlutterProject: Node :=
    Folder("flutter-project", [
      File("pubspec.yaml", @"name: flutter_project
description: A new Flutter project.
version: 1.0.0+1

environment:
  sdk: "">=2.18.0 <3.0.0""

dependencies:
  flutter:
    sdk: flutter

flutter:
  uses-material-design: true
"),
      Folder("lib", [
        File("main.dart", @"import 'package:flutter/material.dart';

void main() {
  print('Flutter test running');
  runApp(const MyApp());
}

class MyApp extends StatelessWidget {
  const MyApp({super.key});

  @override
  Widget build(BuildContext context) {
    return MaterialApp(
      home: Scaffold(
        appBar: AppBar(
          title: const Text('Flutter Project'),
        ),
        body: const Center(
          child: Text('Hello, Flutter!'),
        ),
      ),
    );
  }
}")
      ])
    ])

  const ExpressApi: Node :=
    Folder("express-api", [
      File("package.json", @"{
  ""name"": ""express-api"",
  ""version"": ""1.0.0"",
  ""main"": ""server.js"",
  ""type"": ""module"",
  ""dependencies"": {
    ""express"": ""^4.18.2""
  }
}"),
      File("server.js", @"import express from ""express"";

const app = express();

app.get(""/api/hello"", (req, res) => {
  console.log('API request received');
  res.json({ message: ""Hello from Express!"" });
});

const PORT = process.env.PORT || 3000;
app.listen(PORT, () => {
  console.log(`Express server running on port ${PORT}`);
});"),
      File("README.md", @"# Express API Example

- `GET /api/hello` returns a JSON greeting.
- Change `server.js` to add your own routes.
")
    ])

  /** The initial workspace holds four top-level folders, in this order. */
  lemma InitialProjects()
    ensures Names(InitialFileStructure) == ["my-project", "web-project", "flutter-project", "express-api"]
    ensures forall i :: 0 <= i < |InitialFileStructure| ==> InitialFileStructure[i].isFolder
  {
  }

  /** Everywhere in the initial workspace, sibling names are distinct, only files carry content and only folders carry children. */
  lemma InitialWellFormed()
    ensures WellFormedList(InitialFileStructure)
  {
    MyProjectWellFormed();
    WebProjectWellFormed();
    FlutterProjectWellFormed();
    ExpressApiWellFormed();
    assert Names(InitialFileStructure) == ["my-project", "web-project", "flutter-project", "express-api"];
  }

  lemma MyProjectWellFormed()
    ensures WellFormed(MyProject)
  {
    var kids := MyProject.children.nodes;
    var src := kids[1].children.nodes;
    forall i | 0 <= i < |src| ensures WellFormed(src[i]) {
      FileWellFormed(src[i].name, src[i].content.value);
    }
    assert WellFormed(kids[1]);
    FileWellFormed(kids[0].name, kids[0].content.value);
    FileWellFormed(kids[2].name, kids[2].content.value);
  }

  lemma WebProjectWellFormed()
    ensures WellFormed(WebProject)
  {
    var kids := WebProject.children.nodes;
    forall i | 0 <= i < |kids| ensures WellFormed(kids[i]) {
      FileWellFormed(kids[i].name, kids[i].content.value);
    }
  }

  lemma FlutterProjectWellFormed()
    ensures WellFormed(FlutterProject)
  {
    var kids := FlutterProject.children.nodes;
    var lib := kids[1].children.nodes;
    FileWellFormed(lib[0].name, lib[0].content.value);
    assert WellFormed(kids[1]);
    FileWellFormed(kids[0].name, kids[0].content.value);
  }

  lemma ExpressApiWellFormed()
    ensures WellFormed(ExpressApi)
  {
    var kids := ExpressApi.children.nodes;
    forall i | 0 <= i < |kids| ensures WellFormed(kids[i]) {
      FileWellFormed(kids[i].name, kids[i].content.value);
    }
  }
}
