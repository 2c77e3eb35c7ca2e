/**
 * The static catalog of folder templates that "create folder" copies
 * children from (src/utils/templates.ts).
 */
module Templates {
  import opened Wrappers
  import opened FileSystemNode

  /** The catalog's keys in declaration order (the order the folder dialog lists them in). */
  const TemplateNames: seq<string> := ["blank", "express", "react", "flutter", "html"]

  /** `templates[key]`: the child list stored under `key`, if the catalog has that key. */
  function Lookup(key: string): (r: Option<seq<Node>>)
    ensures r.Some? <==> key in TemplateNames
  {
    match key
    case "blank" => Some([])
    case "express" => Some(Express)
    case "react" => Some(React)
    case "flutter" => Some(Flutter)
    case "html" => Some(Html)
    case _ => None
  }

  /** `templates[template] ?? []`: the named template's children, or no children for an unknown name. */
  function TemplateChildren(template: string): (r: seq<Node>)
    ensures template !in TemplateNames ==> r == []
  {
    Lookup(template).GetOr([])
  }

  const Express: seq<Node> := [
    File("server.js", @"const express = require('express');
const app = express();
app.use(express.json());

// API root endpoint
app.get('/api', (req, res) => res.json({ message: 'Hello from API root!' }));

// Example /api/hello endpoint
app.get('/api/hello', (req, res) => res.json({ message: 'Hello from /api/hello!' }));

// Health-check or homepage
app.get('/', (req, res) => res.send('Welcome to your Express app!'));

const PORT = process.env.PORT || 3000;
app.listen(PORT, '0.0.0.0', function() {
  console.log('Server running on port ' + PORT);
});"),
    File("package.json", @"{
  ""name"": ""express-app"",
  ""version"": ""1.0.0"",
  ""main"": ""server.js"",
  ""dependencies"": {
    ""express"": ""^4.17.1""
  }
}")
  ]

  const React: seq<Node> := [
    Folder("src", [
      File("App.jsx", @"import React from 'react';

export default function App() {
  return <div>Hello, React!</div>;
}"),
      File("main.jsx", @"import React from 'react';
import ReactDOM from 'react-dom/client';
import App from './App';

ReactDOM.createRoot(document.getElementById('root')).render(
  <React.StrictMode>
    <App />
  </React.StrictMode>
);")
    ]),
    File("index.html", @"<!DOCTYPE html>
<html lang=""en"">
<head>
  <meta charset=""UTF-8"" />
  <meta name=""viewport"" content=""width=device-width, initial-scale=1.0"" />
  <title>React App</title>
</head>
<body>
  <div id=""root""></div>
  <script type=""module"" src=""/src/main.jsx""></script>
</body>
</html>"),
    File("package.json", @"{
  ""name"": ""react-app"",
  ""version"": ""1.0.0"",
  ""private"": true,
  ""dependencies"": {
    ""react"": ""^18.2.0"",
    ""react-dom"": ""^18.2.0""
  },
  ""devDependencies"": {
    ""vite"": ""^4.0.0""
  }
}")
  ]

  const Flutter: seq<Node> := [
    Folder("lib", [
      File("main.dart", @"import 'package:flutter/material.dart';

void main() => runApp(const MyApp());

class MyApp extends StatelessWidget {
  const MyApp({super.key});

  @override
  Widget build(BuildContext context) {
    return MaterialApp(
      home: Scaffold(
        appBar: AppBar(
          title: const Text('Flutter App'),
        ),
        body: const Center(
          child: Text('Hello, Flutter!'),
        ),
      ),
    );
  }
}")
    ]),
    File("pubspec.yaml", @"name: flutter_app
description: A new Flutter project.
publish_to: 'none'
version: 1.0.0+1

environment:
  sdk: '>=2.18.0 <3.0.0'

dependencies:
  flutter:
    sdk: flutter

flutter:
  uses-material-design: true
"),
    Folder("web", [
      File("index.html", @"<!DOCTYPE html>
<html>
<head>
  <base href=""./"">
  <meta charset=""UTF-8"">
  <meta name=""viewport"" content=""width=device-width, initial-scale=1.0""/>
  <title>Flutter App</title>
  <link rel=""manifest"" href=""manifest.json"">
  <script src=""flutter.js"" defer></script>
</head>
<body>
  <script>
    window.addEventListener('load', function () {
      _flutter.loader.loadEntrypoint({
        serviceWorker: { serviceWorkerVersion: null },
        onEntrypointLoaded: (engineInitializer) => {
          engineInitializer.initializeEngine().then(appRunner => appRunner.runApp());
        },
      });
    });
  </script>
</body>
</html>")
    ])
  ]

  const Html: seq<Node> := [
    File("index.html", @"<!DOCTYPE html>
<html>
<head>
  <meta charset=""UTF-8"" />
  <meta name=""viewport"" content=""width=device-width, initial-scale=1.0"" />
  <title>Static Site</title>
  <link rel=""stylesheet"" href=""/styles.css"" />
</head>
<body>
  <h1>Hello, Static HTML!</h1>
  <script src=""/script.js""></script>
</body>
</html>"),
    File("styles.css", @"body {
  font-family: Arial, sans-serif;
  text-align: center;
  margin: 2rem;
}"),
    File("script.js", @"console.log('Hello from static JavaScript!');")
  ]

  /** The catalog's keys are distinct, and `blank` is an empty child list. */
  lemma CatalogKeys()
    ensures forall i, j :: 0 <= i < j < |TemplateNames| ==> TemplateNames[i] != TemplateNames[j]
    ensures TemplateChildren("blank") == []
  {
  }

  /** Within every template, sibling names are distinct, files carry content and folders carry children. */
  lemma TemplatesWellFormed()
    ensures forall k :: Lookup(k).Some? ==> WellFormedList(Lookup(k).value)
  {
    ExpressWellFormed();
    ReactWellFormed();
    FlutterWellFormed();
    HtmlWellFormed();
    forall k | Lookup(k).Some? ensures WellFormedList(Lookup(k).value) {
      assert k in TemplateNames;
    }
  }

  lemma ExpressWellFormed()
    ensures WellFormedList(Express)
  {
    FileWellFormed(Express[0].name, Express[0].content.value);
    FileWellFormed(Express[1].name, Express[1].content.value);
  }

  lemma ReactWellFormed()
    ensures WellFormedList(React)
  {
    var src := React[0].children.nodes;
    forall i | 0 <= i < |src| ensures WellFormed(src[i]) {
      FileWellFormed(src[i].name, src[i].content.value);
    }
    assert WellFormed(React[0]);
    forall i | 1 <= i < |React| ensures WellFormed(React[i]) {
      FileWellFormed(React[i].name, React[i].content.value);
    }
  }

  lemma FlutterWellFormed()
    ensures WellFormedList(Flutter)
  {
    var lib := Flutter[0].children.nodes;
    forall i | 0 <= i < |lib| ensures WellFormed(lib[i]) {
      FileWellFormed(lib[i].name, lib[i].content.value);
    }
    assert WellFormed(Flutter[0]);
    FileWellFormed(Flutter[1].name, Flutter[1].content.value);
    var web := Flutter[2].children.nodes;
    forall i | 0 <= i < |web| ensures WellFormed(web[i]) {
      FileWellFormed(web[i].name, web[i].content.value);
    }
    assert WellFormed(Flutter[2]);
  }

  lemma HtmlWellFormed()
    ensures WellFormedList(Html)
  {
    forall i | 0 <= i < |Html| ensures WellFormed(Html[i]) {
      FileWellFormed(Html[i].name, Html[i].content.value);
    }
  }
}
