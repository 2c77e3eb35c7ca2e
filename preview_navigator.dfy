/**
 * The navigator that keeps the preview route on the current project
 * (src/components/PreviewNavigator.tsx), and the route it produces.
 */
module PreviewNavigator {
  import opened Wrappers
  import opened Strings
  import opened FileSystemNode
  import opened UseFileStructure
  import opened PreviewContext
  import EditorPanel

  /** `selectedFile?.path[0] || fileStructure[0]?.name`, kept only when truthy. */
  function TargetProject(selected: Option<Selection>, fileStructure: seq<Node>): (r: Option<string>)
    ensures r.None? <==> !Truthy(EditorPanel.FirstSegment(selected))
                         && (fileStructure == [] || fileStructure[0].name == "")
    ensures r.Some? ==> r.value != ""
    ensures Truthy(EditorPanel.FirstSegment(selected)) ==> r == Some(selected.value.path[0])
    ensures !Truthy(EditorPanel.FirstSegment(selected)) && r.Some? ==> r == Some(fileStructure[0].name)
  {
    var segment := EditorPanel.FirstSegment(selected);
    if Truthy(segment) then segment
    else if fileStructure != [] && fileStructure[0].name != "" then Some(fileStructure[0].name)
    else None
  }

  const PreviewPrefix: string := "/preview/"

  /** The route navigated to, replacing the current entry; none when there is no target. */
  function Navigation(selected: Option<Selection>, fileStructure: seq<Node>): (route: Option<string>)
    ensures route.Some? <==> TargetProject(selected, fileStructure).Some?
    ensures route.Some? ==> StartsWith(route.value, PreviewPrefix)
                            && route.value[|PreviewPrefix|..] == TargetProject(selected, fileStructure).value
  {
    var target := TargetProject(selected, fileStructure);
    if target.Some? then
      var route := PreviewPrefix + target.value;
      assert route[..|PreviewPrefix|] == PreviewPrefix && route[|PreviewPrefix|..] == target.value;
      Some(route)
    else None
  }

  /**
   * The `:projectName` parameter of a `/preview/:projectName` route: one
   * non-empty segment after the prefix.
   */
  function RouteProjectName(route: string): (r: Option<string>)
    ensures r.Some? ==> r.value != "" && '/' !in r.value && route == PreviewPrefix + r.value
  {
    if StartsWith(route, PreviewPrefix) && |route| > |PreviewPrefix| && '/' !in route[|PreviewPrefix|..] then
      assert route == route[..|PreviewPrefix|] + route[|PreviewPrefix|..];
      Some(route[|PreviewPrefix|..])
    else None
  }

  /** A target without a slash is read back unchanged from the route it produces. */
  lemma {:induction false} NavigationRoundTrip(selected: Option<Selection>, fileStructure: seq<Node>)
    requires TargetProject(selected, fileStructure).Some?
    requires '/' !in TargetProject(selected, fileStructure).value
    ensures RouteProjectName(Navigation(selected, fileStructure).value) == TargetProject(selected, fileStructure)
  {
    var t := TargetProject(selected, fileStructure).value;
    var route := PreviewPrefix + t;
    assert Navigation(selected, fileStructure).value == route;
    assert route[..|PreviewPrefix|] == PreviewPrefix;
    assert route[|PreviewPrefix|..] == t;
  }

  /** The navigation ignores the selected node itself: only its path's first segment counts. */
  lemma SelectionNodeIsIrrelevant(a: Node, b: Node, path: seq<string>, fileStructure: seq<Node>)
    ensures Navigation(Some(Selection(a, path)), fileStructure) == Navigation(Some(Selection(b, path)), fileStructure)
  {
  }
}
