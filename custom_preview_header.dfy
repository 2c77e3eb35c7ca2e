/**
 * The project name shown above the preview
 * (src/components/CustomPreviewHeader.tsx).
 */
module CustomPreviewHeader {
  import opened Wrappers
  import opened FileSystemNode
  import opened UseFileStructure
  import opened PreviewContext
  import EditorPanel
  import PreviewNavigator

  const NoProject: string := "No project"

  /**
   * `projectName || selectedFile?.path[0] || fileStructure[0]?.name || 'No project'`:
   * the first truthy candidate, with a fixed notice at the end of the chain.
   */
  function DisplayedProject(routeName: Option<string>, selected: Option<Selection>, fileStructure: seq<Node>): (r: string)
    ensures r != ""
    ensures Truthy(routeName) ==> r == routeName.value
    ensures !Truthy(routeName) && Truthy(EditorPanel.FirstSegment(selected)) ==> r == selected.value.path[0]
    ensures !Truthy(routeName) && !Truthy(EditorPanel.FirstSegment(selected)) ==>
      r == (if fileStructure != [] && fileStructure[0].name != "" then fileStructure[0].name else NoProject)
    ensures !Truthy(routeName) ==> r == PreviewNavigator.TargetProject(selected, fileStructure).GetOr(NoProject)
    ensures r == NoProject || (routeName.Some? && r == routeName.value)
            || (selected.Some? && |selected.value.path| > 0 && r == selected.value.path[0])
            || (fileStructure != [] && r == fileStructure[0].name)
  {
    if Truthy(routeName) then routeName.value
    else
      var segment := EditorPanel.FirstSegment(selected);
      if Truthy(segment) then segment.value
      else if fileStructure != [] && fileStructure[0].name != "" then fileStructure[0].name
      else NoProject
  }

  /**
   * Without a route the header shows the navigator's target, and the notice
   * exactly when the navigator has nowhere to go.
   */
  lemma {:induction false} HeaderFollowsNavigatorTarget(selected: Option<Selection>, fileStructure: seq<Node>)
    ensures var t := PreviewNavigator.TargetProject(selected, fileStructure);
      DisplayedProject(None, selected, fileStructure) == t.GetOr(NoProject)
  {
  }

  /**
   * Once the navigator's route is in place, the header shows its target
   * whenever the target is a single route segment.
   */
  lemma {:induction false} HeaderShowsNavigatedProject(selected: Option<Selection>, fileStructure: seq<Node>)
    requires PreviewNavigator.TargetProject(selected, fileStructure).Some?
    requires '/' !in PreviewNavigator.TargetProject(selected, fileStructure).value
    ensures var routeName := PreviewNavigator.RouteProjectName(PreviewNavigator.Navigation(selected, fileStructure).value);
      DisplayedProject(routeName, selected, fileStructure) == PreviewNavigator.TargetProject(selected, fileStructure).value
  {
    PreviewNavigator.NavigationRoundTrip(selected, fileStructure);
  }
}
