/**
 * `VideoRenderer` (lib/brain/VideoRenderer.ts): a new render job for a script,
 * and the choice of visual style from the script's title. The random id
 * suffix is an input.
 */
module VideoRenderer {
  import opened Wrappers
  import opened Text
  import opened Types

  const VideoIdPrefix: string := "vid_"

  /** `initializeRender`: a rendering asset for the script, at progress 0, with no thumbnail yet. */
  function InitializeRender(script: GeneratedScript, idSuffix: string): (a: VideoAsset)
    ensures a.scriptId == script.id
    ensures a.status == Rendering && a.renderProgress == 0
    ensures a.thumbnailId == ""
    ensures |a.id| >= |VideoIdPrefix| && a.id[..|VideoIdPrefix|] == VideoIdPrefix
    ensures a.filePath.None? && a.uploadUrl.None? && a.deployedAt.None?
  {
    VideoAsset(VideoIdPrefix + idSuffix, script.id, "", Rendering, 0, None, None, None)
  }

  /** The declared result type of `determineStyle`. */
  datatype RenderStyle = Stock | Animation | Mixed

  /** `determineStyle`: animation for a title mentioning an agent or the future, otherwise mixed. */
  function DetermineStyle(script: GeneratedScript): (s: RenderStyle)
    ensures s == Animation <==> Contains(Lower(script.title), "agent") || Contains(Lower(script.title), "future")
    ensures s != Stock
  {
    if Contains(Lower(script.title), "agent") || Contains(Lower(script.title), "future") then Animation
    else Mixed
  }

  /** Matching ignores case: a title with "FUTURE" in it is animated. */
  lemma FutureTitleAnimated(script: GeneratedScript, before: string, after: string)
    requires script.title == before + "FUTURE" + after
    ensures DetermineStyle(script) == Animation
  {
    LowerAppend(before + "FUTURE", after);
    LowerAppend(before, "FUTURE");
    assert Lower("FUTURE") == "future";
    ContainsMiddle(Lower(before), "future", Lower(after));
  }
}
