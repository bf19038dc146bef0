/** The specification of the studio's automation pipeline (`runAutomation` in
    components/ProductStudio.tsx): which concept it picks, what each scene
    looks like once its image pair resolved, which requests it sends to the
    model and the sequence of project snapshots it records. The imperative
    pipeline itself is `ProductStudio.Studio.RunAutomation`, proved against
    these functions. */
module Automation {
  import opened Wrappers
  import opened Types
  import JsText

  /** The style directives the pipeline appends to every frame prompt. */
  const RenderSuffix: string := " cinematic lighting, photorealistic, 4k, aspect ratio 16:9"

  /** The fixed tone and context the pipeline asks the listing for. */
  const PipelineTone: string := "Persuasive"
  const PipelineContext: string := "Focus on viral features"

  /** A call into the hosted model, recorded instead of performed. */
  datatype Request =
    | ListingRequest(productName: string, tone: string, context: string)
    | ConceptsRequest(productName: string)
    | StoryboardRequest(productName: string, concept: Option<string>)
    | ImageRequest(prompt: string)

  /** The joint outcome of one scene's two image calls: both payloads, or a failure. */
  type ImagePair = Option<(string, string)>

  // ---------------------------------------------------------------------
  // Concept selection (line 71)

  /** The concept's lower-cased text contains "guerrilla". */
  predicate MentionsGuerrilla(c: string)
  {
    JsText.Includes(JsText.ToLower(c), "guerrilla")
  }

  /** `concepts.find(...)`, as the index of the first concept mentioning guerrilla. */
  function FindGuerrilla(cs: seq<string>): (k: Option<nat>)
    ensures k.Some? ==> k.value < |cs| && MentionsGuerrilla(cs[k.value])
    ensures k.Some? ==> forall j :: 0 <= j < k.value ==> !MentionsGuerrilla(cs[j])
    ensures k.None? ==> forall j :: 0 <= j < |cs| ==> !MentionsGuerrilla(cs[j])
  {
    if cs == [] then None
    else if MentionsGuerrilla(cs[0]) then Some(0)
    else match FindGuerrilla(cs[1..])
      case None => None
      case Some(k) => Some(k + 1)
  }

  /** `cs[k]` is the concept the rule must pick: no earlier concept mentions
      guerrilla, and either this one does or none does and it is the first. */
  ghost predicate SelectedAt(cs: seq<string>, k: int)
  {
    && 0 <= k < |cs|
    && (forall j :: 0 <= j < k ==> !MentionsGuerrilla(cs[j]))
    && (MentionsGuerrilla(cs[k]) || (k == 0 && forall j :: 0 <= j < |cs| ==> !MentionsGuerrilla(cs[j])))
  }

  /** `concepts.find(c => c.toLowerCase().includes('guerrilla')) || concepts[0]`;
      None stands for `undefined`, which is what an empty concept list gives. */
  function SelectConcept(cs: seq<string>): (r: Option<string>)
    ensures r.None? <==> cs == []
    ensures r.Some? ==> exists k :: SelectedAt(cs, k) && cs[k] == r.value
  {
    match FindGuerrilla(cs)
    case Some(k) =>
      assert SelectedAt(cs, k);
      Some(cs[k])
    case None =>
      if cs == [] then None
      else
        assert SelectedAt(cs, 0);
        Some(cs[0])
  }

  // ---------------------------------------------------------------------
  // Scene rendering (lines 84-116)

  /** The image pair resolved for scene `i`; a missing entry is a failure. */
  function PairFor(images: seq<ImagePair>, i: nat): ImagePair
  {
    if i < |images| then images[i] else None
  }

  /** The scene with its rendering flag raised (lines 85, 104). */
  function Generating(s: Scene): Scene
  {
    s.(isGenerating := Some(true))
  }

  /** A scene after the first pair resolved (lines 93-95): on failure the flag
      raised at line 85 is never lowered. */
  function RenderedFirst(s: Scene, out: ImagePair): (r: Scene)
    ensures r.sceneNumber == s.sceneNumber && r.videoMotionPrompt == s.videoMotionPrompt
    ensures r.startFramePrompt == s.startFramePrompt && r.endFramePrompt == s.endFramePrompt
    ensures out.Some? ==> r.startImage == Some(out.value.0) && r.endImage == Some(out.value.1) && r.isGenerating == Some(false)
    ensures out.None? ==> r.startImage == s.startImage && r.endImage == s.endImage && r.isGenerating == Some(true)
  {
    match out
    case Some((start, end)) => s.(startImage := Some(start), endImage := Some(end), isGenerating := Some(false))
    case None => Generating(s)
  }

  /** A later scene after its pair resolved (lines 111-114): images only on
      success, the flag lowered either way. */
  function RenderedLater(s: Scene, out: ImagePair): (r: Scene)
    ensures r.sceneNumber == s.sceneNumber && r.videoMotionPrompt == s.videoMotionPrompt
    ensures r.startFramePrompt == s.startFramePrompt && r.endFramePrompt == s.endFramePrompt
    ensures out.Some? ==> r.startImage == Some(out.value.0) && r.endImage == Some(out.value.1)
    ensures out.None? ==> r.startImage == s.startImage && r.endImage == s.endImage
    ensures r.isGenerating == Some(false)
  {
    match out
    case Some((start, end)) => s.(startImage := Some(start), endImage := Some(end), isGenerating := Some(false))
    case None => s.(isGenerating := Some(false))
  }

  /** Scene `i` once the pipeline is done with it. */
  function FinalScene(scenes: seq<Scene>, images: seq<ImagePair>, i: nat): (r: Scene)
    requires i < |scenes|
    ensures r.sceneNumber == scenes[i].sceneNumber && r.videoMotionPrompt == scenes[i].videoMotionPrompt
    ensures r.startFramePrompt == scenes[i].startFramePrompt && r.endFramePrompt == scenes[i].endFramePrompt
    ensures PairFor(images, i).Some? ==>
      r.startImage == Some(PairFor(images, i).value.0) && r.endImage == Some(PairFor(images, i).value.1)
      && r.isGenerating == Some(false)
    ensures PairFor(images, i).None? ==>
      r.startImage == scenes[i].startImage && r.endImage == scenes[i].endImage
      && r.isGenerating == Some(i == 0)
  {
    if i == 0 then RenderedFirst(scenes[0], PairFor(images, 0)) else RenderedLater(scenes[i], PairFor(images, i))
  }

  /** The storyboard once scenes `0 .. k-1` are done and the rest untouched. */
  function PartlyRendered(scenes: seq<Scene>, images: seq<ImagePair>, k: nat): (r: seq<Scene>)
    ensures |r| == |scenes|
  {
    seq(|scenes|, j requires 0 <= j < |scenes| => if j < k then FinalScene(scenes, images, j) else scenes[j])
  }

  /** The storyboard while scene `i` renders: scenes before it done, it flagged. */
  function Marked(scenes: seq<Scene>, images: seq<ImagePair>, i: nat): (r: seq<Scene>)
    requires i < |scenes|
    ensures |r| == |scenes|
  {
    PartlyRendered(scenes, images, i)[i := Generating(scenes[i])]
  }

  /** The storyboard at the end of the run. */
  function FinalScenes(scenes: seq<Scene>, images: seq<ImagePair>): (r: seq<Scene>)
    ensures |r| == |scenes|
    ensures forall i :: 0 <= i < |scenes| ==> r[i] == FinalScene(scenes, images, i)
  {
    PartlyRendered(scenes, images, |scenes|)
  }

  lemma PartlyRenderedNone(scenes: seq<Scene>, images: seq<ImagePair>)
    ensures PartlyRendered(scenes, images, 0) == scenes
  {
  }

  /** Finishing scene `i`, whether flagged or not, extends the rendered prefix by one. */
  lemma PartlyRenderedNext(scenes: seq<Scene>, images: seq<ImagePair>, i: nat)
    requires i < |scenes|
    ensures PartlyRendered(scenes, images, i)[i := FinalScene(scenes, images, i)] == PartlyRendered(scenes, images, i + 1)
    ensures Marked(scenes, images, i)[i := FinalScene(scenes, images, i)] == PartlyRendered(scenes, images, i + 1)
  {
  }

  // ---------------------------------------------------------------------
  // Requests sent to the model

  /** The two image requests for one scene (lines 90-91, 108-109). */
  function ScenePrompts(s: Scene): seq<Request>
  {
    [ImageRequest(s.startFramePrompt + RenderSuffix), ImageRequest(s.endFramePrompt + RenderSuffix)]
  }

  /** The image requests for `scenes`, scene by scene in index order. */
  function ImageRequests(scenes: seq<Scene>): (r: seq<Request>)
    ensures |r| == 2 * |scenes|
  {
    if scenes == [] then []
    else ImageRequests(scenes[..|scenes| - 1]) + ScenePrompts(scenes[|scenes| - 1])
  }

  /** The image requests the loop at lines 103-116 sends for scenes 1 .. k-1. */
  function LaterImageRequests(scenes: seq<Scene>, k: nat): seq<Request>
    requires k <= 1 || k <= |scenes|
  {
    if k <= 1 then [] else LaterImageRequests(scenes, k - 1) + ScenePrompts(scenes[k - 1])
  }

  /** The first scene's pair followed by the loop's pairs are all pairs in index order. */
  lemma {:induction false} FirstThenLaterRequests(scenes: seq<Scene>, k: nat)
    requires 1 <= k <= |scenes|
    ensures ScenePrompts(scenes[0]) + LaterImageRequests(scenes, k) == ImageRequests(scenes[..k])
  {
    if k == 1 {
      assert scenes[..1][..0] == [];
    } else {
      FirstThenLaterRequests(scenes, k - 1);
      assert scenes[..k][..k - 1] == scenes[..k - 1];
    }
  }

  /** Every request one run sends, in the order it sends them: the listing
      and concepts calls (line 57), then what the later stages send. */
  function AutomationRequests(p: Project, listing: Result<Listing>, concepts: Result<seq<string>>,
                              storyboard: Result<seq<Scene>>): (r: seq<Request>)
    ensures r == [] <==> p.productName == []
    ensures r != [] ==> |r| >= 2 && r[0] == ListingRequest(p.productName, PipelineTone, PipelineContext)
                        && r[1] == ConceptsRequest(p.productName)
    ensures p.productName != [] && (listing.Err? || concepts.Err?) ==> |r| == 2
    ensures p.productName != [] && listing.Ok? && concepts.Ok? ==>
      |r| == (if storyboard.Err? then 3 else 3 + 2 * |storyboard.value|)
      && r[2] == StoryboardRequest(p.productName, SelectConcept(concepts.value))
  {
    if p.productName == [] then []
    else [ListingRequest(p.productName, PipelineTone, PipelineContext), ConceptsRequest(p.productName)]
         + StageRequests(p.productName, listing, concepts, storyboard)
  }

  /** The requests after the first two: none when the listing or the concepts
      failed, otherwise the storyboard call (line 75) and, once the storyboard
      is in, the image calls. */
  function StageRequests(name: string, listing: Result<Listing>, concepts: Result<seq<string>>,
                         storyboard: Result<seq<Scene>>): (r: seq<Request>)
    ensures listing.Err? || concepts.Err? ==> r == []
    ensures listing.Ok? && concepts.Ok? ==>
      |r| == (if storyboard.Err? then 1 else 1 + 2 * |storyboard.value|)
      && r[0] == StoryboardRequest(name, SelectConcept(concepts.value))
  {
    if listing.Err? || concepts.Err? then []
    else [StoryboardRequest(name, SelectConcept(concepts.value))]
         + (if storyboard.Err? then [] else ImageRequests(storyboard.value))
  }

  // ---------------------------------------------------------------------
  // Snapshots (`setProject` calls) of one run

  /** The project as rendering starts (line 80): listing, concepts, chosen
      concept and the fresh storyboard in place, progress at 70. */
  function RenderingStart(p: Project, listing: Listing, concepts: seq<string>, scenes: seq<Scene>): Project
  {
    p.(listing := Some(listing), marketingConcepts := concepts, selectedConcept := SelectConcept(concepts),
       storyboard := scenes, status := Rendering, progress := 70)
  }

  /** The project as the loop over scenes 1.. begins: the first scene handled
      and, if its pair resolved, progress at 80. */
  function RenderBase(p4: Project, scenes: seq<Scene>, images: seq<ImagePair>): Project
  {
    if scenes == [] then p4
    else p4.(storyboard := PartlyRendered(scenes, images, 1),
             progress := if PairFor(images, 0).Some? then 80 else p4.progress)
  }

  /** Snapshots of the first scene (lines 86 and 96). */
  function FirstSceneTrace(p4: Project, scenes: seq<Scene>, images: seq<ImagePair>): seq<Project>
  {
    if scenes == [] then []
    else
      var flagged := p4.(storyboard := Marked(scenes, images, 0));
      if PairFor(images, 0).Some? then [flagged, RenderBase(p4, scenes, images)] else [flagged]
  }

  /** Progress shown while scene `i` (1 <= i) renders: whatever the previous snapshot set. */
  function ProgressBefore(base: Project, i: nat): int
  {
    if i <= 1 then base.progress else 80 + (i - 1) * 4
  }

  /** Snapshot at line 105: scene `i` flagged. */
  function MarkSnapshot(base: Project, scenes: seq<Scene>, images: seq<ImagePair>, i: nat): Project
    requires i < |scenes|
  {
    base.(storyboard := Marked(scenes, images, i), progress := ProgressBefore(base, i))
  }

  /** Snapshot at line 115: scene `i` done, progress 80 + 4i. */
  function DoneSnapshot(base: Project, scenes: seq<Scene>, images: seq<ImagePair>, i: nat): Project
  {
    base.(storyboard := PartlyRendered(scenes, images, i + 1), progress := 80 + i * 4)
  }

  /** Snapshots of the loop at lines 103-116 for scenes 1 .. k-1. */
  function LoopTrace(base: Project, scenes: seq<Scene>, images: seq<ImagePair>, k: nat): (t: seq<Project>)
    requires k <= 1 || k <= |scenes|
    ensures |t| == if k <= 1 then 0 else 2 * (k - 1)
    ensures forall m :: 0 <= m < |t| ==> t[m].productName == base.productName
  {
    if k <= 1 then []
    else
      LoopTrace(base, scenes, images, k - 1)
        + [MarkSnapshot(base, scenes, images, k - 1)] + [DoneSnapshot(base, scenes, images, k - 1)]
  }

  /** Snapshots of lines 84-118, from the project `p4` rendering starts with:
      the first scene, the loop, and the completed project. */
  function RenderingTrace(p4: Project, scenes: seq<Scene>, images: seq<ImagePair>): (t: seq<Project>)
    ensures t != [] && t[|t| - 1] == p4.(storyboard := FinalScenes(scenes, images), status := Complete, progress := 100)
    ensures forall m :: 0 <= m < |t| ==> t[m].productName == p4.productName
  {
    FirstSceneTrace(p4, scenes, images)
      + LoopTrace(RenderBase(p4, scenes, images), scenes, images, |scenes|)
      + [p4.(storyboard := FinalScenes(scenes, images), status := Complete, progress := 100)]
  }

  /** Every snapshot one run records, in order (lines 48-124). Empty exactly
      when the product name is empty: then the run changes nothing. Otherwise
      the first snapshot is Analyzing at 10 (line 52) and the rest is `DraftTrace`. */
  function AutomationTrace(p: Project, listing: Result<Listing>, concepts: Result<seq<string>>,
                           storyboard: Result<seq<Scene>>, images: seq<ImagePair>): (t: seq<Project>)
    ensures t == [] <==> p.productName == []
    ensures t != [] ==> t[0] == p.(status := Analyzing, progress := 10)
    ensures t != [] ==>
      if listing.Ok? && concepts.Ok? && storyboard.Ok? then t[|t| - 1].status == Complete && t[|t| - 1].progress == 100
      else t[|t| - 1].status == Idle && t[|t| - 1].progress == 0
    ensures forall m :: 0 <= m < |t| ==> t[m].productName == p.productName
  {
    if p.productName == [] then []
    else
      var p1 := p.(status := Analyzing, progress := 10);
      [p1] + DraftTrace(p1, listing, concepts, storyboard, images)
  }

  /** The snapshots after the first: Idle at 0 when the listing or the
      concepts call failed (line 122); otherwise the listing and concepts
      stored at 40 (lines 62-68) followed by `StoryboardTrace`. */
  function DraftTrace(p1: Project, listing: Result<Listing>, concepts: Result<seq<string>>,
                      storyboard: Result<seq<Scene>>, images: seq<ImagePair>): (t: seq<Project>)
    ensures t != [] && t[0].productName == p1.productName
    ensures if listing.Ok? && concepts.Ok? && storyboard.Ok? then t[|t| - 1].status == Complete && t[|t| - 1].progress == 100
      else t[|t| - 1].status == Idle && t[|t| - 1].progress == 0
    ensures forall m :: 0 <= m < |t| ==> t[m].productName == p1.productName
  {
    if listing.Err? || concepts.Err? then [p1.(status := Idle, progress := 0)]
    else
      var p2 := p1.(listing := Some(listing.value), marketingConcepts := concepts.value,
                    status := Brainstorming, progress := 40);
      [p2] + StoryboardTrace(p2, concepts.value, storyboard, images)
  }

  /** The snapshots from the concept choice on: the chosen concept at 50
      (line 72), then Idle at 0 if the storyboard call failed, otherwise the
      storyboard installed at 70 (line 76) followed by `RenderingTrace`. */
  function StoryboardTrace(p2: Project, concepts: seq<string>, storyboard: Result<seq<Scene>>,
                           images: seq<ImagePair>): (t: seq<Project>)
    ensures t != [] && t[0].productName == p2.productName
    ensures if storyboard.Ok? then t[|t| - 1].status == Complete && t[|t| - 1].progress == 100
      else t[|t| - 1].status == Idle && t[|t| - 1].progress == 0
    ensures forall m :: 0 <= m < |t| ==> t[m].productName == p2.productName
  {
    var p3 := p2.(selectedConcept := SelectConcept(concepts), status := Storyboarding, progress := 50);
    [p3] + (if storyboard.Err? then [p3.(status := Idle, progress := 0)]
            else
              var p4 := p3.(storyboard := storyboard.value, status := Rendering, progress := 70);
              [p4] + RenderingTrace(p4, storyboard.value, images))
  }

  /** Concatenation regroups freely; used to line a recorded history up with a trace. */
  lemma AppendAssoc<T>(a: seq<T>, b: seq<T>, c: seq<T>)
    ensures (a + b) + c == a + (b + c)
  {
  }

  /** The project after one run. */
  function AfterAutomation(p: Project, listing: Result<Listing>, concepts: Result<seq<string>>,
                           storyboard: Result<seq<Scene>>, images: seq<ImagePair>): Project
  {
    var t := AutomationTrace(p, listing, concepts, storyboard, images);
    if t == [] then p else t[|t| - 1]
  }
}
