/** The marketing studio (components/Marketing.tsx): a two-step editor that
    brainstorms campaign concepts, turns the chosen one into a storyboard and
    renders the frames of one scene at a time. Calls into the hosted model
    are not made: their outcomes are parameters and the requests are returned. */
module Marketing {
  import opened Wrappers
  import opened Types
  import opened Automation

  /** The style directives this editor appends to a frame prompt (lines 56-57). */
  const SceneSuffix: string := " Aspect ratio 16:9. Photorealistic, cinematic 4k."

  /** The two image requests for one scene, start frame first. */
  function SceneImageRequests(s: Scene): seq<Request>
  {
    [ImageRequest(s.startFramePrompt + SceneSuffix), ImageRequest(s.endFramePrompt + SceneSuffix)]
  }

  class Editor {
    var productName: string
    /** The wizard step; the type in the source allows 3, but no handler sets it. */
    var step: int
    var concepts: seq<string>
    var selectedConcept: string
    var scenes: seq<Scene>
    var isLoading: bool
    /** Every value the loading flag was set to, in order. */
    ghost var loadingHistory: seq<bool>
    /** Every storyboard passed to the scenes setter, in order. */
    ghost var sceneHistory: seq<seq<Scene>>

    /** The step is 1 or 2. */
    predicate Valid()
      reads this
    {
      step == 1 || step == 2
    }

    /** Lines 11-16: the product from the caller (or empty), step 1, nothing loaded. */
    constructor(initialProduct: Option<string>)
      ensures Valid() && step == 1
      ensures productName == (if initialProduct.Some? then initialProduct.value else "")
      ensures concepts == [] && selectedConcept == "" && scenes == [] && !isLoading
      ensures loadingHistory == [] && sceneHistory == []
    {
      productName := if initialProduct.Some? then initialProduct.value else "";
      step := 1;
      concepts := [];
      selectedConcept := "";
      scenes := [];
      isLoading := false;
      loadingHistory := [];
      sceneHistory := [];
    }

    method SetLoading(b: bool)
      modifies this`isLoading, this`loadingHistory
      ensures isLoading == b && loadingHistory == old(loadingHistory) + [b]
    {
      isLoading := b;
      loadingHistory := loadingHistory + [b];
    }

    method SetScenes(s: seq<Scene>)
      modifies this`scenes, this`sceneHistory
      ensures scenes == s && sceneHistory == old(sceneHistory) + [s]
    {
      scenes := s;
      sceneHistory := sceneHistory + [s];
    }

    /** Lines 19-30: nothing on an empty product name; otherwise the spinner
        is on for the call, the concepts are replaced on success and kept on
        failure, and the spinner is off afterwards either way. */
    method Brainstorm(outcome: Result<seq<string>>) returns (requests: seq<Request>)
      requires Valid()
      modifies this`concepts, this`isLoading, this`loadingHistory
      ensures Valid()
      ensures productName == [] ==>
        requests == [] && concepts == old(concepts) && isLoading == old(isLoading)
        && loadingHistory == old(loadingHistory)
      ensures productName != [] ==>
        && requests == [ConceptsRequest(productName)]
        && concepts == (if outcome.Ok? then outcome.value else old(concepts))
        && !isLoading && loadingHistory == old(loadingHistory) + [true, false]
    {
      if productName == [] {
        return [];
      }
      SetLoading(true);
      requests := [ConceptsRequest(productName)];
      if outcome.Ok? {
        concepts := outcome.value;
      }
      SetLoading(false);
    }

    /** Lines 33-45: the chosen concept is recorded before the call; on success
        the storyboard is replaced and the editor moves to step 2, on failure
        both stay; the spinner is off afterwards either way. */
    method GenerateStoryboard(concept: string, outcome: Result<seq<Scene>>) returns (request: Request)
      requires Valid()
      modifies this`selectedConcept, this`scenes, this`sceneHistory, this`step, this`isLoading, this`loadingHistory
      ensures Valid()
      ensures request == StoryboardRequest(productName, Some(concept))
      ensures selectedConcept == concept
      ensures outcome.Ok? ==> scenes == outcome.value && step == 2 && sceneHistory == old(sceneHistory) + [outcome.value]
      ensures outcome.Err? ==> scenes == old(scenes) && step == old(step) && sceneHistory == old(sceneHistory)
      ensures !isLoading && loadingHistory == old(loadingHistory) + [true, false]
    {
      selectedConcept := concept;
      SetLoading(true);
      request := StoryboardRequest(productName, Some(concept));
      if outcome.Ok? {
        SetScenes(outcome.value);
        step := 2;
      }
      SetLoading(false);
    }

    /** Line 144, "Change Concept": back to step 1, everything else kept. */
    method ChangeConcept()
      modifies this`step
      ensures Valid() && step == 1
    {
      step := 1;
    }

    /** Lines 48-68: flag scene `index`, request both frames, store both images
        on success, lower the flag either way. Only that scene changes; the
        images of a failed call are left as they were. */
    method RenderSceneImages(index: nat, outcome: ImagePair) returns (requests: seq<Request>)
      requires index < |scenes|
      modifies this`scenes, this`sceneHistory
      ensures requests == SceneImageRequests(old(scenes)[index])
      ensures |scenes| == |old(scenes)|
      ensures forall j :: 0 <= j < |scenes| && j != index ==> scenes[j] == old(scenes)[j]
      ensures scenes[index] == RenderedLater(old(scenes)[index], outcome)
      ensures sceneHistory == old(sceneHistory) + [old(scenes)[index := Generating(old(scenes)[index])], scenes]
    {
      var current := scenes;
      var newScenes := new Scene[|current|](j requires 0 <= j < |current| => current[j]);
      newScenes[index] := Generating(newScenes[index]);
      assert newScenes[..] == current[index := Generating(current[index])];
      SetScenes(newScenes[..]);
      requests := SceneImageRequests(newScenes[index]);
      if outcome.Some? {
        newScenes[index] := newScenes[index].(startImage := Some(outcome.value.0), endImage := Some(outcome.value.1));
      }
      newScenes[index] := newScenes[index].(isGenerating := Some(false));
      SetScenes(newScenes[..]);
    }
  }

  /** Re-rendering a scene from the editor: the flag raised before the call
      leaves no trace, a failed retry keeps whatever an earlier render stored,
      and a successful retry replaces it. */
  lemma Rerender(s: Scene, first: ImagePair, retry: ImagePair)
    ensures RenderedLater(Generating(s), first) == RenderedLater(s, first)
    ensures RenderedLater(RenderedLater(s, first), None) == RenderedLater(s, first)
    ensures retry.Some? ==> RenderedLater(RenderedLater(s, first), retry) == RenderedLater(s, retry)
  {
  }
}
