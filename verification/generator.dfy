/** The single-listing generator (components/Generator.tsx): a product name,
    a tone, free-text context and an optional product image go in; a listing
    or an error message comes out. An uploaded image is analysed at once and
    the analysis is appended to the context. Calls into the hosted model and
    the browser's file reader are not made: the file's MIME type and data URL
    and the calls' outcomes are parameters, and the calls are returned. */
module Generator {
  import opened Wrappers
  import opened Types
  import JsText

  /** A call into the hosted model, recorded instead of performed. */
  datatype GatewayCall =
    | GenerateListing(productName: string, tone: string, context: string,
                      imageData: Option<string>, mimeType: Option<string>)
    | AnalyzeImage(base64Data: Option<string>, fileType: string)

  /** The label put in front of an image analysis in the context. */
  const AnalysisLabel: string := "Visual Analysis: "

  /** Line 45: the context after analysis `a` arrives. An empty context becomes
      the labelled analysis; a non-empty one keeps its text, then a blank
      line, then the labelled analysis. */
  function AppendAnalysis(prev: string, a: string): (r: string)
    ensures |r| == |prev| + (if prev == [] then 0 else 2) + |AnalysisLabel| + |a|
    ensures r[..|prev|] == prev
    ensures r[|r| - |a|..] == a
    ensures prev != [] ==> r[|prev|..|prev| + 2] == "\n\n"
    ensures r[|r| - |a| - |AnalysisLabel|..|r| - |a|] == AnalysisLabel
  {
    if prev == [] then AnalysisLabel + a else prev + "\n\n" + AnalysisLabel + a
  }

  /** Two analyses in a row leave both in the context, in arrival order,
      each on its own labelled paragraph. */
  lemma AppendAnalysisTwice(prev: string, a: string, b: string)
    ensures AppendAnalysis(AppendAnalysis(prev, a), b)
      == AppendAnalysis(prev, a) + "\n\n" + AnalysisLabel + b
    ensures AppendAnalysis(AppendAnalysis("", a), b) == AnalysisLabel + a + "\n\n" + AnalysisLabel + b
  {
  }

  /** The image arguments of a generate call (lines 62-68): the data part of
      the preview's data URL and the file's MIME type, only when a non-empty
      preview and a file are both present. */
  function ImageArgs(preview: Option<string>, fileType: Option<string>): (r: (Option<string>, Option<string>))
    ensures r.1.Some? <==> preview.Some? && preview.value != [] && fileType.Some?
    ensures r.1.Some? ==> r.1 == fileType && r.0 == JsText.SecondField(preview.value)
    ensures r.1.None? ==> r.0.None?
  {
    if preview.Some? && preview.value != [] && fileType.Some? then (JsText.SecondField(preview.value), fileType)
    else (None, None)
  }

  class ListingGenerator {
    var productName: string
    var tone: string
    var context: string
    /** The chosen file, represented by its MIME type. */
    var imageFile: Option<string>
    /** The file's data URL once read. */
    var imagePreview: Option<string>
    var imageAnalysis: string
    var state: GenerationState
    var isAnalyzingImage: bool
    /** Every value the generation state was set to, in order. */
    ghost var stateHistory: seq<GenerationState>
    /** Every value the analysing flag was set to, in order. */
    ghost var analyzingHistory: seq<bool>

    /** Lines 11-24. */
    constructor(initialProduct: Option<string>)
      ensures productName == (if initialProduct.Some? then initialProduct.value else "")
      ensures tone == "Persuasive & Professional" && context == ""
      ensures imageFile.None? && imagePreview.None? && imageAnalysis == ""
      ensures state == GenerationState(false, None, None) && !isAnalyzingImage
      ensures stateHistory == [] && analyzingHistory == []
    {
      productName := if initialProduct.Some? then initialProduct.value else "";
      tone := "Persuasive & Professional";
      context := "";
      imageFile := None;
      imagePreview := None;
      imageAnalysis := "";
      state := GenerationState(false, None, None);
      isAnalyzingImage := false;
      stateHistory := [];
      analyzingHistory := [];
    }

    method SetState(s: GenerationState)
      modifies this`state, this`stateHistory
      ensures state == s && stateHistory == old(stateHistory) + [s]
    {
      state := s;
      stateHistory := stateHistory + [s];
    }

    method SetAnalyzing(b: bool)
      modifies this`isAnalyzingImage, this`analyzingHistory
      ensures isAnalyzingImage == b && analyzingHistory == old(analyzingHistory) + [b]
    {
      isAnalyzingImage := b;
      analyzingHistory := analyzingHistory + [b];
    }

    /** Lines 56-75: nothing on an empty product name. Otherwise the state is
        first loading with error and data cleared, then not loading with
        exactly one of data (on success) or the error message (on failure). */
    method Generate(outcome: Result<Listing>) returns (call: Option<GatewayCall>)
      modifies this`state, this`stateHistory
      ensures productName == [] ==>
        call.None? && state == old(state) && stateHistory == old(stateHistory)
      ensures productName != [] ==>
        && call == Some(GenerateListing(productName, tone, context,
                                        ImageArgs(imagePreview, imageFile).0, ImageArgs(imagePreview, imageFile).1))
        && stateHistory == old(stateHistory) + [GenerationState(true, None, None), state]
        && !state.isLoading
        && (state.data.Some? <==> outcome.Ok?) && (state.error.Some? <==> outcome.Err?)
        && (outcome.Ok? ==> state.data == Some(outcome.value))
        && (outcome.Err? ==> state.error == Some(outcome.message))
    {
      if productName == [] {
        return None;
      }
      SetState(GenerationState(true, None, None));
      var imageData: Option<string> := None;
      var mimeType: Option<string> := None;
      if imagePreview.Some? && imagePreview.value != [] && imageFile.Some? {
        imageData := JsText.SecondField(imagePreview.value);
        mimeType := imageFile;
      }
      call := Some(GenerateListing(productName, tone, context, imageData, mimeType));
      match outcome {
        case Ok(listing) => SetState(GenerationState(false, None, Some(listing)));
        case Err(message) => SetState(GenerationState(false, Some(message), None));
      }
    }

    /** Lines 28-54: nothing when no file was chosen. Otherwise the file and
        its data URL are stored, the analysing flag is raised, the analysis
        is requested with the data part of the URL; on success the analysis
        is stored and appended to the context; the flag is lowered either way. */
    method FileChange(selected: Option<(string, string)>, analysis: Result<string>) returns (call: Option<GatewayCall>)
      modifies this`imageFile, this`imagePreview, this`imageAnalysis, this`context,
               this`isAnalyzingImage, this`analyzingHistory
      ensures selected.None? ==>
        && call.None? && imageFile == old(imageFile) && imagePreview == old(imagePreview)
        && imageAnalysis == old(imageAnalysis) && context == old(context)
        && isAnalyzingImage == old(isAnalyzingImage) && analyzingHistory == old(analyzingHistory)
      ensures selected.Some? ==>
        && call == Some(AnalyzeImage(JsText.SecondField(selected.value.1), selected.value.0))
        && imageFile == Some(selected.value.0) && imagePreview == Some(selected.value.1)
        && !isAnalyzingImage && analyzingHistory == old(analyzingHistory) + [true, false]
        && (analysis.Ok? ==> imageAnalysis == analysis.value && context == AppendAnalysis(old(context), analysis.value))
        && (analysis.Err? ==> imageAnalysis == old(imageAnalysis) && context == old(context))
    {
      if selected.None? {
        return None;
      }
      var (mime, dataUrl) := selected.value;
      imageFile := Some(mime);
      imagePreview := Some(dataUrl);
      SetAnalyzing(true);
      call := Some(AnalyzeImage(JsText.SecondField(dataUrl), mime));
      if analysis.Ok? {
        imageAnalysis := analysis.value;
        context := AppendAnalysis(context, analysis.value);
      }
      SetAnalyzing(false);
    }

    /** Line 134: the preview, the file and the analysis text are cleared; the
        analysis already appended to the context stays there. */
    method RemoveImage()
      modifies this`imagePreview, this`imageFile, this`imageAnalysis
      ensures imagePreview.None? && imageFile.None? && imageAnalysis == ""
    {
      imagePreview := None;
      imageFile := None;
      imageAnalysis := "";
    }
  }
}
