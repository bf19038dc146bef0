# Auto-list-AI front end: a verified Dafny model

Auto-list-AI is a browser front end for e-commerce sellers. It spots trending
products, drafts a marketplace listing for one of them with a hosted
generative model, and turns the product into a short video campaign: a few
campaign concepts, a storyboard of scenes, and a start and end frame image
per scene. This project models the logic of its screens:

- **The automation studio** (`components/ProductStudio.tsx`). This is the core.
  - `runAutomation` drives one product through four stages: listing plus concepts, concept choice, storyboard, and scene rendering. Each stage records a snapshot of the project record: status, progress and generated content.
  - The studio also builds the clipboard text of a listing and keeps the list of marketplace channels.
  - The class `ProductStudio.Studio` holds the project. Its ghost field `history` records every `setProject` call. `RunAutomation` is proved to record exactly the snapshots of the specification function `Automation.AutomationTrace`, and `AutomationLemmas` proves what that trace promises.
- **The marketing editor** (`components/Marketing.tsx`). It has two steps: brainstorm concepts, then turn the chosen one into a storyboard. It renders one scene at a time (`Marketing.Editor`).
- **The listing generator** (`components/Generator.tsx`). A loading/error/data state machine. An uploaded image is analysed at once, and the analysis is appended to the free-text context (`Generator.ListingGenerator`).
- **The trend dashboard** (`components/Dashboard.tsx`). Sixteen fixed trends, eight to a page, with previous/next and numbered page buttons (`Dashboard.TrendBoard`).
- **The shared records** (`types.ts`): `Types`. Also the JavaScript string built-ins the code relies on: `toLowerCase`, `includes`, `trim`, `join` and `split(',')[1]` (`JsText`).

Calls into the hosted model are never made. Each call's outcome is a parameter: a `Result` for a call that can throw, and an `Option` pair for a scene's two joint image calls. Each handler returns the calls it would send, as values, so the order and the arguments of the calls are part of what is proved.

Where the code's behaviour may be unexpected, the model follows the code:

- **No re-entrancy guard.** `runAutomation` has none of its own; only its call sites check the status.
- **Storyboard failure.** A failed storyboard call resets status and progress. The storyboard the project already had is kept, not cleared (`AutomationLemmas.StoryboardFailure`).
- **Empty concept list.** The concepts call can return an empty list. The chosen concept is then `undefined` (`None`), and the storyboard is still requested with it.
- **First scene failure.** When the first scene's images fail, its `isGenerating` flag stays raised and progress stays at 70.
- **Progress past 100.** With seven scenes or more, progress goes above 100 before the final snapshot sets it to 100 (`AutomationLemmas.ProgressOrder`). The record's comment says 0-100.

## Model

| member | source | states |
|---|---|---|
| `Types.AllStatuses` | types.ts:41 | the status enumeration has exactly seven distinct values and DRAFTING is one of them |
| `JsText.ToLower` | components/ProductStudio.tsx:71 | lower-casing keeps the length and maps every character on its own (ASCII letters only) |
| `JsText.Includes` | components/ProductStudio.tsx:71 | true exactly when the pattern occurs at some position of the text |
| `JsText.TrimStart` | components/ProductStudio.tsx:149 | the result is a suffix of the input; everything dropped is whitespace; it does not start with whitespace |
| `JsText.TrimEnd` | components/ProductStudio.tsx:149 | the result is a prefix of the input; everything dropped is whitespace; it does not end with whitespace |
| `JsText.TrimEndAppend` | components/ProductStudio.tsx:138-149 | trimming the end of `a + b` never reaches into `a` when `a` ends in a visible character |
| `JsText.TrimAround` | components/ProductStudio.tsx:138-149 | trimming a line break, a visibly bounded head and a tail leaves the head and the end-trimmed tail |
| `JsText.Trim` | components/ProductStudio.tsx:149 | the result is a slice of the input with only whitespace dropped before and after it, and it neither starts nor ends with whitespace |
| `JsText.Join` | components/ProductStudio.tsx:143 | joining no parts gives the empty text; joining one part gives that part |
| `JsText.IndexOf` | components/Generator.tsx:42 | the first position of the character, or none exactly when it is absent |
| `JsText.SecondField` | components/Generator.tsx:42 | `split(',')[1]`: none exactly when there is no comma; otherwise the text between the first comma and the next comma or the end, itself comma-free |
| `Automation.FindGuerrilla` | components/ProductStudio.tsx:71 | the index of the first concept whose lower-cased text includes "guerrilla"; no earlier concept does; none only when no concept does |
| `Automation.SelectConcept` | components/ProductStudio.tsx:71 | no concept exactly when the list is empty; otherwise the first guerrilla concept, or the first concept when none mentions guerrilla |
| `Automation.FinalScene` | components/ProductStudio.tsx:84-115 | a scene once its pair resolved keeps number and prompts. On success it gets both images and the flag is lowered. On failure the images are unchanged; the flag stays raised for scene 0 and is lowered for later scenes |
| `Automation.FinalScenes` | components/ProductStudio.tsx:84-116 | the final storyboard has the same length and holds every scene in its final form |
| `Automation.PartlyRenderedNext` | components/ProductStudio.tsx:93-95 | finishing scene `i`, flagged or not, extends the finished prefix by exactly that scene |
| `Automation.FirstThenLaterRequests` | components/ProductStudio.tsx:89-110 | the first scene's pair of requests, then the loop's pairs, are all the pairs in scene order |
| `Automation.AutomationTrace` | components/ProductStudio.tsx:48-124 | a run records nothing exactly when the product name is empty. Otherwise its first snapshot is ANALYZING at 10, and its last is COMPLETE at 100 when the listing, concepts and storyboard calls all succeed and IDLE at 0 when any fails. Every snapshot keeps the product name |
| `Automation.DraftTrace` | components/ProductStudio.tsx:57-68 | the snapshots after ANALYZING: the run ends COMPLETE at 100 when all three calls succeed and IDLE at 0 otherwise (line 122); every snapshot keeps the product name |
| `Automation.StoryboardTrace` | components/ProductStudio.tsx:70-118 | the snapshots from the concept choice on: the run ends COMPLETE at 100 when the storyboard call succeeds and IDLE at 0 when it fails; every snapshot keeps the product name |
| `Automation.RenderingTrace` | components/ProductStudio.tsx:84-118 | the rendering phase ends with the project COMPLETE at 100 and every scene in its final form; every snapshot keeps the product name |
| `Automation.LoopTrace` | components/ProductStudio.tsx:103-116 | the loop over scenes 1..k-1 records two snapshots per scene and keeps the product name |
| `Automation.RenderedFirst` | components/ProductStudio.tsx:93-95 | the first scene after its pair resolved keeps number and prompts. On success it has both images and the flag lowered; on failure the images are unchanged and the flag stays raised |
| `Automation.RenderedLater` | components/ProductStudio.tsx:111-114 | a later scene after its pair resolved keeps number and prompts, has both images on success and the old ones on failure, and has the flag lowered either way |
| `Automation.ImageRequests` | components/ProductStudio.tsx:90-109 | two image requests per scene |
| `Automation.AutomationRequests` | components/ProductStudio.tsx:57-109 | no request exactly when the product name is empty. Otherwise the listing request (tone and context constants) then the concepts request come first. A failed listing or concepts call stops there; otherwise the storyboard request for the chosen concept follows, then two image requests per scene when the storyboard arrived |
| `Automation.StageRequests` | components/ProductStudio.tsx:70-109 | nothing after a failed listing or concepts call; otherwise the storyboard request for the chosen concept, then two image requests per scene when the storyboard arrived |
| `AutomationLemmas.LoopTraceAt` | components/ProductStudio.tsx:103-116 | the loop records two snapshots per later scene, in scene order: the scene flagged, then the scene done |
| `AutomationLemmas.LoopProgressAt` | components/ProductStudio.tsx:105-115 | the progress each loop snapshot shows: unchanged while scene `i` is flagged, 80 + 4i once it is done |
| `AutomationLemmas.LoopReadingsMatch` | components/ProductStudio.tsx:103-116 | the loop's progress readings are those of the reference sequence `LoopReadings` |
| `AutomationLemmas.RunProgress` | components/ProductStudio.tsx:52-118 | when the listing, concepts and storyboard succeed, the readings are 10, 40, 50, 70, then 80 if scene 0 rendered, then 4 more per later scene, then 100 |
| `AutomationLemmas.LoopReadingsShape` | components/ProductStudio.tsx:103-116 | the loop's readings never go down and run from the first scene's reading to 80 + 4(n-1) |
| `AutomationLemmas.ReadingsBounded` | components/ProductStudio.tsx:52-118 | with at most six scenes every reading is within 10..100 |
| `AutomationLemmas.ReadingsAscending` | components/ProductStudio.tsx:52-118 | with at most six scenes the readings never go down |
| `AutomationLemmas.ReadingsOvershoot` | components/ProductStudio.tsx:115-118 | with seven scenes or more the reading before the last is 80 + 4(n-1), above 100, and the last is 100 |
| `AutomationLemmas.ReadingsInRange` | components/ProductStudio.tsx:103-118 | all readings lie in 0..100 if and only if there are at most six scenes |
| `AutomationLemmas.ReadingsEighty` | components/ProductStudio.tsx:96 | a reading of 80 appears if and only if the first scene rendered |
| `AutomationLemmas.ProgressInRange` | components/ProductStudio.tsx:48-124 | over every possible run, progress stays in 0..100 in every snapshot unless all three stages succeed with seven or more scenes |
| `AutomationLemmas.ProgressOrder` | components/ProductStudio.tsx:103-118 | when the stages succeed with at most six scenes, progress never goes down; with seven or more it reads 80 + 4(n-1) > 100 just before settling at 100 |
| `AutomationLemmas.ProgressEighty` | components/ProductStudio.tsx:84-100 | with a storyboard, progress shows 80 at some point if and only if scene 0's images were generated |
| `AutomationLemmas.LoopTraceKeeps` | components/ProductStudio.tsx:105-115 | loop snapshots change only the storyboard and the progress of the project they start from |
| `AutomationLemmas.SuccessShape` | components/ProductStudio.tsx:52-118 | when the three calls succeed, the run records ANALYZING, BRAINSTORMING, STORYBOARDING and RENDERING snapshots and then the rendering phase, ends COMPLETE with every scene final, and sends listing, concepts and storyboard requests then the image requests |
| `AutomationLemmas.RenderingProgress` | components/ProductStudio.tsx:84-118 | from a start at 70, the rendering phase reads 70 and, if scene 0 rendered, 80; then the loop's readings; then 100 |
| `AutomationLemmas.RenderingKeeps` | components/ProductStudio.tsx:84-116 | every rendering snapshot but the last changes only the storyboard and the progress of the project rendering started with |
| `AutomationLemmas.SuccessfulRun` | components/ProductStudio.tsx:52-118 | the stages go ANALYZING, BRAINSTORMING, STORYBOARDING, then RENDERING with listing, concepts and chosen concept in place. The run ends COMPLETE at 100 with every scene final, whatever the image calls did |
| `AutomationLemmas.DraftFailure` | components/ProductStudio.tsx:57-60 | a failed listing or concepts call records exactly two snapshots, ANALYZING at 10 then IDLE at 0, sends only those two calls, and leaves every other field as before |
| `AutomationLemmas.StoryboardFailure` | components/ProductStudio.tsx:75 | a failed storyboard call records exactly ANALYZING, BRAINSTORMING, STORYBOARDING, then IDLE at 0. It sends exactly the listing, concepts and storyboard requests. It keeps the listing, the concepts, the chosen concept and the previous storyboard |
| `AutomationLemmas.EmptyNameRun` | components/ProductStudio.tsx:49 | with an empty product name a run sends nothing and leaves the project as it was |
| `AutomationLemmas.LoopInOrder` | components/ProductStudio.tsx:103-116 | every loop snapshot shows the scenes rendered in index order |
| `AutomationLemmas.RenderingTraceInOrder` | components/ProductStudio.tsx:84-118 | every snapshot from the first scene to completion shows the scenes rendered in index order |
| `AutomationLemmas.RenderOrder` | components/ProductStudio.tsx:76-118 | from the snapshot that installs the storyboard on, no scene is touched until every scene before it is final |
| `AutomationLemmas.InRenderOrderPaired` | components/ProductStudio.tsx:93-94 | a storyboard rendered in order from scenes with both images or neither has both images or neither in every scene |
| `AutomationLemmas.ImagesPaired` | components/ProductStudio.tsx:84-116 | in every snapshot of every run, each scene has both images or neither |
| `AutomationLemmas.ImageRequestsAt` | components/ProductStudio.tsx:90-109 | two image requests per scene in scene order: the start frame prompt then the end frame prompt, each followed by the style suffix |
| `AutomationLemmas.RunRequests` | components/ProductStudio.tsx:57-109 | a run whose stages succeed calls, in order: listing (tone "Persuasive", context "Focus on viral features"), concepts, storyboard for the chosen concept, then one image pair per scene |
| `ProductStudio.InitialMarketplaces` | components/ProductStudio.tsx:40-43 | two channels with distinct ids, both connected and both with a last-sync time |
| `ProductStudio.WithChannel` | components/ProductStudio.tsx:156-164 | an empty form name leaves the list as it was. Otherwise exactly one connected entry is appended, carrying the form's name and platform, the given id and last sync "Just now" |
| `ProductStudio.WithoutChannel` | components/ProductStudio.tsx:169-171 | the result holds exactly the entries whose id differs |
| `ProductStudio.WithoutChannelAppend` | components/ProductStudio.tsx:170 | removal keeps order: removing from a concatenation is concatenating the removals |
| `ProductStudio.WithoutChannelIdempotent` | components/ProductStudio.tsx:170 | removing twice is removing once; removing an absent id changes nothing |
| `ProductStudio.AddThenRemove` | components/ProductStudio.tsx:156-171 | adding a channel under a fresh id and removing that id gives back the original list |
| `ProductStudio.CopyText` | components/ProductStudio.tsx:134-149 | the text `handleCopyListing` puts on the clipboard: there is no text exactly when there is no listing |
| `ProductStudio.CopyTextLayout` | components/ProductStudio.tsx:138-149 | the text is the TITLE/PRICE/FEATURES/DESCRIPTION/KEYWORDS block exactly, then the keyword line with only its trailing whitespace trimmed |
| `ProductStudio.CopyTextExact` | components/ProductStudio.tsx:138-149 | when the last keyword ends in a visible character, nothing is trimmed from the end |
| `ProductStudio.Studio.constructor` | components/ProductStudio.tsx:25-45 | a fresh project with the given name (or empty), IDLE at 0, the two initial channels and a blank eBay form |
| `ProductStudio.Studio.SetProject` | components/ProductStudio.tsx:25 | the project becomes the given value and that value is appended to the recorded history |
| `ProductStudio.Studio.RunAutomation` | components/ProductStudio.tsx:48-125 | the run sends exactly `AutomationRequests` and records exactly `AutomationTrace`, ending on its last snapshot |
| `ProductStudio.Studio.RunDraft` | components/ProductStudio.tsx:57-124 | from the listing and concepts outcomes on, the run sends exactly `StageRequests` and records exactly `DraftTrace`, ending on its last snapshot |
| `ProductStudio.Studio.RunStoryboard` | components/ProductStudio.tsx:70-124 | from the concept choice on, the run sends the storyboard request and then the image requests when the storyboard arrived, and records exactly `StoryboardTrace`, ending on its last snapshot |
| `ProductStudio.Studio.RenderScenes` | components/ProductStudio.tsx:79-118 | the first scene, the loop and the completion snapshot are recorded in order; the image requests are every scene's pair in index order |
| `ProductStudio.Studio.RenderFirstScene` | components/ProductStudio.tsx:84-100 | scene 0 is flagged and recorded; on success its images are stored with progress 80, and on failure it stays flagged |
| `ProductStudio.Studio.RenderLaterScenes` | components/ProductStudio.tsx:103-116 | the loop renders scenes 1..n-1 in order, recording `LoopTrace` and ending with every scene final |
| `ProductStudio.Studio.RenderLaterScene` | components/ProductStudio.tsx:104-115 | one pass: the scene is flagged, its pair requested, images stored on success, flag lowered, progress 80 + 4i |
| `ProductStudio.Studio.AddChannel` | components/ProductStudio.tsx:156-167 | an empty name changes nothing; otherwise the entry is appended, the form closes and resets to eBay with an empty name |
| `ProductStudio.Studio.RemoveChannel` | components/ProductStudio.tsx:169-171 | the list drops exactly the entries with that id, in order |
| `ProductStudio.Studio.ChooseConcept` | components/ProductStudio.tsx:334 | a clicked concept becomes the selected concept; nothing else changes |
| `Marketing.Editor.constructor` | components/Marketing.tsx:11-16 | the product from the caller (or empty), step 1, nothing loaded |
| `Marketing.Editor.Brainstorm` | components/Marketing.tsx:19-30 | a no-op on an empty product name; otherwise one concepts call, concepts replaced on success and kept on failure, the spinner on then off |
| `Marketing.Editor.GenerateStoryboard` | components/Marketing.tsx:33-45 | the chosen concept is recorded. Success replaces the scenes and moves to step 2; failure keeps both. The spinner is on, then off |
| `Marketing.Editor.ChangeConcept` | components/Marketing.tsx:144 | back to step 1 |
| `Marketing.Editor.RenderSceneImages` | components/Marketing.tsx:48-68 | only the scene at `index` changes. It is flagged, then finishes with the flag lowered: both images on success, both unchanged on failure. The prompts carry the editor's suffix |
| `Marketing.Rerender` | components/Marketing.tsx:48-67 | the flag raised before the image calls leaves no trace once they resolve; rendering a scene again with a failed call keeps the images an earlier render stored, and a successful one replaces them |
| `Generator.AppendAnalysis` | components/Generator.tsx:45 | the old context is kept as a prefix, followed by a blank line only when it was non-empty, then "Visual Analysis: " and the analysis |
| `Generator.AppendAnalysisTwice` | components/Generator.tsx:45 | two analyses in a row both stay in the context, in arrival order, each as its own labelled paragraph |
| `Generator.ImageArgs` | components/Generator.tsx:62-68 | image data and MIME type are passed only when a non-empty preview and a file are both present; the data is the data URL's part after the first comma |
| `Generator.ListingGenerator.constructor` | components/Generator.tsx:11-24 | the product from the caller (or empty), the default tone, empty context, no image, an idle state |
| `Generator.ListingGenerator.Generate` | components/Generator.tsx:56-75 | a no-op on an empty name. Otherwise the state is loading with error and data cleared, then not loading with exactly one of data (success) or the error message (failure) |
| `Generator.ListingGenerator.FileChange` | components/Generator.tsx:28-54 | no file: nothing. Otherwise file and preview are stored and analysis is requested on the data part of the URL. On success the analysis is stored and appended to the context. The analysing flag ends lowered either way |
| `Generator.ListingGenerator.RemoveImage` | components/Generator.tsx:134 | preview, file and analysis text are cleared |
| `Dashboard.InitialTrends` | components/Dashboard.tsx:7-25 | sixteen trends, all idle |
| `Dashboard.TotalPages` | components/Dashboard.tsx:48 | the page count is the ceiling of length / 8: enough pages for every entry, and none empty |
| `Dashboard.Slice` | components/Dashboard.tsx:50 | `slice` has as many entries as lie between the clamped bounds (none when they cross), and entry k is the input's entry at the clamped start plus k |
| `Dashboard.SliceConcat` | components/Dashboard.tsx:50 | two adjacent slices put together are the slice spanning both |
| `Dashboard.Page` | components/Dashboard.tsx:49-50 | page `p` (from 1) shows entries (p-1)*8 up to p*8 cut at the end of the list: never more than eight |
| `Dashboard.PageNotEmpty` | components/Dashboard.tsx:48-50 | every page from 1 to the last holds between one and eight entries |
| `Dashboard.PagesUpToPrefix` | components/Dashboard.tsx:48-50 | the first `k` pages in order are the first 8k entries, or all of them |
| `Dashboard.PagesCoverAll` | components/Dashboard.tsx:48-50 | reading pages 1 to the last in order gives the whole trend list in order |
| `Dashboard.InitialPages` | components/Dashboard.tsx:7-50 | the sixteen initial trends make two full pages of eight |
| `Dashboard.TrendBoard.constructor` | components/Dashboard.tsx:44-45 | the initial trends, on page 1 |
| `Dashboard.TrendBoard.CurrentTrends` | components/Dashboard.tsx:49-50 | the current page's entries: at most eight, at least one when there are trends |
| `Dashboard.TrendBoard.Next` | components/Dashboard.tsx:52-54 | one page on only when not on the last page; the page stays between 1 and the last |
| `Dashboard.TrendBoard.Prev` | components/Dashboard.tsx:56-58 | one page back only when not on the first page; the page stays between 1 and the last |
| `Dashboard.TrendBoard.GoTo` | components/Dashboard.tsx:157-160 | the button at position idx opens page idx + 1, which is between 1 and the last |

## Left out

- Hosted-model calls (services/gemini.ts) are not part of this model. Their outcomes are parameters, including `analyzeImage`'s default text and the fallback concept triple. The prompt texts and JSON parsing of those wrappers are not modelled.
- Each `Promise.all` join is one joint outcome. Interleaving and async suspension are not modelled, and neither is React's batching of state updates: each `setProject` is an immediate update.
- Rendering, styling, icons, the chart, tab switching (`setActiveTab`), clipboard writes, `alert`, `console`, timers and `isCopied` are left out. So are the browser's `FileReader`: the file's MIME type and data URL are parameters. `Date.now()` is also a parameter.
- Scene objects are values here. In the code, `[...scenes]` copies only the array, so snapshots share scene objects that are later mutated in place. The model records each snapshot as it was built. It does not capture that an older snapshot, viewed later through a shared object, shows the mutation.
- The auto-start effect (components/ProductStudio.tsx:128-132) is not modelled. It calls `runAutomation` when an initial product is given and the status is IDLE. `ProductStudio.Studio.RunAutomation` models `runAutomation` itself, which has no status guard, so that IDLE gate is not part of the model.
- Input fields that only store what is typed (product name, tone, context, channel form fields, the add-channel panel toggle) are plain field assignments and have no methods.
- components/Layout.tsx, App.tsx and components/Publisher.tsx are not part of this model. They are view routing and a timer-driven mock without data.
- JsText.ToLower: maps ASCII letters only; Unicode case mapping is not modelled.
- JsText.Join: the contract states only the empty and one-part cases; the general layout is its definition.
- Automation.AutomationTrace: its own contract states emptiness, the first and last snapshots and the kept product name. The complete behaviour is proved in the AutomationLemmas members.
- Automation.DraftTrace: its own contract states the final snapshot and the kept product name. The snapshots in between are proved in `AutomationLemmas.SuccessShape` and `AutomationLemmas.DraftFailure`.
- Automation.StoryboardTrace: its own contract states the final snapshot and the kept product name. The snapshots in between are proved in `AutomationLemmas.SuccessShape` and `AutomationLemmas.StoryboardFailure`.
- Automation.RenderingTrace: its own contract states the final snapshot and the kept product name. The snapshots in between are proved in `AutomationLemmas.RenderingProgress`, `AutomationLemmas.RenderingKeeps` and `AutomationLemmas.LoopTraceAt`.
- Automation.LoopTrace: its own contract states the length and the kept product name. The snapshots themselves are proved in `AutomationLemmas.LoopTraceAt`.
- Automation.ImageRequests: its own contract states the count; the order and prompts are `AutomationLemmas.ImageRequestsAt`.
- ProductStudio.CopyText: its own contract states only when there is text; the exact layout is CopyTextLayout and CopyTextExact.
- Marketing.Editor.RenderSceneImages: requires the index to be in range. The code throws on an out-of-range index before its `try`, and the buttons only pass positions of existing scenes.
- Dashboard.TrendBoard.GoTo: requires a position below the page count, since the buttons exist only for those positions.
