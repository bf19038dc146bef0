/** The automation studio (components/ProductStudio.tsx): the project record
    and its automation run, the clipboard text of a listing, and the list of
    marketplace channels. Calls into the hosted model are not made: their
    outcomes are parameters, and the requests are returned as values. */
module ProductStudio {
  import opened Wrappers
  import opened Types
  import opened Automation
  import AutomationLemmas
  import JsText

  /** A marketplace channel entry. */
  datatype Marketplace = Marketplace(id: string, name: string, platform: string, connected: bool, lastSync: Option<string>)

  /** The "add channel" form. */
  datatype ChannelForm = ChannelForm(platform: string, name: string, apiKey: string)

  /** The form as it is reset after an add (line 166) and as it starts (line 45). */
  function BlankForm(): ChannelForm
  {
    ChannelForm("eBay", "", "")
  }

  /** The two channels the studio starts with (lines 40-43). */
  function InitialMarketplaces(): (r: seq<Marketplace>)
    ensures |r| == 2 && r[0].id != r[1].id
    ensures forall i :: 0 <= i < |r| ==> r[i].connected && r[i].lastSync.Some?
  {
    [ Marketplace("1", "Amazon North America", "Amazon", true, Some("2 mins ago")),
      Marketplace("2", "Main Shopify Store", "Shopify", true, Some("1 hour ago")) ]
  }

  // ---------------------------------------------------------------------
  // Channels (lines 156-171)

  /** The channel list after "add": unchanged for an empty name, otherwise one
      connected entry built from the form appended at the end. */
  function WithChannel(ms: seq<Marketplace>, form: ChannelForm, id: string): (r: seq<Marketplace>)
    ensures form.name == [] ==> r == ms
    ensures form.name != [] ==> |r| == |ms| + 1 && r[..|ms|] == ms
    ensures form.name != [] ==>
      r[|ms|].id == id && r[|ms|].name == form.name && r[|ms|].platform == form.platform && r[|ms|].connected
      && r[|ms|].lastSync == Some("Just now")
  {
    if form.name == [] then ms
    else ms + [Marketplace(id, form.name, form.platform, true, Some("Just now"))]
  }

  /** `marketplaces.filter(m => m.id !== id)`. */
  function WithoutChannel(ms: seq<Marketplace>, id: string): (r: seq<Marketplace>)
    ensures |r| <= |ms|
    ensures forall m :: m in r ==> m in ms && m.id != id
    ensures forall m :: m in ms && m.id != id ==> m in r
  {
    if ms == [] then []
    else if ms[0].id == id then WithoutChannel(ms[1..], id)
    else [ms[0]] + WithoutChannel(ms[1..], id)
  }

  /** Removing keeps order: the filter of a concatenation is the concatenation of the filters. */
  lemma {:induction false} WithoutChannelAppend(a: seq<Marketplace>, b: seq<Marketplace>, id: string)
    ensures WithoutChannel(a + b, id) == WithoutChannel(a, id) + WithoutChannel(b, id)
  {
    if a != [] {
      var x, tail := a[0], a[1..];
      assert a == [x] + tail;
      AppendAssoc([x], tail, b);
      WithoutChannelCons(x, tail + b, id);
      WithoutChannelCons(x, tail, id);
      WithoutChannelAppend(tail, b, id);
      AppendAssoc([x], WithoutChannel(tail, id), WithoutChannel(b, id));
    } else {
      assert a + b == b;
    }
  }

  /** The filter of a list with a given head. */
  lemma WithoutChannelCons(x: Marketplace, rest: seq<Marketplace>, id: string)
    ensures WithoutChannel([x] + rest, id)
      == if x.id == id then WithoutChannel(rest, id) else [x] + WithoutChannel(rest, id)
  {
    assert ([x] + rest)[1..] == rest;
  }

  /** Removing an id not in the list changes nothing; removing twice is removing once. */
  lemma {:induction false} WithoutChannelIdempotent(ms: seq<Marketplace>, id: string)
    ensures WithoutChannel(WithoutChannel(ms, id), id) == WithoutChannel(ms, id)
    ensures (forall m :: m in ms ==> m.id != id) ==> WithoutChannel(ms, id) == ms
  {
    if ms != [] {
      WithoutChannelIdempotent(ms[1..], id);
      if ms[0].id != id {
        assert ([ms[0]] + WithoutChannel(ms[1..], id))[1..] == WithoutChannel(ms[1..], id);
      }
    }
  }

  /** Adding then removing the new id gives back the old list when no entry carried that id. */
  lemma AddThenRemove(ms: seq<Marketplace>, form: ChannelForm, id: string)
    requires forall m :: m in ms ==> m.id != id
    ensures WithoutChannel(WithChannel(ms, form, id), id) == ms
  {
    WithoutChannelIdempotent(ms, id);
    if form.name != [] {
      WithoutChannelAppend(ms, [Marketplace(id, form.name, form.platform, true, Some("Just now"))], id);
    }
  }

  // ---------------------------------------------------------------------
  // Clipboard text (lines 134-154)

  /** One "• b" line per bullet, newline separated. */
  function BulletLines(bullets: seq<string>): string
  {
    JsText.Join(seq(|bullets|, i requires 0 <= i < |bullets| => "• " + bullets[i]), "\n")
  }

  /** The lines between the title label and the keyword label. */
  function ListingBody(l: Listing): string
  {
    l.title + "\nPRICE: " + l.suggestedPrice + "\n\nFEATURES:\n" + BulletLines(l.bullets)
      + "\n\nDESCRIPTION:\n" + l.description
  }

  /** The fixed part of the text, from "TITLE: " to "KEYWORDS:". */
  function ListingTextHead(l: Listing): string
  {
    "TITLE: " + ListingBody(l) + "\n\nKEYWORDS:"
  }

  /** The template literal before `.trim()`: it opens with a line break. */
  function RawListingText(l: Listing): string
  {
    "\n" + ListingTextHead(l) + "\n" + JsText.Join(l.keywords, ", ")
  }

  /** The text `handleCopyListing` writes to the clipboard for the project's
      listing; nothing without a listing. */
  function CopyText(listing: Option<Listing>): (r: Option<string>)
    ensures r.None? <==> listing.None?
  {
    match listing
    case None => None
    case Some(l) => Some(JsText.Trim(RawListingText(l)))
  }

  /** The copied text is the head, from "TITLE: " through "KEYWORDS:", followed
      by the keyword line with only its trailing whitespace removed: trimming
      never reaches into the title, price, features or description. */
  lemma CopyTextLayout(l: Listing)
    ensures CopyText(Some(l)) == Some(ListingTextHead(l) + JsText.TrimEnd("\n" + JsText.Join(l.keywords, ", ")))
  {
    var body := ListingBody(l);
    var head := ListingTextHead(l);
    assert head[0] == 'T' by {
      assert head == "TITLE: " + (body + "\n\nKEYWORDS:");
    }
    assert head[|head| - 1] == ':';
    var tail := "\n" + JsText.Join(l.keywords, ", ");
    assert RawListingText(l) == "\n" + head + tail;
    JsText.TrimAround(head, tail);
  }

  /** With a keyword list whose last keyword ends in a visible character, the
      text is exactly the lines in order with nothing trimmed off the end. */
  lemma CopyTextExact(l: Listing)
    requires l.keywords != [] && Last(l.keywords) != [] && !JsText.IsWhitespace(Last(Last(l.keywords)))
    ensures CopyText(Some(l)) == Some(ListingTextHead(l) + "\n" + JsText.Join(l.keywords, ", "))
  {
    CopyTextLayout(l);
    KeywordLineKept(l.keywords);
    AppendAssoc(ListingTextHead(l), "\n", JsText.Join(l.keywords, ", "));
  }

  /** The keyword line loses nothing to trimming when the last keyword ends
      in a visible character. */
  lemma KeywordLineKept(keywords: seq<string>)
    requires keywords != [] && Last(keywords) != [] && !JsText.IsWhitespace(Last(Last(keywords)))
    ensures JsText.TrimEnd("\n" + JsText.Join(keywords, ", ")) == "\n" + JsText.Join(keywords, ", ")
  {
    var j := JsText.Join(keywords, ", ");
    JoinEndsWithLast(keywords, ", ");
    var k := Last(keywords);
    assert j[|j| - 1] == j[|j| - |k|..][|k| - 1] == Last(k);
    var tail := "\n" + j;
    assert tail[|tail| - 1] == j[|j| - 1];
  }

  function Last<T>(s: seq<T>): T
    requires s != []
  {
    s[|s| - 1]
  }

  /** A join of a non-empty list ends with its last part. */
  lemma {:induction false} JoinEndsWithLast(parts: seq<string>, sep: string)
    requires parts != []
    ensures var j := JsText.Join(parts, sep); |j| >= |Last(parts)| && j[|j| - |Last(parts)|..] == Last(parts)
  {
    if |parts| > 1 {
      JoinEndsWithLast(parts[1..], sep);
      assert Last(parts[1..]) == Last(parts);
    }
  }

  // ---------------------------------------------------------------------
  // The studio

  class Studio {
    var project: Project
    /** Every project value `setProject` stored, oldest first. */
    ghost var history: seq<Project>
    var marketplaces: seq<Marketplace>
    var isAddingChannel: bool
    var newChannel: ChannelForm

    /** Lines 25-45: the product from the caller (or empty), nothing generated, status Idle. */
    constructor (initialProduct: Option<string>)
      ensures project == NewProject(if initialProduct.Some? then initialProduct.value else "") && history == []
      ensures marketplaces == InitialMarketplaces() && !isAddingChannel && newChannel == BlankForm()
    {
      project := NewProject(if initialProduct.Some? then initialProduct.value else "");
      history := [];
      marketplaces := InitialMarketplaces();
      isAddingChannel := false;
      newChannel := BlankForm();
    }

    /** `setProject`: store a new project value and record it. */
    method SetProject(p: Project)
      modifies this`project, this`history
      ensures project == p && history == old(history) + [p]
    {
      project := p;
      history := history + [p];
    }

    /** `runAutomation` (lines 48-125). The outcomes of the listing, concepts
        and storyboard calls and of each scene's image pair are parameters;
        the requests the run sends are returned in order. */
    method RunAutomation(listing: Result<Listing>, concepts: Result<seq<string>>,
                         storyboard: Result<seq<Scene>>, images: seq<ImagePair>)
      returns (requests: seq<Request>)
      modifies this`project, this`history
      ensures requests == AutomationRequests(old(project), listing, concepts, storyboard)
      ensures history == old(history) + AutomationTrace(old(project), listing, concepts, storyboard, images)
      ensures project == AfterAutomation(old(project), listing, concepts, storyboard, images)
    {
      requests := [];
      if project.productName == [] {
        return;
      }
      var name := project.productName;
      ghost var h0 := history;
      SetProject(project.(status := Analyzing, progress := 10));
      ghost var p1 := project;
      requests := [ListingRequest(name, PipelineTone, PipelineContext), ConceptsRequest(name)];
      var later := RunDraft(listing, concepts, storyboard, images);
      requests := requests + later;
      AppendAssoc(h0, [p1], DraftTrace(p1, listing, concepts, storyboard, images));
    }

    /** Lines 57-68 and 119-123, after the first snapshot: on a failed listing
        or concepts call the status goes back to Idle at 0; otherwise the
        listing and the concepts are stored at 40 and the run goes on. */
    method RunDraft(listing: Result<Listing>, concepts: Result<seq<string>>,
                    storyboard: Result<seq<Scene>>, images: seq<ImagePair>)
      returns (requests: seq<Request>)
      modifies this`project, this`history
      ensures requests == StageRequests(old(project).productName, listing, concepts, storyboard)
      ensures history == old(history) + DraftTrace(old(project), listing, concepts, storyboard, images)
      ensures project == Last(DraftTrace(old(project), listing, concepts, storyboard, images))
    {
      ghost var h0 := history;
      if listing.Err? || concepts.Err? {
        SetProject(project.(status := Idle, progress := 0));
        return [];
      }
      SetProject(project.(listing := Some(listing.value), marketingConcepts := concepts.value,
                          status := Brainstorming, progress := 40));
      ghost var p2 := project;
      requests := RunStoryboard(concepts.value, storyboard, images);
      AppendAssoc(h0, [p2], StoryboardTrace(p2, concepts.value, storyboard, images));
    }

    /** Lines 70-118: pick the concept and store it at 50, request the
        storyboard; on failure go back to Idle at 0, otherwise install the
        storyboard at 70 and render it. */
    method RunStoryboard(concepts: seq<string>, storyboard: Result<seq<Scene>>, images: seq<ImagePair>)
      returns (requests: seq<Request>)
      modifies this`project, this`history
      ensures requests == [StoryboardRequest(old(project).productName, SelectConcept(concepts))]
                          + (if storyboard.Err? then [] else ImageRequests(storyboard.value))
      ensures history == old(history) + StoryboardTrace(old(project), concepts, storyboard, images)
      ensures project == Last(StoryboardTrace(old(project), concepts, storyboard, images))
    {
      ghost var h0 := history;
      var best := SelectConcept(concepts);
      SetProject(project.(selectedConcept := best, status := Storyboarding, progress := 50));
      ghost var p3 := project;
      requests := [StoryboardRequest(project.productName, best)];
      if storyboard.Err? {
        SetProject(project.(status := Idle, progress := 0));
        return;
      }
      var scenes := storyboard.value;
      SetProject(project.(storyboard := scenes, status := Rendering, progress := 70));
      ghost var p4 := project;
      var imageRequests := RenderScenes(scenes, images);
      requests := requests + imageRequests;
      AppendAssoc(h0 + [p3], [p4], RenderingTrace(p4, scenes, images));
      AppendAssoc(h0, [p3], [p4] + RenderingTrace(p4, scenes, images));
    }

    /** Lines 79-118: render the scenes strictly in index order, then mark the
        run complete. Image failures are swallowed scene by scene. */
    method RenderScenes(scenes: seq<Scene>, images: seq<ImagePair>) returns (requests: seq<Request>)
      requires project.storyboard == scenes
      modifies this`project, this`history
      ensures requests == ImageRequests(scenes)
      ensures history == old(history) + RenderingTrace(old(project), scenes, images)
      ensures project == old(project).(storyboard := FinalScenes(scenes, images), status := Complete, progress := 100)
    {
      ghost var p4 := project;
      ghost var h0 := history;
      var updated := RenderFirstScene(scenes, images);
      ghost var base := RenderBase(p4, scenes, images);
      var later := RenderLaterScenes(updated, images, scenes, base);
      ghost var first := FirstSceneTrace(p4, scenes, images);
      ghost var loop := LoopTrace(base, scenes, images, |scenes|);
      AppendAssoc(h0, first, loop);
      requests := if scenes == [] then [] else ScenePrompts(scenes[0]) + later;
      if scenes != [] {
        FirstThenLaterRequests(scenes, |scenes|);
        assert scenes[..|scenes|] == scenes;
      }
      ghost var final := p4.(storyboard := FinalScenes(scenes, images), status := Complete, progress := 100);
      assert project.(status := Complete, progress := 100) == final;
      SetProject(project.(status := Complete, progress := 100));
      AppendAssoc(h0, first + loop, [final]);
    }

    /** The loop at lines 103-116: scenes 1 .. n-1, one after the other. */
    method RenderLaterScenes(updated: seq<Scene>, images: seq<ImagePair>, ghost scenes: seq<Scene>, ghost base: Project)
      returns (requests: seq<Request>)
      requires updated == PartlyRendered(scenes, images, 1)
      requires project == base.(storyboard := updated)
      modifies this`project, this`history
      ensures requests == LaterImageRequests(scenes, |scenes|)
      ensures history == old(history) + LoopTrace(base, scenes, images, |scenes|)
      ensures project == base.(storyboard := FinalScenes(scenes, images),
                               progress := if |scenes| <= 1 then base.progress else 80 + (|scenes| - 1) * 4)
    {
      ghost var h0 := history;
      var current := updated;
      requests := [];
      var i := 1;
      while i < |current|
        invariant |current| == |scenes|
        invariant 1 <= i && (i <= 1 || i <= |scenes|)
        invariant current == PartlyRendered(scenes, images, i)
        invariant project == base.(storyboard := current, progress := ProgressBefore(base, i))
        invariant history == h0 + LoopTrace(base, scenes, images, i)
        invariant requests == LaterImageRequests(scenes, i)
      {
        ghost var loopSoFar := LoopTrace(base, scenes, images, i);
        var prompts;
        current, prompts := RenderLaterScene(current, i, images, scenes, base);
        requests := requests + prompts;
        assert history == h0 + (loopSoFar + [MarkSnapshot(base, scenes, images, i)] + [DoneSnapshot(base, scenes, images, i)]);
        i := i + 1;
      }
      assert |scenes| <= 1 ==> PartlyRendered(scenes, images, 1) == FinalScenes(scenes, images);
    }

    /** One pass of the loop at lines 103-116 for scene `i`: flag it, request
        its pair, store the images on success, lower the flag either way and
        set progress to 80 + 4i. */
    method RenderLaterScene(updated: seq<Scene>, i: nat, images: seq<ImagePair>,
                            ghost scenes: seq<Scene>, ghost base: Project)
      returns (next: seq<Scene>, prompts: seq<Request>)
      requires 1 <= i < |scenes| && updated == PartlyRendered(scenes, images, i)
      requires project == base.(storyboard := updated, progress := ProgressBefore(base, i))
      modifies this`project, this`history
      ensures next == PartlyRendered(scenes, images, i + 1)
      ensures prompts == ScenePrompts(scenes[i])
      ensures history == old(history) + [MarkSnapshot(base, scenes, images, i)] + [DoneSnapshot(base, scenes, images, i)]
      ensures project == DoneSnapshot(base, scenes, images, i)
    {
      next := updated[i := Generating(updated[i])];
      assert next == Marked(scenes, images, i);
      SetProject(project.(storyboard := next));
      prompts := ScenePrompts(next[i]);
      ghost var marked := next;
      var out := PairFor(images, i);
      if out.Some? {
        next := next[i := next[i].(startImage := Some(out.value.0), endImage := Some(out.value.1))];
      }
      next := next[i := next[i].(isGenerating := Some(false))];
      assert next == marked[i := FinalScene(scenes, images, i)];
      PartlyRenderedNext(scenes, images, i);
      SetProject(project.(storyboard := next, progress := 80 + i * 4));
    }

    /** Lines 84-100: the first scene, whose failure leaves its flag raised
        and the progress where it was. */
    method RenderFirstScene(scenes: seq<Scene>, images: seq<ImagePair>) returns (updated: seq<Scene>)
      requires project.storyboard == scenes
      modifies this`project, this`history
      ensures updated == PartlyRendered(scenes, images, 1)
      ensures history == old(history) + FirstSceneTrace(old(project), scenes, images)
      ensures project == RenderBase(old(project), scenes, images)
    {
      PartlyRenderedNone(scenes, images);
      updated := scenes;
      if |updated| > 0 {
        updated := updated[0 := Generating(updated[0])];
        SetProject(project.(storyboard := updated));
        var out := PairFor(images, 0);
        if out.Some? {
          updated := updated[0 := updated[0].(startImage := Some(out.value.0), endImage := Some(out.value.1),
                                              isGenerating := Some(false))];
          assert updated[0] == FinalScene(scenes, images, 0);
          PartlyRenderedNext(scenes, images, 0);
          SetProject(project.(storyboard := updated, progress := 80));
        } else {
          assert updated[0] == FinalScene(scenes, images, 0);
          PartlyRenderedNext(scenes, images, 0);
        }
      }
    }

    /** `handleAddChannel` (lines 156-167); `now` stands for `Date.now().toString()`. */
    method AddChannel(now: string)
      modifies this`marketplaces, this`isAddingChannel, this`newChannel
      ensures marketplaces == WithChannel(old(marketplaces), old(newChannel), now)
      ensures old(newChannel).name == [] ==> isAddingChannel == old(isAddingChannel) && newChannel == old(newChannel)
      ensures old(newChannel).name != [] ==> !isAddingChannel && newChannel == BlankForm()
    {
      if newChannel.name == [] {
        return;
      }
      marketplaces := WithChannel(marketplaces, newChannel, now);
      isAddingChannel := false;
      newChannel := BlankForm();
    }

    /** `removeChannel` (lines 169-171). */
    method RemoveChannel(id: string)
      modifies this`marketplaces
      ensures marketplaces == WithoutChannel(old(marketplaces), id)
    {
      marketplaces := WithoutChannel(marketplaces, id);
    }

    /** Line 334: clicking a concept card makes it the selected concept. */
    method ChooseConcept(concept: string)
      modifies this`project, this`history
      ensures project == old(project).(selectedConcept := Some(concept))
      ensures history == old(history) + [project]
    {
      SetProject(project.(selectedConcept := Some(concept)));
    }
  }
}
