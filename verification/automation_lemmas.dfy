/** Properties of one automation run, stated over `Automation.AutomationTrace`
    (the snapshots `runAutomation` records) and `Automation.AutomationRequests`
    (the calls it makes). `ProductStudio.Studio.RunAutomation` is proved to
    record exactly that trace, so each lemma here is a statement about the
    running pipeline. */
module AutomationLemmas {
  import opened Wrappers
  import opened Types
  import opened Automation

  // ---------------------------------------------------------------------
  // Shape of the loop's snapshots

  /** The loop records two snapshots per later scene, in scene order:
      scene `i` flagged, then scene `i` done. */
  lemma {:induction false} LoopTraceAt(base: Project, scenes: seq<Scene>, images: seq<ImagePair>, k: nat)
    requires 1 <= k <= |scenes|
    ensures |LoopTrace(base, scenes, images, k)| == 2 * (k - 1)
    ensures forall i :: 1 <= i < k ==>
      LoopTrace(base, scenes, images, k)[2 * (i - 1)] == MarkSnapshot(base, scenes, images, i)
      && LoopTrace(base, scenes, images, k)[2 * (i - 1) + 1] == DoneSnapshot(base, scenes, images, i)
  {
    if k > 1 {
      LoopTraceAt(base, scenes, images, k - 1);
    }
  }

  /** Progress of the `m`-th loop snapshot. */
  lemma LoopProgressAt(base: Project, scenes: seq<Scene>, images: seq<ImagePair>, m: nat)
    requires 1 <= |scenes| && m < 2 * (|scenes| - 1)
    ensures |LoopTrace(base, scenes, images, |scenes|)| == 2 * (|scenes| - 1)
    ensures LoopTrace(base, scenes, images, |scenes|)[m].progress ==
      if m % 2 == 0 then ProgressBefore(base, m / 2 + 1) else 80 + (m / 2 + 1) * 4
  {
    LoopTraceAt(base, scenes, images, |scenes|);
    var i := m / 2 + 1;
    assert 1 <= i < |scenes|;
    if m % 2 == 0 {
      assert m == 2 * (i - 1);
      assert LoopTrace(base, scenes, images, |scenes|)[2 * (i - 1)] == MarkSnapshot(base, scenes, images, i);
    } else {
      assert m == 2 * (i - 1) + 1;
      assert LoopTrace(base, scenes, images, |scenes|)[2 * (i - 1) + 1] == DoneSnapshot(base, scenes, images, i);
    }
  }

  // ---------------------------------------------------------------------
  // Progress readings

  /** The three gateway stages all succeed (the image pairs may still fail). */
  predicate StagesOk(p: Project, listing: Result<Listing>, concepts: Result<seq<string>>, storyboard: Result<seq<Scene>>)
  {
    p.productName != [] && listing.Ok? && concepts.Ok? && storyboard.Ok?
  }

  /** The progress bar's reading in each snapshot of a run. */
  function Progresses(t: seq<Project>): (r: seq<int>)
    ensures |r| == |t| && forall i :: 0 <= i < |t| ==> r[i] == t[i].progress
  {
    seq(|t|, i requires 0 <= i < |t| => t[i].progress)
  }

  /** Readings of the loop over scenes 1 .. k-1 when the first scene left the bar at `base`. */
  function LoopReadings(base: int, k: nat): seq<int>
  {
    if k <= 1 then [] else LoopReadings(base, k - 1) + [if k <= 2 then base else 80 + (k - 2) * 4, 80 + (k - 1) * 4]
  }

  /** The readings of a run whose three stages succeed, with `n` scenes, the
      first of which rendered iff `firstOk`: 10, 40, 50, 70, then 80 once the
      first scene is in, then 4 points per later scene, then 100. */
  function ProgressReadings(n: nat, firstOk: bool): seq<int>
  {
    [10, 40, 50, 70] + FirstReadings(n, firstOk) + LoopReadings(if n > 0 && firstOk then 80 else 70, n) + [100]
  }

  lemma {:induction false} LoopReadingsMatch(base: Project, scenes: seq<Scene>, images: seq<ImagePair>, k: nat)
    requires k <= 1 || k <= |scenes|
    ensures Progresses(LoopTrace(base, scenes, images, k)) == LoopReadings(base.progress, k)
  {
    if k > 1 {
      LoopReadingsMatch(base, scenes, images, k - 1);
      var prev := LoopTrace(base, scenes, images, k - 1);
      var last := [MarkSnapshot(base, scenes, images, k - 1)] + [DoneSnapshot(base, scenes, images, k - 1)];
      assert LoopTrace(base, scenes, images, k) == prev + last;
      assert Progresses(prev + last) == Progresses(prev) + Progresses(last);
    }
  }

  /** Four leading elements, consed one by one, are the four-element prefix. */
  lemma Regroup<T>(a: T, b: T, c: T, d: T, r: seq<T>)
    ensures [a] + ([b] + ([c] + ([d] + r))) == [a, b, c, d] + r
  {
  }

  /** A run whose stages succeed records the three stage snapshots, the start
      of rendering and the rendering phase; it ends complete with every scene
      final, after the three stage calls and the image calls. */
  lemma SuccessShape(p: Project, listing: Result<Listing>, concepts: Result<seq<string>>,
                     storyboard: Result<seq<Scene>>, images: seq<ImagePair>)
    requires StagesOk(p, listing, concepts, storyboard)
    ensures var p4 := RenderingStart(p, listing.value, concepts.value, storyboard.value);
      AutomationTrace(p, listing, concepts, storyboard, images)
        == [p.(status := Analyzing, progress := 10),
            p.(listing := Some(listing.value), marketingConcepts := concepts.value,
               status := Brainstorming, progress := 40),
            p.(listing := Some(listing.value), marketingConcepts := concepts.value,
               selectedConcept := SelectConcept(concepts.value), status := Storyboarding, progress := 50),
            p4]
           + RenderingTrace(p4, storyboard.value, images)
    ensures AfterAutomation(p, listing, concepts, storyboard, images)
      == RenderingStart(p, listing.value, concepts.value, storyboard.value)
           .(storyboard := FinalScenes(storyboard.value, images), status := Complete, progress := 100)
    ensures AutomationRequests(p, listing, concepts, storyboard)
      == [ListingRequest(p.productName, PipelineTone, PipelineContext), ConceptsRequest(p.productName),
          StoryboardRequest(p.productName, SelectConcept(concepts.value))]
         + ImageRequests(storyboard.value)
  {
    var scenes := storyboard.value;
    var p1 := p.(status := Analyzing, progress := 10);
    var p2 := p1.(listing := Some(listing.value), marketingConcepts := concepts.value,
                  status := Brainstorming, progress := 40);
    var p3 := p2.(selectedConcept := SelectConcept(concepts.value), status := Storyboarding, progress := 50);
    var p4 := p3.(storyboard := scenes, status := Rendering, progress := 70);
    assert p4 == RenderingStart(p, listing.value, concepts.value, scenes);
    var rt := RenderingTrace(p4, scenes, images);
    assert AutomationTrace(p, listing, concepts, storyboard, images) == [p1] + ([p2] + ([p3] + ([p4] + rt)));
    Regroup(p1, p2, p3, p4, rt);
    var stage1 := [ListingRequest(p.productName, PipelineTone, PipelineContext), ConceptsRequest(p.productName)];
    var sr := StoryboardRequest(p.productName, SelectConcept(concepts.value));
    AppendAssoc(stage1, [sr], ImageRequests(scenes));
    assert stage1 + [sr] == [stage1[0], stage1[1], sr];
  }

  /** The snapshots of a run whose stages succeed: the three stage snapshots
      and the start of rendering, the first scene, the loop, and the end. */
  lemma TraceParts(p: Project, listing: Result<Listing>, concepts: Result<seq<string>>,
                   storyboard: Result<seq<Scene>>, images: seq<ImagePair>)
    requires StagesOk(p, listing, concepts, storyboard)
    ensures var scenes := storyboard.value;
      var p4 := RenderingStart(p, listing.value, concepts.value, scenes);
      AutomationTrace(p, listing, concepts, storyboard, images)
        == [p.(status := Analyzing, progress := 10),
            p.(listing := Some(listing.value), marketingConcepts := concepts.value,
               status := Brainstorming, progress := 40),
            p.(listing := Some(listing.value), marketingConcepts := concepts.value,
               selectedConcept := SelectConcept(concepts.value), status := Storyboarding, progress := 50),
            p4]
           + FirstSceneTrace(p4, scenes, images)
           + LoopTrace(RenderBase(p4, scenes, images), scenes, images, |scenes|)
           + [p4.(storyboard := FinalScenes(scenes, images), status := Complete, progress := 100)]
  {
    var scenes := storyboard.value;
    var p4 := RenderingStart(p, listing.value, concepts.value, scenes);
    var head := [p.(status := Analyzing, progress := 10),
                 p.(listing := Some(listing.value), marketingConcepts := concepts.value,
                    status := Brainstorming, progress := 40),
                 p.(listing := Some(listing.value), marketingConcepts := concepts.value,
                    selectedConcept := SelectConcept(concepts.value), status := Storyboarding, progress := 50),
                 p4];
    var first := FirstSceneTrace(p4, scenes, images);
    var loop := LoopTrace(RenderBase(p4, scenes, images), scenes, images, |scenes|);
    var final := [p4.(storyboard := FinalScenes(scenes, images), status := Complete, progress := 100)];
    SuccessShape(p, listing, concepts, storyboard, images);
    AppendAssoc(head, first, loop);
    AppendAssoc(head, first + loop, final);
  }

  /** The bar's readings distribute over concatenation. */
  lemma ProgressesAppend(a: seq<Project>, b: seq<Project>)
    ensures Progresses(a + b) == Progresses(a) + Progresses(b)
  {
  }

  /** The readings of the first scene's snapshots. */
  function FirstReadings(n: nat, firstOk: bool): seq<int>
  {
    if n == 0 then [] else if firstOk then [70, 80] else [70]
  }

  /** From the start of rendering at 70: the first scene's readings, the
      loop's, and 100. */
  lemma RenderingProgress(p4: Project, scenes: seq<Scene>, images: seq<ImagePair>)
    requires p4.progress == 70
    ensures Progresses(RenderingTrace(p4, scenes, images))
      == FirstReadings(|scenes|, PairFor(images, 0).Some?)
         + LoopReadings(if |scenes| > 0 && PairFor(images, 0).Some? then 80 else 70, |scenes|) + [100]
  {
    var base := RenderBase(p4, scenes, images);
    RenderingTraceProgresses(p4, scenes, images);
    FirstProgress(p4, scenes, images);
    LoopReadingsMatch(base, scenes, images, |scenes|);
    assert base.progress == if |scenes| > 0 && PairFor(images, 0).Some? then 80 else 70;
  }

  /** The rendering phase's readings are the first scene's, the loop's, and 100. */
  lemma RenderingTraceProgresses(p4: Project, scenes: seq<Scene>, images: seq<ImagePair>)
    ensures Progresses(RenderingTrace(p4, scenes, images))
      == Progresses(FirstSceneTrace(p4, scenes, images))
         + Progresses(LoopTrace(RenderBase(p4, scenes, images), scenes, images, |scenes|)) + [100]
  {
    var first := FirstSceneTrace(p4, scenes, images);
    var loop := LoopTrace(RenderBase(p4, scenes, images), scenes, images, |scenes|);
    var final := [p4.(storyboard := FinalScenes(scenes, images), status := Complete, progress := 100)];
    ProgressesAppend(first + loop, final);
    ProgressesAppend(first, loop);
    assert Progresses(final) == [100];
  }

  /** The first scene's snapshots read 70, then 80 if its pair rendered. */
  lemma FirstProgress(p4: Project, scenes: seq<Scene>, images: seq<ImagePair>)
    requires p4.progress == 70
    ensures Progresses(FirstSceneTrace(p4, scenes, images)) == FirstReadings(|scenes|, PairFor(images, 0).Some?)
  {
    var r := Progresses(FirstSceneTrace(p4, scenes, images));
    if scenes == [] {
      assert r == [];
    } else if PairFor(images, 0).Some? {
      assert r == [70, 80];
    } else {
      assert r == [70];
    }
  }

  /** A run whose stages succeed: the four stage snapshots, then the rendering phase. */
  lemma HeadTrace(p: Project, listing: Result<Listing>, concepts: Result<seq<string>>,
                  storyboard: Result<seq<Scene>>, images: seq<ImagePair>)
    requires StagesOk(p, listing, concepts, storyboard)
    ensures var p4 := RenderingStart(p, listing.value, concepts.value, storyboard.value);
      AutomationTrace(p, listing, concepts, storyboard, images)
        == [p.(status := Analyzing, progress := 10),
            p.(listing := Some(listing.value), marketingConcepts := concepts.value,
               status := Brainstorming, progress := 40),
            p.(listing := Some(listing.value), marketingConcepts := concepts.value,
               selectedConcept := SelectConcept(concepts.value), status := Storyboarding, progress := 50),
            p4]
           + RenderingTrace(p4, storyboard.value, images)
  {
    SuccessShape(p, listing, concepts, storyboard, images);
  }

  /** The stage snapshots read 10, 40, 50 and 70, followed by the rendering phase's readings. */
  lemma HeadProgress(p: Project, listing: Result<Listing>, concepts: Result<seq<string>>,
                     storyboard: Result<seq<Scene>>, images: seq<ImagePair>)
    requires StagesOk(p, listing, concepts, storyboard)
    ensures Progresses(AutomationTrace(p, listing, concepts, storyboard, images))
      == [10, 40, 50, 70]
         + Progresses(RenderingTrace(RenderingStart(p, listing.value, concepts.value, storyboard.value),
                                     storyboard.value, images))
  {
    var p4 := RenderingStart(p, listing.value, concepts.value, storyboard.value);
    var h := [p.(status := Analyzing, progress := 10),
              p.(listing := Some(listing.value), marketingConcepts := concepts.value,
                 status := Brainstorming, progress := 40),
              p.(listing := Some(listing.value), marketingConcepts := concepts.value,
                 selectedConcept := SelectConcept(concepts.value), status := Storyboarding, progress := 50),
              p4];
    var rt := RenderingTrace(p4, storyboard.value, images);
    HeadTrace(p, listing, concepts, storyboard, images);
    ProgressesAppend(h, rt);
    ProgressesOfFour(h[0], h[1], h[2], h[3]);
    assert h == [h[0], h[1], h[2], h[3]];
  }

  /** The readings of four snapshots. */
  lemma ProgressesOfFour(a: Project, b: Project, c: Project, d: Project)
    ensures Progresses([a, b, c, d]) == [a.progress, b.progress, c.progress, d.progress]
  {
  }

  /** On a run whose stages succeed, the bar shows exactly `ProgressReadings`. */
  lemma RunProgress(p: Project, listing: Result<Listing>, concepts: Result<seq<string>>,
                    storyboard: Result<seq<Scene>>, images: seq<ImagePair>)
    requires StagesOk(p, listing, concepts, storyboard)
    ensures Progresses(AutomationTrace(p, listing, concepts, storyboard, images))
      == ProgressReadings(|storyboard.value|, PairFor(images, 0).Some?)
  {
    var n := |storyboard.value|;
    var firstOk := PairFor(images, 0).Some?;
    HeadProgress(p, listing, concepts, storyboard, images);
    RenderingProgress(RenderingStart(p, listing.value, concepts.value, storyboard.value), storyboard.value, images);
    var first := FirstReadings(n, firstOk);
    var loop := LoopReadings(if n > 0 && firstOk then 80 else 70, n);
    AppendAssoc([10, 40, 50, 70], first, loop);
    AppendAssoc([10, 40, 50, 70], first + loop, [100]);
  }

  /** Consecutive readings never go down. */
  predicate Ascending(s: seq<int>)
  {
    forall i :: 0 <= i < |s| - 1 ==> s[i] <= s[i + 1]
  }

  /** The loop's readings start at `base`, climb, and end at 80 + 4(k-1). */
  lemma {:induction false} LoopReadingsShape(base: int, k: nat)
    requires base <= 80
    ensures |LoopReadings(base, k)| == if k <= 1 then 0 else 2 * (k - 1)
    ensures Ascending(LoopReadings(base, k))
    ensures k >= 2 ==> LoopReadings(base, k)[0] == base
    ensures k >= 2 ==> LoopReadings(base, k)[|LoopReadings(base, k)| - 1] == 80 + (k - 1) * 4
    ensures forall x :: x in LoopReadings(base, k) ==> base <= x <= 80 + (k - 1) * 4
  {
    if k > 1 {
      LoopReadingsShape(base, k - 1);
      var prev := LoopReadings(base, k - 1);
      var last := [if k <= 2 then base else 80 + (k - 2) * 4, 80 + (k - 1) * 4];
      assert LoopReadings(base, k) == prev + last;
      assert forall x :: x in prev + last ==> x in prev || x in last;
    }
  }

  /** With six scenes or fewer every reading is within 10..100. */
  lemma ReadingsBounded(n: nat, firstOk: bool)
    requires n <= 6
    ensures forall x :: x in ProgressReadings(n, firstOk) ==> 10 <= x <= 100
  {
    var base := if n > 0 && firstOk then 80 else 70;
    var first := if n == 0 then [] else if firstOk then [70, 80] else [70];
    var loop := LoopReadings(base, n);
    LoopReadingsShape(base, n);
    assert forall x :: x in first ==> 70 <= x <= 80;
    var r := [10, 40, 50, 70] + first + loop + [100];
    assert ProgressReadings(n, firstOk) == r;
    forall x | x in r
      ensures 10 <= x <= 100
    {
      assert x in [10, 40, 50, 70] + first || x in loop + [100];
    }
  }

  /** Two ascending runs, the second starting no lower than the first ends,
      make one ascending run. */
  lemma AscendingAppend(a: seq<int>, b: seq<int>)
    requires Ascending(a) && Ascending(b)
    requires a != [] && b != [] ==> a[|a| - 1] <= b[0]
    ensures Ascending(a + b)
  {
    var c := a + b;
    forall i | 0 <= i < |c| - 1
      ensures c[i] <= c[i + 1]
    {
      if i + 1 < |a| {
        assert c[i] == a[i] && c[i + 1] == a[i + 1];
      } else if i + 1 == |a| {
        assert c[i] == a[|a| - 1] && c[i + 1] == b[0];
      } else {
        assert c[i] == b[i - |a|] && c[i + 1] == b[i - |a| + 1];
      }
    }
  }

  /** With six scenes or fewer the bar never goes down. */
  lemma ReadingsAscending(n: nat, firstOk: bool)
    requires n <= 6
    ensures Ascending(ProgressReadings(n, firstOk))
  {
    var base := if n > 0 && firstOk then 80 else 70;
    var first := FirstReadings(n, firstOk);
    var loop := LoopReadings(base, n);
    LoopReadingsShape(base, n);
    var head := [10, 40, 50, 70] + first;
    assert Ascending(head) && head[|head| - 1] == base;
    AscendingAppend(loop, [100]);
    AscendingAppend(head, loop + [100]);
    AppendAssoc(head, loop, [100]);
  }

  /** With seven scenes or more the reading just before the end is
      80 + 4(n-1), past 100, and the last one drops back to 100. */
  lemma ReadingsOvershoot(n: nat, firstOk: bool)
    requires n >= 7
    ensures var r := ProgressReadings(n, firstOk);
      r[|r| - 2] == 80 + (n - 1) * 4 > 100 && r[|r| - 1] == 100
  {
    var base := if firstOk then 80 else 70;
    var first := if firstOk then [70, 80] else [70];
    var loop := LoopReadings(base, n);
    LoopReadingsShape(base, n);
    var r := [10, 40, 50, 70] + first + loop + [100];
    assert ProgressReadings(n, firstOk) == r;
    assert r[|r| - 2] == loop[|loop| - 1];
  }

  /** The bar stays within 0..100 exactly when there are at most six scenes. */
  lemma ReadingsInRange(n: nat, firstOk: bool)
    ensures (forall x :: x in ProgressReadings(n, firstOk) ==> 0 <= x <= 100) <==> n <= 6
  {
    if n <= 6 {
      ReadingsBounded(n, firstOk);
    } else {
      ReadingsOvershoot(n, firstOk);
      var r := ProgressReadings(n, firstOk);
      assert r[|r| - 2] in r;
    }
  }

  /** A reading of exactly 80 appears iff the first scene's pair rendered. */
  lemma ReadingsEighty(n: nat, firstOk: bool)
    requires n >= 1
    ensures 80 in ProgressReadings(n, firstOk) <==> firstOk
  {
    var base := if firstOk then 80 else 70;
    var first := if firstOk then [70, 80] else [70];
    var loop := LoopReadings(base, n);
    var r := [10, 40, 50, 70] + first + loop + [100];
    assert ProgressReadings(n, firstOk) == r;
    if firstOk {
      assert r[5] == 80;
    } else {
      LoopReadingsNoEighty(n);
      assert forall x :: x in r ==> x in [10, 40, 50, 70] || x in first || x in loop || x == 100;
    }
  }

  /** When the first scene failed the loop's readings are 70 and 84, 88, ... */
  lemma {:induction false} LoopReadingsNoEighty(k: nat)
    ensures 80 !in LoopReadings(70, k)
  {
    if k > 1 {
      LoopReadingsNoEighty(k - 1);
      var last := [if k <= 2 then 70 else 80 + (k - 2) * 4, 80 + (k - 1) * 4];
      assert LoopReadings(70, k) == LoopReadings(70, k - 1) + last;
      assert 80 !in last;
    }
  }

  // ---------------------------------------------------------------------
  // Progress over every outcome

  /** Every snapshot of every run keeps the bar within 0..100, except a run
      whose three stages succeed with seven scenes or more. */
  lemma ProgressInRange(p: Project, listing: Result<Listing>, concepts: Result<seq<string>>,
                        storyboard: Result<seq<Scene>>, images: seq<ImagePair>)
    ensures var t := AutomationTrace(p, listing, concepts, storyboard, images);
      (forall m :: 0 <= m < |t| ==> 0 <= t[m].progress <= 100)
      <==> !(StagesOk(p, listing, concepts, storyboard) && |storyboard.value| >= 7)
  {
    var t := AutomationTrace(p, listing, concepts, storyboard, images);
    if StagesOk(p, listing, concepts, storyboard) {
      var n := |storyboard.value|;
      RunProgress(p, listing, concepts, storyboard, images);
      var r := Progresses(t);
      if n <= 6 {
        ReadingsBounded(n, PairFor(images, 0).Some?);
        forall m | 0 <= m < |t|
          ensures 0 <= t[m].progress <= 100
        {
          assert r[m] in r;
        }
      } else {
        ReadingsOvershoot(n, PairFor(images, 0).Some?);
        assert t[|t| - 2].progress > 100;
      }
    }
  }

  /** With at most six scenes the bar never goes down during a run; with
      seven or more it reads 80 + 4(n-1) just before it settles at 100. */
  lemma ProgressOrder(p: Project, listing: Result<Listing>, concepts: Result<seq<string>>,
                      storyboard: Result<seq<Scene>>, images: seq<ImagePair>)
    requires StagesOk(p, listing, concepts, storyboard)
    ensures var t := AutomationTrace(p, listing, concepts, storyboard, images);
      |storyboard.value| <= 6 ==> forall m :: 0 <= m < |t| - 1 ==> t[m].progress <= t[m + 1].progress
    ensures var t := AutomationTrace(p, listing, concepts, storyboard, images);
      |storyboard.value| >= 7 ==>
        t[|t| - 2].progress == 80 + (|storyboard.value| - 1) * 4 > 100 && t[|t| - 1].progress == 100
  {
    RunProgress(p, listing, concepts, storyboard, images);
    var n := |storyboard.value|;
    if n <= 6 {
      ReadingsAscending(n, PairFor(images, 0).Some?);
    } else {
      ReadingsOvershoot(n, PairFor(images, 0).Some?);
    }
  }

  /** Progress reads exactly 80 at some point of a run with scenes iff the
      first scene's pair rendered. */
  lemma ProgressEighty(p: Project, listing: Result<Listing>, concepts: Result<seq<string>>,
                       storyboard: Result<seq<Scene>>, images: seq<ImagePair>)
    requires StagesOk(p, listing, concepts, storyboard) && storyboard.value != []
    ensures var t := AutomationTrace(p, listing, concepts, storyboard, images);
      (exists m :: 0 <= m < |t| && t[m].progress == 80) <==> PairFor(images, 0).Some?
  {
    var t := AutomationTrace(p, listing, concepts, storyboard, images);
    RunProgress(p, listing, concepts, storyboard, images);
    ReadingsEighty(|storyboard.value|, PairFor(images, 0).Some?);
    var r := Progresses(t);
    if 80 in r {
      var m :| 0 <= m < |r| && r[m] == 80;
      assert t[m].progress == 80;
    }
  }

  // ---------------------------------------------------------------------
  // Stages, failures and what a run leaves behind

  /** Every loop snapshot is the loop's starting project with only the
      storyboard and the progress changed. */
  lemma LoopTraceKeeps(base: Project, scenes: seq<Scene>, images: seq<ImagePair>)
    requires scenes != []
    ensures forall m :: 0 <= m < |LoopTrace(base, scenes, images, |scenes|)| ==>
      LoopTrace(base, scenes, images, |scenes|)[m]
        == base.(storyboard := LoopTrace(base, scenes, images, |scenes|)[m].storyboard,
                 progress := LoopTrace(base, scenes, images, |scenes|)[m].progress)
  {
    var l := LoopTrace(base, scenes, images, |scenes|);
    LoopTraceAt(base, scenes, images, |scenes|);
    forall m | 0 <= m < |l|
      ensures l[m] == base.(storyboard := l[m].storyboard, progress := l[m].progress)
    {
      var i := m / 2 + 1;
      if m % 2 == 0 {
        assert m == 2 * (i - 1);
        assert l[2 * (i - 1)] == MarkSnapshot(base, scenes, images, i);
      } else {
        assert m == 2 * (i - 1) + 1;
        assert l[2 * (i - 1) + 1] == DoneSnapshot(base, scenes, images, i);
      }
    }
  }

  /** A run whose three stages succeed goes Analyzing, Brainstorming,
      Storyboarding, stays Rendering with listing, concepts and the chosen
      concept in place while the scenes render, and ends Complete at 100 with
      every scene final, whatever the image pairs did: image failures are
      never fatal. */
  lemma SuccessfulRun(p: Project, listing: Result<Listing>, concepts: Result<seq<string>>,
                      storyboard: Result<seq<Scene>>, images: seq<ImagePair>)
    requires StagesOk(p, listing, concepts, storyboard)
    ensures var t := AutomationTrace(p, listing, concepts, storyboard, images);
      && |t| >= 5
      && t[0] == p.(status := Analyzing, progress := 10)
      && t[1] == p.(listing := Some(listing.value), marketingConcepts := concepts.value,
                    status := Brainstorming, progress := 40)
      && t[2] == t[1].(selectedConcept := SelectConcept(concepts.value), status := Storyboarding, progress := 50)
    ensures var t := AutomationTrace(p, listing, concepts, storyboard, images);
      var p4 := RenderingStart(p, listing.value, concepts.value, storyboard.value);
      forall m :: 3 <= m < |t| - 1 ==> t[m] == p4.(storyboard := t[m].storyboard, progress := t[m].progress)
    ensures AfterAutomation(p, listing, concepts, storyboard, images)
      == RenderingStart(p, listing.value, concepts.value, storyboard.value)
           .(storyboard := FinalScenes(storyboard.value, images), status := Complete, progress := 100)
  {
    var scenes := storyboard.value;
    var t := AutomationTrace(p, listing, concepts, storyboard, images);
    var p4 := RenderingStart(p, listing.value, concepts.value, scenes);
    SuccessShape(p, listing, concepts, storyboard, images);
    RunKeeps(p4, AutomationTrace(p, listing, concepts, storyboard, images)[..4], scenes, images);
    assert t == t[..4] + RenderingTrace(p4, scenes, images);
  }

  /** Behind four stage snapshots ending in `p4`, every snapshot but the last
      keeps `p4` up to the storyboard and the progress. */
  lemma RunKeeps(p4: Project, head: seq<Project>, scenes: seq<Scene>, images: seq<ImagePair>)
    requires |head| == 4 && head[3] == p4
    ensures var t := head + RenderingTrace(p4, scenes, images);
      forall m :: 3 <= m < |t| - 1 ==> t[m] == p4.(storyboard := t[m].storyboard, progress := t[m].progress)
  {
    var rt := RenderingTrace(p4, scenes, images);
    var t := head + rt;
    RenderingKeeps(p4, scenes, images);
    forall m | 3 <= m < |t| - 1
      ensures t[m] == p4.(storyboard := t[m].storyboard, progress := t[m].progress)
    {
      if m == 3 {
        assert t[m] == p4;
      } else {
        assert t[m] == rt[m - 4];
      }
    }
  }

  /** Every snapshot of the rendering phase but the last is its starting
      project with only the storyboard and the progress changed. */
  lemma RenderingKeeps(p4: Project, scenes: seq<Scene>, images: seq<ImagePair>)
    ensures var rt := RenderingTrace(p4, scenes, images);
      forall m :: 0 <= m < |rt| - 1 ==> rt[m] == p4.(storyboard := rt[m].storyboard, progress := rt[m].progress)
  {
    var first := FirstSceneTrace(p4, scenes, images);
    var base := RenderBase(p4, scenes, images);
    var loop := LoopTrace(base, scenes, images, |scenes|);
    var rt := RenderingTrace(p4, scenes, images);
    assert base == p4.(storyboard := base.storyboard, progress := base.progress);
    if scenes != [] {
      LoopTraceKeeps(base, scenes, images);
    }
    forall m | 0 <= m < |rt| - 1
      ensures rt[m] == p4.(storyboard := rt[m].storyboard, progress := rt[m].progress)
    {
      if m < |first| {
        assert rt[m] == first[m];
        assert first[0] == p4.(storyboard := Marked(scenes, images, 0));
        assert m == 1 ==> first[1] == base;
      } else {
        assert rt[m] == loop[m - |first|];
      }
    }
  }

  /** A failed listing or concepts call stops the run at Idle with progress
      0; nothing else of the project changes. */
  lemma DraftFailure(p: Project, listing: Result<Listing>, concepts: Result<seq<string>>,
                     storyboard: Result<seq<Scene>>, images: seq<ImagePair>)
    requires p.productName != [] && (listing.Err? || concepts.Err?)
    ensures AutomationTrace(p, listing, concepts, storyboard, images)
      == [p.(status := Analyzing, progress := 10), p.(status := Idle, progress := 0)]
    ensures AutomationRequests(p, listing, concepts, storyboard)
      == [ListingRequest(p.productName, PipelineTone, PipelineContext), ConceptsRequest(p.productName)]
    ensures AfterAutomation(p, listing, concepts, storyboard, images) == p.(status := Idle, progress := 0)
  {
  }

  /** A failed storyboard call stops the run at Idle with progress 0; the
      listing, concepts and chosen concept are kept and so is the storyboard
      the project had before. */
  lemma StoryboardFailure(p: Project, listing: Result<Listing>, concepts: Result<seq<string>>,
                          storyboard: Result<seq<Scene>>, images: seq<ImagePair>)
    requires p.productName != [] && listing.Ok? && concepts.Ok? && storyboard.Err?
    ensures var p2 := p.(listing := Some(listing.value), marketingConcepts := concepts.value,
                         status := Brainstorming, progress := 40);
      var p3 := p2.(selectedConcept := SelectConcept(concepts.value), status := Storyboarding, progress := 50);
      AutomationTrace(p, listing, concepts, storyboard, images)
        == [p.(status := Analyzing, progress := 10), p2, p3, p3.(status := Idle, progress := 0)]
    ensures AutomationRequests(p, listing, concepts, storyboard)
      == [ListingRequest(p.productName, PipelineTone, PipelineContext), ConceptsRequest(p.productName),
          StoryboardRequest(p.productName, SelectConcept(concepts.value))]
    ensures AfterAutomation(p, listing, concepts, storyboard, images)
      == p.(listing := Some(listing.value), marketingConcepts := concepts.value,
            selectedConcept := SelectConcept(concepts.value), status := Idle, progress := 0)
    ensures AfterAutomation(p, listing, concepts, storyboard, images).storyboard == p.storyboard
  {
  }

  /** A run on an empty product name does nothing at all. */
  lemma EmptyNameRun(p: Project, listing: Result<Listing>, concepts: Result<seq<string>>,
                     storyboard: Result<seq<Scene>>, images: seq<ImagePair>)
    requires p.productName == []
    ensures AutomationRequests(p, listing, concepts, storyboard) == []
    ensures AfterAutomation(p, listing, concepts, storyboard, images) == p
  {
  }

  // ---------------------------------------------------------------------
  // Render order and paired images

  /** Scenes before `k` are final, scene `k` is untouched or flagged, and
      every scene after it is untouched. */
  ghost predicate RenderedUpTo(sb: seq<Scene>, scenes: seq<Scene>, images: seq<ImagePair>, k: nat)
  {
    && |sb| == |scenes| && k <= |scenes|
    && (forall j :: 0 <= j < k ==> sb[j] == FinalScene(scenes, images, j))
    && (forall j :: k < j < |scenes| ==> sb[j] == scenes[j])
    && (k < |scenes| ==> sb[k] == scenes[k] || sb[k] == Generating(scenes[k]))
  }

  /** The storyboard shows scenes rendered strictly in index order. */
  ghost predicate InRenderOrder(sb: seq<Scene>, scenes: seq<Scene>, images: seq<ImagePair>)
  {
    exists k: nat :: RenderedUpTo(sb, scenes, images, k)
  }

  lemma PartlyRenderedInOrder(scenes: seq<Scene>, images: seq<ImagePair>, k: nat)
    requires k <= |scenes|
    ensures InRenderOrder(PartlyRendered(scenes, images, k), scenes, images)
  {
    assert RenderedUpTo(PartlyRendered(scenes, images, k), scenes, images, k);
  }

  lemma MarkedInOrder(scenes: seq<Scene>, images: seq<ImagePair>, i: nat)
    requires i < |scenes|
    ensures InRenderOrder(Marked(scenes, images, i), scenes, images)
  {
    assert RenderedUpTo(Marked(scenes, images, i), scenes, images, i);
  }

  /** Every loop snapshot shows the scenes in render order. */
  lemma LoopInOrder(base: Project, scenes: seq<Scene>, images: seq<ImagePair>)
    requires scenes != []
    ensures forall m :: 0 <= m < |LoopTrace(base, scenes, images, |scenes|)| ==>
      InRenderOrder(LoopTrace(base, scenes, images, |scenes|)[m].storyboard, scenes, images)
  {
    var loop := LoopTrace(base, scenes, images, |scenes|);
    LoopTraceAt(base, scenes, images, |scenes|);
    forall m | 0 <= m < |loop|
      ensures InRenderOrder(loop[m].storyboard, scenes, images)
    {
      var i := m / 2 + 1;
      if m % 2 == 0 {
        assert m == 2 * (i - 1);
        assert loop[2 * (i - 1)] == MarkSnapshot(base, scenes, images, i);
        MarkedInOrder(scenes, images, i);
      } else {
        assert m == 2 * (i - 1) + 1;
        assert loop[2 * (i - 1) + 1] == DoneSnapshot(base, scenes, images, i);
        PartlyRenderedInOrder(scenes, images, i + 1);
      }
    }
  }

  /** Every snapshot of `t` shows the scenes in render order. */
  ghost predicate AllInOrder(t: seq<Project>, scenes: seq<Scene>, images: seq<ImagePair>)
  {
    forall m :: 0 <= m < |t| ==> InRenderOrder(t[m].storyboard, scenes, images)
  }

  lemma AllInOrderAppend(a: seq<Project>, b: seq<Project>, scenes: seq<Scene>, images: seq<ImagePair>)
    requires AllInOrder(a, scenes, images) && AllInOrder(b, scenes, images)
    ensures AllInOrder(a + b, scenes, images)
  {
    forall m | 0 <= m < |a + b|
      ensures InRenderOrder((a + b)[m].storyboard, scenes, images)
    {
      if m < |a| {
        assert (a + b)[m] == a[m];
      } else {
        assert (a + b)[m] == b[m - |a|];
      }
    }
  }

  /** The first scene's snapshots show the scenes in render order. */
  lemma FirstSceneInOrder(p4: Project, scenes: seq<Scene>, images: seq<ImagePair>)
    ensures AllInOrder(FirstSceneTrace(p4, scenes, images), scenes, images)
  {
    if scenes != [] {
      MarkedInOrder(scenes, images, 0);
      PartlyRenderedInOrder(scenes, images, 1);
    }
  }

  /** Every snapshot from the start of rendering on shows the scenes in render order. */
  lemma RenderingTraceInOrder(p4: Project, scenes: seq<Scene>, images: seq<ImagePair>)
    ensures forall m :: 0 <= m < |RenderingTrace(p4, scenes, images)| ==>
      InRenderOrder(RenderingTrace(p4, scenes, images)[m].storyboard, scenes, images)
  {
    var first := FirstSceneTrace(p4, scenes, images);
    var base := RenderBase(p4, scenes, images);
    var loop := LoopTrace(base, scenes, images, |scenes|);
    var final := [p4.(storyboard := FinalScenes(scenes, images), status := Complete, progress := 100)];
    FirstSceneInOrder(p4, scenes, images);
    if scenes != [] {
      LoopInOrder(base, scenes, images);
    }
    PartlyRenderedInOrder(scenes, images, |scenes|);
    assert AllInOrder(final, scenes, images);
    AllInOrderAppend(first, loop, scenes, images);
    AllInOrderAppend(first + loop, final, scenes, images);
  }

  /** From the snapshot that installs the storyboard to the last one, no
      scene is touched before every scene in front of it is final. */
  lemma RenderOrder(p: Project, listing: Result<Listing>, concepts: Result<seq<string>>,
                    storyboard: Result<seq<Scene>>, images: seq<ImagePair>)
    requires StagesOk(p, listing, concepts, storyboard)
    ensures var t := AutomationTrace(p, listing, concepts, storyboard, images);
      forall m :: 3 <= m < |t| ==> InRenderOrder(t[m].storyboard, storyboard.value, images)
  {
    var scenes := storyboard.value;
    var t := AutomationTrace(p, listing, concepts, storyboard, images);
    var p4 := RenderingStart(p, listing.value, concepts.value, scenes);
    SuccessShape(p, listing, concepts, storyboard, images);
    RunInOrder(p4, t[..4], scenes, images);
    assert t == t[..4] + RenderingTrace(p4, scenes, images);
  }

  /** Behind four stage snapshots ending in `p4`, which installs the scenes,
      every snapshot from `p4` on shows the scenes in render order. */
  lemma RunInOrder(p4: Project, head: seq<Project>, scenes: seq<Scene>, images: seq<ImagePair>)
    requires |head| == 4 && head[3] == p4 && p4.storyboard == scenes
    ensures var t := head + RenderingTrace(p4, scenes, images);
      forall m :: 3 <= m < |t| ==> InRenderOrder(t[m].storyboard, scenes, images)
  {
    var rt := RenderingTrace(p4, scenes, images);
    var t := head + rt;
    RenderingTraceInOrder(p4, scenes, images);
    PartlyRenderedNone(scenes, images);
    PartlyRenderedInOrder(scenes, images, 0);
    forall m | 3 <= m < |t|
      ensures InRenderOrder(t[m].storyboard, scenes, images)
    {
      if m == 3 {
        assert t[m] == p4;
      } else {
        assert t[m] == rt[m - 4];
      }
    }
  }

  /** A scene carries both images or neither. */
  predicate PairedImages(s: Scene)
  {
    s.startImage.Some? <==> s.endImage.Some?
  }

  /** Rendering keeps images paired: a storyboard in render order over paired
      scenes is paired itself. */
  lemma InRenderOrderPaired(sb: seq<Scene>, scenes: seq<Scene>, images: seq<ImagePair>)
    requires InRenderOrder(sb, scenes, images)
    requires forall j :: 0 <= j < |scenes| ==> PairedImages(scenes[j])
    ensures forall j :: 0 <= j < |sb| ==> PairedImages(sb[j])
  {
    var k: nat :| RenderedUpTo(sb, scenes, images, k);
    forall j | 0 <= j < |sb|
      ensures PairedImages(sb[j])
    {
      if j < k {
        var f := FinalScene(scenes, images, j);
        assert sb[j] == f;
      }
    }
  }

  /** In every snapshot of every run, each scene has both images or neither,
      provided the storyboards it starts from and receives are paired (as a
      fresh, unrendered storyboard is). */
  lemma ImagesPaired(p: Project, listing: Result<Listing>, concepts: Result<seq<string>>,
                     storyboard: Result<seq<Scene>>, images: seq<ImagePair>)
    requires forall j :: 0 <= j < |p.storyboard| ==> PairedImages(p.storyboard[j])
    requires storyboard.Ok? ==> forall j :: 0 <= j < |storyboard.value| ==> PairedImages(storyboard.value[j])
    ensures var t := AutomationTrace(p, listing, concepts, storyboard, images);
      forall m, j :: 0 <= m < |t| && 0 <= j < |t[m].storyboard| ==> PairedImages(t[m].storyboard[j])
  {
    if p.productName == [] {
    } else if listing.Err? || concepts.Err? {
      DraftFailure(p, listing, concepts, storyboard, images);
    } else if storyboard.Err? {
      StoryboardFailure(p, listing, concepts, storyboard, images);
    } else {
      SuccessPaired(p, listing, concepts, storyboard, images);
    }
  }

  /** `ImagesPaired` for a run whose three stage calls succeed. */
  lemma SuccessPaired(p: Project, listing: Result<Listing>, concepts: Result<seq<string>>,
                      storyboard: Result<seq<Scene>>, images: seq<ImagePair>)
    requires StagesOk(p, listing, concepts, storyboard)
    requires forall j :: 0 <= j < |p.storyboard| ==> PairedImages(p.storyboard[j])
    requires forall j :: 0 <= j < |storyboard.value| ==> PairedImages(storyboard.value[j])
    ensures var t := AutomationTrace(p, listing, concepts, storyboard, images);
      forall m, j :: 0 <= m < |t| && 0 <= j < |t[m].storyboard| ==> PairedImages(t[m].storyboard[j])
  {
    var t := AutomationTrace(p, listing, concepts, storyboard, images);
    RenderOrder(p, listing, concepts, storyboard, images);
    SuccessShape(p, listing, concepts, storyboard, images);
    assert forall m :: 0 <= m < 3 ==> t[m].storyboard == p.storyboard;
    PairedFrom(t, p.storyboard, storyboard.value, images);
  }

  /** Snapshots whose first three keep a paired storyboard and whose later
      ones are in render order over paired scenes have paired images throughout. */
  lemma PairedFrom(t: seq<Project>, sb0: seq<Scene>, scenes: seq<Scene>, images: seq<ImagePair>)
    requires forall j :: 0 <= j < |sb0| ==> PairedImages(sb0[j])
    requires forall j :: 0 <= j < |scenes| ==> PairedImages(scenes[j])
    requires forall m :: 0 <= m < 3 && m < |t| ==> t[m].storyboard == sb0
    requires forall m :: 3 <= m < |t| ==> InRenderOrder(t[m].storyboard, scenes, images)
    ensures forall m, j :: 0 <= m < |t| && 0 <= j < |t[m].storyboard| ==> PairedImages(t[m].storyboard[j])
  {
    forall m | 0 <= m < |t|
      ensures forall j :: 0 <= j < |t[m].storyboard| ==> PairedImages(t[m].storyboard[j])
    {
      if m >= 3 {
        InRenderOrderPaired(t[m].storyboard, scenes, images);
      }
    }
  }

  // ---------------------------------------------------------------------
  // Requests

  /** Two image requests per scene, scene by scene: the start frame's prompt
      then the end frame's, each with the style directives appended. */
  lemma {:induction false} ImageRequestsAt(scenes: seq<Scene>)
    ensures |ImageRequests(scenes)| == 2 * |scenes|
    ensures forall i :: 0 <= i < |scenes| ==>
      ImageRequests(scenes)[2 * i] == ImageRequest(scenes[i].startFramePrompt + RenderSuffix)
      && ImageRequests(scenes)[2 * i + 1] == ImageRequest(scenes[i].endFramePrompt + RenderSuffix)
  {
    if scenes != [] {
      var init := scenes[..|scenes| - 1];
      ImageRequestsAt(init);
      assert forall i :: 0 <= i < |init| ==> init[i] == scenes[i];
    }
  }

  /** A run whose three stages succeed asks for the listing (tone Persuasive,
      viral-features context), the concepts, the storyboard for the chosen
      concept, and then one image pair per scene in order, whatever the image
      calls return. */
  lemma RunRequests(p: Project, listing: Result<Listing>, concepts: Result<seq<string>>,
                    storyboard: Result<seq<Scene>>)
    requires StagesOk(p, listing, concepts, storyboard)
    ensures var r := AutomationRequests(p, listing, concepts, storyboard);
      && |r| == 3 + 2 * |storyboard.value|
      && r[0] == ListingRequest(p.productName, "Persuasive", "Focus on viral features")
      && r[1] == ConceptsRequest(p.productName)
      && r[2] == StoryboardRequest(p.productName, SelectConcept(concepts.value))
    ensures var r := AutomationRequests(p, listing, concepts, storyboard);
      forall i :: 0 <= i < |storyboard.value| ==>
        r[3 + 2 * i] == ImageRequest(storyboard.value[i].startFramePrompt + RenderSuffix)
        && r[4 + 2 * i] == ImageRequest(storyboard.value[i].endFramePrompt + RenderSuffix)
  {
    ImageRequestsAt(storyboard.value);
  }
}
