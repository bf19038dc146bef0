/** The shared data model of the front end (types.ts). */
module Types {
  import opened Wrappers

  /** A generated listing; the gateway produces it whole, so all five fields are always present. */
  datatype Listing = Listing(
    title: string,
    bullets: seq<string>,
    description: string,
    keywords: seq<string>,
    suggestedPrice: string)

  /** One storyboard position. The two images and the generating flag are
      optional fields of the record: absent (None) until rendering sets them. */
  datatype Scene = Scene(
    sceneNumber: int,
    startFramePrompt: string,
    endFramePrompt: string,
    videoMotionPrompt: string,
    startImage: Option<string>,
    endImage: Option<string>,
    isGenerating: Option<bool>)

  /** The seven values of the automation status, in declaration order. */
  datatype Status = Idle | Analyzing | Drafting | Brainstorming | Storyboarding | Rendering | Complete

  /** The project record the studio's automation works on. `progress` is
      documented as a percentage in 0..100; the model keeps it an `int` so that
      the cases where the pipeline leaves that range can be stated. */
  datatype Project = Project(
    productName: string,
    listing: Option<Listing>,
    marketingConcepts: seq<string>,
    selectedConcept: Option<string>,
    storyboard: seq<Scene>,
    status: Status,
    progress: int)

  /** The optional processing state of a trend entry. */
  datatype TrendStatus = TrendIdle | Processing | Completed

  /** A trending product shown on the dashboard. Growth and volume are whole numbers. */
  datatype TrendItem = TrendItem(
    id: string,
    name: string,
    growth: int,
    volume: int,
    category: string,
    image: string,
    status: Option<TrendStatus>)

  /** The state of the single-listing generator. */
  datatype GenerationState = GenerationState(isLoading: bool, error: Option<string>, data: Option<Listing>)

  /** The project a studio starts with. */
  function NewProject(productName: string): Project
  {
    Project(productName, None, [], None, [], Idle, 0)
  }

  /** The enumeration in declaration order: seven distinct values, Drafting among them. */
  function AllStatuses(): (r: seq<Status>)
    ensures |r| == 7 && Drafting in r
    ensures forall s: Status :: s in r
    ensures forall i, j :: 0 <= i < j < |r| ==> r[i] != r[j]
  {
    var r := [Idle, Analyzing, Drafting, Brainstorming, Storyboarding, Rendering, Complete];
    assert forall s: Status :: s in r by {
      forall s: Status ensures s in r {
        if s.Idle? { assert r[0] == s; }
        else if s.Analyzing? { assert r[1] == s; }
        else if s.Drafting? { assert r[2] == s; }
        else if s.Brainstorming? { assert r[3] == s; }
        else if s.Storyboarding? { assert r[4] == s; }
        else if s.Rendering? { assert r[5] == s; }
        else { assert r[6] == s; }
      }
    }
    r
  }
}
