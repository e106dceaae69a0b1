/**
 * The scene navigation page: a fixed list of scene markers for an
 * 80-minute film, buttons that jump to the first scene of a type, and the
 * player state a jump sets.
 *
 * Times are whole seconds; the clock text is `ClockFormat.FormatMinutesSeconds`.
 */
module SceneNavigation {
  import opened Wrappers
  import opened Seqs
  import opened MockData
  import ClockFormat

  datatype SceneType = Action | Romance | Comedy | Drama | Climax | Twist

  datatype SceneMarker = SceneMarker(
    id: string,
    title: string,
    description: string,
    timestamp: nat,
    kind: SceneType,
    intensity: int)

  /** The duration the page sets once the movie is found: 80 minutes. */
  const FilmDuration: nat := 4800

  const SceneMarkers: seq<SceneMarker> := [
    SceneMarker("opening", "Opening Sequence", "The heist team assembles for their biggest challenge yet", 0, Drama, 3),
    SceneMarker("first_action", "First Chase Scene", "High-speed pursuit through the city streets", 420, Action, 5),
    SceneMarker("romance", "Romantic Moment", "A tender moment between the lead characters", 1200, Romance, 2),
    SceneMarker("comedy_relief", "Comic Relief", "Hilarious mishap during the infiltration", 1800, Comedy, 1),
    SceneMarker("plot_twist", "Major Plot Twist", "Everything you thought you knew changes", 2700, Twist, 4),
    SceneMarker("climax", "Final Confrontation", "The ultimate showdown in the vault", 3600, Climax, 5),
    SceneMarker("resolution", "Resolution", "The aftermath and final revelations", 4200, Drama, 2)]

  /** The markers run forward through the film, each inside it, with intensities on the 1-5 scale. */
  lemma MarkersOrdered()
    ensures forall i, j :: 0 <= i < j < |SceneMarkers| ==> SceneMarkers[i].timestamp < SceneMarkers[j].timestamp
    ensures forall i :: 0 <= i < |SceneMarkers| ==> SceneMarkers[i].timestamp < FilmDuration
    ensures forall i :: 0 <= i < |SceneMarkers| ==> 1 <= SceneMarkers[i].intensity <= 5
    ensures forall i, j :: 0 <= i < j < |SceneMarkers| ==> SceneMarkers[i].id != SceneMarkers[j].id
  {
  }

  predicate OfType(s: SceneMarker, t: SceneType)
  {
    s.kind == t
  }

  /** `sceneMarkers.find(s => s.type === type)`. */
  function FirstOfType(markers: seq<SceneMarker>, t: SceneType): (r: Option<SceneMarker>)
    ensures r.Some? ==> r.value in markers && r.value.kind == t
    ensures r.None? <==> forall i :: 0 <= i < |markers| ==> markers[i].kind != t
  {
    Find(markers, (s: SceneMarker) => OfType(s, t))
  }

  /** "Best Action Scene" takes the head of the action scenes, which is the same scene `find` gives. */
  lemma BestActionIsFirstAction(markers: seq<SceneMarker>)
    ensures var actions := Filter(markers, (s: SceneMarker) => OfType(s, Action));
      (actions != [] <==> FirstOfType(markers, Action).Some?) &&
      (actions != [] ==> actions[0] == FirstOfType(markers, Action).value)
  {
    FilterHeadIsFind(markers, (s: SceneMarker) => OfType(s, Action));
  }

  /** `find` by type returns the marker at the first index of that type. */
  lemma FirstOfTypeAt(markers: seq<SceneMarker>, t: SceneType, k: nat)
    requires k < |markers| && markers[k].kind == t
    requires forall j :: 0 <= j < k ==> markers[j].kind != t
    ensures FirstOfType(markers, t) == Some(markers[k])
  {
    FirstMatchAt(markers, (s: SceneMarker) => OfType(s, t), k);
  }

  /** The "Action" button, and "Best Action Scene": the first chase, seven minutes in. */
  lemma ActionTarget()
    ensures FirstOfType(SceneMarkers, Action) == Some(SceneMarkers[1]) && SceneMarkers[1].timestamp == 420
  {
    var m := SceneMarkers;
    assert m[0].kind == Drama;
    FirstOfTypeAt(m, Action, 1);
  }

  lemma RomanceTarget()
    ensures FirstOfType(SceneMarkers, Romance) == Some(SceneMarkers[2])
  {
    var m := SceneMarkers;
    assert m[0].kind == Drama && m[1].kind == Action;
    FirstOfTypeAt(m, Romance, 2);
  }

  lemma ComedyTarget()
    ensures FirstOfType(SceneMarkers, Comedy) == Some(SceneMarkers[3])
  {
    var m := SceneMarkers;
    assert m[0].kind == Drama && m[1].kind == Action && m[2].kind == Romance;
    FirstOfTypeAt(m, Comedy, 3);
  }

  /** The "Climax" button and "Jump to Climax": the final confrontation, one hour in. */
  lemma ClimaxTarget()
    ensures FirstOfType(SceneMarkers, Climax) == Some(SceneMarkers[5]) && SceneMarkers[5].timestamp == 3600
  {
    var m := SceneMarkers;
    FirstOfTypeAt(m, Climax, 5);
  }

  /** `getSceneColor`: each scene type has its own badge colour; gray is left for an unknown type. */
  function SceneColor(t: SceneType): (r: string)
    ensures r != "bg-gray-600"
  {
    match t
    case Action => "bg-red-600"
    case Romance => "bg-pink-600"
    case Comedy => "bg-yellow-600"
    case Drama => "bg-blue-600"
    case Climax => "bg-purple-600"
    case Twist => "bg-orange-600"
  }

  /** No two scene types share a colour. */
  lemma SceneColorInjective(a: SceneType, b: SceneType)
    requires SceneColor(a) == SceneColor(b)
    ensures a == b
  {
  }

  /** `getIntensityBars`: five bars, bar `i` lit when `i < intensity`. */
  function IntensityBars(intensity: int): (r: seq<bool>)
    ensures |r| == 5
  {
    seq(5, i => i < intensity)
  }

  predicate IsLit(b: bool)
  {
    b
  }

  function LitCount(bars: seq<bool>): nat
  {
    |Filter(bars, IsLit)|
  }

  /** The bars are `k` lit ones followed by `5 - k` dark ones, `k` being the clamped intensity. */
  lemma BarsSplit(intensity: int, k: nat)
    requires k == if intensity < 0 then 0 else if intensity > 5 then 5 else intensity
    ensures IntensityBars(intensity) == seq(k, i => true) + seq(5 - k, i => false)
  {
    var lit: seq<bool> := seq(k, i => true);
    var dark: seq<bool> := seq(5 - k, i => false);
    assert forall i :: 0 <= i < 5 ==> IntensityBars(intensity)[i] == (lit + dark)[i];
  }

  lemma LitCountOfSplit(k: nat)
    requires k <= 5
    ensures LitCount(seq(k, i => true) + seq(5 - k, i => false)) == k
  {
    var lit: seq<bool> := seq(k, i => true);
    var dark: seq<bool> := seq(5 - k, i => false);
    FilterAll(lit, IsLit);
    FilterNone(dark, IsLit);
    FilterConcat(lit, dark, IsLit);
  }

  lemma IntensityBarsShowIntensity(intensity: int)
    ensures var r := IntensityBars(intensity);
      forall i, j :: 0 <= i <= j < 5 && r[j] ==> r[i]
    ensures LitCount(IntensityBars(intensity)) ==
            if intensity < 0 then 0 else if intensity > 5 then 5 else intensity
  {
    var k := if intensity < 0 then 0 else if intensity > 5 then 5 else intensity;
    BarsSplit(intensity, k);
    LitCountOfSplit(k);
  }


  /** `formatTime` of a marker: the text on its card. */
  function MarkerLabel(s: SceneMarker): (r: string)
    ensures ClockFormat.ParseClock(r) == Some([s.timestamp / 60, s.timestamp % 60])
  {
    ClockFormat.MinutesSecondsRoundTrip(s.timestamp);
    ClockFormat.FormatMinutesSeconds(s.timestamp)
  }

  /** The markers' cards show distinct times. */
  lemma MarkerLabelsDistinct(i: nat, j: nat)
    requires i < j < |SceneMarkers|
    ensures MarkerLabel(SceneMarkers[i]) != MarkerLabel(SceneMarkers[j])
  {
    MarkersOrdered();
    if MarkerLabel(SceneMarkers[i]) == MarkerLabel(SceneMarkers[j]) {
      ClockFormat.MinutesSecondsInjective(SceneMarkers[i].timestamp, SceneMarkers[j].timestamp);
    }
  }

  class ScenePlayer {
    /**
     * Whether the video element is mounted when a handler runs. The page
     * renders the element exactly when a movie is shown, and the handlers are
     * reached from controls on that same screen, so in the running page this
     * is true whenever `movie` is present. It stays a free constant (the
     * constructor's parameter, not tied to `movie` in `Valid`) so that the
     * source's `if (videoRef.current)` guards and their no-element branches
     * are modelled as written.
     */
    const hasVideo: bool
    var movie: Option<Movie>
    var isPlaying: bool
    var elementPlaying: bool
    var elementTime: nat
    var currentTime: nat
    var duration: nat
    var selectedScene: Option<SceneMarker>

    constructor (videoMounted: bool)
      ensures hasVideo == videoMounted && movie == None && selectedScene == None
      ensures !isPlaying && !elementPlaying && elementTime == 0 && currentTime == 0 && duration == 0
    {
      hasVideo := videoMounted;
      movie := None;
      isPlaying := false;
      elementPlaying := false;
      elementTime := 0;
      currentTime := 0;
      duration := 0;
      selectedScene := None;
    }

    /** The effect on the route id: a catalogue movie is shown with the 80-minute duration. */
    method Load(catalogue: seq<Movie>, id: string)
      modifies this
      ensures Find(catalogue, (m: Movie) => m.id == id).Some? ==>
        movie == Find(catalogue, (m: Movie) => m.id == id) && duration == FilmDuration
      ensures Find(catalogue, (m: Movie) => m.id == id).None? ==> movie == old(movie) && duration == old(duration)
      ensures currentTime == old(currentTime) && selectedScene == old(selectedScene) && isPlaying == old(isPlaying)
    {
      var k := FindIndex(catalogue, (m: Movie) => m.id == id);
      if k.Some? {
        movie := Some(catalogue[k.value]);
        duration := FilmDuration;
      }
    }

    /** `jumpToScene`: with a video element, seek to the scene, select it and play. */
    method JumpToScene(scene: SceneMarker)
      modifies this
      ensures hasVideo ==> elementTime == currentTime == scene.timestamp && selectedScene == Some(scene) &&
                           isPlaying && elementPlaying
      ensures !hasVideo ==> elementTime == old(elementTime) && currentTime == old(currentTime) &&
                            selectedScene == old(selectedScene) && isPlaying == old(isPlaying) &&
                            elementPlaying == old(elementPlaying)
      ensures movie == old(movie) && duration == old(duration)
    {
      if hasVideo {
        elementTime := scene.timestamp;
        currentTime := scene.timestamp;
        selectedScene := Some(scene);
        isPlaying := true;
        elementPlaying := true;
      }
    }

    /** A "Jump to Scene Type" button, and "Jump to Climax": the first marker of that type, if any. */
    method JumpToType(t: SceneType)
      modifies this
      ensures hasVideo && FirstOfType(SceneMarkers, t).Some? ==>
        selectedScene == FirstOfType(SceneMarkers, t) && currentTime == selectedScene.value.timestamp && isPlaying
      ensures !(hasVideo && FirstOfType(SceneMarkers, t).Some?) ==>
        selectedScene == old(selectedScene) && currentTime == old(currentTime) && isPlaying == old(isPlaying)
      ensures movie == old(movie) && duration == old(duration)
    {
      var scene := FirstOfType(SceneMarkers, t);
      if scene.Some? {
        JumpToScene(scene.value);
      }
    }

    /** "Best Action Scene": the first of the action markers. */
    method JumpToBestAction()
      modifies this
      ensures hasVideo ==> selectedScene == Some(SceneMarkers[1]) && currentTime == 420 && isPlaying
      ensures !hasVideo ==> selectedScene == old(selectedScene) && currentTime == old(currentTime)
      ensures movie == old(movie) && duration == old(duration)
    {
      var actionScenes := Filter(SceneMarkers, (s: SceneMarker) => OfType(s, Action));
      BestActionIsFirstAction(SceneMarkers);
      ActionTarget();
      if |actionScenes| > 0 {
        JumpToScene(actionScenes[0]);
      }
    }

    /** `togglePlay`: with a video element, flip playing and pause or play the element to match. */
    method TogglePlay()
      modifies this
      ensures hasVideo ==> isPlaying == !old(isPlaying) && elementPlaying == !old(isPlaying)
      ensures !hasVideo ==> isPlaying == old(isPlaying) && elementPlaying == old(elementPlaying)
      ensures currentTime == old(currentTime) && selectedScene == old(selectedScene)
    {
      if hasVideo {
        elementPlaying := !isPlaying;
        isPlaying := !isPlaying;
      }
    }

    /** The element's `onPlay` event. */
    method ElementPlayed()
      modifies this
      ensures isPlaying
      ensures elementPlaying == old(elementPlaying) && currentTime == old(currentTime)
      ensures selectedScene == old(selectedScene) && elementTime == old(elementTime)
    {
      isPlaying := true;
    }

    /** The element's `onPause` event. */
    method ElementPaused()
      modifies this
      ensures !isPlaying
      ensures elementPlaying == old(elementPlaying) && currentTime == old(currentTime)
      ensures selectedScene == old(selectedScene) && elementTime == old(elementTime)
    {
      isPlaying := false;
    }

    /**
     * The element playing on by `seconds`. The `timeupdate` listener is
     * attached by an effect that runs once, while the page still shows the
     * loading spinner and has no element, so it never attaches: the shown
     * time moves only with a jump.
     */
    method Play(seconds: nat)
      modifies this
      ensures elementPlaying ==> elementTime == old(elementTime) + seconds
      ensures !elementPlaying ==> elementTime == old(elementTime)
      ensures currentTime == old(currentTime) && selectedScene == old(selectedScene)
      ensures isPlaying == old(isPlaying) && elementPlaying == old(elementPlaying)
    {
      if elementPlaying {
        elementTime := elementTime + seconds;
      }
    }
  }
}
