/**
 * The video player's controls: play/pause, the skip buttons, the seek bar,
 * volume and mute. The player keeps its own state next to the video
 * element's, and every handler does nothing while the element is absent.
 *
 * The effect that attaches the `timeupdate` and `loadedmetadata` listeners
 * runs once, after the first render, which shows only the loading spinner:
 * the element does not exist yet, the effect returns early and never runs
 * again. So the page never learns the element's position or the video's
 * length: the shown time and the duration stay 0, and `skip`, which clamps
 * to that duration, always moves the element back to the start.
 *
 * Times are whole seconds and volumes whole slider percentages (the element
 * volume 0.35 is 35). The time text is `ClockFormat.FormatPlayerTime`.
 */
module VideoPlayer {
  import opened Wrappers
  import opened Seqs
  import MockData

  /** `Math.max(lo, Math.min(hi, x))`. */
  function Clamp(lo: int, hi: int, x: int): (r: int)
    ensures lo <= r
    ensures lo <= hi ==> r <= hi
    ensures lo <= x <= hi ==> r == x
    ensures x < lo ==> r == lo
    ensures lo <= hi < x ==> r == hi
  {
    var m := if hi < x then hi else x;
    if lo < m then m else lo
  }

  /**
   * The skip the buttons evidently intend: the position moves by `seconds`
   * within a video of length `videoLength`.
   */
  function IntendedSkip(time: int, videoLength: nat, seconds: int): (r: int)
    ensures 0 <= r <= videoLength
    ensures 0 <= time + seconds <= videoLength ==> r == time + seconds
    ensures time + seconds < 0 ==> r == 0
    ensures time + seconds > videoLength ==> r == videoLength
  {
    Clamp(0, videoLength, time + seconds)
  }

  /**
   * As written, a skip clamps to the duration the page holds, which stays 0:
   * from position 30, "+10s" lands on 0 instead of 40, in any video longer
   * than 40 seconds.
   */
  lemma SkipRewindsAsWritten(time: int, videoLength: nat, seconds: int)
    requires 0 < time + seconds <= videoLength
    ensures Clamp(0, 0, time + seconds) == 0
    ensures IntendedSkip(time, videoLength, seconds) == time + seconds != 0
  {
  }

  /** The sound settings the player keeps, and the volume the element actually has. */
  datatype Audio = Audio(volume: int, isMuted: bool, elementVolume: int)

  /** The element is silent while muted and plays at the stored volume otherwise. */
  predicate AudioInv(a: Audio)
  {
    a.elementVolume == if a.isMuted then 0 else a.volume
  }

  /** `handleVolumeChange`: the slider sets both volumes, and a volume of 0 counts as muted. */
  function VolumeChange(a: Audio, percent: int): (r: Audio)
    ensures r.isMuted <==> percent == 0
    ensures r.volume == percent && AudioInv(r)
  {
    Audio(percent, percent == 0, percent)
  }

  /** `toggleMute`: muting silences the element but keeps the stored volume; unmuting restores it. */
  function ToggleMute(a: Audio): (r: Audio)
    ensures r.isMuted == !a.isMuted && r.volume == a.volume
    ensures AudioInv(r)
  {
    if a.isMuted then a.(elementVolume := a.volume, isMuted := false)
    else a.(elementVolume := 0, isMuted := true)
  }

  /** Muting and unmuting again gives back the same sound settings. */
  lemma ToggleMuteTwice(a: Audio)
    requires AudioInv(a)
    ensures ToggleMute(ToggleMute(a)) == a
  {
  }

  class Player {
    /**
     * Whether the video element is mounted when a handler runs. The page
     * renders the element exactly when a movie is shown, and the handlers are
     * reached from controls on that same screen, so in the running page this
     * is true whenever `movie` is present. It stays a free constant (the
     * constructor's parameter, not tied to `movie` in `Valid`) so that the
     * source's `if (videoRef.current)` guards and their no-element branches
     * are modelled as written.
     */
    const hasVideo: bool
    var isPlaying: bool
    var elementPlaying: bool
    /** The element's position, which playback and `skip` move. */
    var elementTime: int
    /** The position the controls show. */
    var currentTime: int
    /** The length the page believes the video has. */
    var duration: int
    var audio: Audio
    var movie: Option<MockData.Movie>

    /**
     * Without the listeners, the shown time and the duration never leave 0,
     * and the element's position is never negative.
     */
    ghost predicate Valid()
      reads this
    {
      currentTime == 0 && duration == 0 && elementTime >= 0
    }

    constructor (videoMounted: bool)
      ensures hasVideo == videoMounted
      ensures !isPlaying && !elementPlaying && elementTime == 0 && currentTime == 0 && duration == 0
      ensures audio == Audio(100, false, 100) && AudioInv(audio) && movie == None
      ensures Valid()
    {
      hasVideo := videoMounted;
      isPlaying := false;
      elementPlaying := false;
      elementTime := 0;
      currentTime := 0;
      duration := 0;
      audio := Audio(100, false, 100);
      movie := None;
    }

    /** The mount effect: a known id opens its movie and records it in the watch history with progress 0. */
    method Open(catalogue: seq<MockData.Movie>, id: string, library: MockData.Library, now: nat)
      modifies this, library
      ensures var found := Find(catalogue, (m: MockData.Movie) => m.id == id);
        (found.Some? ==> (movie == found &&
          library.watchHistory == MockData.Upsert(old(library.watchHistory), MockData.HistoryEntry(id, now, 0)))) &&
        (found.None? ==> movie == old(movie) && library.watchHistory == old(library.watchHistory))
      ensures library.myList == old(library.myList)
      ensures isPlaying == old(isPlaying) && elementTime == old(elementTime) && audio == old(audio)
      ensures currentTime == old(currentTime) && duration == old(duration)
    {
      var k := FindIndex(catalogue, (m: MockData.Movie) => m.id == id);
      if k.Some? {
        movie := Some(catalogue[k.value]);
        library.AddToWatchHistory(catalogue[k.value].id, 0, now);
      }
    }

    method TogglePlay()
      modifies this
      ensures hasVideo ==> isPlaying == !old(isPlaying) && elementPlaying == isPlaying
      ensures !hasVideo ==> isPlaying == old(isPlaying) && elementPlaying == old(elementPlaying)
      ensures elementTime == old(elementTime) && audio == old(audio)
      ensures currentTime == old(currentTime) && duration == old(duration)
    {
      if !hasVideo {
        return;
      }
      elementPlaying := !isPlaying;
      isPlaying := !isPlaying;
    }

    /**
     * The element playing on by `seconds`. Nothing tells the page, so the
     * shown time stays where it was.
     */
    method Play(seconds: nat)
      modifies this
      ensures elementPlaying ==> elementTime == old(elementTime) + seconds
      ensures !elementPlaying ==> elementTime == old(elementTime)
      ensures currentTime == old(currentTime) && duration == old(duration)
      ensures isPlaying == old(isPlaying) && elementPlaying == old(elementPlaying) && audio == old(audio)
      ensures old(Valid()) ==> Valid()
    {
      if elementPlaying {
        elementTime := elementTime + seconds;
      }
    }

    /**
     * `skip(seconds)`: the element's position moves by `seconds`, clamped
     * to the duration the page holds; since that is 0, every skip, forward
     * or back, puts the element at the start.
     */
    method Skip(seconds: int)
      modifies this
      ensures hasVideo ==> elementTime == Clamp(0, duration, old(elementTime) + seconds)
      ensures hasVideo && old(Valid()) ==> elementTime == 0
      ensures !hasVideo ==> elementTime == old(elementTime)
      ensures isPlaying == old(isPlaying) && audio == old(audio) && duration == old(duration)
      ensures currentTime == old(currentTime)
      ensures old(Valid()) ==> Valid()
    {
      if !hasVideo {
        return;
      }
      elementTime := Clamp(0, duration, elementTime + seconds);
    }

    /**
     * `handleSeek`: the slider's percentage of the duration becomes both
     * positions. With the duration at 0 the product is 0 whatever the
     * slider says, so the fractional arithmetic of the source is exact here.
     */
    method HandleSeek(percent: int)
      modifies this
      ensures hasVideo ==> elementTime == currentTime
      ensures hasVideo && old(Valid()) ==> elementTime == 0 && currentTime == 0
      ensures !hasVideo ==> elementTime == old(elementTime) && currentTime == old(currentTime)
      ensures isPlaying == old(isPlaying) && audio == old(audio) && duration == old(duration)
      ensures old(Valid()) ==> Valid()
    {
      if !hasVideo {
        return;
      }
      var newTime := percent * duration / 100;
      elementTime := newTime;
      currentTime := newTime;
    }

    method HandleVolumeChange(percent: int)
      modifies this
      ensures audio == if hasVideo then VolumeChange(old(audio), percent) else old(audio)
      ensures isPlaying == old(isPlaying) && elementTime == old(elementTime)
      ensures currentTime == old(currentTime) && duration == old(duration)
    {
      if !hasVideo {
        return;
      }
      audio := audio.(elementVolume := percent);
      audio := audio.(volume := percent);
      audio := audio.(isMuted := percent == 0);
    }

    method ToggleMuteButton()
      modifies this
      ensures audio == if hasVideo then ToggleMute(old(audio)) else old(audio)
      ensures isPlaying == old(isPlaying) && elementTime == old(elementTime)
      ensures currentTime == old(currentTime) && duration == old(duration)
    {
      if !hasVideo {
        return;
      }
      if audio.isMuted {
        audio := audio.(elementVolume := audio.volume, isMuted := false);
      } else {
        audio := audio.(elementVolume := 0, isMuted := true);
      }
    }
  }

  /**
   * Opening a movie, playing 30 seconds and pressing "+10s" leaves the
   * element at the start and the clock at 0.
   */
  method SkipScenario(catalogue: seq<MockData.Movie>, id: string, library: MockData.Library, now: nat)
    returns (position: int, shown: int)
    modifies library
    ensures position == 0 && shown == 0
  {
    var p := new Player(true);
    p.Open(catalogue, id, library, now);
    p.TogglePlay();
    p.Play(30);
    assert p.elementTime == 30;
    p.Skip(10);
    position, shown := p.elementTime, p.currentTime;
  }
}
