/**
 * The home page's hero banner: a carousel over the featured movies that
 * advances every eight seconds, wraps around after the last one, and jumps
 * to a movie when its navigation dot is clicked.
 *
 * The eight-second interval is a `Tick` event; a tick arrives only while a
 * timer is armed, which is only for a non-empty list.
 */
module HeroBanner {
  import opened Wrappers
  import opened MockData

  /** The interval's update of the index. */
  function Advance(i: nat, n: nat): (r: nat)
    requires n > 0
    ensures r < n
    ensures i == n - 1 ==> r == 0
    ensures i < n - 1 ==> r == i + 1
  {
    (i + 1) % n
  }

  /** The index after `k` ticks. */
  function AdvanceTimes(i: nat, n: nat, k: nat): (r: nat)
    requires n > 0
    ensures r < n
  {
    if k == 0 then i % n else Advance(AdvanceTimes(i, n, k - 1), n)
  }

  /** After `k` ticks the banner is `k` places further on, modulo the number of movies. */
  lemma {:induction false} AdvanceTimesOffset(i: nat, n: nat, k: nat)
    requires n > 0
    ensures AdvanceTimes(i, n, k) == (i + k) % n
  {
    if k > 0 {
      AdvanceTimesOffset(i, n, k - 1);
      ModSucc(i + k - 1, n);
    }
  }

  lemma {:induction false} MulMonotone(x: nat, y: nat, n: nat)
    requires x < y
    ensures x * n + n <= y * n
    decreases y
  {
    if y > x + 1 {
      MulMonotone(x, y - 1, n);
      assert (y - 1) * n + n == y * n;
    } else {
      assert y * n == x * n + n;
    }
  }

  /** Euclidean division is unique: a quotient and a remainder below `n` that rebuild `a` are `a / n` and `a % n`. */
  lemma ModUnique(a: nat, n: nat, q: nat, r: nat)
    requires n > 0 && r < n && a == q * n + r
    ensures a % n == r
  {
    var q0, r0 := a / n, a % n;
    assert a == q0 * n + r0;
    if q0 > q {
      MulMonotone(q, q0, n);
    } else if q0 < q {
      MulMonotone(q0, q, n);
    }
  }

  lemma ModSucc(a: nat, n: nat)
    requires n > 0
    ensures ((a % n) + 1) % n == (a + 1) % n
  {
    var q, r := a / n, a % n;
    assert a == q * n + r;
    if r + 1 == n {
      ModUnique(r + 1, n, 1, 0);
      ModUnique(a + 1, n, q + 1, 0);
    } else {
      ModUnique(r + 1, n, 0, r + 1);
      ModUnique(a + 1, n, q, r + 1);
    }
  }

  /** A full round of ticks, one per movie, brings the banner back to where it was. */
  lemma FullCycle(i: nat, n: nat)
    requires i < n
    ensures AdvanceTimes(i, n, n) == i
  {
    AdvanceTimesOffset(i, n, n);
    ModUnique(i + n, n, 1, i);
  }

  class Banner {
    var movies: seq<Movie>
    var currentIndex: nat
    var isMuted: bool
    var imageLoaded: bool

    constructor (featured: seq<Movie>)
      ensures movies == featured && currentIndex == 0 && isMuted && !imageLoaded
    {
      movies := featured;
      currentIndex := 0;
      isMuted := true;
      imageLoaded := false;
    }

    /** The index names a movie whenever there is one. */
    ghost predicate Valid()
      reads this
    {
      |movies| > 0 ==> currentIndex < |movies|
    }

    /** The rotation timer is armed only for a non-empty list. */
    function TimerArmed(): (r: bool)
      reads this
      ensures r <==> movies != []
    {
      |movies| != 0
    }

    /** `movies[currentIndex]`, undefined past the end; the banner renders nothing then. */
    function CurrentMovie(): (r: Option<Movie>)
      reads this
      ensures r.Some? <==> currentIndex < |movies|
      ensures r.Some? ==> r.value == movies[currentIndex] && r.value in movies
      ensures Valid() && movies != [] ==> r.Some?
    {
      if currentIndex < |movies| then Some(movies[currentIndex]) else None
    }

    /** The Play button hands the shown movie's id to the page; with nothing shown there is no button. */
    function PlayTarget(): (r: Option<string>)
      reads this
      ensures r.Some? <==> CurrentMovie().Some?
      ensures r.Some? ==> r.value == movies[currentIndex].id
    {
      match CurrentMovie()
      case Some(m) => Some(m.id)
      case None => None
    }

    /** The interval: one place on, wrapping after the last movie, with the image reloading. */
    method Tick()
      modifies this
      ensures TimerArmed() ==> currentIndex == Advance(old(currentIndex), |movies|) && !imageLoaded
      ensures !TimerArmed() ==> currentIndex == old(currentIndex) && imageLoaded == old(imageLoaded)
      ensures movies == old(movies) && isMuted == old(isMuted)
      ensures Valid()
    {
      if |movies| != 0 {
        currentIndex := (currentIndex + 1) % |movies|;
        imageLoaded := false;
      }
    }

    /** A click on dot `k`: that movie is shown, its image reloading. */
    method SelectDot(k: nat)
      requires k < |movies|
      modifies this
      ensures currentIndex == k && !imageLoaded
      ensures movies == old(movies) && isMuted == old(isMuted)
      ensures Valid()
    {
      currentIndex := k;
      imageLoaded := false;
    }

    /**
     * The image's `onLoad` event. The model lets it fire at any time; a
     * browser fires it once per new `src`, so after a tick or a dot that
     * lands on the same movie (a single-movie banner) the image is not
     * loaded again and stays hidden.
     */
    method ImageLoaded()
      modifies this
      ensures imageLoaded && currentIndex == old(currentIndex) && movies == old(movies)
      ensures old(Valid()) ==> Valid()
    {
      imageLoaded := true;
    }

    method ToggleMute()
      modifies this
      ensures isMuted == !old(isMuted) && currentIndex == old(currentIndex) && movies == old(movies)
      ensures imageLoaded == old(imageLoaded)
      ensures old(Valid()) ==> Valid()
    {
      isMuted := !isMuted;
    }

    /**
     * New props: the index is kept, so with a shorter list the banner may
     * show nothing until the next tick brings the index back into range.
     */
    method SetMovies(featured: seq<Movie>)
      modifies this
      ensures movies == featured && currentIndex == old(currentIndex)
      ensures imageLoaded == old(imageLoaded) && isMuted == old(isMuted)
    {
      movies := featured;
    }
  }
}
