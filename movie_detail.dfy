/**
 * The movie detail page: looking the movie up by its route id, the play
 * and My List buttons, the collapsible description and the row of similar
 * titles.
 *
 * Description lengths count characters; the browser counts UTF-16 code
 * units, which agree for text without characters outside the Basic
 * Multilingual Plane.
 */
module MovieDetail {
  import opened Wrappers
  import opened Seqs
  import opened MockData

  /** The most similar titles the page shows. */
  const SimilarLimit := 6

  /** The description length above which the page collapses it. */
  const CollapseLength := 200

  /** The other movie has a genre of `movie`. */
  predicate SharesGenreWith(other: Movie, movie: Movie)
  {
    exists g :: g in other.genres && g in movie.genres
  }

  predicate IsSimilar(other: Movie, movie: Movie)
  {
    other.id != movie.id && SharesGenreWith(other, movie)
  }

  /** `similarMovies`. */
  function SimilarMovies(catalogue: seq<Movie>, movie: Movie): (r: seq<Movie>)
    ensures |r| <= SimilarLimit
    ensures forall i :: 0 <= i < |r| ==> IsSimilar(r[i], movie) && r[i] in catalogue
  {
    Take(Filter(catalogue, (m: Movie) => IsSimilar(m, movie)), SimilarLimit)
  }

  /**
   * The row holds the first six similar catalogue titles in catalogue
   * order (never the movie itself); when there are at most six, it holds
   * them all.
   */
  lemma SimilarMoviesChoice(catalogue: seq<Movie>, movie: Movie)
    ensures IsSubsequence(SimilarMovies(catalogue, movie), catalogue)
    ensures var all := Filter(catalogue, (m: Movie) => IsSimilar(m, movie));
      SimilarMovies(catalogue, movie) <= all &&
      (|all| <= SimilarLimit ==> SimilarMovies(catalogue, movie) == all) &&
      (|all| > SimilarLimit ==> |SimilarMovies(catalogue, movie)| == SimilarLimit)
  {
    FilterTakeIsSubsequence(catalogue, (m: Movie) => IsSimilar(m, movie), SimilarLimit);
  }

  /** The collapsed description: the first 200 characters and "...", whatever the length. */
  function CollapsedDescription(d: string): (r: string)
    ensures |d| <= CollapseLength ==> r == d + "..."
    ensures |d| > CollapseLength ==> r == d[..CollapseLength] + "..."
    ensures |r| <= CollapseLength + 3
  {
    Take(d, CollapseLength) + "..."
  }

  /** The "Show more"/"Show less" button appears only for descriptions longer than 200 characters. */
  predicate ShowsToggle(d: string)
  {
    |d| > CollapseLength
  }

  /** The text the page shows for the description. */
  function DescriptionText(d: string, showFull: bool): (r: string)
    ensures showFull ==> r == d
    ensures !showFull ==> r == CollapsedDescription(d)
  {
    if showFull then d else CollapsedDescription(d)
  }

  /**
   * A short description is never shown as it is while collapsed: it gets
   * "..." although nothing is cut, and no button can expand it.
   */
  lemma ShortDescriptionAlwaysEllipsized(d: string)
    requires !ShowsToggle(d)
    ensures DescriptionText(d, false) != d
    ensures DescriptionText(d, false)[..|d|] == d
  {
    assert |DescriptionText(d, false)| == |d| + 3;
  }

  class MovieDetailPage {
    const catalogue: seq<Movie>
    const library: Library
    var movie: Option<Movie>
    var isInMyList: bool
    var loading: bool
    var showFullDescription: bool

    constructor (movieCatalogue: seq<Movie>, lib: Library)
      ensures catalogue == movieCatalogue && library == lib
      ensures movie == None && !isInMyList && loading && !showFullDescription
    {
      catalogue := movieCatalogue;
      library := lib;
      movie := None;
      isInMyList := false;
      loading := true;
      showFullDescription := false;
    }

    /** The button's state agrees with the stored list. */
    ghost predicate Synced()
      reads this, library
    {
      movie.Some? ==> (isInMyList <==> movie.value.id in library.myList)
    }

    /** The effect on the route id: a known id shows its movie and whether it is listed; a present id ends loading. */
    method Load(id: Option<string>)
      modifies this
      ensures id.Some? ==> !loading
      ensures id.None? ==> loading == old(loading) && movie == old(movie) && isInMyList == old(isInMyList)
      ensures id.Some? ==> var found := Find(catalogue, (m: Movie) => m.id == id.value);
        (found.Some? ==> movie == found && (isInMyList <==> id.value in library.myList)) &&
        (found.None? ==> movie == old(movie) && isInMyList == old(isInMyList))
      ensures id.Some? && Find(catalogue, (m: Movie) => m.id == id.value).Some? ==> Synced()
      ensures showFullDescription == old(showFullDescription)
    {
      if id.Some? {
        var k := FindIndex(catalogue, (m: Movie) => m.id == id.value);
        if k.Some? {
          movie := Some(catalogue[k.value]);
          isInMyList := id.value in library.myList;
        }
        loading := false;
      }
    }

    /** `handlePlay`: the shown movie is recorded in the watch history with progress 0. */
    method HandlePlay(now: nat)
      modifies library
      ensures movie.Some? ==> library.watchHistory == Upsert(old(library.watchHistory), HistoryEntry(movie.value.id, now, 0))
      ensures movie.None? ==> library.watchHistory == old(library.watchHistory)
      ensures library.myList == old(library.myList)
    {
      if movie.Some? {
        library.AddToWatchHistory(movie.value.id, 0, now);
      }
    }

    /** `handleAddToList`: the button flips, and the stored list follows it. */
    method HandleAddToList()
      modifies this, library
      ensures movie == old(movie) && showFullDescription == old(showFullDescription) && loading == old(loading)
      ensures movie.None? ==> isInMyList == old(isInMyList) && library.myList == old(library.myList)
      ensures movie.Some? && old(isInMyList) ==>
        !isInMyList && library.myList == RemoveId(old(library.myList), movie.value.id)
      ensures movie.Some? && !old(isInMyList) ==>
        isInMyList && library.myList == AddId(old(library.myList), movie.value.id)
      ensures library.watchHistory == old(library.watchHistory)
      ensures old(Synced()) ==> Synced()
    {
      if movie.None? {
        return;
      }
      if isInMyList {
        library.RemoveFromMyList(movie.value.id);
        isInMyList := false;
      } else {
        library.AddToMyList(movie.value.id);
        isInMyList := true;
      }
    }

    /** The "Show more"/"Show less" button, present only for a long description. */
    method ToggleDescription()
      modifies this
      ensures movie.Some? && ShowsToggle(movie.value.description) ==> showFullDescription == !old(showFullDescription)
      ensures !(movie.Some? && ShowsToggle(movie.value.description)) ==> showFullDescription == old(showFullDescription)
      ensures movie == old(movie) && isInMyList == old(isInMyList)
    {
      if movie.Some? && ShowsToggle(movie.value.description) {
        showFullDescription := !showFullDescription;
      }
    }
  }
}
