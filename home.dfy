/**
 * The home page: the featured banner and the catalogue rows (trending,
 * new releases, one row per genre, continue watching, recommendations),
 * each card showing whether the movie is on My List.
 *
 * Ratings are tenths, so the 8.5 and 7.5 thresholds are 85 and 75.
 */
module Home {
  import opened Wrappers
  import opened Seqs
  import opened MockData
  import Browse

  const FeaturedRating := 85
  const TrendingRating := 75
  const FeaturedLimit := 5
  const NewReleaseYear := 2023
  const RecommendedLimit := 12

  predicate IsFeatured(m: Movie)
  {
    m.rating >= FeaturedRating
  }

  predicate IsTrending(m: Movie)
  {
    m.rating >= TrendingRating
  }

  /** `featuredMovies`: the first five movies rated 8.5 or more. */
  function Featured(catalogue: seq<Movie>): (r: seq<Movie>)
    ensures |r| <= FeaturedLimit
    ensures forall i :: 0 <= i < |r| ==> r[i] in catalogue && r[i].rating >= FeaturedRating
  {
    Take(Filter(catalogue, IsFeatured), FeaturedLimit)
  }

  /**
   * The banner holds the first five catalogue movies rated 8.5 or more, in
   * catalogue order; when fewer qualify, it holds them all.
   */
  lemma FeaturedChoice(catalogue: seq<Movie>, m: Movie)
    ensures IsSubsequence(Featured(catalogue), catalogue)
    ensures var all := Filter(catalogue, IsFeatured);
      (m in all <==> m in catalogue && m.rating >= FeaturedRating) &&
      Featured(catalogue) <= all &&
      (|all| <= FeaturedLimit ==> Featured(catalogue) == all) &&
      (|all| > FeaturedLimit ==> |Featured(catalogue)| == FeaturedLimit)
  {
    FilterTakeIsSubsequence(catalogue, IsFeatured, FeaturedLimit);
    FilterMembership(catalogue, IsFeatured, m);
  }

  /** `trendingMovies`. */
  function Trending(catalogue: seq<Movie>): (r: seq<Movie>)
  {
    Filter(catalogue, IsTrending)
  }

  /** `newReleases`. */
  function NewReleases(catalogue: seq<Movie>): (r: seq<Movie>)
  {
    Filter(catalogue, (m: Movie) => m.year >= NewReleaseYear)
  }

  /** The action, drama and comedy rows: the movies listing that genre. */
  function GenreRow(catalogue: seq<Movie>, genre: string): (r: seq<Movie>)
  {
    Filter(catalogue, (m: Movie) => genre in m.genres)
  }

  /** `continueWatching`: catalogue movies with an entry in the watch history. */
  function ContinueWatching(catalogue: seq<Movie>, history: seq<HistoryEntry>): (r: seq<Movie>)
  {
    Filter(catalogue, (m: Movie) => exists h :: h in history && h.movieId == m.id)
  }

  /** The recommendations row, shown only to premium subscribers: the first twelve catalogue movies. */
  function Recommended(catalogue: seq<Movie>, premium: bool): (r: Option<seq<Movie>>)
    ensures r.Some? <==> premium
    ensures r.Some? ==> r.value <= catalogue && |r.value| == if |catalogue| < RecommendedLimit then |catalogue| else RecommendedLimit
  {
    if premium then Some(Take(catalogue, RecommendedLimit)) else None
  }

  /**
   * Each row holds exactly the catalogue movies that pass its test, in
   * catalogue order; continue watching follows the catalogue, not the order
   * of viewing.
   */
  lemma RowsSelect(catalogue: seq<Movie>, history: seq<HistoryEntry>, genre: string, m: Movie)
    ensures m in Trending(catalogue) <==> m in catalogue && m.rating >= TrendingRating
    ensures m in NewReleases(catalogue) <==> m in catalogue && m.year >= NewReleaseYear
    ensures m in GenreRow(catalogue, genre) <==> m in catalogue && genre in m.genres
    ensures m in ContinueWatching(catalogue, history) <==>
            m in catalogue && exists h :: h in history && h.movieId == m.id
    ensures IsSubsequence(ContinueWatching(catalogue, history), catalogue)
  {
    FilterMembership(catalogue, IsTrending, m);
    FilterMembership(catalogue, (m: Movie) => m.year >= NewReleaseYear, m);
    FilterMembership(catalogue, (m: Movie) => genre in m.genres, m);
    FilterMembership(catalogue, (m: Movie) => exists h :: h in history && h.movieId == m.id, m);
    FilterIsSubsequence(catalogue, (m: Movie) => exists h :: h in history && h.movieId == m.id);
  }

  /** Every banner movie is also in the trending row, and in the same relative order. */
  lemma FeaturedAreTrending(catalogue: seq<Movie>)
    ensures IsSubsequence(Featured(catalogue), Trending(catalogue))
  {
    FilterFilter(catalogue, IsTrending, IsFeatured, IsFeatured);
    FilterTakeIsSubsequence(Trending(catalogue), IsFeatured, FeaturedLimit);
  }

  /** `addMyListStatus`: only the list flag changes, and it says whether the id is on the list. */
  lemma AddMyListStatusEffect(movies: seq<Movie>, myList: seq<string>)
    ensures var r := Browse.WithListStatus(movies, myList);
      |r| == |movies| &&
      (forall i :: 0 <= i < |r| ==> r[i].isInMyList == Some(movies[i].id in myList)) &&
      (forall i :: 0 <= i < |r| ==> r[i].(isInMyList := movies[i].isInMyList) == movies[i])
  {
  }

  class HomePage {
    const catalogue: seq<Movie>
    const library: Library
    var myList: seq<string>
    var watchHistory: seq<HistoryEntry>

    constructor (movieCatalogue: seq<Movie>, lib: Library)
      ensures catalogue == movieCatalogue && library == lib && myList == [] && watchHistory == []
    {
      catalogue := movieCatalogue;
      library := lib;
      myList := [];
      watchHistory := [];
    }

    /** The mount effect reads both stored lists. */
    method Mount()
      modifies this
      ensures myList == library.myList && watchHistory == library.watchHistory
    {
      myList := library.myList;
      watchHistory := library.watchHistory;
    }

    /** `handleAddToList`: a listed id is removed, any other id added, in the stored list and the page's copy. */
    method HandleAddToList(movieId: string)
      modifies this, library
      ensures old(movieId in myList) ==>
        library.myList == RemoveId(old(library.myList), movieId) && myList == RemoveId(old(myList), movieId)
      ensures old(movieId !in myList) ==>
        library.myList == AddId(old(library.myList), movieId) && myList == old(myList) + [movieId]
      ensures movieId in myList <==> old(movieId !in myList)
      ensures library.watchHistory == old(library.watchHistory) && watchHistory == old(watchHistory)
    {
      if movieId in myList {
        library.RemoveFromMyList(movieId);
        myList := RemoveId(myList, movieId);
      } else {
        library.AddToMyList(movieId);
        myList := myList + [movieId];
      }
    }

    /** The continue-watching row as rendered, shown only when it is not empty. */
    function ContinueWatchingRow(): (r: Option<seq<Movie>>)
      reads this
      ensures r.Some? <==> ContinueWatching(catalogue, watchHistory) != []
      ensures r.Some? ==> |r.value| == |ContinueWatching(catalogue, watchHistory)|
    {
      var row := ContinueWatching(catalogue, watchHistory);
      if row != [] then Some(Browse.WithListStatus(row, myList)) else None
    }
  }
}
