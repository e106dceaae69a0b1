/**
 * The browse page: a search box, the filter panel (genres that toggle on
 * and off, and one choice each of type, minimum year and minimum rating),
 * and the results of `searchMovies` for the current query and filters,
 * each card showing whether the movie is on My List.
 *
 * The year and rating selects hold strings: "" for "All", otherwise the
 * printed number of the chosen option.
 */
module Browse {
  import opened Wrappers
  import opened Text
  import opened Seqs
  import opened MockData

  /** The filter panel's state; `kind` is `None` for the empty type choice. */
  datatype FilterForm = FilterForm(genre: seq<string>, year: string, kind: Option<MediaType>, rating: string)

  const ClearedFilters := FilterForm([], "", None, "")

  /** One change from the filter panel, as `handleFilterChange(key, value)` receives it. */
  datatype FilterChange = ToggleGenre(g: string) | SetYear(year: string) | SetKind(kind: Option<MediaType>) | SetRating(rating: string)

  /** A genre checkbox: an unchecked genre is appended, a checked one taken out (every copy). */
  function ToggleGenre(genre: seq<string>, g: string): (r: seq<string>)
    ensures g in r <==> g !in genre
    ensures forall x :: x != g ==> (x in r <==> x in genre)
  {
    if g in genre then RemoveId(genre, g) else genre + [g]
  }

  /** Checking and unchecking a genre that was not selected gives the selection back. */
  lemma ToggleGenreTwice(genre: seq<string>, g: string)
    requires g !in genre
    ensures ToggleGenre(ToggleGenre(genre, g), g) == genre
  {
    var keep := (x: string) => x != g;
    FilterAll(genre, keep);
    assert Filter(genre + [g], keep) == Filter(genre, keep) by {
      FilterConcat(genre, [g], keep);
      FilterNone([g], keep);
    }
  }

  /** Toggling never introduces a duplicate genre. */
  lemma ToggleGenreNoDuplicates(genre: seq<string>, g: string)
    requires NoDuplicates(genre)
    ensures NoDuplicates(ToggleGenre(genre, g))
  {
    if g in genre {
      RemoveIdNoDuplicates(genre, g);
    }
  }

  /** `handleFilterChange`: a genre toggles; any other key overwrites its own value and only that. */
  function ApplyChange(f: FilterForm, c: FilterChange): (r: FilterForm)
    ensures c.ToggleGenre? ==> r == f.(genre := ToggleGenre(f.genre, c.g))
    ensures !c.ToggleGenre? ==> r.genre == f.genre
    ensures c.SetYear? ==> r == f.(year := c.year)
    ensures c.SetKind? ==> r == f.(kind := c.kind)
    ensures c.SetRating? ==> r == f.(rating := c.rating)
  {
    match c
    case ToggleGenre(g) => f.(genre := ToggleGenre(f.genre, g))
    case SetYear(y) => f.(year := y)
    case SetKind(k) => f.(kind := k)
    case SetRating(s) => f.(rating := s)
  }

  /**
   * The arguments `updateMovies` passes to `searchMovies`: an empty genre
   * list and empty strings become "not given", the year is parsed, and the
   * star rating is read in the catalogue's tenths.
   */
  function ToSearchFilters(f: FilterForm): (r: SearchFilters)
    ensures r.genre.Some? <==> |f.genre| > 0
    ensures r.genre.Some? ==> r.genre.value == f.genre
    ensures r.year.Some? <==> f.year != ""
    ensures r.kind == f.kind
    ensures r.rating.Some? <==> f.rating != ""
  {
    SearchFilters(
      if |f.genre| > 0 then Some(f.genre) else None,
      if f.year != "" then Some(ParseDecimal(f.year)) else None,
      f.kind,
      if f.rating != "" then Some(ParseDecimal(f.rating) * 10) else None)
  }

  /** A year or star option chosen from its select arrives as the number it shows. */
  lemma SelectedOptionsParse(f: FilterForm, year: nat, stars: nat)
    requires f.year == NatToString(year) && f.rating == NatToString(stars)
    ensures ToSearchFilters(f).year == Some(year)
    ensures ToSearchFilters(f).rating == Some(stars * 10)
  {
    ParsePrinted(year);
    ParsePrinted(stars);
  }

  /** `updateMovies(query, filters)`. */
  function UpdateMovies(catalogue: seq<Movie>, query: string, f: FilterForm): (r: seq<Movie>)
  {
    SearchMovies(catalogue, query, Some(ToSearchFilters(f)))
  }

  /** "Clear Filters" is shown exactly when some filter is set. */
  predicate ShowClearFilters(f: FilterForm)
  {
    |f.genre| > 0 || f.year != "" || f.kind.Some? || f.rating != ""
  }

  /** Without any filter set, the results are the text search alone; in particular after "Clear Filters". */
  lemma NoFiltersIsTextSearch(catalogue: seq<Movie>, query: string, f: FilterForm)
    requires !ShowClearFilters(f)
    ensures UpdateMovies(catalogue, query, f) == SearchMovies(catalogue, query, None)
    ensures !ShowClearFilters(ClearedFilters)
  {
  }

  /** Any change that sets a value makes "Clear Filters" appear; toggling a genre on does too. */
  lemma ChangeShowsClear(f: FilterForm, c: FilterChange)
    requires (c.ToggleGenre? && c.g !in f.genre) || (c.SetYear? && c.year != "") ||
             (c.SetKind? && c.kind.Some?) || (c.SetRating? && c.rating != "")
    ensures ShowClearFilters(ApplyChange(f, c))
  {
    if c.ToggleGenre? {
      assert c.g in ApplyChange(f, c).genre;
    }
  }

  /** The results are catalogue movies that pass the query and every set filter, in catalogue order. */
  lemma UpdateMoviesResults(catalogue: seq<Movie>, query: string, f: FilterForm, m: Movie)
    ensures m in UpdateMovies(catalogue, query, f) <==>
            m in catalogue && Keeps(m, query, Some(ToSearchFilters(f)))
    ensures IsSubsequence(UpdateMovies(catalogue, query, f), catalogue)
  {
    SearchMembership(catalogue, query, Some(ToSearchFilters(f)), m);
    SearchKeepsOrder(catalogue, query, Some(ToSearchFilters(f)));
  }

  /** `moviesWithMyListStatus`: each card's flag says whether its id is on the list. */
  function WithListStatus(movies: seq<Movie>, myList: seq<string>): (r: seq<Movie>)
    ensures |r| == |movies|
    ensures forall i :: 0 <= i < |r| ==> r[i] == movies[i].(isInMyList := Some(movies[i].id in myList))
  {
    seq(|movies|, i requires 0 <= i < |movies| => movies[i].(isInMyList := Some(movies[i].id in myList)))
  }

  class BrowsePage {
    const catalogue: seq<Movie>
    const library: Library
    var searchQuery: string
    var myList: seq<string>
    var filters: FilterForm
    var movies: seq<Movie>

    /** The page as first rendered for the `search` parameter (`""` when absent). */
    constructor (movieCatalogue: seq<Movie>, lib: Library, searchParam: string)
      ensures catalogue == movieCatalogue && library == lib
      ensures searchQuery == searchParam && myList == [] && filters == ClearedFilters
      ensures movies == SearchMovies(movieCatalogue, searchParam, Some(SearchFilters(Some([]), None, None, None)))
    {
      catalogue := movieCatalogue;
      library := lib;
      searchQuery := searchParam;
      myList := [];
      filters := ClearedFilters;
      movies := SearchMovies(movieCatalogue, searchParam, Some(SearchFilters(Some([]), None, None, None)));
    }

    /** The mount effect reads the stored list. */
    method Mount()
      modifies this
      ensures myList == library.myList
      ensures searchQuery == old(searchQuery) && filters == old(filters) && movies == old(movies)
    {
      myList := library.myList;
    }

    method TypeQuery(text: string)
      modifies this
      ensures searchQuery == text
      ensures myList == old(myList) && filters == old(filters) && movies == old(movies)
    {
      searchQuery := text;
    }

    /** The effect on a new `search` parameter, and `handleSearch` (which searches for the typed query). */
    method SearchFor(query: string)
      modifies this
      ensures searchQuery == query && movies == UpdateMovies(catalogue, query, filters)
      ensures myList == old(myList) && filters == old(filters)
    {
      searchQuery := query;
      movies := UpdateMovies(catalogue, query, filters);
    }

    method HandleFilterChange(c: FilterChange)
      modifies this
      ensures filters == ApplyChange(old(filters), c)
      ensures movies == UpdateMovies(catalogue, searchQuery, filters)
      ensures searchQuery == old(searchQuery) && myList == old(myList)
    {
      var newFilters := filters;
      if c.ToggleGenre? {
        if c.g in newFilters.genre {
          newFilters := newFilters.(genre := RemoveId(newFilters.genre, c.g));
        } else {
          newFilters := newFilters.(genre := newFilters.genre + [c.g]);
        }
      } else if c.SetYear? {
        newFilters := newFilters.(year := c.year);
      } else if c.SetKind? {
        newFilters := newFilters.(kind := c.kind);
      } else {
        newFilters := newFilters.(rating := c.rating);
      }
      filters := newFilters;
      movies := UpdateMovies(catalogue, searchQuery, newFilters);
    }

    method ClearFilters()
      modifies this
      ensures filters == ClearedFilters && !ShowClearFilters(filters)
      ensures movies == SearchMovies(catalogue, searchQuery, None)
      ensures searchQuery == old(searchQuery) && myList == old(myList)
    {
      filters := ClearedFilters;
      movies := UpdateMovies(catalogue, searchQuery, ClearedFilters);
      NoFiltersIsTextSearch(catalogue, searchQuery, ClearedFilters);
    }

    /**
     * `handleAddToList`: a movie the page shows as listed is removed from the
     * stored list and the page's list; otherwise it is added to both. The
     * page decides from its own copy of the list.
     */
    method HandleAddToList(movieId: string)
      modifies this, library
      ensures old(movieId in myList) ==>
        library.myList == RemoveId(old(library.myList), movieId) && myList == RemoveId(old(myList), movieId)
      ensures old(movieId !in myList) ==>
        library.myList == AddId(old(library.myList), movieId) && myList == old(myList) + [movieId]
      ensures movieId in myList <==> old(movieId !in myList)
      ensures library.watchHistory == old(library.watchHistory)
      ensures searchQuery == old(searchQuery) && filters == old(filters) && movies == old(movies)
    {
      if movieId in myList {
        library.RemoveFromMyList(movieId);
        myList := RemoveId(myList, movieId);
      } else {
        library.AddToMyList(movieId);
        myList := myList + [movieId];
      }
    }

    /** The cards the page renders. */
    function Shown(): (r: seq<Movie>)
      reads this
      ensures |r| == |movies|
      ensures forall i :: 0 <= i < |r| ==> r[i].isInMyList == Some(movies[i].id in myList)
    {
      WithListStatus(movies, myList)
    }
  }
}
