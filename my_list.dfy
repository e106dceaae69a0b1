/**
 * The "My List" page: the catalogue movies whose ids are on the viewer's
 * list, narrowed by type, put in the chosen order, and the buttons that
 * take one movie or every movie off the list.
 *
 * Title order uses the browser's locale comparison, which is a parameter
 * here (`titleLe`); the other orders are written out.
 */
module MyList {
  import opened Text
  import opened Seqs
  import opened Sorting
  import opened Wrappers
  import opened MockData

  datatype TypeFilter = AllTypes | OfType(kind: MediaType)

  datatype SortKey = Added | Title | Year | Rating

  /** `myListMovies`: the catalogue filtered by list membership. */
  function MyListMovies(catalogue: seq<Movie>, ids: seq<string>): (r: seq<Movie>)
  {
    Filter(catalogue, (m: Movie) => m.id in ids)
  }

  /** The page lists exactly the catalogue movies on the list, in catalogue order. */
  lemma MyListMoviesSelection(catalogue: seq<Movie>, ids: seq<string>, m: Movie)
    ensures m in MyListMovies(catalogue, ids) <==> m in catalogue && m.id in ids
    ensures IsSubsequence(MyListMovies(catalogue, ids), catalogue)
  {
    FilterMembership(catalogue, (m: Movie) => m.id in ids, m);
    FilterIsSubsequence(catalogue, (m: Movie) => m.id in ids);
  }

  predicate OfKind(m: Movie, f: TypeFilter)
  {
    f.AllTypes? || m.kind == f.kind
  }

  /** `filteredMovies`. */
  function FilterByType(movies: seq<Movie>, f: TypeFilter): (r: seq<Movie>)
  {
    Filter(movies, (m: Movie) => OfKind(m, f))
  }

  /** "All Types" keeps the list as it is; a type keeps exactly the movies of that type, in order. */
  lemma FilterByTypeEffect(movies: seq<Movie>, f: TypeFilter, m: Movie)
    ensures f.AllTypes? ==> FilterByType(movies, f) == movies
    ensures f.OfType? ==> (m in FilterByType(movies, f) <==> m in movies && m.kind == f.kind)
    ensures IsSubsequence(FilterByType(movies, f), movies)
  {
    if f.AllTypes? {
      FilterAll(movies, (m: Movie) => OfKind(m, f));
    }
    FilterMembership(movies, (m: Movie) => OfKind(m, f), m);
    FilterIsSubsequence(movies, (m: Movie) => OfKind(m, f));
  }

  /**
   * The comparator of each sort key, as "may stay in front": the newest or
   * best rated first, and `compare` returning 0 for "Recently Added".
   */
  function Comparator(key: SortKey, titleLe: (Movie, Movie) -> bool): (Movie, Movie) -> bool
  {
    match key
    case Added => (a: Movie, b: Movie) => true
    case Title => titleLe
    case Year => (a: Movie, b: Movie) => b.year - a.year <= 0
    case Rating => (a: Movie, b: Movie) => b.rating - a.rating <= 0
  }

  /** `sortedMovies`. */
  function SortMovies(movies: seq<Movie>, key: SortKey, titleLe: (Movie, Movie) -> bool): (r: seq<Movie>)
  {
    SortBy(movies, Comparator(key, titleLe))
  }

  /** Whatever the key, sorting shows the same movies, each as often as before. */
  lemma SortIsRearrangement(movies: seq<Movie>, key: SortKey, titleLe: (Movie, Movie) -> bool)
    ensures |SortMovies(movies, key, titleLe)| == |movies|
    ensures multiset(SortMovies(movies, key, titleLe)) == multiset(movies)
  {
    SortIsPermutation(movies, Comparator(key, titleLe));
  }

  /** "Year (Newest)" gives years that never increase down the list. */
  lemma YearSortDescending(movies: seq<Movie>, titleLe: (Movie, Movie) -> bool)
    ensures var r := SortMovies(movies, Year, titleLe);
      forall i, j :: 0 <= i < j < |r| ==> r[i].year >= r[j].year
  {
    SortIsSorted(movies, Comparator(Year, titleLe));
  }

  /** "Rating (Highest)" gives ratings that never increase down the list. */
  lemma RatingSortDescending(movies: seq<Movie>, titleLe: (Movie, Movie) -> bool)
    ensures var r := SortMovies(movies, Rating, titleLe);
      forall i, j :: 0 <= i < j < |r| ==> r[i].rating >= r[j].rating
  {
    SortIsSorted(movies, Comparator(Rating, titleLe));
  }

  /**
   * "Recently Added" compares every pair as equal, so the list stays in
   * catalogue order; the order in which ids were added plays no part.
   */
  lemma AddedKeepsCatalogueOrder(catalogue: seq<Movie>, ids: seq<string>, f: TypeFilter, titleLe: (Movie, Movie) -> bool)
    ensures SortMovies(FilterByType(MyListMovies(catalogue, ids), f), Added, titleLe)
            == FilterByType(MyListMovies(catalogue, ids), f)
  {
    KeepAllOrder(FilterByType(MyListMovies(catalogue, ids), f), Comparator(Added, titleLe));
  }

  /** Two ids added in either order give the same page under "Recently Added". */
  lemma AddedIgnoresInsertionOrder(catalogue: seq<Movie>, ids: seq<string>, x: string, y: string,
                                   f: TypeFilter, titleLe: (Movie, Movie) -> bool)
    ensures SortMovies(FilterByType(MyListMovies(catalogue, ids + [x, y]), f), Added, titleLe)
            == SortMovies(FilterByType(MyListMovies(catalogue, ids + [y, x]), f), Added, titleLe)
  {
    AddedKeepsCatalogueOrder(catalogue, ids + [x, y], f, titleLe);
    AddedKeepsCatalogueOrder(catalogue, ids + [y, x], f, titleLe);
    assert forall s :: s in ids + [x, y] <==> s in ids + [y, x];
    FilterExt(catalogue, (m: Movie) => m.id in ids + [x, y], (m: Movie) => m.id in ids + [y, x]);
  }

  /** `moviesWithMyListStatus`: every card shows the movie as on the list. */
  function MarkOnList(movies: seq<Movie>): (r: seq<Movie>)
    ensures |r| == |movies|
    ensures forall i :: 0 <= i < |r| ==> r[i] == movies[i].(isInMyList := Some(true))
  {
    seq(|movies|, i requires 0 <= i < |movies| => movies[i].(isInMyList := Some(true)))
  }

  /** The count next to the controls. */
  function CountLabel(count: nat): (r: string)
    ensures r == NatToString(count) + " item" <==> count == 1
    ensures count != 1 ==> r == NatToString(count) + " items"
  {
    NatToString(count) + " " + (if count == 1 then "item" else "items")
  }

  /** Every id in `ids` taken off `list`, the rest left in order. */
  function RemoveAll(list: seq<string>, ids: seq<string>): (r: seq<string>)
    ensures forall x :: x in r <==> x in list && x !in ids
  {
    var keep := (x: string) => x !in ids;
    forall x ensures x in Filter(list, keep) <==> x in list && x !in ids {
      FilterMembership(list, keep, x);
    }
    Filter(list, keep)
  }

  /** Removing the ids one after another is removing them all at once. */
  lemma RemoveAllStep(list: seq<string>, ids: seq<string>, i: nat)
    requires i < |ids|
    ensures RemoveId(RemoveAll(list, ids[..i]), ids[i]) == RemoveAll(list, ids[..i + 1])
  {
    assert ids[..i + 1] == ids[..i] + [ids[i]];
    FilterFilter(list, (x: string) => x !in ids[..i], (x: string) => x != ids[i], (x: string) => x !in ids[..i + 1]);
  }

  /** When the page's ids cover the stored list, "Clear All" leaves it empty. */
  lemma ClearAllEmpties(list: seq<string>, ids: seq<string>)
    requires forall x :: x in list ==> x in ids
    ensures RemoveAll(list, ids) == []
  {
    FilterNone(list, (x: string) => x !in ids);
  }

  class MyListPage {
    /** The stored lists, shared with the other pages. */
    const library: Library
    var myListIds: seq<string>
    var filterType: TypeFilter
    var sortBy: SortKey

    constructor (lib: Library)
      ensures library == lib && myListIds == [] && filterType == AllTypes && sortBy == Added
    {
      library := lib;
      myListIds := [];
      filterType := AllTypes;
      sortBy := Added;
    }

    /** The mount effect reads the stored list. */
    method Mount()
      modifies this
      ensures myListIds == library.myList
      ensures filterType == old(filterType) && sortBy == old(sortBy)
    {
      myListIds := library.myList;
    }

    /** `handleRemoveFromList`: the id leaves the stored list and the page's list, the other ids stay in order. */
    method HandleRemoveFromList(movieId: string)
      modifies this, library
      ensures library.myList == RemoveId(old(library.myList), movieId)
      ensures myListIds == RemoveId(old(myListIds), movieId)
      ensures library.watchHistory == old(library.watchHistory)
      ensures filterType == old(filterType) && sortBy == old(sortBy)
    {
      library.RemoveFromMyList(movieId);
      myListIds := RemoveId(myListIds, movieId);
    }

    /**
     * "Clear All", once the dialog has been answered: on confirmation each of
     * the page's ids is removed from the stored list in turn, and the page's
     * list is emptied.
     */
    method ClearAll(confirmed: bool)
      modifies this, library
      ensures confirmed ==> library.myList == RemoveAll(old(library.myList), old(myListIds)) && myListIds == []
      ensures !confirmed ==> library.myList == old(library.myList) && myListIds == old(myListIds)
      ensures library.watchHistory == old(library.watchHistory)
      ensures filterType == old(filterType) && sortBy == old(sortBy)
    {
      if !confirmed {
        return;
      }
      ghost var stored := library.myList;
      var ids := myListIds;
      assert ids[..0] == [];
      FilterAll(stored, (x: string) => x !in ids[..0]);
      var i := 0;
      while i < |ids|
        invariant 0 <= i <= |ids|
        invariant library.myList == RemoveAll(stored, ids[..i])
        invariant library.watchHistory == old(library.watchHistory)
        invariant myListIds == ids && filterType == old(filterType) && sortBy == old(sortBy)
      {
        RemoveAllStep(stored, ids, i);
        library.RemoveFromMyList(ids[i]);
        i := i + 1;
      }
      assert ids[..|ids|] == ids;
      myListIds := [];
    }

    method SetFilterType(f: TypeFilter)
      modifies this
      ensures filterType == f && myListIds == old(myListIds) && sortBy == old(sortBy)
    {
      filterType := f;
    }

    method SetSortBy(key: SortKey)
      modifies this
      ensures sortBy == key && myListIds == old(myListIds) && filterType == old(filterType)
    {
      sortBy := key;
    }

    /** The cards the page renders, given the catalogue and the locale's title order. */
    function Shown(catalogue: seq<Movie>, titleLe: (Movie, Movie) -> bool): (r: seq<Movie>)
      reads this
      ensures |r| == |FilterByType(MyListMovies(catalogue, myListIds), filterType)|
    {
      var filtered := FilterByType(MyListMovies(catalogue, myListIds), filterType);
      SortIsRearrangement(filtered, sortBy, titleLe);
      MarkOnList(SortMovies(filtered, sortBy, titleLe))
    }
  }
}
