/**
 * The movie catalogue's record type, the viewer's watch history and "My
 * List" (kept in browser storage by the application, held in memory here),
 * and the catalogue search with its optional filters.
 *
 * Ratings are whole tenths (8.7 is 87). The catalogue is a parameter of the
 * functions that read it.
 */
module MockData {
  import opened Wrappers
  import opened Text
  import opened Seqs

  datatype MediaType = MovieType | SeriesType

  datatype Movie = Movie(
    id: string,
    title: string,
    kind: MediaType,
    genres: seq<string>,
    year: int,
    rating: int,
    duration: string,
    description: string,
    director: Option<string>,
    cast: Option<seq<string>>,
    language: string,
    country: string,
    ageRating: string,
    seasons: Option<nat>,
    episodes: Option<nat>,
    isInMyList: Option<bool>)

  datatype HistoryEntry = HistoryEntry(movieId: string, watchedAt: nat, progress: int)

  // ---------------------------------------------------------------------
  // Watch history

  predicate SameMovie(e: HistoryEntry, movieId: string)
  {
    e.movieId == movieId
  }

  /** At most one entry per movie. */
  predicate UniqueMovies(history: seq<HistoryEntry>)
  {
    forall i, j :: 0 <= i < j < |history| ==> history[i].movieId != history[j].movieId
  }

  /** `addToWatchHistory`: the movie's entry is replaced where it stands, or appended when there is none. */
  function Upsert(history: seq<HistoryEntry>, entry: HistoryEntry): (r: seq<HistoryEntry>)
  {
    match FirstMatch(history, (e: HistoryEntry) => SameMovie(e, entry.movieId))
    case Some(k) => history[k := entry]
    case None => history + [entry]
  }

  /**
   * An existing entry is overwritten at its own index and nothing else
   * moves; otherwise exactly one entry is added at the end. Either way the
   * new entry is present and no movie gets a second entry.
   */
  lemma UpsertEffect(history: seq<HistoryEntry>, entry: HistoryEntry)
    ensures var r := Upsert(history, entry);
      ((exists i :: 0 <= i < |history| && history[i].movieId == entry.movieId) ==>
        |r| == |history| &&
        exists k :: 0 <= k < |history| && history[k].movieId == entry.movieId && r == history[k := entry]) &&
      ((forall i :: 0 <= i < |history| ==> history[i].movieId != entry.movieId) ==> r == history + [entry]) &&
      entry in r &&
      (UniqueMovies(history) ==> UniqueMovies(r))
  {
    var r := Upsert(history, entry);
    match FirstMatch(history, (e: HistoryEntry) => SameMovie(e, entry.movieId))
    case Some(k) =>
      assert r[k] == entry;
    case None =>
      assert r[|history|] == entry;
  }

  /** Recording the same movie twice keeps one entry, with the later data. */
  lemma UpsertTwice(history: seq<HistoryEntry>, e1: HistoryEntry, e2: HistoryEntry)
    requires e1.movieId == e2.movieId
    ensures Upsert(Upsert(history, e1), e2) == Upsert(history, e2)
  {
    var p1 := (e: HistoryEntry) => SameMovie(e, e1.movieId);
    var p2 := (e: HistoryEntry) => SameMovie(e, e2.movieId);
    var h1 := Upsert(history, e1);
    match FirstMatch(history, p1)
    case Some(k) =>
      assert FirstMatch(h1, p2) == Some(k) by {
        FirstMatchAt(h1, p2, k);
      }
    case None =>
      assert FirstMatch(h1, p2) == Some(|history|) by {
        FirstMatchAt(h1, p2, |history|);
      }
  }

  // ---------------------------------------------------------------------
  // My List

  /** `addToMyList`: the id is appended only when it is not there yet. */
  function AddId(list: seq<string>, id: string): (r: seq<string>)
    ensures id in r
    ensures id in list ==> r == list
    ensures id !in list ==> r == list + [id]
  {
    if id in list then list else list + [id]
  }

  /** `removeFromMyList`: every copy of the id goes, the others stay in order. */
  function RemoveId(list: seq<string>, id: string): (r: seq<string>)
    ensures id !in r
    ensures forall x :: x in r <==> x in list && x != id
  {
    var keep := (x: string) => x != id;
    forall x ensures x in Filter(list, keep) <==> x in list && x != id {
      FilterMembership(list, keep, x);
    }
    Filter(list, keep)
  }

  lemma RemoveIdKeepsOrder(list: seq<string>, id: string)
    ensures IsSubsequence(RemoveId(list, id), list)
  {
    FilterIsSubsequence(list, (x: string) => x != id);
  }

  /** Adding never creates a duplicate, and adding twice is adding once. */
  lemma AddIdNoDuplicates(list: seq<string>, id: string)
    ensures NoDuplicates(list) ==> NoDuplicates(AddId(list, id))
    ensures AddId(AddId(list, id), id) == AddId(list, id)
  {
  }

  /** Removal keeps a duplicate-free list duplicate-free. */
  lemma RemoveIdNoDuplicates(list: seq<string>, id: string)
    requires NoDuplicates(list)
    ensures NoDuplicates(RemoveId(list, id))
  {
    RemoveIdKeepsOrder(list, id);
    SubsequenceNoDuplicates(RemoveId(list, id), list);
  }

  /** After adding and then removing an id, the id is absent and the rest is as before. */
  lemma AddThenRemove(list: seq<string>, id: string)
    ensures id !in RemoveId(AddId(list, id), id)
    ensures forall x :: x != id ==> (x in RemoveId(AddId(list, id), id) <==> x in list)
    ensures RemoveId(AddId(list, id), id) == RemoveId(list, id)
  {
    if id !in list {
      var keep := (x: string) => x != id;
      FilterConcat(list, [id], keep);
      assert Filter([id], keep) == [];
    }
  }

  lemma {:induction false} SubsequenceNoDuplicates(a: seq<string>, b: seq<string>)
    requires IsSubsequence(a, b) && NoDuplicates(b)
    ensures NoDuplicates(a)
    decreases |b|
  {
    if b != [] {
      if a != [] && a[0] == b[0] && IsSubsequence(a[1..], b[1..]) {
        SubsequenceNoDuplicates(a[1..], b[1..]);
        SubsequenceMembers(a[1..], b[1..]);
        forall i, j | 0 <= i < j < |a| ensures a[i] != a[j] {
          if i == 0 {
            assert a[j] == a[1..][j - 1];
            assert a[j] in b[1..];
          } else {
            assert a[i] == a[1..][i - 1] && a[j] == a[1..][j - 1];
          }
        }
      } else {
        SubsequenceNoDuplicates(a, b[1..]);
      }
    }
  }

  lemma {:induction false} SubsequenceMembers<T>(a: seq<T>, b: seq<T>)
    requires IsSubsequence(a, b)
    ensures forall x :: x in a ==> x in b
    decreases |b|
  {
    if b != [] {
      if a != [] && a[0] == b[0] && IsSubsequence(a[1..], b[1..]) {
        SubsequenceMembers(a[1..], b[1..]);
        assert forall x :: x in a ==> x == a[0] || x in a[1..];
      } else {
        SubsequenceMembers(a, b[1..]);
      }
    }
  }

  /** The history and My List, as the application keeps them between pages. */
  class Library {
    var watchHistory: seq<HistoryEntry>
    var myList: seq<string>

    /** Nothing stored yet: both lists start empty. */
    constructor ()
      ensures watchHistory == [] && myList == []
    {
      watchHistory := [];
      myList := [];
    }

    method AddToWatchHistory(movieId: string, progress: int, now: nat)
      modifies this
      ensures watchHistory == Upsert(old(watchHistory), HistoryEntry(movieId, now, progress))
      ensures myList == old(myList)
    {
      var entry := HistoryEntry(movieId, now, progress);
      var existingIndex := FindIndex(watchHistory, (e: HistoryEntry) => SameMovie(e, movieId));
      if existingIndex.Some? {
        watchHistory := watchHistory[existingIndex.value := entry];
      } else {
        watchHistory := watchHistory + [entry];
      }
    }

    method AddToMyList(movieId: string)
      modifies this
      ensures myList == AddId(old(myList), movieId)
      ensures watchHistory == old(watchHistory)
    {
      if movieId !in myList {
        myList := myList + [movieId];
      }
    }

    method RemoveFromMyList(movieId: string)
      modifies this
      ensures myList == RemoveId(old(myList), movieId)
      ensures watchHistory == old(watchHistory)
    {
      myList := RemoveId(myList, movieId);
    }
  }

  // ---------------------------------------------------------------------
  // Search

  /**
   * The optional filters of `searchMovies`. A year or rating of 0 is falsy
   * and therefore means "no filter", like an absent one.
   */
  datatype SearchFilters = SearchFilters(
    genre: Option<seq<string>>,
    year: Option<int>,
    kind: Option<MediaType>,
    rating: Option<int>)

  /** The text test: the lower-cased query in the title, the description, a genre or a cast member. */
  predicate MatchesQuery(m: Movie, query: string)
  {
    IncludesIgnoringCase(m.title, query) ||
    IncludesIgnoringCase(m.description, query) ||
    (exists g :: g in m.genres && IncludesIgnoringCase(g, query)) ||
    (m.cast.Some? && exists c :: c in m.cast.value && IncludesIgnoringCase(c, query))
  }

  predicate GenreActive(f: SearchFilters)
  {
    f.genre.Some? && |f.genre.value| > 0
  }

  predicate YearActive(f: SearchFilters)
  {
    f.year.Some? && f.year.value != 0
  }

  predicate RatingActive(f: SearchFilters)
  {
    f.rating.Some? && f.rating.value != 0
  }

  /** Some selected genre is one of the movie's genres. */
  predicate SharesGenre(m: Movie, selected: seq<string>)
  {
    exists g :: g in selected && g in m.genres
  }

  /** The filters of `searchMovies` that are set, applied to `results` in the source's order. */
  function ApplyFilters(results: seq<Movie>, f: SearchFilters): (r: seq<Movie>)
  {
    var byGenre := FilterIf(GenreActive(f), results, (m: Movie) => f.genre.Some? && SharesGenre(m, f.genre.value));
    var byKind := FilterIf(f.kind.Some?, byGenre, (m: Movie) => f.kind.Some? && m.kind == f.kind.value);
    var byYear := FilterIf(YearActive(f), byKind, (m: Movie) => f.year.Some? && m.year >= f.year.value);
    FilterIf(RatingActive(f), byYear, (m: Movie) => f.rating.Some? && m.rating >= f.rating.value)
  }

  /** `searchMovies(query, filters)`: the text filter, then each filter that is set. */
  function SearchMovies(catalogue: seq<Movie>, query: string, filters: Option<SearchFilters>): (r: seq<Movie>)
  {
    var byText := FilterIf(query != "", catalogue, (m: Movie) => MatchesQuery(m, query));
    if filters.None? then byText else ApplyFilters(byText, filters.value)
  }

  /** Every filter that is set, as one predicate. */
  predicate PassesFilters(m: Movie, f: SearchFilters)
  {
    (GenreActive(f) ==> SharesGenre(m, f.genre.value)) &&
    (f.kind.Some? ==> m.kind == f.kind.value) &&
    (YearActive(f) ==> m.year >= f.year.value) &&
    (RatingActive(f) ==> m.rating >= f.rating.value)
  }

  /** Every test that is switched on, as one predicate. */
  predicate Keeps(m: Movie, query: string, filters: Option<SearchFilters>)
  {
    (query != "" ==> MatchesQuery(m, query)) &&
    (filters.Some? ==> PassesFilters(m, filters.value))
  }

  lemma ApplyFiltersMembership(results: seq<Movie>, f: SearchFilters, m: Movie)
    ensures m in ApplyFilters(results, f) <==> m in results && PassesFilters(m, f)
  {
    var pg := (m: Movie) => f.genre.Some? && SharesGenre(m, f.genre.value);
    var pk := (m: Movie) => f.kind.Some? && m.kind == f.kind.value;
    var py := (m: Movie) => f.year.Some? && m.year >= f.year.value;
    var pr := (m: Movie) => f.rating.Some? && m.rating >= f.rating.value;
    var byGenre := FilterIf(GenreActive(f), results, pg);
    var byKind := FilterIf(f.kind.Some?, byGenre, pk);
    var byYear := FilterIf(YearActive(f), byKind, py);
    FilterIfMembership(GenreActive(f), results, pg, m);
    FilterIfMembership(f.kind.Some?, byGenre, pk, m);
    FilterIfMembership(YearActive(f), byKind, py, m);
    FilterIfMembership(RatingActive(f), byYear, pr, m);
  }

  /** A catalogue movie is in the results exactly when it passes every test that is switched on. */
  lemma SearchMembership(catalogue: seq<Movie>, query: string, filters: Option<SearchFilters>, m: Movie)
    ensures m in SearchMovies(catalogue, query, filters) <==> m in catalogue && Keeps(m, query, filters)
  {
    var byText := FilterIf(query != "", catalogue, (m: Movie) => MatchesQuery(m, query));
    FilterIfMembership(query != "", catalogue, (m: Movie) => MatchesQuery(m, query), m);
    if filters.Some? {
      ApplyFiltersMembership(byText, filters.value, m);
    }
  }

  lemma ApplyFiltersKeepsOrder(results: seq<Movie>, f: SearchFilters)
    ensures IsSubsequence(ApplyFilters(results, f), results)
  {
    var pg := (m: Movie) => f.genre.Some? && SharesGenre(m, f.genre.value);
    var pk := (m: Movie) => f.kind.Some? && m.kind == f.kind.value;
    var py := (m: Movie) => f.year.Some? && m.year >= f.year.value;
    var pr := (m: Movie) => f.rating.Some? && m.rating >= f.rating.value;
    var byGenre := FilterIf(GenreActive(f), results, pg);
    var byKind := FilterIf(f.kind.Some?, byGenre, pk);
    var byYear := FilterIf(YearActive(f), byKind, py);
    FilterIfIsSubsequence(GenreActive(f), results, pg);
    FilterIfIsSubsequence(f.kind.Some?, byGenre, pk);
    FilterIfIsSubsequence(YearActive(f), byKind, py);
    FilterIfIsSubsequence(RatingActive(f), byYear, pr);
    SubsequenceTransitive(byKind, byGenre, results);
    SubsequenceTransitive(byYear, byKind, results);
    SubsequenceTransitive(ApplyFilters(results, f), byYear, results);
  }

  /** The results keep the catalogue's order. */
  lemma SearchKeepsOrder(catalogue: seq<Movie>, query: string, filters: Option<SearchFilters>)
    ensures IsSubsequence(SearchMovies(catalogue, query, filters), catalogue)
  {
    var byText := FilterIf(query != "", catalogue, (m: Movie) => MatchesQuery(m, query));
    FilterIfIsSubsequence(query != "", catalogue, (m: Movie) => MatchesQuery(m, query));
    if filters.Some? {
      ApplyFiltersKeepsOrder(byText, filters.value);
      SubsequenceTransitive(SearchMovies(catalogue, query, filters), byText, catalogue);
    }
  }

  /** No query and no filters: the whole catalogue, as it is. */
  lemma EmptySearchKeepsAll(catalogue: seq<Movie>)
    ensures SearchMovies(catalogue, "", None) == catalogue
  {
  }

  /** A year or rating filter of 0 filters nothing. */
  lemma ZeroFiltersAreOff(catalogue: seq<Movie>, query: string)
    ensures SearchMovies(catalogue, query, Some(SearchFilters(None, Some(0), None, Some(0)))) ==
            SearchMovies(catalogue, query, None)
  {
  }
}
