/**
 * The admin dashboard's content table: the catalogue searched by title and
 * genre, ignoring case, and the content count on the overview tab.
 *
 * Users, views and revenue are fixed figures; the per-row view counts are
 * random and are left out.
 */
module Admin {
  import opened Text
  import opened Seqs
  import opened MockData

  datatype AdminStats = AdminStats(totalUsers: nat, totalContent: nat, totalViews: nat, revenue: nat)

  /** The overview figures; only the content count depends on the catalogue. */
  function Stats(catalogue: seq<Movie>): (r: AdminStats)
    ensures r.totalUsers == 15420 && r.totalViews == 2847392 && r.revenue == 89420
  {
    AdminStats(15420, |catalogue|, 2847392, 89420)
  }

  /** The lower-cased query occurs in the lower-cased title or in some lower-cased genre. */
  predicate AdminMatches(m: Movie, query: string)
  {
    IncludesIgnoringCase(m.title, query) || exists g :: g in m.genres && IncludesIgnoringCase(g, query)
  }

  /** `filteredMovies`; unlike the catalogue search, there is no guard for an empty query. */
  function FilteredMovies(catalogue: seq<Movie>, query: string): (r: seq<Movie>)
    ensures |r| <= |catalogue|
  {
    Filter(catalogue, (m: Movie) => AdminMatches(m, query))
  }

  /** The table keeps exactly the matching movies, in catalogue order. */
  lemma FilteredMoviesMembership(catalogue: seq<Movie>, query: string, m: Movie)
    ensures m in FilteredMovies(catalogue, query) <==> m in catalogue && AdminMatches(m, query)
    ensures IsSubsequence(FilteredMovies(catalogue, query), catalogue)
  {
    FilterMembership(catalogue, (m: Movie) => AdminMatches(m, query), m);
    FilterIsSubsequence(catalogue, (m: Movie) => AdminMatches(m, query));
  }

  /**
   * An empty search keeps every movie, because the empty string occurs in
   * every title; the table then has as many rows as the overview counts.
   */
  lemma EmptySearchShowsAll(catalogue: seq<Movie>)
    ensures FilteredMovies(catalogue, "") == catalogue
    ensures |FilteredMovies(catalogue, "")| == Stats(catalogue).totalContent
  {
    forall m: Movie
      ensures AdminMatches(m, "")
    {
      EmptyIncluded(m.title);
    }
    FilterAll(catalogue, (m: Movie) => AdminMatches(m, ""));
  }

  lemma {:induction false} LowerIdempotent(s: string)
    ensures Lower(Lower(s)) == Lower(s)
  {
    assert forall i :: 0 <= i < |s| ==> LowerChar(LowerChar(s[i])) == LowerChar(s[i]);
  }

  /** The case of the query does not matter: typing it in any case gives the same table. */
  lemma QueryCaseIgnored(catalogue: seq<Movie>, query: string)
    ensures FilteredMovies(catalogue, query) == FilteredMovies(catalogue, Lower(query))
  {
    LowerIdempotent(query);
    SameMatches(catalogue, query, Lower(query));
  }

  lemma {:induction false} SameMatches(catalogue: seq<Movie>, q1: string, q2: string)
    requires Lower(q1) == Lower(q2)
    ensures FilteredMovies(catalogue, q1) == FilteredMovies(catalogue, q2)
    decreases |catalogue|
  {
    if catalogue != [] {
      SameMatches(catalogue[1..], q1, q2);
    }
  }

  /** An accented capital in the query still finds the title: "CAFÉ" lists "Midnight Café". */
  lemma AccentedQueryMatches()
    ensures IncludesIgnoringCase("Midnight Caf\U{00E9}", "CAF\U{00C9}")
  {
    var title := Lower("Midnight Caf\U{00E9}");
    var query := Lower("CAF\U{00C9}");
    assert query == "caf\U{00E9}";
    assert title[9..13] == query;
    assert OccursAt(title, query, 9);
    IncludesAt(title, query);
  }
}
