/**
 * The actor page: the filmography tabs, the age computed from the birth
 * date, and the career statistics.
 *
 * The tab filter compares each credit's type with the tab name minus its
 * last character. For "movies" that gives "movie", but for "series" it
 * gives "serie", which matches no credit: the series tab is always empty.
 * `FilteredFilmography` keeps that behaviour; `IntendedFilmography` is the
 * filter the comment next to it describes, and is what the statistics
 * agree with.
 */
module ActorDetail {
  import opened Seqs

  datatype CreditType = MovieCredit | SeriesCredit

  datatype Credit = Credit(id: string, title: string, year: int, role: string, kind: CreditType, rating: int)

  /** A calendar date; `month` counts from 0, as `getMonth` does. */
  datatype Date = Date(year: int, month: int, day: int)

  datatype Actor = Actor(
    id: string,
    name: string,
    birthDate: Date,
    birthPlace: string,
    rating: int,
    awards: seq<string>,
    filmography: seq<Credit>)

  datatype Tab = AllTab | MoviesTab | SeriesTab

  /** The type string a credit carries. */
  function TypeName(k: CreditType): (r: string)
    ensures |r| >= 5
  {
    match k
    case MovieCredit => "movie"
    case SeriesCredit => "series"
  }

  function TabName(t: Tab): (r: string)
    ensures |r| >= 1
  {
    match t
    case AllTab => "all"
    case MoviesTab => "movies"
    case SeriesTab => "series"
  }

  /** `s.slice(0, -1)`: everything but the last character. */
  function DropLast(s: string): (r: string)
    ensures |s| >= 1 ==> |r| == |s| - 1 && r == s[..|s| - 1]
  {
    if |s| == 0 then s else s[..|s| - 1]
  }

  /** The mock actor the page shows for any id (`id || '1'` names it). */
  function MockActor(id: string): Actor
  {
    Actor(if id == "" then "1" else id, "Ryan Gosling", Date(1980, 10, 12), "London, Ontario, Canada", 87,
      ["Golden Globe Award for Best Actor", "BAFTA Award for Best Leading Actor",
       "Screen Actors Guild Award", "Critics' Choice Movie Award"],
      [Credit("1", "The Quantum Heist", 2024, "Dr. Marcus Chen", MovieCredit, 87),
       Credit("7", "Neon Dreams", 2024, "Neo", MovieCredit, 76),
       Credit("11", "Midnight Caf\U{C3}\U{A9}", 2024, "James", MovieCredit, 81)])
  }

  // ---------------------------------------------------------------------
  // The tab filter

  /** The test as written: every credit on "all", otherwise type equal to the tab name minus its last letter. */
  predicate ShownAsWritten(c: Credit, tab: Tab)
  {
    tab == AllTab || TypeName(c.kind) == DropLast(TabName(tab))
  }

  /** `filteredFilmography`, as written. */
  function FilteredFilmography(filmography: seq<Credit>, tab: Tab): (r: seq<Credit>)
  {
    Filter(filmography, (c: Credit) => ShownAsWritten(c, tab))
  }

  /** The series tab compares with "serie", which no credit type equals. */
  lemma SeriesTabShowsNothing(filmography: seq<Credit>)
    ensures FilteredFilmography(filmography, SeriesTab) == []
  {
    assert DropLast("series") == "serie";
    assert forall k :: TypeName(k) != "serie" by {
      assert "movie"[4] == 'e' && "serie"[4] == 'e';
      assert "movie"[0] != "serie"[0];
      assert |"series"| != |"serie"|;
    }
    var p := (c: Credit) => ShownAsWritten(c, SeriesTab);
    var isSeries := (c: Credit) => !ShownAsWritten(c, SeriesTab);
    FilterPartition(filmography, p, isSeries);
    FilterAll(filmography, isSeries);
  }

  /** A concrete input: one series credit, which the series tab does not show. */
  lemma SeriesCreditIsHidden(c: Credit)
    requires c.kind == SeriesCredit
    ensures FilteredFilmography([c], SeriesTab) == []
    ensures IntendedFilmography([c], SeriesTab) == [c]
  {
    SeriesTabShowsNothing([c]);
    assert IntendedFilmography([c], SeriesTab) == [c] by {
      assert [c][1..] == [];
    }
  }

  /** The movies tab works as intended: "movies" minus its last letter is "movie". */
  lemma MoviesTabAsWrittenIsIntended(filmography: seq<Credit>)
    ensures FilteredFilmography(filmography, MoviesTab) == IntendedFilmography(filmography, MoviesTab)
    ensures FilteredFilmography(filmography, AllTab) == IntendedFilmography(filmography, AllTab)
  {
    assert DropLast("movies") == "movie";
    assert TypeName(SeriesCredit) != "movie";
    var asWritten := (c: Credit) => ShownAsWritten(c, MoviesTab);
    var intended := (c: Credit) => ShownAsIntended(c, MoviesTab);
    assert forall c :: asWritten(c) == intended(c);
    FilterExt(filmography, asWritten, intended);
    FilterExt(filmography, (c: Credit) => ShownAsWritten(c, AllTab), (c: Credit) => ShownAsIntended(c, AllTab));
  }

  /** The test the comment describes: the credit type is the tab's singular. */
  predicate ShownAsIntended(c: Credit, tab: Tab)
  {
    match tab
    case AllTab => true
    case MoviesTab => c.kind == MovieCredit
    case SeriesTab => c.kind == SeriesCredit
  }

  /** `filteredFilmography` with the intended comparison. */
  function IntendedFilmography(filmography: seq<Credit>, tab: Tab): (r: seq<Credit>)
    ensures forall i :: 0 <= i < |r| ==> ShownAsIntended(r[i], tab)
    ensures forall i :: 0 <= i < |filmography| && ShownAsIntended(filmography[i], tab) ==> filmography[i] in r
  {
    Filter(filmography, (c: Credit) => ShownAsIntended(c, tab))
  }

  /**
   * With the intended comparison, "all" is the whole filmography, and the
   * movies and series tabs split it: each credit is on exactly one of them,
   * and their sizes are the career statistics.
   */
  lemma IntendedTabsPartition(filmography: seq<Credit>)
    ensures IntendedFilmography(filmography, AllTab) == filmography
    ensures |IntendedFilmography(filmography, MoviesTab)| + |IntendedFilmography(filmography, SeriesTab)| == |filmography|
    ensures multiset(IntendedFilmography(filmography, MoviesTab)) + multiset(IntendedFilmography(filmography, SeriesTab))
            == multiset(filmography)
    ensures |IntendedFilmography(filmography, MoviesTab)| == MovieCount(filmography)
    ensures |IntendedFilmography(filmography, SeriesTab)| == SeriesCount(filmography)
  {
    FilterAll(filmography, (c: Credit) => ShownAsIntended(c, AllTab));
    FilterPartition(filmography, (c: Credit) => ShownAsIntended(c, MoviesTab), (c: Credit) => ShownAsIntended(c, SeriesTab));
    FilterExt(filmography, (c: Credit) => ShownAsIntended(c, MoviesTab), IsMovie);
    FilterExt(filmography, (c: Credit) => ShownAsIntended(c, SeriesTab), IsSeries);
  }

  // ---------------------------------------------------------------------
  // Career statistics

  predicate IsMovie(c: Credit)
  {
    TypeName(c.kind) == "movie"
  }

  predicate IsSeries(c: Credit)
  {
    TypeName(c.kind) == "series"
  }

  /** `filmography.filter(f => f.type === 'movie').length`. */
  function MovieCount(filmography: seq<Credit>): (r: nat)
    ensures r <= |filmography|
  {
    |Filter(filmography, IsMovie)|
  }

  /** `filmography.filter(f => f.type === 'series').length`. */
  function SeriesCount(filmography: seq<Credit>): (r: nat)
    ensures r <= |filmography|
  {
    |Filter(filmography, IsSeries)|
  }

  /** Every credit is a movie or a series, so the two counts add up to the total. */
  lemma CountsAddUp(filmography: seq<Credit>)
    ensures MovieCount(filmography) + SeriesCount(filmography) == |filmography|
  {
    assert forall c :: IsSeries(c) == !IsMovie(c) by {
      assert "movie" != "series";
    }
    FilterPartition(filmography, IsMovie, IsSeries);
  }

  // ---------------------------------------------------------------------
  // Age

  /** `calculateAge`: the difference of the years, less one before this year's birthday. */
  function CalculateAge(birth: Date, today: Date): (age: int)
  {
    var age := today.year - birth.year;
    var monthDiff := today.month - birth.month;
    if monthDiff < 0 || (monthDiff == 0 && today.day < birth.day) then age - 1 else age
  }

  /** The `n`-th birthday, `(birth.year + n, birth.month, birth.day)`, is on or before `today`. */
  predicate BirthdayReached(birth: Date, today: Date, n: int)
  {
    var y := birth.year + n;
    y < today.year ||
    (y == today.year && (birth.month < today.month || (birth.month == today.month && birth.day <= today.day)))
  }

  /** The age is the number of birthdays reached: the last one reached, with the next one still ahead. */
  lemma AgeCountsBirthdays(birth: Date, today: Date)
    ensures BirthdayReached(birth, today, CalculateAge(birth, today))
    ensures !BirthdayReached(birth, today, CalculateAge(birth, today) + 1)
  {
  }

  /** A later day never makes the actor younger. */
  lemma AgeMonotone(birth: Date, d1: Date, d2: Date)
    requires d1.year < d2.year || (d1.year == d2.year && (d1.month < d2.month || (d1.month == d2.month && d1.day <= d2.day)))
    ensures CalculateAge(birth, d1) <= CalculateAge(birth, d2)
  {
  }
}
