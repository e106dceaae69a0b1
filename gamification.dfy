/**
 * The viewer's game statistics: experience points and the level derived
 * from them, achievements unlocked once, watch counters, the daily streak
 * and a ranked leaderboard.
 *
 * An update that calls `addXP` or `unlockAchievement` from inside another
 * update is modelled as the sequence of those updates, in the order they
 * are applied.
 */
module Gamification {
  import opened Wrappers
  import opened Sorting

  datatype AchievementType = WatchTime | MoviesWatched | SeriesCompleted | Streak | Social

  datatype Achievement = Achievement(
    id: string,
    title: string,
    points: nat,
    kind: AchievementType,
    requirement: nat,
    progress: nat,
    completed: bool,
    unlockedAt: Option<nat>)

  datatype Badge = Badge(id: string, name: string, description: string)

  datatype UserStats = UserStats(
    level: int,
    xp: int,
    xpToNextLevel: int,
    totalWatchTime: int,
    moviesWatched: nat,
    seriesCompleted: nat,
    currentStreak: nat,
    longestStreak: nat,
    badges: seq<Badge>,
    achievements: seq<Achievement>,
    rank: int)

  const DefaultAchievements: seq<Achievement> := [
    Achievement("first_watch", "First Steps", 100, MoviesWatched, 1, 0, false, None),
    Achievement("movie_buff", "Movie Buff", 500, MoviesWatched, 10, 0, false, None),
    Achievement("binge_watcher", "Binge Watcher", 300, WatchTime, 300, 0, false, None),
    Achievement("series_master", "Series Master", 750, SeriesCompleted, 5, 0, false, None),
    Achievement("streak_warrior", "Streak Warrior", 400, Streak, 7, 0, false, None)]

  const InitialStats := UserStats(1, 0, 1000, 0, 0, 0, 0, 0,
    [Badge("newcomer", "Newcomer", "Welcome to CineStream!")], DefaultAchievements, 1)

  /** `calculateLevel(xp)`: one level per whole thousand points, starting at level 1. */
  function CalculateLevel(xp: int): (level: int)
    ensures 1000 * (level - 1) <= xp < 1000 * level
    ensures xp >= 0 ==> level >= 1
  {
    xp / 1000 + 1
  }

  /** More points never mean a lower level. */
  lemma LevelMonotone(a: int, b: int)
    requires a <= b
    ensures CalculateLevel(a) <= CalculateLevel(b)
  {
  }

  /** The level and the points still needed agree with the points held. */
  predicate LevelConsistent(st: UserStats)
  {
    st.level == CalculateLevel(st.xp) && st.xpToNextLevel == st.level * 1000 - st.xp
  }

  /** `addXP(amount, reason)`. */
  function WithXP(st: UserStats, amount: int): (r: UserStats)
    ensures r.xp == st.xp + amount && LevelConsistent(r)
    ensures 0 < r.xpToNextLevel <= 1000
    ensures r.(xp := st.xp, level := st.level, xpToNextLevel := st.xpToNextLevel) == st
  {
    var newXP := st.xp + amount;
    var newLevel := CalculateLevel(newXP);
    st.(xp := newXP, level := newLevel, xpToNextLevel := newLevel * 1000 - newXP)
  }

  /** Two awards in a row are one award of the sum, in either order. */
  lemma WithXPCompose(st: UserStats, a: int, b: int)
    ensures WithXP(WithXP(st, a), b) == WithXP(st, a + b) == WithXP(WithXP(st, b), a)
  {
  }

  /** Awarding nothing to consistent statistics changes nothing. */
  lemma WithXPZero(st: UserStats)
    requires LevelConsistent(st)
    ensures WithXP(st, 0) == st
  {
  }

  /** The achievement `unlockAchievement(id)` completes: matching and not yet completed. */
  predicate Unlockable(a: Achievement, id: string)
  {
    a.id == id && !a.completed
  }

  /** The achievement list after `unlockAchievement(id)` at time `now`. */
  function UnlockList(achievements: seq<Achievement>, id: string, now: nat): (r: seq<Achievement>)
    ensures |r| == |achievements|
    ensures forall i :: 0 <= i < |r| ==>
      r[i] == if Unlockable(achievements[i], id)
              then achievements[i].(completed := true, unlockedAt := Some(now))
              else achievements[i]
  {
    seq(|achievements|, i requires 0 <= i < |achievements| =>
      if Unlockable(achievements[i], id)
      then achievements[i].(completed := true, unlockedAt := Some(now))
      else achievements[i])
  }

  /** The points `unlockAchievement(id)` awards: those of every achievement it completes. */
  function UnlockAward(achievements: seq<Achievement>, id: string): (r: nat)
    decreases |achievements|
  {
    if achievements == [] then 0
    else
      var last := achievements[|achievements| - 1];
      UnlockAward(achievements[..|achievements| - 1], id) + (if Unlockable(last, id) then last.points else 0)
  }

  predicate AnyUnlockable(achievements: seq<Achievement>, id: string)
  {
    exists i :: 0 <= i < |achievements| && Unlockable(achievements[i], id)
  }

  /**
   * `unlockAchievement(id)` at time `now`, followed by the `addXP` calls it
   * makes (none when nothing is unlocked).
   */
  function WithUnlocked(st: UserStats, id: string, now: nat): (r: UserStats)
  {
    var listed := st.(achievements := UnlockList(st.achievements, id, now));
    if AnyUnlockable(st.achievements, id) then WithXP(listed, UnlockAward(st.achievements, id)) else listed
  }

  lemma {:induction false} AwardWithoutUnlockable(achievements: seq<Achievement>, id: string)
    requires forall i :: 0 <= i < |achievements| ==> !Unlockable(achievements[i], id)
    ensures UnlockAward(achievements, id) == 0
    decreases |achievements|
  {
    if achievements != [] {
      AwardWithoutUnlockable(achievements[..|achievements| - 1], id);
    }
  }

  /**
   * With distinct ids, unlocking an achievement that is not yet completed
   * awards exactly its points.
   */
  lemma {:induction false} AwardOfOne(achievements: seq<Achievement>, id: string, k: nat)
    requires k < |achievements| && Unlockable(achievements[k], id)
    requires forall i, j :: 0 <= i < j < |achievements| ==> achievements[i].id != achievements[j].id
    ensures UnlockAward(achievements, id) == achievements[k].points
    decreases |achievements|
  {
    var n := |achievements|;
    var init := achievements[..n - 1];
    if k == n - 1 {
      AwardWithoutUnlockable(init, id);
    } else {
      assert init[k] == achievements[k];
      AwardOfOne(init, id, k);
      assert achievements[n - 1].id != id;
    }
  }

  /**
   * Only the matching, not yet completed achievements change; afterwards
   * every achievement with that id is completed.
   */
  lemma UnlockCompletesOnlyMatching(st: UserStats, id: string, now: nat)
    ensures var r := WithUnlocked(st, id, now);
      |r.achievements| == |st.achievements| &&
      (forall i :: 0 <= i < |st.achievements| && !Unlockable(st.achievements[i], id) ==>
        r.achievements[i] == st.achievements[i]) &&
      (forall i :: 0 <= i < |st.achievements| && st.achievements[i].id == id ==> r.achievements[i].completed) &&
      r.xp == st.xp + UnlockAward(st.achievements, id)
  {
    if !AnyUnlockable(st.achievements, id) {
      AwardWithoutUnlockable(st.achievements, id);
    }
  }

  /** How the unlocked list, the award and the search grow by one achievement. */
  lemma UnlockPrefixStep(achievements: seq<Achievement>, i: nat, id: string, now: nat)
    requires i < |achievements|
    ensures var a := achievements[i];
      UnlockList(achievements[..i + 1], id, now) ==
        UnlockList(achievements[..i], id, now) +
        [if Unlockable(a, id) then a.(completed := true, unlockedAt := Some(now)) else a] &&
      UnlockAward(achievements[..i + 1], id) ==
        UnlockAward(achievements[..i], id) + (if Unlockable(a, id) then a.points else 0) &&
      (AnyUnlockable(achievements[..i + 1], id) <==> AnyUnlockable(achievements[..i], id) || Unlockable(a, id))
  {
    assert achievements[..i + 1][..i] == achievements[..i];
    assert achievements[..i + 1][i] == achievements[i];
  }

  /** The statistics after the `addXP` calls for the unlockable achievements of `pre`. */
  function AwardedSoFar(st: UserStats, pre: seq<Achievement>, id: string): (r: UserStats)
    ensures r.achievements == st.achievements
  {
    if AnyUnlockable(pre, id) then WithXP(st, UnlockAward(pre, id)) else st
  }

  lemma AwardStep(st: UserStats, achievements: seq<Achievement>, i: nat, id: string)
    requires i < |achievements|
    ensures var a := achievements[i];
      AwardedSoFar(st, achievements[..i + 1], id) ==
        if Unlockable(a, id) then WithXP(AwardedSoFar(st, achievements[..i], id), a.points)
        else AwardedSoFar(st, achievements[..i], id)
  {
    var a := achievements[i];
    UnlockPrefixStep(achievements, i, id, 0);
    if Unlockable(a, id) {
      if AnyUnlockable(achievements[..i], id) {
        WithXPCompose(st, UnlockAward(achievements[..i], id), a.points);
      } else {
        AwardWithoutUnlockable(achievements[..i], id);
      }
    }
  }

  /** Replacing the list after the awards is the same as replacing it before. */
  lemma AwardedKeepsAchievements(st: UserStats, list: seq<Achievement>, id: string)
    ensures AwardedSoFar(st, st.achievements, id).(achievements := list) ==
      AwardedSoFar(st.(achievements := list), st.achievements, id)
  {
  }

  /** A second unlock of the same id changes nothing and awards no points. */
  lemma UnlockIdempotent(st: UserStats, id: string, t1: nat, t2: nat)
    ensures WithUnlocked(WithUnlocked(st, id, t1), id, t2) == WithUnlocked(st, id, t1)
    ensures UnlockAward(WithUnlocked(st, id, t1).achievements, id) == 0
  {
    var s1 := WithUnlocked(st, id, t1);
    AwardWithoutUnlockable(s1.achievements, id);
    assert UnlockList(s1.achievements, id, t2) == s1.achievements;
  }

  /** The first achievement with `id` is present and still open (`find` + `!completed`). */
  predicate OpenAchievement(achievements: seq<Achievement>, id: string)
  {
    exists i :: 0 <= i < |achievements| && achievements[i].id == id && !achievements[i].completed &&
      forall j :: 0 <= j < i ==> achievements[j].id != id
  }

  /** `updateWatchTime(minutes)`. */
  function WatchTimeStep(st: UserStats, minutes: int, now: nat): (r: UserStats)
  {
    var counted := st.(totalWatchTime := st.totalWatchTime + minutes);
    var unlocked := if OpenAchievement(st.achievements, "binge_watcher") && minutes >= 300
                    then WithUnlocked(counted, "binge_watcher", now) else counted;
    WithXP(unlocked, minutes * 2)
  }

  /**
   * Watch time adds the minutes and two points per minute; `binge_watcher`
   * is unlocked only by a single call of at least 300 minutes, whatever the
   * total.
   */
  lemma WatchTimeEffect(st: UserStats, minutes: int, now: nat)
    ensures var r := WatchTimeStep(st, minutes, now);
      r.totalWatchTime == st.totalWatchTime + minutes &&
      (minutes < 300 ==> r.achievements == st.achievements && r.xp == st.xp + 2 * minutes) &&
      (minutes >= 300 && OpenAchievement(st.achievements, "binge_watcher") ==>
        r.achievements == UnlockList(st.achievements, "binge_watcher", now) &&
        r.xp == st.xp + 2 * minutes + UnlockAward(st.achievements, "binge_watcher"))
  {
  }

  /** `completeMovie()`. */
  function CompleteMovieStep(st: UserStats, now: nat): (r: UserStats)
  {
    var n := st.moviesWatched + 1;
    var counted := st.(moviesWatched := n);
    var first := if n == 1 then WithUnlocked(counted, "first_watch", now) else counted;
    var buff := if n == 10 then WithUnlocked(first, "movie_buff", now) else first;
    WithXP(buff, 50)
  }

  /**
   * A completed movie counts once and earns 50 points; `first_watch` is
   * unlocked exactly at the first movie and `movie_buff` exactly at the
   * tenth, and no other count touches the achievements.
   */
  lemma CompleteMovieEffect(st: UserStats, now: nat)
    ensures var r := CompleteMovieStep(st, now);
      var n := st.moviesWatched + 1;
      r.moviesWatched == n &&
      r.achievements == (if n == 1 then UnlockList(st.achievements, "first_watch", now)
                         else if n == 10 then UnlockList(st.achievements, "movie_buff", now)
                         else st.achievements) &&
      r.xp == st.xp + 50 + (if n == 1 then UnlockAward(st.achievements, "first_watch")
                            else if n == 10 then UnlockAward(st.achievements, "movie_buff")
                            else 0)
  {
    var counted := st.(moviesWatched := st.moviesWatched + 1);
    UnlockCompletesOnlyMatching(counted, "first_watch", now);
    UnlockCompletesOnlyMatching(counted, "movie_buff", now);
  }

  /** `completeSeries()`. */
  function CompleteSeriesStep(st: UserStats, now: nat): (r: UserStats)
  {
    var n := st.seriesCompleted + 1;
    var counted := st.(seriesCompleted := n);
    var master := if n == 5 then WithUnlocked(counted, "series_master", now) else counted;
    WithXP(master, 200)
  }

  /** A completed series counts once and earns 200 points; `series_master` is unlocked exactly at the fifth. */
  lemma CompleteSeriesEffect(st: UserStats, now: nat)
    ensures var r := CompleteSeriesStep(st, now);
      r.seriesCompleted == st.seriesCompleted + 1 &&
      r.achievements == (if st.seriesCompleted + 1 == 5
                         then UnlockList(st.achievements, "series_master", now) else st.achievements) &&
      r.xp == st.xp + 200 + (if st.seriesCompleted + 1 == 5
                             then UnlockAward(st.achievements, "series_master") else 0)
  {
    UnlockCompletesOnlyMatching(st.(seriesCompleted := st.seriesCompleted + 1), "series_master", now);
  }

  /** `updateStreak()`. */
  function StreakStep(st: UserStats, now: nat): (r: UserStats)
  {
    var n := st.currentStreak + 1;
    var counted := st.(currentStreak := n, longestStreak := if n > st.longestStreak then n else st.longestStreak);
    var warrior := if n == 7 then WithUnlocked(counted, "streak_warrior", now) else counted;
    WithXP(warrior, n * 10)
  }

  /**
   * The streak grows by one, the longest streak becomes the larger of the
   * new streak and the old record (so it is never below the current one),
   * `streak_warrior` is unlocked exactly at seven days, and the day earns ten
   * points per streak day.
   */
  lemma StreakEffect(st: UserStats, now: nat)
    ensures var r := StreakStep(st, now);
      var n := st.currentStreak + 1;
      r.currentStreak == n &&
      r.longestStreak >= n && r.longestStreak >= st.longestStreak &&
      (r.longestStreak == n || r.longestStreak == st.longestStreak) &&
      r.achievements == (if n == 7 then UnlockList(st.achievements, "streak_warrior", now) else st.achievements) &&
      r.xp == st.xp + 10 * n + (if n == 7 then UnlockAward(st.achievements, "streak_warrior") else 0)
  {
    var n := st.currentStreak + 1;
    var counted := st.(currentStreak := n, longestStreak := if n > st.longestStreak then n else st.longestStreak);
    UnlockCompletesOnlyMatching(counted, "streak_warrior", now);
  }

  /** The statistics' invariant: level and points agree, and the longest streak is at least the current one. */
  ghost predicate StatsInv(st: UserStats)
  {
    LevelConsistent(st) && st.longestStreak >= st.currentStreak
  }

  lemma StepsPreserveStatsInv(st: UserStats, amount: int, id: string, minutes: int, now: nat)
    requires StatsInv(st)
    ensures StatsInv(InitialStats)
    ensures StatsInv(WithXP(st, amount)) && StatsInv(WithUnlocked(st, id, now))
    ensures StatsInv(WatchTimeStep(st, minutes, now)) && StatsInv(CompleteMovieStep(st, now))
    ensures StatsInv(CompleteSeriesStep(st, now)) && StatsInv(StreakStep(st, now))
  {
  }

  // ---------------------------------------------------------------------
  // Leaderboard

  datatype Player = Player(user: string, level: int, xp: int)

  datatype LeaderboardEntry = LeaderboardEntry(user: string, level: int, xp: int, rank: nat)

  /** The fixed competitors, with the viewer first. */
  function MockPlayers(level: int, xp: int): seq<Player>
  {
    [Player("You", level, xp), Player("MovieMaster2024", 15, 14500), Player("SeriesAddict", 12, 11800),
     Player("BingeWatcher", 10, 9200), Player("CinemaLover", 8, 7600)]
  }

  /** The comparator `(a, b) => b.xp - a.xp` allows `a` before `b` when `a` has at least as many points. */
  function ByXpDescending(): (Player, Player) -> bool
  {
    (a: Player, b: Player) => a.xp >= b.xp
  }

  lemma ByXpIsTotalPreorder()
    ensures TotalPreorder(ByXpDescending())
  {
  }

  function Ranked(players: seq<Player>): (r: seq<LeaderboardEntry>)
    ensures |r| == |players|
    ensures forall i :: 0 <= i < |r| ==>
      r[i].rank == i + 1 && Player(r[i].user, r[i].level, r[i].xp) == players[i]
  {
    seq(|players|, i requires 0 <= i < |players| =>
      LeaderboardEntry(players[i].user, players[i].level, players[i].xp, i + 1))
  }

  /** `getLeaderboard()`: the players sorted by points, highest first, ranked 1..n in list order. */
  function GetLeaderboard(st: UserStats): (r: seq<LeaderboardEntry>)
  {
    Ranked(SortBy(MockPlayers(st.level, st.xp), ByXpDescending()))
  }

  function Unranked(entries: seq<LeaderboardEntry>): (r: seq<Player>)
    ensures |r| == |entries|
  {
    seq(|entries|, i requires 0 <= i < |entries| => Player(entries[i].user, entries[i].level, entries[i].xp))
  }

  /**
   * The leaderboard lists each of the five players once, in non-increasing
   * order of points, with ranks 1..5 in list order.
   */
  lemma LeaderboardRankedAndSorted(st: UserStats)
    ensures var r := GetLeaderboard(st);
      |r| == 5 &&
      (forall i :: 0 <= i < |r| ==> r[i].rank == i + 1) &&
      (forall i, j :: 0 <= i < j < |r| ==> r[i].xp >= r[j].xp) &&
      multiset(Unranked(r)) == multiset(MockPlayers(st.level, st.xp))
  {
    RankedBoardSorted(MockPlayers(st.level, st.xp));
  }

  /** Ranking the players sorted by points, for any list of players. */
  lemma RankedBoardSorted(players: seq<Player>)
    ensures var r := Ranked(SortBy(players, ByXpDescending()));
      |r| == |players| &&
      (forall i :: 0 <= i < |r| ==> r[i].rank == i + 1) &&
      (forall i, j :: 0 <= i < j < |r| ==> r[i].xp >= r[j].xp) &&
      multiset(Unranked(r)) == multiset(players)
  {
    var sorted := SortBy(players, ByXpDescending());
    var r := Ranked(sorted);
    SortIsPermutation(players, ByXpDescending());
    ByXpIsTotalPreorder();
    SortIsSorted(players, ByXpDescending());
    assert Unranked(r) == sorted;
    forall i, j | 0 <= i < j < |r| ensures r[i].xp >= r[j].xp {
      assert ByXpDescending()(sorted[i], sorted[j]);
    }
  }


  class GamificationStore {
    var userStats: UserStats

    ghost predicate Valid()
      reads this
    {
      StatsInv(userStats)
    }

    constructor ()
      ensures userStats == InitialStats && Valid()
    {
      userStats := InitialStats;
    }

    method AddXP(amount: int)
      modifies this
      ensures userStats == WithXP(old(userStats), amount)
      ensures old(Valid()) ==> Valid()
    {
      var newXP := userStats.xp + amount;
      var newLevel := CalculateLevel(newXP);
      userStats := userStats.(xp := newXP, level := newLevel, xpToNextLevel := newLevel * 1000 - newXP);
    }

    /** Completes each matching open achievement and awards its points as it goes. */
    method UnlockAchievement(id: string, now: nat)
      modifies this
      ensures userStats == WithUnlocked(old(userStats), id, now)
      ensures old(Valid()) ==> Valid()
    {
      var prev := userStats;
      var achievements: seq<Achievement> := [];
      var i := 0;
      while i < |prev.achievements|
        invariant 0 <= i <= |prev.achievements|
        invariant achievements == UnlockList(prev.achievements[..i], id, now)
        invariant userStats == AwardedSoFar(prev, prev.achievements[..i], id)
      {
        var a := prev.achievements[i];
        UnlockPrefixStep(prev.achievements, i, id, now);
        AwardStep(prev, prev.achievements, i, id);
        if a.id == id && !a.completed {
          AddXP(a.points);
          achievements := achievements + [a.(completed := true, unlockedAt := Some(now))];
        } else {
          achievements := achievements + [a];
        }
        i := i + 1;
      }
      assert prev.achievements[..i] == prev.achievements;
      AwardedKeepsAchievements(prev, achievements, id);
      userStats := userStats.(achievements := achievements);
    }

    method UpdateWatchTime(minutes: int, now: nat)
      modifies this
      ensures userStats == WatchTimeStep(old(userStats), minutes, now)
      ensures old(Valid()) ==> Valid()
    {
      var prev := userStats;
      userStats := userStats.(totalWatchTime := userStats.totalWatchTime + minutes);
      var binge := FirstWithId(prev.achievements, "binge_watcher");
      if binge.Some? && !binge.value.completed && minutes >= 300 {
        UnlockAchievement("binge_watcher", now);
      }
      AddXP(minutes * 2);
    }

    method CompleteMovie(now: nat)
      modifies this
      ensures userStats == CompleteMovieStep(old(userStats), now)
      ensures old(Valid()) ==> Valid()
    {
      var newMoviesWatched := userStats.moviesWatched + 1;
      userStats := userStats.(moviesWatched := newMoviesWatched);
      if newMoviesWatched == 1 {
        UnlockAchievement("first_watch", now);
      }
      if newMoviesWatched == 10 {
        UnlockAchievement("movie_buff", now);
      }
      AddXP(50);
    }

    method CompleteSeries(now: nat)
      modifies this
      ensures userStats == CompleteSeriesStep(old(userStats), now)
      ensures old(Valid()) ==> Valid()
    {
      var newSeriesCompleted := userStats.seriesCompleted + 1;
      userStats := userStats.(seriesCompleted := newSeriesCompleted);
      if newSeriesCompleted == 5 {
        UnlockAchievement("series_master", now);
      }
      AddXP(200);
    }

    method UpdateStreak(now: nat)
      modifies this
      ensures userStats == StreakStep(old(userStats), now)
      ensures old(Valid()) ==> Valid()
    {
      var newStreak := userStats.currentStreak + 1;
      var newLongestStreak := if newStreak > userStats.longestStreak then newStreak else userStats.longestStreak;
      userStats := userStats.(currentStreak := newStreak, longestStreak := newLongestStreak);
      if newStreak == 7 {
        UnlockAchievement("streak_warrior", now);
      }
      AddXP(newStreak * 10);
    }
  }

  /** `achievements.find(a => a.id === id)`. */
  function FirstWithId(achievements: seq<Achievement>, id: string): (r: Option<Achievement>)
    ensures r.Some? && !r.value.completed <==> OpenAchievement(achievements, id)
    decreases |achievements|
  {
    if achievements == [] then None
    else if achievements[0].id == id then Some(achievements[0])
    else FirstWithId(achievements[1..], id)
  }
}
