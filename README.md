# Cinestream front end, modelled in Dafny

Cinestream is a single-page streaming site written in React and TypeScript.
This project models its logic:

- the catalogue and its search (`mockData.ts`);
- the shared state kept by the store, gamification, notification and profile contexts;
- the event handlers and derived values of the pages: home, browse, movie detail, video player, My List, interactive movie, scene navigation, live stream, watch party, store, profile, actor detail and admin;
- two components: the notification centre and the hero banner.

Rendering, styling and routing are not modelled. What is modelled is what each handler does to the state, and what each page derives from it.

Each module follows one source file:

- Pure derivations become functions over values: filters, sorts, labels, counters, formatted times.
- A context or page whose handlers update state becomes a `class` with one method per handler. Each method's `ensures` gives the new state in terms of the old one, usually through a function on values that the lemmas reason about.
- Browser storage, clocks, random choices and the user's answers to confirmation dialogs become parameters.

Conventions used throughout:

- Ratings are kept in tenths (8.5 is `85`). Prices are kept in cents.
- JavaScript's `slice(0, k)` is `Take`. `filter` is `Seqs.Filter`. `find` is `Seqs.Find`.
- A falsy filter value (`""`, `0`, an absent option) switches that filter off, as in the source.
- The interactive movie is specified by a state machine on `SessionState` values. `Inv` holds the consistency of the current scene, the scene history and the choice log. Every event preserves it, provided a restart comes with no transition pending (the restart button is on the ending screen, normally reached only after the last transition has completed).

## Model

| member | source | states |
|---|---|---|
| MockData.Library.constructor | project/src/data/mockData.ts:245-267 | storage starts with an empty watch history and an empty list |
| MockData.Library.AddToWatchHistory | project/src/data/mockData.ts:250-261 | the history becomes the upsert of an entry with this movie, time and progress; the list is untouched |
| MockData.UpsertEffect | project/src/data/mockData.ts:250-261 | an existing entry for the movie is replaced in place (same length), otherwise the entry is appended; the entry is always present; one entry per movie is preserved |
| MockData.UpsertTwice | project/src/data/mockData.ts:250-261 | recording the same movie twice leaves only the second record |
| MockData.Library.AddToMyList | project/src/data/mockData.ts:269-275 | the list becomes `AddId` of the old list; the history is untouched |
| MockData.AddId | project/src/data/mockData.ts:269-275 | the id is on the result; a listed id leaves the list as it was, an unlisted one is appended |
| MockData.AddIdNoDuplicates | project/src/data/mockData.ts:269-275 | adding keeps the list free of duplicates and is idempotent |
| MockData.Library.RemoveFromMyList | project/src/data/mockData.ts:277-281 | the list becomes `RemoveId` of the old list; the history is untouched |
| MockData.RemoveId | project/src/data/mockData.ts:277-281 | the id is gone and exactly the other ids remain |
| MockData.RemoveIdKeepsOrder | project/src/data/mockData.ts:277-281 | removal keeps the remaining ids in their order |
| MockData.RemoveIdNoDuplicates | project/src/data/mockData.ts:277-281 | removal keeps a duplicate-free list duplicate-free |
| MockData.AddThenRemove | project/src/data/mockData.ts:269-281 | adding then removing an id leaves it off the list and every other id where it was |
| MockData.SubsequenceNoDuplicates | project/src/data/mockData.ts:277-281 | an order-preserving selection of a duplicate-free list is duplicate-free |
| MockData.SubsequenceMembers | project/src/data/mockData.ts:277-281 | an order-preserving selection holds only members of the original |
| MockData.SearchMembership | project/src/data/mockData.ts:284-322 | a movie is found exactly when it is in the catalogue, its title, description, a genre or a cast member contains the query ignoring case (ASCII and Latin-1 letters), and it passes every active filter |
| MockData.ApplyFiltersMembership | project/src/data/mockData.ts:302-321 | a movie survives the filters exactly when it shares a selected genre, has the selected type, and is from the selected year or later and rated at least the selected rating, each only when set |
| MockData.ApplyFiltersKeepsOrder | project/src/data/mockData.ts:302-321 | the filters keep catalogue order |
| MockData.SearchKeepsOrder | project/src/data/mockData.ts:284-322 | search results keep catalogue order |
| MockData.EmptySearchKeepsAll | project/src/data/mockData.ts:294-299 | an empty query without filters returns the whole catalogue |
| MockData.ZeroFiltersAreOff | project/src/data/mockData.ts:314-320 | year 0 and rating 0 are falsy and filter nothing |
| Text.TrimEmptyIffBlank | project/src/pages/LiveStream.tsx:141 | `trim()` is empty exactly when the text is blank |
| ClockFormat.FormatMinutesSeconds | project/src/pages/SceneNavigation.tsx:136-140 | the minutes:seconds text has a colon |
| ClockFormat.MinutesSecondsRoundTrip | project/src/pages/SceneNavigation.tsx:136-140 | the text reads back as whole minutes and seconds below 60, which give back the time |
| ClockFormat.MinutesSecondsInjective | project/src/pages/WatchParty.tsx:76-80 | different times give different texts |
| ClockFormat.FormatPlayerTime | project/src/pages/VideoPlayer.tsx:140-150 | the player clock text has a colon |
| ClockFormat.PlayerTimeRoundTrip | project/src/pages/VideoPlayer.tsx:140-150 | below an hour the text reads back as minutes and seconds, from an hour on as hours, minutes below 60 and seconds below 60, which give back the time |
| ClockFormat.PlayerTimeInjective | project/src/pages/VideoPlayer.tsx:140-150 | different times give different texts |
| ClockFormat.PlayerFields | project/src/pages/VideoPlayer.tsx:141-143 | the hour, minute and second fields are in range and recompose the time |
| ClockFormat.ParseFields | project/src/pages/VideoPlayer.tsx:140-150 | a successful read of the fields gives one number per field |
| ClockFormat.ReadCons | project/src/pages/VideoPlayer.tsx:140-150 | the reader reads a leading digit field and then the rest |
| ClockFormat.ReadTwo | project/src/pages/SceneNavigation.tsx:136-140 | two digit fields joined by a colon read back as their values |
| ClockFormat.ReadThree | project/src/pages/VideoPlayer.tsx:144-147 | three digit fields joined by colons read back as their values |
| StoreContext.CategoryName | project/src/contexts/StoreContext.tsx:3-29 | no product category is named "all", so the "all" tab cannot clash with a category |
| StoreContext.Store.constructor | project/src/contexts/StoreContext.tsx:150-153 | the cart and the order list start empty; the store is valid |
| StoreContext.Store.AddToCart | project/src/contexts/StoreContext.tsx:175-193 | the cart becomes `CartAdd`; orders are untouched; unique product ids are kept |
| StoreContext.AddExisting | project/src/contexts/StoreContext.tsx:177-186 | a product already in the cart has its quantity raised by the amount, and no other line changes |
| StoreContext.AddNew | project/src/contexts/StoreContext.tsx:187-190 | a new product is appended as a new line |
| StoreContext.AddKeepsIdsUnique | project/src/contexts/StoreContext.tsx:175-193 | adding keeps one line per product, and the product is in the cart afterwards |
| StoreContext.AddRaisesTotal | project/src/contexts/StoreContext.tsx:175-193 | adding raises the cart total by price times quantity |
| StoreContext.BumpTotal | project/src/contexts/StoreContext.tsx:177-186 | raising the product's line raises the total by price times quantity, or not at all when it is absent |
| StoreContext.Store.RemoveFromCart | project/src/contexts/StoreContext.tsx:195-201 | the cart becomes `CartRemove`; unique ids are kept |
| StoreContext.CartRemove | project/src/contexts/StoreContext.tsx:195-201 | the product has no line left, and the other lines keep their order |
| StoreContext.RemoveKeepsOthers | project/src/contexts/StoreContext.tsx:195-201 | every other line survives, none for the product remains, unique ids are kept |
| StoreContext.SubsequenceKeepsUnique | project/src/contexts/StoreContext.tsx:195-201 | an order-preserving selection of a cart with unique ids has unique ids |
| StoreContext.SubsequenceMember | project/src/contexts/StoreContext.tsx:195-201 | each line of an order-preserving selection is a line of the original |
| StoreContext.Store.UpdateQuantity | project/src/contexts/StoreContext.tsx:203-218 | the cart becomes `CartUpdate`; unique ids are kept |
| StoreContext.CartUpdate | project/src/contexts/StoreContext.tsx:203-208 | a quantity of zero or less removes the product |
| StoreContext.UpdatePositive | project/src/contexts/StoreContext.tsx:210-217 | a positive quantity replaces the product's quantity and leaves every other line and every product as it was |
| StoreContext.Store.ClearCart | project/src/contexts/StoreContext.tsx:220-223 | the cart is empty and the orders are kept |
| StoreContext.CartTotal | project/src/contexts/StoreContext.tsx:225-227 | an empty cart totals zero |
| StoreContext.CartTotalAppend | project/src/contexts/StoreContext.tsx:225-227 | the total of two carts together is the sum of their totals |
| StoreContext.Store.GetCartTotal | project/src/contexts/StoreContext.tsx:225-227 | the total is the sum of price times quantity over the cart |
| StoreContext.Store.Checkout | project/src/contexts/StoreContext.tsx:229-254 | checkout succeeds, prepends one order holding the old cart and its total, and empties the cart |
| StoreContext.NewOrder | project/src/contexts/StoreContext.tsx:234-241 | the order holds the cart and its total, is processing and has a tracking number |
| StoreContext.ProductsByCategory | project/src/contexts/StoreContext.tsx:256-258 | exactly the products of the category, in catalogue order |
| StoreContext.ProductsByMovie | project/src/contexts/StoreContext.tsx:260-262 | exactly the products tied to the movie, in catalogue order |
| StoreContext.MockCatalogueFacts | project/src/contexts/StoreContext.tsx:54-148 | the mock products have distinct ids and only product 7 is out of stock |
| StorePage.FilteredProductsMembership | project/src/pages/Store.tsx:33-38 | a product is shown exactly when it matches the selected category ("all" matches every one) and its name or description contains the query ignoring case (ASCII and Latin-1 letters); catalogue order is kept |
| StorePage.AllWithEmptySearchShowsEverything | project/src/pages/Store.tsx:33-38 | "all" with an empty query shows every product |
| StorePage.CategoryWithEmptySearch | project/src/pages/Store.tsx:33-38 | a category tab with an empty query shows what `getProductsByCategory` returns |
| StorePage.ItemCount | project/src/pages/Store.tsx:59 | the item count of an empty cart is zero, and never negative when no quantity is |
| StorePage.ItemCountAppend | project/src/pages/Store.tsx:59 | counts of two carts together add up |
| StorePage.AddRaisesCount | project/src/pages/Store.tsx:59 | adding a product raises the badge count by the quantity added |
| StorePage.BumpCount | project/src/pages/Store.tsx:59 | raising a line raises the count by the quantity when the product is present |
| StorePage.CartBadge | project/src/pages/Store.tsx:78-82 | the badge is shown exactly when the item count is positive, and shows that count |
| StorePage.StorePageView.constructor | project/src/pages/Store.tsx:19-23 | the page opens on "all", an empty query and closed cart and form |
| StorePage.StorePageView.Shown | project/src/pages/Store.tsx:33-38 | every shown product is in the store and in the selected category |
| StorePage.StorePageView.AddToCartClick | project/src/pages/Store.tsx:149-151 | an in-stock product is added once, an out-of-stock one (a disabled button) changes nothing |
| StorePage.StorePageView.HandleCheckout | project/src/pages/Store.tsx:40-57 | one order is prepended, the cart and its badge are cleared, the cart and form close |
| StorePage.StorePageView.SelectCategory | project/src/pages/Store.tsx:178 | the category changes and nothing else |
| StorePage.StorePageView.TypeSearch | project/src/pages/Store.tsx:94 | the query changes and nothing else |
| Gamification.CalculateLevel | project/src/contexts/GamificationContext.tsx:176-178 | the level is the thousand-XP band the XP falls in, at least 1 for non-negative XP |
| Gamification.LevelMonotone | project/src/contexts/GamificationContext.tsx:176-178 | more XP never lowers the level |
| Gamification.WithXP | project/src/contexts/GamificationContext.tsx:180-202 | XP rises by the amount, the level and XP to the next level follow it, nothing else changes |
| Gamification.WithXPCompose | project/src/contexts/GamificationContext.tsx:180-202 | two awards equal one of their sum, in either order |
| Gamification.WithXPZero | project/src/contexts/GamificationContext.tsx:180-202 | an award of zero changes nothing |
| Gamification.UnlockList | project/src/contexts/GamificationContext.tsx:204-222 | exactly the open achievements with the id are completed with the time; every other one is unchanged |
| Gamification.UnlockCompletesOnlyMatching | project/src/contexts/GamificationContext.tsx:204-222 | every achievement with the id ends up completed, the others are unchanged, and XP rises by the points awarded |
| Gamification.AwardWithoutUnlockable | project/src/contexts/GamificationContext.tsx:206-216 | nothing to unlock awards no points |
| Gamification.AwardOfOne | project/src/contexts/GamificationContext.tsx:206-216 | with distinct ids, unlocking one achievement awards exactly its points |
| Gamification.UnlockPrefixStep | project/src/contexts/GamificationContext.tsx:206-216 | the unlock pass over a prefix extends one achievement at a time |
| Gamification.UnlockIdempotent | project/src/contexts/GamificationContext.tsx:204-222 | a second unlock of the same id changes nothing and awards nothing |
| Gamification.FirstWithId | project/src/contexts/GamificationContext.tsx:230-231 | the lookup finds an open achievement exactly when one with the id is open |
| Gamification.WatchTimeEffect | project/src/contexts/GamificationContext.tsx:224-239 | watch time adds the minutes and two XP a minute; a session of 300 minutes or more also unlocks "binge_watcher" when it is open |
| Gamification.CompleteMovieEffect | project/src/contexts/GamificationContext.tsx:241-258 | the count rises by one and 50 XP are awarded; the first movie unlocks "first_watch", the tenth "movie_buff" |
| Gamification.CompleteSeriesEffect | project/src/contexts/GamificationContext.tsx:260-273 | the count rises by one and 200 XP are awarded; the fifth series unlocks "series_master" |
| Gamification.StreakEffect | project/src/contexts/GamificationContext.tsx:275-293 | the streak rises by one, the longest streak is the larger of the two, ten XP per streak day are awarded, day seven unlocks "streak_warrior" |
| Gamification.StepsPreserveStatsInv | project/src/contexts/GamificationContext.tsx:176-293 | every update keeps the level consistent with the XP |
| Gamification.GamificationStore.constructor | project/src/contexts/GamificationContext.tsx:145-159 | the store starts with the default stats and is valid |
| Gamification.GamificationStore.AddXP | project/src/contexts/GamificationContext.tsx:180-202 | the stats become `WithXP` and stay valid |
| Gamification.GamificationStore.UnlockAchievement | project/src/contexts/GamificationContext.tsx:204-222 | the stats become `WithUnlocked` and stay valid |
| Gamification.AwardStep | project/src/contexts/GamificationContext.tsx:204-222 | each unlockable achievement visited adds its points through one more `addXP`; others add nothing |
| Gamification.GamificationStore.UpdateWatchTime | project/src/contexts/GamificationContext.tsx:224-239 | the stats become `WatchTimeStep` and stay valid |
| Gamification.GamificationStore.CompleteMovie | project/src/contexts/GamificationContext.tsx:241-258 | the stats become `CompleteMovieStep` and stay valid |
| Gamification.GamificationStore.CompleteSeries | project/src/contexts/GamificationContext.tsx:260-273 | the stats become `CompleteSeriesStep` and stay valid |
| Gamification.GamificationStore.UpdateStreak | project/src/contexts/GamificationContext.tsx:275-293 | the stats become `StreakStep` and stay valid |
| Gamification.ByXpIsTotalPreorder | project/src/contexts/GamificationContext.tsx:303 | the leaderboard comparator is a total preorder, so the sort is well defined |
| Gamification.Ranked | project/src/contexts/GamificationContext.tsx:303 | ranks are 1, 2, … in order, and each entry keeps its player |
| Gamification.Unranked | project/src/contexts/GamificationContext.tsx:303 | dropping ranks keeps one player per entry |
| Gamification.LeaderboardRankedAndSorted | project/src/contexts/GamificationContext.tsx:295-304 | five entries, ranked 1 to 5, XP never increasing, holding exactly the five players |
| Gamification.RankedBoardSorted | project/src/contexts/GamificationContext.tsx:295-304 | for any players, the board keeps them all (as a multiset), ranks them 1 to n and never increases in XP |
| NotificationContext.NotificationStore.constructor | project/src/contexts/NotificationContext.tsx:37-70 | stored notifications are loaded as they are; without them the sample notifications are used |
| NotificationContext.NotificationStore.AddNotification | project/src/contexts/NotificationContext.tsx:76-97 | the new unread notification is prepended and the list is capped |
| NotificationContext.PrependKeepsNewest | project/src/contexts/NotificationContext.tsx:84-88 | the new notification comes first, followed by the newest earlier notifications (a prefix of the newest-first old list), at most 50 in all |
| NotificationContext.NotificationStore.MarkAsRead | project/src/contexts/NotificationContext.tsx:99-107 | the list becomes `MarkRead` |
| NotificationContext.MarkRead | project/src/contexts/NotificationContext.tsx:99-107 | exactly the notifications with the id become read; nothing else changes |
| NotificationContext.MarkReadIdempotent | project/src/contexts/NotificationContext.tsx:99-107 | marking twice is marking once |
| NotificationContext.MarkReadLowersUnread | project/src/contexts/NotificationContext.tsx:99-107 | marking never raises the unread count |
| NotificationContext.NotificationStore.MarkAllAsRead | project/src/contexts/NotificationContext.tsx:109-115 | the list becomes `MarkAllRead` |
| NotificationContext.MarkAllRead | project/src/contexts/NotificationContext.tsx:109-115 | every notification becomes read and nothing else changes |
| NotificationContext.MarkAllLeavesNoneUnread | project/src/contexts/NotificationContext.tsx:109-115 | afterwards nothing is unread, and only the read flags changed |
| NotificationContext.NotificationStore.RemoveNotification | project/src/contexts/NotificationContext.tsx:117-123 | the list becomes `Remove` |
| NotificationContext.Remove | project/src/contexts/NotificationContext.tsx:117-123 | no notification with the id is left and every other one is kept |
| NotificationContext.RemoveKeepsOrder | project/src/contexts/NotificationContext.tsx:117-123 | removal keeps order |
| NotificationContext.NotificationStore.ClearAll | project/src/contexts/NotificationContext.tsx:125-128 | the list is empty |
| NotificationContext.UnreadCount | project/src/contexts/NotificationContext.tsx:130 | the unread count is at most the list length |
| NotificationContext.UnreadCountIsCount | project/src/contexts/NotificationContext.tsx:130 | the filter-based count equals a direct count of unread notifications |
| NotificationContext.NotificationStore.GetUnreadCount | project/src/contexts/NotificationContext.tsx:130 | the count is at most the number of notifications |
| NotificationCenter.NotificationPanel.constructor | project/src/components/NotificationCenter.tsx:7 | the panel starts closed |
| NotificationCenter.NotificationPanel.HandleNotificationClick | project/src/components/NotificationCenter.tsx:18-24 | the clicked notification is marked read; one with a link navigates there and closes the panel |
| NotificationCenter.ClickMarksRead | project/src/components/NotificationCenter.tsx:18-24 | the clicked notification reads as read afterwards |
| NotificationCenter.NotificationPanel.ToggleOpen | project/src/components/NotificationCenter.tsx:53 | the bell flips the panel |
| NotificationCenter.ElapsedOf | project/src/components/NotificationCenter.tsx:26-37 | under a minute is "just now", then whole minutes below 60, whole hours below 24, then whole days, each the floor of the elapsed time |
| NotificationCenter.ElapsedText | project/src/components/NotificationCenter.tsx:32-36 | every label is at least six characters long |
| NotificationCenter.FormatTime | project/src/components/NotificationCenter.tsx:26-37 | "Just now" exactly under a minute |
| NotificationCenter.ElapsedTextInjective | project/src/components/NotificationCenter.tsx:32-36 | different elapsed values give different labels |
| NotificationCenter.CountedIsNotJustNow | project/src/components/NotificationCenter.tsx:32-36 | a counted label is never "Just now" |
| NotificationCenter.SameTextSameUnit | project/src/components/NotificationCenter.tsx:26-37 | two times share a label exactly when they fall in the same unit and count |
| NotificationCenter.BadgeText | project/src/components/NotificationCenter.tsx:57-60 | the badge shows only with unread notifications: the count up to 99, "99+" beyond |
| NotificationCenter.TypeColor | project/src/components/NotificationCenter.tsx:39-47 | blue is info and purple is achievement |
| NotificationCenter.TypeColorInjective | project/src/components/NotificationCenter.tsx:39-47 | each type has its own colour |
| ProfileContext.FirstOrNone | project/src/contexts/ProfileContext.tsx:48 | the first profile when there is one |
| ProfileContext.ProfileStore.constructor | project/src/contexts/ProfileContext.tsx:29-41 | the store starts with the single default profile, 'Main Profile', and it is selected |
| ProfileContext.ProfileStore.LoadStored | project/src/contexts/ProfileContext.tsx:43-50 | the state becomes `Load` |
| ProfileContext.Load | project/src/contexts/ProfileContext.tsx:43-50 | stored profiles replace the list and the first is selected; without storage nothing changes |
| ProfileContext.ProfileStore.CreateProfile | project/src/contexts/ProfileContext.tsx:52-60 | the state becomes `Create` |
| ProfileContext.Create | project/src/contexts/ProfileContext.tsx:52-60 | one profile with the time as id is appended, the others and the selection are unchanged |
| ProfileContext.ProfileStore.SwitchProfile | project/src/contexts/ProfileContext.tsx:62-67 | the state becomes `Switch` |
| ProfileContext.Switch | project/src/contexts/ProfileContext.tsx:62-67 | a known id selects the first listed profile with that id; an unknown id changes nothing |
| ProfileContext.ProfileStore.DeleteProfile | project/src/contexts/ProfileContext.tsx:69-78 | the state becomes `Delete` |
| ProfileContext.WithoutId | project/src/contexts/ProfileContext.tsx:71 | no profile with the id remains and every other one is kept |
| ProfileContext.DeleteLastIsNoOp | project/src/contexts/ProfileContext.tsx:70 | the last profile cannot be deleted |
| ProfileContext.DeleteEffect | project/src/contexts/ProfileContext.tsx:69-78 | the profile is removed in order; deleting the selected one selects the first remaining |
| ProfileContext.DeleteNeverEmpties | project/src/contexts/ProfileContext.tsx:69-78 | with distinct ids a delete leaves at least one profile |
| ProfileContext.SharedIdEmptiesList | project/src/contexts/ProfileContext.tsx:69-78 | two profiles sharing an id are both deleted, leaving none selected |
| ProfileContext.StepsPreserveInv | project/src/contexts/ProfileContext.tsx:40-78 | every operation keeps the selection among the profiles |
| ProfilePage.ChosenAvatar | project/src/pages/Profile.tsx:27-36 | the picked avatar, or the first option when none was picked |
| ProfilePage.ProfilePageView.constructor | project/src/pages/Profile.tsx:9-16 | the form starts closed and empty |
| ProfilePage.ProfilePageView.ShowAddTile | project/src/pages/Profile.tsx:137-139 | the "Add Profile" tile shows exactly below five profiles |
| ProfilePage.ProfilePageView.OpenCreateForm | project/src/pages/Profile.tsx:137-139 | the form opens only through the tile; the cap of five is kept |
| ProfilePage.ProfilePageView.CancelCreate | project/src/pages/Profile.tsx:234 | the form closes |
| ProfilePage.ProfilePageView.EditForm | project/src/pages/Profile.tsx:155-226 | the form holds what was typed |
| ProfilePage.ProfilePageView.HandleCreateProfile | project/src/pages/Profile.tsx:27-36 | a non-blank name creates the profile and resets the form; a blank one changes nothing; the cap of five is kept |
| ProfilePage.ProfilePageView.HandleDeleteProfile | project/src/pages/Profile.tsx:38-42 | with more than one profile and a confirmation the profile is deleted, otherwise nothing changes |
| ProfilePage.PageDeleteKeepsOne | project/src/pages/Profile.tsx:120-124 | with distinct ids a delete from the page leaves at least one profile |
| VideoPlayer.Player.constructor | project/src/pages/VideoPlayer.tsx:24-36 | paused at zero, volume 100, not muted; the shown time and the duration are 0 |
| VideoPlayer.Player.Open | project/src/pages/VideoPlayer.tsx:38-47 | a known movie is shown and recorded in the history with progress 0; an unknown one changes nothing |
| VideoPlayer.Player.TogglePlay | project/src/pages/VideoPlayer.tsx:77-87 | with a video, the play state flips and the element follows |
| VideoPlayer.Player.Skip | project/src/pages/VideoPlayer.tsx:133-138 | the position moves by the amount, clamped to the duration the page holds; that duration is always 0, so every skip puts the element at the start |
| VideoPlayer.IntendedSkip | project/src/pages/VideoPlayer.tsx:133-138 | the skip with the real video length: the position moves by the amount and stays within the video |
| VideoPlayer.SkipRewindsAsWritten | project/src/pages/VideoPlayer.tsx:49-63 | whenever the intended skip lands inside the video, the skip as written lands on 0 instead |
| VideoPlayer.Player.Play | project/src/pages/VideoPlayer.tsx:49-63 | the element plays on while the shown time and the duration stay 0, as no listener is attached |
| VideoPlayer.Player.HandleSeek | project/src/pages/VideoPlayer.tsx:89-96 | the element and the shown time take the same position, which is 0 since the duration is 0 |
| VideoPlayer.SkipScenario | project/src/pages/VideoPlayer.tsx:49-63 | thirty seconds into the video, "+10s" leaves the element at 0 and the clock at 0 |
| VideoPlayer.Clamp | project/src/pages/VideoPlayer.tsx:133-138 | the result lies within the bounds and is the input when it already does |
| VideoPlayer.Player.HandleVolumeChange | project/src/pages/VideoPlayer.tsx:98-106 | with a video the audio becomes `VolumeChange` |
| VideoPlayer.VolumeChange | project/src/pages/VideoPlayer.tsx:98-106 | the volume is the slider's, muted exactly at zero |
| VideoPlayer.Player.ToggleMuteButton | project/src/pages/VideoPlayer.tsx:108-119 | with a video the audio becomes `ToggleMute` |
| VideoPlayer.ToggleMute | project/src/pages/VideoPlayer.tsx:108-119 | mute flips and the volume is kept |
| VideoPlayer.ToggleMuteTwice | project/src/pages/VideoPlayer.tsx:108-119 | two presses restore the audio |
| Home.Featured | project/src/pages/Home.tsx:34-35 | at most five catalogue movies, each rated 8.5 or more |
| Home.FeaturedChoice | project/src/pages/Home.tsx:34 | the banner holds the first five catalogue movies rated 8.5 or more, in catalogue order, or all of them when fewer qualify |
| Home.FeaturedAreTrending | project/src/pages/Home.tsx:34-36 | the banner movies are trending movies, in the same order |
| Home.RowsSelect | project/src/pages/Home.tsx:34-40 | trending, new releases, genre and continue-watching rows hold exactly the catalogue movies passing their test, in catalogue order |
| Home.Recommended | project/src/pages/Home.tsx:104-110 | only premium users get recommendations: the first twelve catalogue movies |
| Home.AddMyListStatusEffect | project/src/pages/Home.tsx:43-44 | only the list flag changes, and it says whether the movie is listed |
| Home.HomePage.constructor | project/src/pages/Home.tsx:11-12 | both lists start empty |
| Home.HomePage.Mount | project/src/pages/Home.tsx:14-17 | both lists are read from storage |
| Home.HomePage.HandleAddToList | project/src/pages/Home.tsx:23-31 | a listed movie is removed and any other added, in storage and on the page |
| Home.HomePage.ContinueWatchingRow | project/src/pages/Home.tsx:54 | the row is shown exactly when it has movies |
| HeroBanner.Banner.constructor | project/src/components/HeroBanner.tsx:25-27 | the banner starts on the first movie, muted, image not loaded |
| HeroBanner.Banner.TimerArmed | project/src/components/HeroBanner.tsx:31-40 | the timer runs exactly when there are movies |
| HeroBanner.Banner.Tick | project/src/components/HeroBanner.tsx:31-40 | each tick moves to the next movie, wrapping, and hides the image until it loads |
| HeroBanner.Advance | project/src/components/HeroBanner.tsx:35-36 | the next index is in range: the last wraps to 0, the others go up by one |
| HeroBanner.AdvanceTimes | project/src/components/HeroBanner.tsx:35-36 | after any number of ticks the index is in range |
| HeroBanner.AdvanceTimesOffset | project/src/components/HeroBanner.tsx:35-36 | k ticks move the index k places modulo the number of movies |
| HeroBanner.ModSucc | project/src/components/HeroBanner.tsx:35-36 | one tick on a wrapped index is one tick on the raw count |
| HeroBanner.FullCycle | project/src/components/HeroBanner.tsx:31-40 | as many ticks as movies return to the same movie |
| HeroBanner.Banner.CurrentMovie | project/src/components/HeroBanner.tsx:29 | the current movie exists exactly when the index is in range, and always with movies |
| HeroBanner.Banner.PlayTarget | project/src/components/HeroBanner.tsx:44-46 | play opens the current movie |
| HeroBanner.Banner.SelectDot | project/src/components/HeroBanner.tsx:141-147 | a dot selects its movie and hides the image until it loads |
| HeroBanner.Banner.ImageLoaded | project/src/components/HeroBanner.tsx:63 | the image is marked loaded |
| HeroBanner.Banner.ToggleMute | project/src/components/HeroBanner.tsx:128 | mute flips |
| HeroBanner.Banner.SetMovies | project/src/components/HeroBanner.tsx:19-24 | new featured movies keep the index |
| Browse.BrowsePage.constructor | project/src/pages/Browse.tsx:10-28 | the page starts from the URL query, with cleared filters, and the first search already applied |
| Browse.BrowsePage.Mount | project/src/pages/Browse.tsx:34-36 | the list is read from storage |
| Browse.BrowsePage.TypeQuery | project/src/pages/Browse.tsx:121 | the query changes and the results stay |
| Browse.BrowsePage.SearchFor | project/src/pages/Browse.tsx:54-58 | the query is set and the results are recomputed with the current filters |
| Browse.BrowsePage.HandleFilterChange | project/src/pages/Browse.tsx:60-75 | the filters take the change and the results are recomputed |
| Browse.ApplyChange | project/src/pages/Browse.tsx:60-75 | a genre toggles in or out; year, type and rating are replaced |
| Browse.ToggleGenre | project/src/pages/Browse.tsx:62-67 | the genre is on afterwards exactly when it was off; other genres are unchanged |
| Browse.ToggleGenreTwice | project/src/pages/Browse.tsx:62-67 | toggling a genre on and off restores the list |
| Browse.ToggleGenreNoDuplicates | project/src/pages/Browse.tsx:62-67 | toggling keeps the genre list duplicate-free |
| Browse.ToSearchFilters | project/src/pages/Browse.tsx:44-52 | an empty genre list, year or rating switches that filter off |
| Browse.SelectedOptionsParse | project/src/pages/Browse.tsx:44-52 | a chosen year reads back as that year, a chosen star count as that rating |
| Browse.UpdateMoviesResults | project/src/pages/Browse.tsx:44-52 | the results are exactly the catalogue movies the search keeps, in catalogue order |
| Browse.NoFiltersIsTextSearch | project/src/pages/Browse.tsx:77-86 | with no filter set the results are a plain text search, and cleared filters hide the clear button |
| Browse.ChangeShowsClear | project/src/pages/Browse.tsx:141 | setting any filter shows the clear button |
| Browse.BrowsePage.ClearFilters | project/src/pages/Browse.tsx:77-86 | the filters are cleared and the results are a plain text search |
| Browse.BrowsePage.HandleAddToList | project/src/pages/Browse.tsx:88-96 | a listed movie is removed and any other added, in storage and on the page |
| Browse.WithListStatus | project/src/pages/Browse.tsx:102-105 | each movie gets the flag saying whether it is listed |
| Browse.BrowsePage.Shown | project/src/pages/Browse.tsx:102-105 | every shown card carries its list flag |
| MovieDetail.MovieDetailPage.constructor | project/src/pages/MovieDetail.tsx:11-14 | loading, no movie, collapsed description |
| MovieDetail.MovieDetailPage.Load | project/src/pages/MovieDetail.tsx:16-25 | a known id shows its movie and its list status; loading ends |
| MovieDetail.MovieDetailPage.HandlePlay | project/src/pages/MovieDetail.tsx:27-32 | play records the movie in the history with progress 0 |
| MovieDetail.MovieDetailPage.HandleAddToList | project/src/pages/MovieDetail.tsx:34-44 | the button flips and the stored list follows it |
| MovieDetail.SimilarMovies | project/src/pages/MovieDetail.tsx:67-69 | at most six other catalogue movies sharing a genre |
| MovieDetail.SimilarMoviesChoice | project/src/pages/MovieDetail.tsx:67-69 | they are the first six such movies in catalogue order, or all of them when fewer |
| MovieDetail.CollapsedDescription | project/src/pages/MovieDetail.tsx:111-120 | the first 200 characters and "..." |
| MovieDetail.DescriptionText | project/src/pages/MovieDetail.tsx:111-120 | the full text when expanded, the collapsed one otherwise |
| MovieDetail.ShortDescriptionAlwaysEllipsized | project/src/pages/MovieDetail.tsx:111-120 | a short description still gets "..." and cannot be expanded |
| MovieDetail.MovieDetailPage.ToggleDescription | project/src/pages/MovieDetail.tsx:111-120 | the toggle exists and acts only for a long description |
| MyList.MyListPage.constructor | project/src/pages/MyList.tsx:9-12 | empty list, all types, sorted by "added" |
| MyList.MyListPage.Mount | project/src/pages/MyList.tsx:14-16 | the list is read from storage |
| MyList.MyListMoviesSelection | project/src/pages/MyList.tsx:18 | the listed catalogue movies, in catalogue order |
| MyList.FilterByTypeEffect | project/src/pages/MyList.tsx:30-33 | "all" keeps every movie; a type keeps exactly the movies of that type, in order |
| MyList.SortIsRearrangement | project/src/pages/MyList.tsx:36-48 | sorting rearranges the movies without adding or losing one |
| MyList.YearSortDescending | project/src/pages/MyList.tsx:36-48 | the year sort puts newer movies first |
| MyList.RatingSortDescending | project/src/pages/MyList.tsx:36-48 | the rating sort puts better-rated movies first |
| MyList.AddedKeepsCatalogueOrder | project/src/pages/MyList.tsx:44-47 | the "added" sort leaves catalogue order |
| MyList.AddedIgnoresInsertionOrder | project/src/pages/MyList.tsx:44-47 | the order in which two movies were added does not change the "added" order |
| MyList.MarkOnList | project/src/pages/MyList.tsx:50-53 | every card is marked as listed |
| MyList.CountLabel | project/src/pages/MyList.tsx:89-91 | "1 item" exactly for one, "N items" otherwise |
| MyList.MyListPage.HandleRemoveFromList | project/src/pages/MyList.tsx:20-23 | the movie is removed in storage and on the page |
| MyList.MyListPage.ClearAll | project/src/pages/MyList.tsx:199-204 | a confirmed clear removes each listed id from storage and empties the page |
| MyList.RemoveAll | project/src/pages/MyList.tsx:202 | exactly the ids not being cleared remain |
| MyList.RemoveAllStep | project/src/pages/MyList.tsx:202 | the loop removes one id per pass |
| MyList.ClearAllEmpties | project/src/pages/MyList.tsx:199-204 | clearing every stored id empties the stored list |
| MyList.MyListPage.SetFilterType | project/src/pages/MyList.tsx:30-33 | the type filter changes and nothing else |
| MyList.MyListPage.SetSortBy | project/src/pages/MyList.tsx:36-48 | the sort key changes and nothing else |
| MyList.MyListPage.Shown | project/src/pages/MyList.tsx:18-53 | the page shows as many cards as the filtered selection has |
| InteractiveMovie.SceneTableWellFormed | project/src/pages/InteractiveMovie.tsx:37-194 | every choice of the scene table leads to a scene in it, and "intro" is in it |
| InteractiveMovie.TableEntry | project/src/pages/InteractiveMovie.tsx:37-194 | each table key holds the scene with that id; its choices lead into the table; a scene is an ending exactly when it has no choices, and exactly when it has an ending type |
| InteractiveMovie.TableLookups | project/src/pages/InteractiveMovie.tsx:37-80 | the intro and the stealth path are found by id |
| InteractiveMovie.Lookup | project/src/pages/InteractiveMovie.tsx:37-194 | a scene is found exactly when its id is in the table |
| InteractiveMovie.FindChoice | project/src/pages/InteractiveMovie.tsx:232 | the choice found belongs to the scene and has the id; none is found exactly when no choice has it |
| InteractiveMovie.Mount | project/src/pages/InteractiveMovie.tsx:196-199 | the story starts at "intro" with empty logs |
| InteractiveMovie.MountEstablishesInv | project/src/pages/InteractiveMovie.tsx:196-199 | the start is consistent and shows the intro with no choice selected |
| InteractiveMovie.Rearm | project/src/pages/InteractiveMovie.tsx:201-210 | the choice timer is re-armed only when the scene stays, or moves to one that is not an ending |
| InteractiveMovie.OpenWindowPreservesInv | project/src/pages/InteractiveMovie.tsx:201-210 | an armed timer opens the choices with ten seconds; consistency is kept |
| InteractiveMovie.SelectUnknownChoiceIsNoOp | project/src/pages/InteractiveMovie.tsx:232-233 | a choice the scene does not offer changes nothing |
| InteractiveMovie.SelectKnownChoice | project/src/pages/InteractiveMovie.tsx:229-248 | an offered choice is selected, logged with its scene, and its target queued for the transition |
| InteractiveMovie.SelectPreservesInv | project/src/pages/InteractiveMovie.tsx:229-248 | selecting keeps the state consistent |
| InteractiveMovie.ExpirySelectsFirstChoice | project/src/pages/InteractiveMovie.tsx:215-221 | when time runs out with nothing selected the first choice is taken |
| InteractiveMovie.TickWithoutExpiry | project/src/pages/InteractiveMovie.tsx:212-227 | a tick counts down; at the end with a selection it only stops |
| InteractiveMovie.TickPreservesInv | project/src/pages/InteractiveMovie.tsx:212-227 | ticks keep the state consistent |
| InteractiveMovie.FinishTransitionMoves | project/src/pages/InteractiveMovie.tsx:238-247 | after the delay the queued scene becomes current, joins the history, and plays with the choices hidden |
| InteractiveMovie.FinishTransitionPreservesInv | project/src/pages/InteractiveMovie.tsx:238-247 | the transition keeps the state consistent |
| InteractiveMovie.DanglingTargetLogsWithoutMoving | project/src/pages/InteractiveMovie.tsx:235-247 | a choice whose target is missing is logged but the scene does not move |
| InteractiveMovie.RestartResets | project/src/pages/InteractiveMovie.tsx:250-257 | restart returns to the intro with empty logs, paused, choices hidden |
| InteractiveMovie.PreviousAtStartIsNoOp | project/src/pages/InteractiveMovie.tsx:259-271 | at the first scene "previous" changes nothing |
| InteractiveMovie.PreviousStepsBack | project/src/pages/InteractiveMovie.tsx:259-271 | "previous" drops the last scene and the last choice and shows the scene before |
| InteractiveMovie.VideoEndedPreservesInv | project/src/pages/InteractiveMovie.tsx:314-320 | the end of an ending scene pauses; otherwise nothing changes |
| InteractiveMovie.EndingMessage | project/src/pages/InteractiveMovie.tsx:273-286 | a message exists exactly for an ending scene with an ending type |
| InteractiveMovie.EndingColor | project/src/pages/InteractiveMovie.tsx:288-297 | a colour exists exactly for an ending scene with an ending type |
| InteractiveMovie.EndingTextsFollowType | project/src/pages/InteractiveMovie.tsx:273-297 | two endings share a message, and a colour, exactly when they share a type |
| InteractiveMovie.TableEndingTexts | project/src/pages/InteractiveMovie.tsx:164-194 | in the table, a scene has ending texts exactly when it is an ending |
| InteractiveMovie.InvConsequences | project/src/pages/InteractiveMovie.tsx:229-271 | in a consistent state the current scene is the last in the history, and when settled there is one choice per step |
| InteractiveMovie.StepPreservesInv | project/src/pages/InteractiveMovie.tsx:196-320 | every handler keeps the state consistent; restart is taken once transitions have settled |
| InteractiveMovie.RunKeepsInv | project/src/pages/InteractiveMovie.tsx:196-320 | any sequence of events in which every restart comes with no transition pending keeps the state consistent (the restart button is on the ending screen, normally reached only after the last transition has completed) |
| InteractiveMovie.FromMountLastIsCurrent | project/src/pages/InteractiveMovie.tsx:196-320 | from the start, after any sequence of events in which every restart comes with no transition pending, the current scene is the last in the history |
| InteractiveMovie.FromMountKeepsInv | project/src/pages/InteractiveMovie.tsx:196-320 | for any consistent scene table, after any sequence of events from the start in which every restart comes with no transition pending, the current scene is the last in the history |
| InteractiveMovie.TickCountsDown | project/src/pages/InteractiveMovie.tsx:212-227 | on the intro with nothing chosen, a tick above one second takes one second off and changes nothing else |
| InteractiveMovie.LastTickLandsOnStealth | project/src/pages/InteractiveMovie.tsx:212-247 | the last tick on the intro takes "stealth", and the transition lands on the stealth path |
| InteractiveMovie.ExpiryScenario | project/src/pages/InteractiveMovie.tsx:212-247 | letting the intro timer run out leads to the stealth path and logs that choice |
| InteractiveMovie.Session.constructor | project/src/pages/InteractiveMovie.tsx:196-199 | the session starts at `Mount` |
| InteractiveMovie.Session.HandleChoiceSelect | project/src/pages/InteractiveMovie.tsx:229-237 | the state becomes `SelectChoice` and stays consistent |
| InteractiveMovie.Session.OpenChoiceWindow | project/src/pages/InteractiveMovie.tsx:201-210 | the state becomes `OpenWindow` and stays consistent |
| InteractiveMovie.Session.Tick | project/src/pages/InteractiveMovie.tsx:212-227 | the state becomes `CountdownTick` and stays consistent |
| InteractiveMovie.Session.CompleteTransition | project/src/pages/InteractiveMovie.tsx:238-247 | the state becomes `FinishTransition` and stays consistent |
| InteractiveMovie.Session.RestartMovie | project/src/pages/InteractiveMovie.tsx:250-257 | the state becomes `Restart`, consistent when no transition is pending |
| InteractiveMovie.Session.GoToPreviousScene | project/src/pages/InteractiveMovie.tsx:259-271 | the state becomes `StepBack` and stays consistent |
| InteractiveMovie.Session.HandleVideoEnded | project/src/pages/InteractiveMovie.tsx:314-320 | the state becomes `VideoEnded` and stays consistent |
| SceneNavigation.MarkersOrdered | project/src/pages/SceneNavigation.tsx:29-93 | the markers are in time order within the 80-minute film, with intensity 1 to 5 and distinct ids |
| SceneNavigation.FirstOfType | project/src/pages/SceneNavigation.tsx:296-302 | the marker found has the type; none is found exactly when no marker has it |
| SceneNavigation.FirstOfTypeAt | project/src/pages/SceneNavigation.tsx:296-302 | the first marker of the type is the one found |
| SceneNavigation.BestActionIsFirstAction | project/src/pages/SceneNavigation.tsx:362-365 | the "best action" button jumps to the first action marker |
| SceneNavigation.ActionTarget | project/src/pages/SceneNavigation.tsx:296-302 | the action button jumps to marker 2 at 7:00 |
| SceneNavigation.RomanceTarget | project/src/pages/SceneNavigation.tsx:296-302 | the romance button jumps to marker 3 |
| SceneNavigation.ComedyTarget | project/src/pages/SceneNavigation.tsx:296-302 | the comedy button jumps to marker 4 |
| SceneNavigation.ClimaxTarget | project/src/pages/SceneNavigation.tsx:351-354 | the climax button jumps to marker 6 at one hour |
| SceneNavigation.SceneColor | project/src/pages/SceneNavigation.tsx:154-163 | no scene type falls back to grey |
| SceneNavigation.SceneColorInjective | project/src/pages/SceneNavigation.tsx:154-163 | each type has its own colour |
| SceneNavigation.IntensityBars | project/src/pages/SceneNavigation.tsx:166-175 | there are always five bars |
| SceneNavigation.IntensityBarsShowIntensity | project/src/pages/SceneNavigation.tsx:166-175 | the lit bars come first and their number is the intensity, clamped to 0 to 5 |
| SceneNavigation.LitCountOfSplit | project/src/pages/SceneNavigation.tsx:166-175 | `k` lit bars followed by dark ones count as `k` |
| SceneNavigation.MarkerLabel | project/src/pages/SceneNavigation.tsx:333 | a marker's label reads back as its minutes and seconds |
| SceneNavigation.MarkerLabelsDistinct | project/src/pages/SceneNavigation.tsx:333 | no two markers share a label |
| SceneNavigation.ScenePlayer.constructor | project/src/pages/SceneNavigation.tsx:21-25 | paused at zero, no movie, no scene selected |
| SceneNavigation.ScenePlayer.Load | project/src/pages/SceneNavigation.tsx:95-103 | a known movie is shown with an 80-minute duration |
| SceneNavigation.ScenePlayer.JumpToScene | project/src/pages/SceneNavigation.tsx:115-123 | with a video, the element and the shown time move to the marker, which is selected, and playback starts |
| SceneNavigation.ScenePlayer.JumpToType | project/src/pages/SceneNavigation.tsx:296-302 | a type button jumps to the first marker of the type |
| SceneNavigation.ScenePlayer.JumpToBestAction | project/src/pages/SceneNavigation.tsx:362-365 | the "best action" button jumps to marker 2 at 7:00 |
| SceneNavigation.ScenePlayer.TogglePlay | project/src/pages/SceneNavigation.tsx:125-134 | with a video the play state flips and the element follows |
| SceneNavigation.ScenePlayer.ElementPlayed | project/src/pages/SceneNavigation.tsx:194 | the element starting to play marks the page as playing |
| SceneNavigation.ScenePlayer.ElementPaused | project/src/pages/SceneNavigation.tsx:195 | the element pausing marks the page as paused |
| SceneNavigation.ScenePlayer.Play | project/src/pages/SceneNavigation.tsx:105-113 | the element plays on while the shown time stays put: the time listener is never attached, so only jumps move the shown time |
| LiveStream.CountdownOf | project/src/pages/LiveStream.tsx:157-170 | "live now" exactly when the start has passed, otherwise whole hours and minutes below 60 that floor the time left |
| LiveStream.TimeUntilStartShape | project/src/pages/LiveStream.tsx:157-170 | "Live Now" exactly when started; hours appear exactly from an hour on |
| LiveStream.SectionsPartitionEvents | project/src/pages/LiveStream.tsx:324-362 | the live and upcoming sections split the events between them |
| LiveStream.LiveChat.constructor | project/src/pages/LiveStream.tsx:72-101 | no event is selected, the input is empty, the sample messages are shown |
| LiveStream.LiveChat.SelectEvent | project/src/pages/LiveStream.tsx:100-101 | choosing an event resets the chat to the sample messages |
| LiveStream.LiveChat.SimulatedMessage | project/src/pages/LiveStream.tsx:105-133 | during a live event one message is appended and the chat keeps its last fifty; otherwise nothing |
| LiveStream.LastFifty | project/src/pages/LiveStream.tsx:132 | the newest fifty messages, or all when fewer |
| LiveStream.AppendTrimmed | project/src/pages/LiveStream.tsx:132 | the appended message is kept last, after the newest older messages |
| LiveStream.LiveChat.TypeMessage | project/src/pages/LiveStream.tsx:281 | the input holds the text |
| LiveStream.LiveChat.HandleSendMessage | project/src/pages/LiveStream.tsx:139-151 | a non-blank message during a live event is appended under the user's name (or "You") and the input cleared; otherwise nothing |
| LiveStream.BlankMessagesAreDropped | project/src/pages/LiveStream.tsx:141 | a blank message trims to nothing |
| WatchParty.CreateChoices | project/src/pages/WatchParty.tsx:92 | the picker offers the first eight catalogue movies |
| WatchParty.OnlineCount | project/src/pages/WatchParty.tsx:180 | at most the party size |
| WatchParty.OnlineCountSplit | project/src/pages/WatchParty.tsx:33-38 | online and offline members make up the party, three of four online |
| WatchParty.WatchPartyPage.constructor | project/src/pages/WatchParty.tsx:24-44 | paused at zero with the sample chat |
| WatchParty.WatchPartyPage.Load | project/src/pages/WatchParty.tsx:46-53 | an id other than "create" that names a movie shows it |
| WatchParty.WatchPartyPage.TogglePlay | project/src/pages/WatchParty.tsx:174 | play flips |
| WatchParty.WatchPartyPage.TypeMessage | project/src/pages/WatchParty.tsx:55-68 | the input holds the text |
| WatchParty.WatchPartyPage.HandleSendMessage | project/src/pages/WatchParty.tsx:55-68 | a non-blank message is appended from "You" and the input cleared; a blank one changes nothing |
| WatchParty.WatchPartyPage.ProgressText | project/src/pages/WatchParty.tsx:211 | the progress label reads back as the minutes and seconds, "0:00" at the start |
| ActorDetail.TypeName | project/src/pages/ActorDetail.tsx:20 | the credit types are "movie" and "series" |
| ActorDetail.TabName | project/src/pages/ActorDetail.tsx:29 | the tab names are "all", "movies" and "series" |
| ActorDetail.DropLast | project/src/pages/ActorDetail.tsx:90 | `slice(0, -1)` drops exactly the last character |
| ActorDetail.SeriesTabShowsNothing | project/src/pages/ActorDetail.tsx:88-91 | as written, the series tab shows no credit |
| ActorDetail.SeriesCreditIsHidden | project/src/pages/ActorDetail.tsx:88-91 | one series credit: hidden as written, shown as intended |
| ActorDetail.MoviesTabAsWrittenIsIntended | project/src/pages/ActorDetail.tsx:88-91 | the movies and all tabs already work as intended |
| ActorDetail.IntendedFilmography | project/src/pages/ActorDetail.tsx:88-91 | the corrected filter shows exactly the credits of the tab's type |
| ActorDetail.IntendedTabsPartition | project/src/pages/ActorDetail.tsx:88-91 | corrected, "all" shows every credit, and the movies and series tabs split the filmography with the sizes the stats show |
| ActorDetail.MovieCount | project/src/pages/ActorDetail.tsx:254 | at most the filmography size |
| ActorDetail.SeriesCount | project/src/pages/ActorDetail.tsx:260 | at most the filmography size |
| ActorDetail.CountsAddUp | project/src/pages/ActorDetail.tsx:245-262 | movie and series counts add up to the filmography |
| ActorDetail.AgeCountsBirthdays | project/src/pages/ActorDetail.tsx:93-102 | the age is the number of birthdays reached: this one is reached, the next is not |
| ActorDetail.AgeMonotone | project/src/pages/ActorDetail.tsx:93-102 | a later day never gives a lower age |
| Admin.Stats | project/src/pages/Admin.tsx:22-27 | users, views and revenue are the fixed figures |
| Admin.EmptySearchShowsAll | project/src/pages/Admin.tsx:25-39 | an empty search lists the whole catalogue, as many titles as the content count |
| Admin.FilteredMovies | project/src/pages/Admin.tsx:36-39 | at most the catalogue |
| Admin.FilteredMoviesMembership | project/src/pages/Admin.tsx:36-39 | a title is listed exactly when its title or a genre contains the query ignoring case (ASCII and Latin-1 letters), in catalogue order |
| Admin.QueryCaseIgnored | project/src/pages/Admin.tsx:36-39 | the query's case does not matter (ASCII and Latin-1 letters) |
| Admin.SameMatches | project/src/pages/Admin.tsx:36-39 | queries equal after lower-casing ASCII and Latin-1 letters list the same titles |
| Admin.AccentedQueryMatches | project/src/pages/Admin.tsx:36-39 | the query "CAFÉ" matches the title "Midnight Café" |
| Admin.LowerIdempotent | project/src/pages/Admin.tsx:36-39 | lower-casing twice is lower-casing once |

## Left out

- InteractiveMovie.RunKeepsInv, InteractiveMovie.FromMountLastIsCurrent, InteractiveMovie.FromMountKeepsInv: these cover only runs in which every restart comes with no transition pending. `restartMovie` (project/src/pages/InteractiveMovie.tsx:250-257) does not cancel the one-second transition timeout, so a restart while a transition is pending breaks the history/choice-log consistency; the restart button is on the ending screen, normally reached only after the last transition has completed. A Previous pressed while a transition is pending can leave two timeouts queued, so an ending can be reached with one still pending.
- Storage is an in-memory `Library`, and the contexts' `localStorage` writes are not modelled. Reading stored notifications and profiles becomes a parameter (`stored`).
- The store and gamification contexts reload a saved cart, saved orders and saved stats on mount. That reload is not modelled: both start from their defaults.
- Time comes in as parameters (`now`, time differences in milliseconds). Dates are day, month and year values. The local time zone in `calculateAge` is not modelled.
- Clock text from `toLocaleTimeString` and `toLocaleDateString` is a parameter.
- The title sort uses `localeCompare`, which is the `titleLe` parameter.
- Random choices are parameters: the simulated chat user and message, and their interval. So is the answer to each confirmation dialog.
- The random view counts and the users tab of the admin page are not modelled.
- Navigation is a recorded route. Alerts, the DOM, icons, images, avatars, styling and every rendered element are not modelled.
- The video player's `handleSeek` is modelled only with the duration the page actually holds, 0, where its fractional product is exactly 0. Fullscreen, playback rate, quality and subtitles are not modelled.
- Scene navigation's progress-bar percentages are floating point and are not modelled. Its time is kept in whole seconds.
- The hero banner's eight-second interval is a `Tick` event. Timers in the interactive movie are events too: the countdown and the transition delay.
- The interactive movie's handlers read their state through React closures. The model assumes each handler sees the latest state.
- Checkout's two-second delay and its `try`/`catch` are not modelled. `checkout` always succeeds.
- MockData.SearchMembership: "ignoring case" lower-cases ASCII and Latin-1 capitals only. `toLowerCase` also folds other scripts (Greek, Cyrillic, Latin Extended), some of them depending on context or into two characters, which the model leaves out.
- StorePage.FilteredProductsMembership: the same case folding as the catalogue search, ASCII and Latin-1 only.
- Admin.FilteredMoviesMembership: the same case folding as the catalogue search, ASCII and Latin-1 only.
- Admin.QueryCaseIgnored: holds for the case folding of the model, ASCII and Latin-1 only.
- Admin.SameMatches: "equal after lower-casing" is under the model's ASCII and Latin-1 folding.
- String lengths count characters, where JavaScript counts UTF-16 code units. The two agree on the texts of the catalogue.
- The "added" sort on My List is modelled as written. The comparator returns 0, so catalogue order stays (`MyList.AddedKeepsCatalogueOrder`). The source's comment says the most recent additions come first, but the code does not do that.
- A short movie description is modelled as written. It gets "..." even when nothing is cut (`MovieDetail.ShortDescriptionAlwaysEllipsized`).
- A chat message sent by hand on the live stream page is appended without the fifty-message cap. Only simulated messages are capped.
- ProfileContext.DeleteEffect: a profile id is the creation time in milliseconds, so two profiles created in the same millisecond share an id. Deleting one then deletes both (`ProfileContext.SharedIdEmptiesList`). The page's guard keeps the last profile only when ids are distinct.

## Findings

| source | as written | input that shows it | evidently intended | confidence | as-written member | corrected member |
|---|---|---|---|---|---|---|
| project/src/pages/ActorDetail.tsx:88-91 | the tab filter compares the credit type with the tab name minus its last letter, and "series" minus its last letter is "serie", which no credit has | a filmography with one series credit, on the series tab | the series tab lists the series credits, as the movies tab lists the movies | not executed | ActorDetail.SeriesCreditIsHidden | ActorDetail.IntendedTabsPartition |
| project/src/pages/VideoPlayer.tsx:49-63 | the effect that attaches the time and metadata listeners has no dependencies and runs while the spinner renders, so there is no element and it never attaches; `duration` stays 0 and `skip` (line 137) clamps every seek to 0 | a movie opened at /watch/1, played to 30 seconds, then "+10s" | the skip moves the position by ten seconds within the video, and the clock follows it | not executed | VideoPlayer.SkipRewindsAsWritten | VideoPlayer.IntendedSkip |
