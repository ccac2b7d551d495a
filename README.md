# GameSphere server rules in Dafny

This project models the domain rules of the GameSphere backend, an Express
and MongoDB service for a video-game catalogue. It has news, user reviews,
community posts, bookmarks, notifications and a small moderation desk.

Each MongoDB collection is a class. The class holds the stored documents as a
sequence in insertion order, plus a counter that hands out fresh, increasing
ids. Storage order stands in for creation time, so "newest first" is the
reverse of store order. Each route handler is a method that takes the
collections it touches. Each method is proved against a specification
function of the old state. The properties the code promises are lemmas about
those functions.

The model covers:

- **Schemas** (`GameModel`, `NewsModel`, `ReviewModel`, `ReportModel`, `CommunityPostModel`):
  - the validity predicates: required fields, enums, length bounds, the `trim` setters;
  - the defaults;
  - the slug pre-save hook;
  - the unique indexes.
  - Creation runs in mongoose's order: cast and trim, then validate, then the pre-save hook, then the unique index.
  - Updates by id apply the trim setters but bypass the validators and the hook.
- **Slugs** (`Slug`): lower-case, each whitespace run becomes one `-`, then every character outside `[A-Za-z0-9_-]` is dropped.
- **Game routes** (`GamesRoutes`):
  - the catalogue filter, built field by field;
  - the default limit;
  - the trending and upcoming selections;
  - lookups;
  - community-post creation;
  - the keyed review upsert and the recomputation of the game's `{average, count}`. The average is kept in whole tenths.
- **User routes** (`UsersRoutes`): the bookmark toggle, the profile patch, the password-change checks, the notification inbox and owner-scoped mark-read.
- **Moderation** (`ReportsRoutes`, `AdminRoutes`): report submission with its ordered checks, the status relabelling, the pending count, the report list, and game/news update and delete.
- **Broadcast** (`NotificationsRoutes`): recipients chosen by one preference flag, one notification each.

Modules `Common` (Option, Result, error kinds), `Seqs` (filter, find,
reverse, insertion sort by key) and `Text` (JavaScript whitespace, trim, ASCII
lower-case) are shared.

`backend/routes/games.js:123-146` does not check that the game exists. For
an unknown id the review is still upserted, the rating update matches no
game, and the stored review is returned. See `GamesRoutes.SubmitReview`.

The average is modelled in exact tenths. `Math.round(sum / count * 10)` is
taken to equal `floor((20 * sum + count) / (2 * count))`, the nearest whole
number of tenths with halves rounded up. Floating-point edge cases at exact
halves are outside the model.

## Model

| member | source | states |
|---|---|---|
| Common.Status | backend/routes/admin.js:120-128 | The status a route answers with: 400 exactly for a bad request, 404 exactly for a missing document, and otherwise 401 or 500 |
| Text.Lower | backend/models/Game.js:87 | `toLowerCase`: same length; every upper-case ASCII letter becomes its lower-case letter (code + 32); every other character unchanged |
| Text.TrimStart | backend/models/Game.js:7 | Drops exactly the leading whitespace: the result is a suffix, starts with a non-space, and everything dropped is whitespace |
| Text.TrimEnd | backend/models/Game.js:7 | Drops exactly the trailing whitespace: the result is a prefix, ends with a non-space, and everything dropped is whitespace |
| Text.Trim | backend/models/Game.js:7 | `trim()`: a slice `s[i..j]` of the input with only whitespace before `i` and after `j`, and no whitespace at either end of the result |
| Text.TrimEmptyIffBlank | backend/routes/users.js:76 | A string trims to empty exactly when it is all whitespace |
| Text.TrimUntouched | backend/models/Game.js:12 | A string with no whitespace at its ends is its own trim |
| Text.TrimIdempotent | backend/models/Game.js:7 | Trimming twice is trimming once |
| Text.TrimOpt | backend/models/Game.js:12 | The `trim` setter: an absent value stays absent, a present one is trimmed |
| Slug.DashRuns | backend/models/Game.js:87 | `replace(/\s+/g, '-')`: no whitespace left, no longer than the input, every character a `-` or from the input |
| Slug.KeepSlugChars | backend/models/Game.js:87 | `replace(/[^\w-]+/g, '')`: exactly the `[A-Za-z0-9_-]` characters of the input are kept (each kept one is from the input, each such input character is kept) |
| Slug.KeepSlugCharsSplits | backend/models/Game.js:87 | The removal keeps order: it splits over concatenation, and one character is kept exactly when it is a slug character |
| Slug.Slugify | backend/models/Game.js:87 | The slug of a name: no longer than the name, only `[a-z0-9_-]` and no whitespace |
| Slug.DashRunsWithoutSpace | backend/models/Game.js:87 | A string without whitespace passes the dash step unchanged |
| Slug.SlugifyIdempotent | backend/models/Game.js:87 | The slug of a slug is the slug |
| Slug.ScanInRunSkips | backend/models/Game.js:87 | A scan that is inside a whitespace run continues exactly as a fresh scan of the text after the run |
| Slug.DashRunsIsScan | backend/models/Game.js:87 | The run-collapsing step agrees with an independent character-by-character scan that emits one `-` per run |
| Slug.DashRunsKeepsSolid | backend/models/Game.js:87 | Collapsing runs keeps every non-space, non-dash character, in order |
| Slug.SlugHook | backend/models/Game.js:85-90 | The pre-save hook: a present non-empty slug is never overwritten; without a modification nothing changes; otherwise the slug is derived from the name (the title for news, `backend/models/News.js:45-50`) |
| GameModel.NewGame | backend/models/Game.js:3-90 | A new game: rejected with a validation error exactly when a required field, the 200-character bound or an enum fails; otherwise the name is trimmed, the slug comes from the hook, description, short description, category, platforms and release date are the body's, the rating is the given one or 0/0, the flags default to false, and the game satisfies the schema |
| GameModel.HookedSlugTrimmed | backend/models/Game.js:9-13 | A new game always leaves the hook with a slug, and that slug has no whitespace at its ends |
| GameModel.ApplyUpdate | backend/routes/admin.js:34 | `$set`: keeps the id; every set field takes the given value (name and slug trimmed, rating average and count from the given rating); every unset field keeps its old value |
| GameModel.RatingUpdateOnlyRating | backend/routes/games.js:137-140 | The rating update overwrites the two rating fields and nothing else |
| GameModel.GameIndex | backend/routes/admin.js:34 | `findById`: the position of the game with that id, or none when no game has it |
| GameModel.CreateOutcome | backend/models/Game.js:9-13 | `Game.create`: a validation error if the document is invalid; then a duplicate-key error if another game holds the slug (a missing slug counts as null); otherwise exactly the new validated game |
| GameModel.UpdateOutcome | backend/routes/admin.js:34 | `findByIdAndUpdate`: nothing exactly when no game has the id; a found game becomes `ApplyUpdate` of the stored one; a duplicate slug error exactly when the updated slug is held by another game |
| GameModel.Updated | backend/routes/admin.js:34 | The stored games after an update: same length and ids; the game with the id becomes `ApplyUpdate` of it; every other game untouched |
| GameModel.UpdateIdempotent | backend/routes/admin.js:34 | Applying the same update twice is applying it once |
| GameModel.WithoutGame | backend/routes/admin.js:44 | The stored games after a delete: no game with that id, every other game kept |
| GameModel.GameCollection.Create | backend/routes/admin.js:23-30 | Appends the created game under a fresh id, or stores nothing on error; ids stay increasing and slugs unique |
| GameModel.GameCollection.FindByIdAndUpdate | backend/routes/admin.js:32-40 | Writes the update when it succeeds with a document, otherwise nothing; slugs stay unique |
| GameModel.GameCollection.FindByIdAndDelete | backend/routes/admin.js:42-49 | Removes the game with that id; ids stay increasing and slugs unique |
| NewsModel.NewNews | backend/models/News.js:3-50 | A new article: rejected exactly when the title or content is missing, the excerpt exceeds 300 characters or the category is outside the five; the category defaults to `News`; the title is trimmed and the slug comes from the hook; excerpt, content and related game are the body's, and `featured` is true only when given as true |
| NewsModel.HookedSlugTrimmed | backend/models/News.js:9-13 | A new article always leaves the hook with a slug that has no whitespace at its ends |
| NewsModel.ApplyUpdate | backend/routes/admin.js:72 | `$set`: keeps the id; every set field takes the given value (title and slug trimmed); every unset field keeps its old value |
| NewsModel.NewsIndex | backend/routes/admin.js:72 | The position of the article with that id, or none |
| NewsModel.CreateOutcome | backend/models/News.js:9-13 | `News.create`: validation error, then duplicate slug, otherwise exactly the new validated article |
| NewsModel.UpdateOutcome | backend/routes/admin.js:72 | Nothing exactly when no article has the id; a found article becomes `ApplyUpdate` of the stored one; a duplicate slug error exactly when the updated slug is held by another article |
| NewsModel.Updated | backend/routes/admin.js:72 | Same length and ids; the article with the id becomes `ApplyUpdate` of it; every other article untouched |
| NewsModel.UpdateIdempotent | backend/routes/admin.js:72 | Applying the same update twice is applying it once |
| NewsModel.WithoutNews | backend/routes/admin.js:82 | No article with that id remains, every other one is kept |
| NewsModel.NewsCollection.Create | backend/routes/admin.js:61-68 | Appends the created article or stores nothing; news slugs stay unique across the collection |
| NewsModel.NewsCollection.FindByIdAndUpdate | backend/routes/admin.js:70-78 | Writes a successful update only; slugs stay unique |
| NewsModel.NewsCollection.FindByIdAndDelete | backend/routes/admin.js:80-87 | Removes the article with that id; slugs stay unique |
| ReviewModel.ReviewIndex | backend/routes/games.js:126-127 | The position of the review for the (game, user) pair, or none when there is none |
| ReviewModel.ReviewsOf | backend/routes/games.js:133 | `Review.find({ game })`: exactly the stored reviews of that game |
| ReviewModel.Upserted | backend/routes/games.js:126-130 | The keyed upsert: the store grows by one exactly when the pair had no review, every other pair's review is untouched, and the written review, title trimmed, is stored |
| ReviewModel.UpsertKeepsOnePerPair | backend/models/Review.js:32 | The upsert keeps at most one review per (game, user) pair |
| ReviewModel.UpsertStoresOne | backend/routes/games.js:126-130 | After the upsert the pair's one review is exactly the one just written |
| ReviewModel.ResubmitOverwrites | backend/routes/games.js:126-130 | A second submission for the pair leaves the store as if only the second had been made |
| ReviewModel.ReviewCollection.FindOneAndUpsert | backend/routes/games.js:126-130 | Stores the upsert and answers with the written review; one review per pair is kept |
| ReportModel.NewReport | backend/models/Report.js:3-33 | A new report: accepted exactly when the type and reason are in their enums, refId is given and the trimmed comment has at most 500 characters; it is stored as `pending` with the comment trimmed |
| ReportModel.ReportIndex | backend/routes/admin.js:123 | The position of the report with that id, or none |
| ReportModel.WithStatus | backend/routes/admin.js:123 | Only the status of the report with that id changes |
| ReportModel.PendingCount | backend/routes/admin.js:96 | `countDocuments({ status: 'pending' })`, at most the number of reports |
| ReportModel.PendingCountAppend | backend/routes/admin.js:96 | A new report raises the pending count by one exactly when it is pending |
| ReportModel.PendingCountWithStatus | backend/routes/admin.js:96 | A status change moves that one report into or out of the pending count |
| ReportModel.ReportCollection.Create | backend/routes/reports.js:19-25 | Appends the created report under a fresh id, or stores nothing |
| ReportModel.ReportCollection.FindByIdAndSetStatus | backend/routes/admin.js:123 | Sets the status of the report with that id and answers with it; nothing when there is none |
| CommunityPostModel.NewPost | backend/models/CommunityPost.js:3-24 | A new post is accepted exactly when the trimmed title is non-empty with at most 150 characters and the content is non-empty with at most 2000 |
| CommunityPostModel.AppendKeepsValid | backend/models/CommunityPost.js:14-24 | Adding a valid post under the next id keeps the store valid |
| CommunityPostModel.PostCollection.Create | backend/routes/games.js:95-100 | Appends the created post under a fresh id, or stores nothing; every stored post is valid |
| Accounts.UserIndex | backend/routes/users.js:87 | `findById` on users: the position of the user, or none |
| Accounts.NotificationCollection.InsertMany | backend/routes/notifications.js:14-16 | `insertMany` appends the batch after the existing notifications and counts it |
| GamesRoutes.EffectiveLimit | backend/routes/games.js:32 | `parseInt(limit) \|\| 50`: 50 when the limit is missing, not a number or 0; otherwise its absolute value, as the store reads a negative limit |
| GamesRoutes.ListGames | backend/routes/games.js:10-38 | The query built field by field selects exactly the admitted games: `upcoming='true'` only upcoming, `'false'` only released, anything else no filter; exact category; platform membership. The answer holds the newest of them, at most the limit |
| GamesRoutes.Trending | backend/routes/games.js:41-50 | At most ten games: exactly as many as there are trending released games, up to ten |
| GamesRoutes.TrendingOrdered | backend/routes/games.js:44 | The trending list is ordered by average, highest first |
| GamesRoutes.TrendingFromEligible | backend/routes/games.js:43 | Every game in the trending list is stored, trending and released |
| GamesRoutes.TrendingKeepsBest | backend/routes/games.js:44-45 | No eligible game left out of the list has a higher average than one in it |
| GamesRoutes.Upcoming | backend/routes/games.js:53-61 | Exactly the upcoming games, as a permutation, earliest release first |
| GamesRoutes.GameByIdentifier | backend/routes/games.js:109-120 | A stored game whose slug matches, or whose id matches when the identifier is an id; `Game not found` exactly when no game does |
| GamesRoutes.GameReviews | backend/routes/games.js:64-73 | Exactly the game's reviews, as a permutation, newest first: position `k` holds the `k`-th review from the end of store order |
| GamesRoutes.PostsOf | backend/routes/games.js:78 | Exactly the posts about that game: every result is one, and every stored post about the game is in the result |
| GamesRoutes.GamePosts | backend/routes/games.js:76-86 | The game's fifty newest posts, newest first |
| GamesRoutes.PostOutcome | backend/routes/games.js:89-106 | A title or content that is missing or empty gives `Title and content are required` and stores nothing; otherwise the outcome is exactly the validated post with both trimmed, accepted exactly when both trimmed texts are non-empty and within 150 and 2000 characters |
| GamesRoutes.BlankTitleRejectedByStore | backend/routes/games.js:92-100 | A whitespace-only title passes the route's check but fails the schema's required title |
| GamesRoutes.CreateCommunityPost | backend/routes/games.js:89-106 | Answers the post outcome and appends exactly the accepted post |
| GamesRoutes.SumConcat | backend/routes/games.js:135 | The rating sum of two runs of reviews is the sum of their sums |
| GamesRoutes.AverageTenths | backend/routes/games.js:138 | `Math.round(sum / count * 10)` on the exact quotient: the whole number of tenths nearest the mean, halves rounded up |
| GamesRoutes.Aggregate | backend/routes/games.js:133-140 | The count is the number of the game's reviews; the average is 0 with none, else the rounded mean of their ratings |
| GamesRoutes.UpsertLeavesOtherGames | backend/routes/games.js:126-133 | A submission leaves every other game's reviews exactly as they were |
| GamesRoutes.UpsertCount | backend/routes/games.js:126-139 | The game's review count grows by one on a first submission and not on a resubmission |
| GamesRoutes.UpsertSum | backend/routes/games.js:126-135 | The rating sum gains the new rating and, on a resubmission, loses the replaced one |
| GamesRoutes.SumWithin | backend/routes/games.js:135 | With every rating between `lo` and `hi`, the sum lies between count·lo and count·hi |
| GamesRoutes.RoundedMeanWithin | backend/routes/games.js:134-138 | The rounded mean of values between `lo` and `hi` lies between `10·lo` and `10·hi` tenths |
| GamesRoutes.AverageWithin | backend/routes/games.js:134-138 | With at least one review, and every rating of the game between `lo` and `hi`, the aggregate average lies between `10·lo` and `10·hi` tenths |
| GamesRoutes.AverageOnScale | backend/models/Review.js:14-19 | Ratings on the one-to-five scale give an average between 1.0 and 5.0 |
| GamesRoutes.SubmitKeepsRatingsInSync | backend/routes/games.js:123-146 | If every game carried the aggregate of its reviews before a submission, every game does after it |
| GamesRoutes.RatingUpdateKeepsSlugFree | backend/routes/games.js:137-140 | The rating update of an existing game cannot hit the unique slug index |
| GamesRoutes.SubmitReview | backend/routes/games.js:123-146 | Upserts the review, then writes the game's aggregate recomputed from all its reviews; only that game's rating changes; an unknown game is left as is and the review is still answered |
| GamesRoutes.OneGameAggregate | backend/routes/games.js:133 | When every review is about the game, the aggregate is over all of them |
| GamesRoutes.FirstSubmission | backend/routes/games.js:123-146 | A first rating of 4 gives 4.0 over one review |
| GamesRoutes.SecondSubmission | backend/routes/games.js:123-146 | A second user's rating of 2 gives 3.0 over two reviews |
| GamesRoutes.Resubmission | backend/routes/games.js:123-146 | The first user changing to 5 replaces their review and gives 3.5 over two reviews |
| GamesRoutes.RatingWalkthrough | backend/routes/games.js:123-146 | The sequence 4, 2, then 5 by the first user gives 4.0 (1), 3.0 (2), 3.5 (2) |
| UsersRoutes.IndexOf | backend/routes/users.js:133 | `indexOf`: the first position holding the id, or none exactly when the id is absent |
| UsersRoutes.Toggled | backend/routes/users.js:133-139 | The length changes by exactly one: down when the id was present, up when absent; an absent id is pushed at the end |
| UsersRoutes.OtherThan | backend/routes/users.js:136-138 | The ids other than the toggled one: it is absent, every result is from the list, and every other id of the list is kept |
| UsersRoutes.OtherThanSplits | backend/routes/users.js:136-138 | The filter keeps order: it splits over concatenation, and one id is kept exactly when it is not the toggled one |
| UsersRoutes.ToggleFlips | backend/routes/users.js:133-139 | In a duplicate-free list the toggle flips membership |
| UsersRoutes.ToggleRemovesFirstOnly | backend/routes/users.js:135-138 | An absent id is added; of a present id exactly the first occurrence is spliced out (the result is `s[..i] + s[i+1..]` for the first `i` holding it), so it stays exactly when it occurred twice or more |
| UsersRoutes.ToggleKeepsOthers | backend/routes/users.js:136-138 | Every other id is kept, in the same relative order |
| UsersRoutes.ToggleKeepsNoDup | backend/routes/users.js:133-138 | The toggle never creates a duplicate in a duplicate-free list |
| UsersRoutes.ToggleTwiceAbsent | backend/routes/users.js:133-139 | Toggling an absent id twice restores the list exactly |
| UsersRoutes.ToggleTwicePresent | backend/routes/users.js:133-139 | Toggling a present id twice moves it to the end |
| UsersRoutes.ToggleTwiceSameSet | backend/routes/users.js:133-139 | Toggling twice restores the set of bookmarked ids |
| UsersRoutes.ToggleBookmark | backend/routes/users.js:130-148 | Saves the toggled list on the signed-in user and answers with it; a user that no longer exists gives a server error and no change |
| UsersRoutes.ApplyProfile | backend/routes/users.js:87 | Applying the update keeps the id and the bookmarks |
| UsersRoutes.UsernameHolder | backend/routes/users.js:80 | Finds a user other than the caller that holds the username, exactly when one exists |
| UsersRoutes.EmailHolder | backend/routes/users.js:83 | Finds a user other than the caller that holds the email, exactly when one exists |
| UsersRoutes.ProfileOutcome | backend/routes/users.js:70-93 | `Username already taken` exactly when a non-empty username, trimmed, is held by another user; then `Email already in use` likewise for the lower-cased, trimmed email; an error exactly when one of those conflicts exists; a missing user gives a null body; otherwise the patched user |
| UsersRoutes.PatchedProfileUnique | backend/routes/users.js:80-85 | After a patch that goes through, no other user holds the username or email it named; one's own current value is no conflict |
| UsersRoutes.ProfilePatchFields | backend/routes/users.js:72-78 | Fields absent from the body are kept; the username is trimmed; the email is lower-cased and trimmed, with no upper-case left; a whitespace-only avatar becomes null, another is trimmed |
| UsersRoutes.BuildUpdate | backend/routes/users.js:73-78 | The update object filled key by key is the normalised body |
| UsersRoutes.PatchProfile | backend/routes/users.js:70-93 | Answers the profile outcome; writes the patched user only on success, and nothing on a conflict |
| UsersRoutes.PasswordOutcome | backend/routes/users.js:96-116 | Missing fields, then a new password under 6 characters, then the credential check, in that order, each with its message |
| UsersRoutes.PasswordInputChecksFirst | backend/routes/users.js:99-104 | When an input check fails, the stored user and password make no difference to the answer |
| UsersRoutes.Owned | backend/routes/users.js:153 | Exactly the caller's notifications |
| UsersRoutes.Inbox | backend/routes/users.js:151-161 | The caller's fifty newest notifications, newest first |
| UsersRoutes.OwnedIndex | backend/routes/users.js:166-167 | The caller's notification with that id, or none exactly when the caller has none with it |
| UsersRoutes.MarkedRead | backend/routes/users.js:166-170 | Only the caller's notification with that id is marked read; everything else is untouched |
| UsersRoutes.MarkReadIdempotent | backend/routes/users.js:166-171 | Marking read again changes nothing more and finds the same notification |
| UsersRoutes.MarkReadOwnerOnly | backend/routes/users.js:166-171 | Another user's notification is never found and never changed, whoever asks |
| UsersRoutes.MarkRead | backend/routes/users.js:164-176 | Marks the caller's notification read and answers with it; any other id answers `Not found` and changes nothing |
| AdminRoutes.UpdateGame | backend/routes/admin.js:32-40 | `Game not found` with no change exactly for an unknown id; a duplicate slug error exactly when the updated slug is held by another game; otherwise the updated game |
| AdminRoutes.DeleteGame | backend/routes/admin.js:42-49 | Removes the game and always answers `Game deleted` |
| AdminRoutes.UpdateNews | backend/routes/admin.js:70-78 | `News not found` with no change exactly for an unknown id; a duplicate slug error exactly when the updated slug is held by another article; otherwise the updated article |
| AdminRoutes.DeleteNews | backend/routes/admin.js:80-87 | Removes the article and always answers `News deleted` |
| AdminRoutes.StatsOf | backend/routes/admin.js:90-102 | The three collection sizes, and a pending count equal to the number of positions holding a pending report |
| AdminRoutes.PendingCountIsIndexCount | backend/routes/admin.js:96 | The pending count equals the number of stored reports whose status is `pending`, counted by position |
| AdminRoutes.ListReports | backend/routes/admin.js:105-114 | Every report, as a permutation, newest first |
| AdminRoutes.ListReportsNewestFirst | backend/routes/admin.js:107-109 | The list is in strictly decreasing id (creation) order |
| AdminRoutes.StatusOutcome | backend/routes/admin.js:117-129 | `Invalid status` exactly when the status is outside the four, checked first; then `Report not found` exactly for an unknown id; otherwise the report with only its status replaced, from any status to any |
| AdminRoutes.UpdateReportStatus | backend/routes/admin.js:117-129 | Answers the status outcome, writes the status only on success, and keeps every stored report valid |
| AdminRoutes.StatusIdempotent | backend/routes/admin.js:123 | Setting the same status again changes nothing more and answers the same report |
| AdminRoutes.StatusKeepsValid | backend/models/Report.js:28-32 | A valid status update keeps every report within the schema |
| ReportsRoutes.FirstFailure | backend/routes/reports.js:10-18 | Missing fields first, then the type, then the reason: each message exactly when the earlier checks pass and that one fails |
| ReportsRoutes.CommentOrAbsent | backend/routes/reports.js:24 | `comment \|\| undefined`: an empty or missing comment is absent, another comment is kept |
| ReportsRoutes.SubmitOutcome | backend/routes/reports.js:7-30 | The first failing check decides the error; otherwise the report is created as `pending` by the caller with the given type, refId and reason, and rejected only by the comment bound |
| ReportsRoutes.EmptyCommentAbsent | backend/routes/reports.js:24 | An empty comment is stored as absent |
| ReportsRoutes.SubmitReport | backend/routes/reports.js:7-30 | Adds exactly the one new report on success and nothing otherwise; the pending count rises by one exactly on success; stored reports stay valid; the referenced review or post is not looked up |
| NotificationsRoutes.Recipients | backend/routes/notifications.js:11-13 | `new_release` selects users with new-release notifications on, any other type users with update notifications on, both directions |
| NotificationsRoutes.RecipientsSplits | backend/routes/notifications.js:11-13 | The selection keeps store order: it splits over concatenation, and one user is a recipient exactly when selected |
| NotificationsRoutes.FanOut | backend/routes/notifications.js:15 | One unread notification per recipient, each with the same title, message, type and related game |
| NotificationsRoutes.Broadcast | backend/routes/notifications.js:8-21 | Only appends the fan-out; `created` is the number of selected users |
| NotificationsRoutes.OnePerSelectedUser | backend/routes/notifications.js:11-16 | With distinct user ids, every selected user gets exactly one notification and no unselected user gets any |
| NotificationsRoutes.BroadcastWalkthrough | backend/routes/notifications.js:11-17 | Of three users with two opted in, a `new_release` broadcast creates two notifications, for those two |

## Left out

- The text search (`backend/routes/games.js:21-26`) is a user-supplied regular expression. It is the parameter `hit` of `GamesRoutes.ListGames`.
- Sort keys other than the default `-createdAt` in the catalogue listing (`backend/routes/games.js:31`) are not modelled. The listing is newest first.
- `populate` is not modelled: the routes answer with ids, not joined documents. `backend/routes/users.js:142-144` drops bookmarks whose game no longer exists; the model keeps them.
- Malformed ids are not modelled. Ids are natural numbers, so the store's cast errors do not arise. Whether `/games/:identifier` is an id is the parameter `asId` of `GamesRoutes.GameByIdentifier`.
- ReportModel.NewReport: does not reject a `refId` that is not an object id, because ids are abstract here. Any non-empty text is accepted.
- Review ratings are whole numbers (`rating: int`). The schema (`backend/models/Review.js:14-19`) types the rating as a JavaScript Number, so a fractional rating such as 4.5 passes its 1..5 check; such ratings and their averages are not modelled.
- GamesRoutes.AverageTenths: uses exact tenths, not floating point. Halves that floats round differently are outside the model.
- GamesRoutes.Trending: the order among games with equal averages is not stated; the store leaves it unspecified, and no contract says which of them comes first.
- GamesRoutes.Upcoming: the order among games with equal release dates is not stated, for the same reason.
- GamesRoutes.EffectiveLimit: takes the result of `parseInt` as its input. The parse of the query string is not modelled.
- Text.Lower: lower-cases ASCII letters only. JavaScript's Unicode case mapping is not modelled.
- Lengths (`maxlength`, the 6-character password minimum) count characters. JavaScript counts UTF-16 code units.
- ReviewModel.Upserted: writes the body's `title` and `content` even when absent. Whether the store strips absent keys from an update depends on the library version.
- GamesRoutes.SubmitReview: takes the body's `rating` to be present and a whole number. `backend/routes/games.js:125-130` does not check it, and the upsert runs without validators, so a body without a rating stores a review with a missing or null rating. The sum at `backend/routes/games.js:134-136` then gives NaN, and the number cast of `Game.findByIdAndUpdate` fails with a 500 after the review is stored and with the game's `{average, count}` left stale. Depending on the library version the sum may instead count a null as 0. `GamesRoutes.SubmitKeepsRatingsInSync` and the in-sync clause of `GamesRoutes.SubmitReview` hold only for bodies that carry a numeric rating.
- The upsert runs without validators, so a stored review need not satisfy `ReviewModel.ValidReview`. The one-to-five scale is a precondition of `GamesRoutes.AverageOnScale`.
- Request bodies are typed: a username, title or comment that is not a string would crash `.trim()`. The model does not represent such bodies.
- The User and Notification schemas are not part of this model. No unique index on username or email, and no field constraint from them, is modelled.
- `PATCH /users/preferences` (`backend/routes/users.js:179-191`) is not modelled. It writes possibly-undefined keys, and their effect depends on the library version.
- The password hash, `comparePassword` and saving the new password are not modelled (crypto). The credential check is the parameter `matches` of `UsersRoutes.PasswordOutcome`.
- The avatar upload (`backend/routes/users.js:11-55`) is not modelled: file I/O.
- Authentication, the administrator check and JWT issuance (`backend/routes/auth.js`) are not modelled. Callers are identified by the id passed in.
- The admin listings of all games and all news (`backend/routes/admin.js:14-21`, `52-59`), the profile and bookmark reads (`backend/routes/users.js:57-67`, `119-127`) and the news routes are not modelled, as outside the modelled core.
- Game fields the rules never read are not modelled: developer, publisher, cover image, screenshots, trailers, recent update. Neither are the news image and source. Timestamps are implied by store order.
- Concurrency is not modelled: the store is sequential, so the lost-update race between two rating recomputations is outside the model.
