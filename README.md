# Player ratings and profiles of a pickup-football app, in Dafny

This project models the backend core of a social app for informal football
matches. After a match, players grade each other's six attributes (speed,
defense, offense, passing, shooting, dribbling) with the letters S, A, B, C
and D. These ratings are kept in a ledger. An internal mutation turns all
the ratings a user has received into per-attribute averages, an overall
score and a rating count, and writes them into that user's profile. The
profile page draws those numbers on a hexagon, with a letter beside each.

Four modules:

- `Schema` (`schema.dfy`): ids, grades, the six attributes, the rows of the
  `playerRatings`, `participants` and `userProfiles` tables, the
  `by_userId` profile lookup, and the error kinds.
- `Ratings` (`ratings.dfy`), from `convex/ratings.ts`. The class
  `RatingLedger` holds the `playerRatings` table. `SubmitRating` is the
  guarded insert. `PlayersToRate` is the read-only `getPlayersToRate`
  projection.
- `UserProfiles` (`user_profiles.dfy`), from `convex/userProfiles.ts`. It
  has the letter-to-score map and the aggregation, written twice: as the
  function `Aggregate` over the ratings, using exact `real` averages, and as
  the method `ComputeAggregate`, which runs the source's `sums`/`counts`
  loops and is proved equal to `Aggregate`. The class `ProfileTable` holds
  the `userProfiles` table, with create, patch, picture and
  aggregated-stats mutations.
- `StatHexagon` (`stat_hexagon.dfy`), from
  `src/components/StatHexagon.tsx`: `valueToGrade` and the clamp to
  [0, 100].

The signed-in caller is an explicit `Option<UserId>` parameter; `None`
means not signed in. Database lookups by index are functions over the table
rows, and they keep table order.

Two behaviours of the code are worth stating, because one might expect
otherwise. The model follows the code:

- `submitRating` does not recompute the rated user's stats
  (`convex/ratings.ts:84-88`). Recomputation is a separate internal
  mutation, `UpdateAggregatedProfileStats`.
- `submitRating` throws three errors only: not signed in, self-rating, and
  already rated. `SubmitRating` fails with exactly one of these three
  `Error` kinds; the other two kinds, `ProfileExists` and
  `ProfileNotFound`, belong to the profile mutations.

The grade letters are not the same on both sides. The aggregation scores B
as 60 and C as 40. The display shows 60 as C and 40 as D. A user graded B
by everyone is therefore shown a C (`StatHexagon.ScoreThenDisplay`).

## Model

| member | source | states |
|---|---|---|
| `Schema.FindProfile` | convex/userProfiles.ts:49-53 | the `by_userId` lookup returns a row owned by the user, and returns nothing only when no row is owned by that user |
| `Ratings.ByMatchAndRater` | convex/ratings.ts:72-77 | the `by_match_and_rater` index holds exactly the ledger's ratings with that match and that rater |
| `Ratings.ByRatedUser` | convex/userProfiles.ts:126-129 | the `by_ratedUser` index holds exactly the ledger's ratings given to that user, each as many times as the ledger holds it, and no more ratings than the ledger |
| `Ratings.AnyRates` | convex/ratings.ts:79 | `some` is true exactly when some rating in the list is for the given rated user |
| `Ratings.IndexedCheckIsHasRated` | convex/ratings.ts:72-80 | searching the rater's index slice for the rated user finds a rating exactly when the ledger holds one for that (match, rater, rated) triple |
| `Ratings.RatingLedger.SubmitRating` | convex/ratings.ts:67-88 | if not signed in: fails, ledger unchanged. If rating oneself: fails, unchanged. If the triple is already rated: fails, unchanged. Otherwise appends exactly one record with the caller as rater and the other fields copied from the arguments. The ledger never holds two ratings for one triple, nor a self-rating |
| `Ratings.SubmitTwiceRefused` | convex/ratings.ts:79-82 | from any ledger where the rater has not yet rated that player in that match, a first rating is accepted and a second one is refused even with different grades; the ledger gains only the first |
| `Ratings.PlayerIds` | convex/ratings.ts:18-22 | a user is listed exactly when a `participants` row puts them in the match |
| `Ratings.Without` | convex/ratings.ts:31-32 | the filtered list leaves out the rater and keeps every other id as many times as it appeared |
| `Ratings.Entries` | convex/ratings.ts:33-46 | one entry per id, in order: the id, whether the rater's ratings include that player, and the profile's display name and position, or "Egoist" and "Midfield" when the player has no profile |
| `Ratings.RatingLedger.PlayersToRate` | convex/ratings.ts:9-52 | returns empty when not signed in or the match does not exist. Otherwise one entry per other participant, in participant order, never the rater. `alreadyRated` is true exactly when the ledger holds the rater's rating of that player in that match. Name and position come from the player's profile, or are "Egoist" and "Midfield" without one. Profiles must have unique owners, as `.unique()` demands. Reads the ledger and changes nothing |
| `UserProfiles.GradeToScore` | convex/userProfiles.ts:141-147 | every grade scores between 20 and 100 |
| `UserProfiles.GradeToScoreInjective` | convex/userProfiles.ts:141-147 | distinct grades get distinct scores |
| `UserProfiles.Aggregate` | convex/userProfiles.ts:157-186 | the stats of a rating list: each average is 0 or lies in [20, 100]. `overallScore` lies in [0, 100]. `ratingsCount` is the number of ratings, whatever attributes they give |
| `UserProfiles.AverageRange` | convex/userProfiles.ts:157-172 | an average is 0 when no rating gives the attribute, and lies in [20, 100] otherwise |
| `UserProfiles.AverageZeroIffUngraded` | convex/userProfiles.ts:157-172 | an average is 0 exactly when no rating gives that attribute |
| `UserProfiles.ScoresPermutation` | convex/userProfiles.ts:157-165 | for every attribute, the sum and the count accumulated over the ratings do not depend on their order |
| `UserProfiles.AggregateOrderIndependent` | convex/userProfiles.ts:126-186 | two orderings of the same ratings give identical stats |
| `UserProfiles.WorkedExample` | convex/userProfiles.ts:157-186 | ratings {speed S} and {speed A, defense B} give speed 90, defense 60, the other four 0, overall 25, count 2 |
| `UserProfiles.ComputeAggregate` | convex/userProfiles.ts:149-186 | the nested `sums`/`counts` loop, then the averages loop with its running `totalAvg`, produce exactly `Aggregate` of the ratings |
| `UserProfiles.ApplyPatch` | convex/userProfiles.ts:84 | each supplied field is replaced. Each field not supplied keeps its value. Owner, picture and stats never change |
| `UserProfiles.WithStats` | convex/userProfiles.ts:119-189 | only the user's own row gets new stats. When the user has no profile, nothing changes. All other fields and rows stay the same |
| `UserProfiles.WithStatsIdempotent` | convex/userProfiles.ts:189 | writing the same stats a second time leaves the table as after the first write |
| `UserProfiles.ProfileTable.CreateUserProfile` | convex/userProfiles.ts:45-56 | if not signed in: fails. If the caller already has a profile: fails. Otherwise appends the caller's new row, with no picture and no stats. At most one profile per user is kept |
| `UserProfiles.ProfileTable.UpdateUserProfile` | convex/userProfiles.ts:74-85 | if not signed in: fails. If the caller has no profile: fails. Otherwise only the caller's row changes, patched with the supplied fields |
| `UserProfiles.ProfileTable.SaveProfilePicture` | convex/userProfiles.ts:99-110 | if not signed in: fails. If the caller has no profile: fails. Otherwise only the picture of the caller's row changes, set to the storage id |
| `UserProfiles.ProfileTable.UpdateAggregatedProfileStats` | convex/userProfiles.ts:117-190 | the user's row gets the aggregate of every rating the ledger holds for them. The user has no profile: nothing is written. Nothing else changes |
| `UserProfiles.RerunWritesSameValues` | convex/userProfiles.ts:117-190 | running the aggregation twice with no new ratings leaves the table as after one run |
| `StatHexagon.ValueToGrade` | src/components/StatHexagon.tsx:12-19 | "N/A" exactly for a missing value. For a number: S from 90, A in [80, 90), B in [70, 80), C in [60, 70), D below 60. These are the legend's bands (line 121) |
| `StatHexagon.ValueToGradeMonotone` | src/components/StatHexagon.tsx:14-18 | a larger value never shows a lower letter |
| `StatHexagon.ClampStat` | src/components/StatHexagon.tsx:52-53 | the drawn value lies in [0, 100] and equals the stat when the stat is already in range. A missing stat draws as 0. Values below 0 draw as 0, values above 100 as 100 |
| `StatHexagon.ClampIdempotent` | src/components/StatHexagon.tsx:53 | clamping a clamped value changes nothing |
| `StatHexagon.ScoreThenDisplay` | src/components/StatHexagon.tsx:14-18 | the letter shown for a grade's score is S for S, A for A, C for B, D for C and D for D. It differs from the grade exactly for B and C |
| `StatHexagon.AggregateDrawnUnclamped` | src/components/StatHexagon.tsx:51-53 | the clamp never changes any of the six aggregated averages the hexagon draws |

## Left out

- `generateProfilePictureUploadUrl` (`convex/userProfiles.ts:88-95`): it only calls the storage service for an upload URL.
- `getUserProfile` and `getUserPublicProfile` are single index lookups. The model covers them as `Schema.FindProfile`.
- Authentication: `getAuthUserId` becomes the `caller` parameter.
- Matches and participants are inputs to `PlayersToRate`: the set of existing match ids and the `participants` rows. The model never writes them.
- Numbers: the source divides in floating point. The model computes averages and the overall score as exact reals. It therefore leaves out rounding, such as 200/3 not being representable.
- `ValueToGrade` and `ClampStat`: `null` and `undefined` are both `None`. `NaN` and infinities are not modelled.
- Database behaviour: transactions, concurrency between mutations and the reactive query layer are left out. So is the exception `.unique()` throws on duplicates: the profile table's `Valid()` invariant rules duplicates out, and `PlayersToRate` requires profiles with unique owners.
- Index order: indexes return rows in ledger order. `AggregateOrderIndependent` shows the aggregate does not depend on that order.
- Ids are natural numbers. The source's typed document ids and `_id` row keys are not modelled; a profile row is addressed by its position.
- The `suggestion` text of a rating is stored but never read by the core.
- The hexagon's SVG geometry (trigonometry, point strings, labels) is left out.
- The friend-request and block relationships belong to modules that are not part of this model.
