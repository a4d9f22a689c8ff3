/**
 * The tables and value types shared by the rating ledger, the profile table
 * and the stat display: user and match ids, letter grades, the stored rating
 * record, match participants, profiles with their aggregated stats, and the
 * error kinds the mutations report.
 */
module Schema {

  /** Document ids of the `users` and `matches` tables, kept opaque. */
  type UserId = nat
  type MatchId = nat

  datatype Option<+T> = None | Some(value: T)

  /** The five letter grades a rater may give an attribute. */
  datatype Grade = S | A | B | C | D

  /** The one-letter text of a grade, as stored and as displayed. */
  function Letter(g: Grade): string
  {
    match g
    case S => "S"
    case A => "A"
    case B => "B"
    case C => "C"
    case D => "D"
  }

  /** The six rated attributes. */
  datatype Field = Speed | Defense | Offense | Passing | Shooting | Dribbling

  /** The attributes in the order the aggregation walks them. */
  const Fields: seq<Field> := [Speed, Defense, Offense, Passing, Shooting, Dribbling]

  /** A row of the `playerRatings` table. Every grade is optional: a rater may skip attributes. */
  datatype Rating = Rating(
    matchId: MatchId,
    raterUserId: UserId,
    ratedUserId: UserId,
    suggestion: Option<string>,
    speedGiven: Option<Grade>,
    defenseGiven: Option<Grade>,
    offenseGiven: Option<Grade>,
    shootingGiven: Option<Grade>,
    dribblingGiven: Option<Grade>,
    passingGiven: Option<Grade>)

  /** The grade a rating gives to attribute `f`, if any (the source's `r[f]`). */
  function Given(r: Rating, f: Field): Option<Grade>
  {
    match f
    case Speed => r.speedGiven
    case Defense => r.defenseGiven
    case Offense => r.offenseGiven
    case Passing => r.passingGiven
    case Shooting => r.shootingGiven
    case Dribbling => r.dribblingGiven
  }

  /** A row of the `participants` table: `userId` takes part in `matchId`. */
  datatype Participant = Participant(matchId: MatchId, userId: UserId)

  datatype Position = Goalkeeper | Defender | Midfielder | Forward

  function PositionName(p: Position): string
  {
    match p
    case Goalkeeper => "goalkeeper"
    case Defender => "defender"
    case Midfielder => "midfielder"
    case Forward => "forward"
  }

  /**
   * The derived fields of a profile: six attribute averages, their mean and
   * the number of ratings. Only the aggregation writes them, always all eight.
   */
  datatype Stats = Stats(
    speed: real,
    defense: real,
    offense: real,
    passing: real,
    shooting: real,
    dribbling: real,
    overallScore: real,
    ratingsCount: nat)

  /** The average stored for attribute `f`. */
  function StatOf(st: Stats, f: Field): real
  {
    match f
    case Speed => st.speed
    case Defense => st.defense
    case Offense => st.offense
    case Passing => st.passing
    case Shooting => st.shooting
    case Dribbling => st.dribbling
  }

  /** A row of the `userProfiles` table; `stats` is absent until the first aggregation. */
  datatype Profile = Profile(
    userId: UserId,
    displayName: string,
    bio: string,
    favoritePosition: Position,
    skillLevel: string,
    country: string,
    profileImageUrl: Option<string>,
    stats: Option<Stats>)

  /** The `by_userId` index of `userProfiles`: the position of the row whose owner is `u`. */
  function FindProfile(rows: seq<Profile>, u: UserId): (r: Option<nat>)
    ensures r.Some? ==> r.value < |rows| && rows[r.value].userId == u
    ensures r.None? ==> forall k | 0 <= k < |rows| :: rows[k].userId != u
  {
    if rows == [] then None
    else if rows[0].userId == u then Some(0)
    else
      match FindProfile(rows[1..], u)
      case None => None
      case Some(k) => Some(k + 1)
  }

  /** At most one profile per user, which is what lets the index lookup be `.unique()`. */
  ghost predicate UniqueOwners(rows: seq<Profile>)
  {
    forall i, j | 0 <= i < j < |rows| :: rows[i].userId != rows[j].userId
  }

  /** Two profile tables whose rows have the same owners, position by position. */
  ghost predicate SameOwners(rows: seq<Profile>, rows': seq<Profile>)
  {
    |rows| == |rows'| && forall k | 0 <= k < |rows| :: rows[k].userId == rows'[k].userId
  }

  /** The lookup depends only on the owners of the rows. */
  lemma {:induction false} FindProfileOwnersOnly(rows: seq<Profile>, rows': seq<Profile>, u: UserId)
    requires SameOwners(rows, rows')
    ensures FindProfile(rows, u) == FindProfile(rows', u)
  {
    if rows != [] && rows[0].userId != u {
      assert SameOwners(rows[1..], rows'[1..]);
      FindProfileOwnersOnly(rows[1..], rows'[1..], u);
    }
  }

  /** The failures the mutations throw, one per distinct `Error` message of the source. */
  datatype Error =
    | Unauthenticated
    | SelfRating
    | AlreadyRated
    | ProfileExists
    | ProfileNotFound

  /** The result of a mutation that returns nothing on success. */
  datatype Outcome = Pass | Fail(error: Error)
}
