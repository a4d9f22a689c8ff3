/**
 * The rating ledger: the `playerRatings` table, the guarded insert that
 * `submitRating` performs on it, and the `getPlayersToRate` projection that
 * tells a rater which match participants they have already rated.
 */
module Ratings {
  import opened Schema

  /** What a caller passes to `submitRating`: the stored record minus the rater. */
  datatype RatingArgs = RatingArgs(
    matchId: MatchId,
    ratedUserId: UserId,
    suggestion: Option<string>,
    speedGiven: Option<Grade>,
    defenseGiven: Option<Grade>,
    offenseGiven: Option<Grade>,
    shootingGiven: Option<Grade>,
    dribblingGiven: Option<Grade>,
    passingGiven: Option<Grade>)

  /** The inserted row: the arguments spread, with the rater set to the caller. */
  function RecordOf(args: RatingArgs, rater: UserId): Rating
  {
    Rating(args.matchId, rater, args.ratedUserId, args.suggestion,
           args.speedGiven, args.defenseGiven, args.offenseGiven,
           args.shootingGiven, args.dribblingGiven, args.passingGiven)
  }

  /** One row of the `getPlayersToRate` answer. */
  datatype PlayerToRate = PlayerToRate(userId: UserId, alreadyRated: bool, name: string, position: string)

  predicate SameTriple(x: Rating, y: Rating)
  {
    x.matchId == y.matchId && x.raterUserId == y.raterUserId && x.ratedUserId == y.ratedUserId
  }

  /** The ledger holds at most one rating per (match, rater, rated) triple, and no self-rating. */
  ghost predicate LedgerInvariant(rs: seq<Rating>)
  {
    && (forall i, j | 0 <= i < j < |rs| :: !SameTriple(rs[i], rs[j]))
    && (forall i | 0 <= i < |rs| :: rs[i].raterUserId != rs[i].ratedUserId)
  }

  /** `rater` has rated `rated` in match `m`. */
  ghost predicate HasRated(rs: seq<Rating>, m: MatchId, rater: UserId, rated: UserId)
  {
    exists x :: x in rs && x.matchId == m && x.raterUserId == rater && x.ratedUserId == rated
  }

  /** The `by_match_and_rater` index: the ratings `rater` gave in match `m`, in ledger order. */
  function ByMatchAndRater(rs: seq<Rating>, m: MatchId, rater: UserId): (r: seq<Rating>)
    ensures forall x :: x in r <==> x in rs && x.matchId == m && x.raterUserId == rater
  {
    if rs == [] then []
    else
      var rest := ByMatchAndRater(rs[1..], m, rater);
      if rs[0].matchId == m && rs[0].raterUserId == rater then [rs[0]] + rest else rest
  }

  /** The `by_ratedUser` index: the ratings given to `u`, in ledger order. */
  function ByRatedUser(rs: seq<Rating>, u: UserId): (r: seq<Rating>)
    ensures |r| <= |rs|
    ensures forall x :: x in r <==> x in rs && x.ratedUserId == u
    ensures forall x :: multiset(r)[x] == if x.ratedUserId == u then multiset(rs)[x] else 0
  {
    if rs == [] then []
    else
      var rest := ByRatedUser(rs[1..], u);
      assert rs == [rs[0]] + rs[1..];
      if rs[0].ratedUserId == u then [rs[0]] + rest else rest
  }

  /** `rs.some((r) => r.ratedUserId === rated)`. */
  function AnyRates(rs: seq<Rating>, rated: UserId): (b: bool)
    ensures b <==> exists x :: x in rs && x.ratedUserId == rated
  {
    if rs == [] then false
    else rs[0].ratedUserId == rated || AnyRates(rs[1..], rated)
  }

  /** Looking in the rater's slice of the index finds exactly the ratings of the ledger. */
  lemma IndexedCheckIsHasRated(rs: seq<Rating>, m: MatchId, rater: UserId, rated: UserId)
    ensures AnyRates(ByMatchAndRater(rs, m, rater), rated) <==> HasRated(rs, m, rater, rated)
  {
    var mine := ByMatchAndRater(rs, m, rater);
    if HasRated(rs, m, rater, rated) {
      var x :| x in rs && x.matchId == m && x.raterUserId == rater && x.ratedUserId == rated;
      assert x in mine;
    }
  }

  /** The user ids of the `participants` rows of match `m`, in table order. */
  function PlayerIds(participants: seq<Participant>, m: MatchId): (ids: seq<UserId>)
    ensures |ids| <= |participants|
    ensures forall u :: u in ids <==> Participant(m, u) in participants
  {
    if participants == [] then []
    else
      var rest := PlayerIds(participants[1..], m);
      if participants[0].matchId == m then [participants[0].userId] + rest else rest
  }

  /** `ids.filter((userId) => userId !== u)`. */
  function Without(ids: seq<UserId>, u: UserId): (r: seq<UserId>)
    ensures u !in r
    ensures multiset(r) == multiset(ids)[u := 0]
  {
    if ids == [] then []
    else
      var rest := Without(ids[1..], u);
      assert ids == [ids[0]] + ids[1..];
      if ids[0] == u then rest else [ids[0]] + rest
  }

  /** The `.map` step: one entry per id, with the display defaults for a missing profile. */
  function Entries(ids: seq<UserId>, mine: seq<Rating>, profiles: seq<Profile>): (r: seq<PlayerToRate>)
    ensures |r| == |ids|
    ensures forall i | 0 <= i < |r| :: r[i].userId == ids[i] && r[i].alreadyRated == AnyRates(mine, ids[i])
    ensures forall i | 0 <= i < |r| ::
              match FindProfile(profiles, ids[i])
              case None => r[i].name == "Egoist" && r[i].position == "Midfield"
              case Some(k) =>
                r[i].name == profiles[k].displayName && r[i].position == PositionName(profiles[k].favoritePosition)
  {
    if ids == [] then []
    else
      var u := ids[0];
      var entry :=
        match FindProfile(profiles, u)
        case None => PlayerToRate(u, AnyRates(mine, u), "Egoist", "Midfield")
        case Some(k) =>
          PlayerToRate(u, AnyRates(mine, u), profiles[k].displayName, PositionName(profiles[k].favoritePosition));
      [entry] + Entries(ids[1..], mine, profiles)
  }

  /** The `playerRatings` table. */
  class RatingLedger {
    var ratings: seq<Rating>

    ghost predicate Valid()
      reads this
    {
      LedgerInvariant(ratings)
    }

    constructor ()
      ensures Valid() && ratings == []
    {
      ratings := [];
    }

    /**
     * `submitRating`: the caller (absent when not signed in) rates
     * `args.ratedUserId` in `args.matchId`. Inserts one row, or fails and
     * leaves the ledger as it was. It neither checks that the match exists
     * or that the rated user took part, nor recomputes any aggregate.
     */
    method SubmitRating(caller: Option<UserId>, args: RatingArgs) returns (res: Outcome)
      requires Valid()
      modifies this
      ensures Valid()
      ensures caller.None? ==> res == Fail(Unauthenticated) && ratings == old(ratings)
      ensures caller.Some? && caller.value == args.ratedUserId ==>
                res == Fail(SelfRating) && ratings == old(ratings)
      ensures caller.Some? && caller.value != args.ratedUserId
                && HasRated(old(ratings), args.matchId, caller.value, args.ratedUserId) ==>
                res == Fail(AlreadyRated) && ratings == old(ratings)
      ensures caller.Some? && caller.value != args.ratedUserId
                && !HasRated(old(ratings), args.matchId, caller.value, args.ratedUserId) ==>
                res == Pass && ratings == old(ratings) + [RecordOf(args, caller.value)]
    {
      if caller.None? {
        return Fail(Unauthenticated);
      }
      var rater := caller.value;
      if rater == args.ratedUserId {
        return Fail(SelfRating);
      }
      var mine := ByMatchAndRater(ratings, args.matchId, rater);
      var alreadyRated := AnyRates(mine, args.ratedUserId);
      IndexedCheckIsHasRated(ratings, args.matchId, rater, args.ratedUserId);
      if alreadyRated {
        return Fail(AlreadyRated);
      }
      var row := RecordOf(args, rater);
      forall i | 0 <= i < |ratings|
        ensures !SameTriple(ratings[i], row)
      {
        assert ratings[i] in ratings;
      }
      ratings := ratings + [row];
      res := Pass;
    }

    /**
     * `getPlayersToRate`: for the caller and a match, the other participants
     * in participant order, each flagged with whether the caller has already
     * rated them there. `matches` holds the ids of existing matches.
     */
    function PlayersToRate(caller: Option<UserId>, matchId: MatchId, matches: set<MatchId>,
                           participants: seq<Participant>, profiles: seq<Profile>): (r: seq<PlayerToRate>)
      requires UniqueOwners(profiles)
      reads this
      ensures caller.None? || matchId !in matches ==> r == []
      ensures caller.Some? && matchId in matches ==>
                var others := Without(PlayerIds(participants, matchId), caller.value);
                && |r| == |others|
                && forall i | 0 <= i < |r| ::
                     && r[i].userId == others[i]
                     && r[i].userId != caller.value
                     && Participant(matchId, r[i].userId) in participants
                     && (r[i].alreadyRated <==> HasRated(ratings, matchId, caller.value, r[i].userId))
                     && match FindProfile(profiles, r[i].userId)
                        case None => r[i].name == "Egoist" && r[i].position == "Midfield"
                        case Some(k) =>
                          r[i].name == profiles[k].displayName && r[i].position == PositionName(profiles[k].favoritePosition)
    {
      if caller.None? || matchId !in matches then []
      else
        var rater := caller.value;
        var mine := ByMatchAndRater(ratings, matchId, rater);
        var others := Without(PlayerIds(participants, matchId), rater);
        var r := Entries(others, mine, profiles);
        assert forall i | 0 <= i < |r| :: r[i].userId in others;
        assert forall u | u in others :: u in PlayerIds(participants, matchId) by {
          forall u | u in others ensures u in PlayerIds(participants, matchId) {
            assert u in multiset(others);
          }
        }
        forall i | 0 <= i < |r|
          ensures r[i].alreadyRated <==> HasRated(ratings, matchId, rater, r[i].userId)
        {
          IndexedCheckIsHasRated(ratings, matchId, rater, r[i].userId);
        }
        r
    }
  }

  /** Rating the same player twice in one match is refused, whatever grades the second call gives. */
  method SubmitTwiceRefused(ledger: RatingLedger, rater: UserId, first: RatingArgs, second: RatingArgs)
    returns (r1: Outcome, r2: Outcome)
    requires ledger.Valid()
    requires rater != first.ratedUserId
    requires !HasRated(ledger.ratings, first.matchId, rater, first.ratedUserId)
    requires second.matchId == first.matchId && second.ratedUserId == first.ratedUserId
    modifies ledger
    ensures r1 == Pass && r2 == Fail(AlreadyRated)
    ensures ledger.ratings == old(ledger.ratings) + [RecordOf(first, rater)]
  {
    r1 := ledger.SubmitRating(Some(rater), first);
    assert RecordOf(first, rater) in ledger.ratings;
    r2 := ledger.SubmitRating(Some(rater), second);
  }
}
