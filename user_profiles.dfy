/**
 * The `userProfiles` table: creating and patching a caller's own profile,
 * saving its picture, and the internal mutation that recomputes a user's
 * derived stats wholesale from every rating they have received.
 */
module UserProfiles {
  import opened Schema
  import Ratings

  // ---------------------------------------------------------------------
  // Grade scores and the aggregation as a function of the ratings
  // ---------------------------------------------------------------------

  /** The letter-to-score map of the aggregation. */
  function GradeToScore(g: Grade): (score: nat)
    ensures 20 <= score <= 100
  {
    match g
    case S => 100
    case A => 80
    case B => 60
    case C => 40
    case D => 20
  }

  /** Better letters score strictly higher, so the map loses no information. */
  lemma GradeToScoreInjective(g: Grade, h: Grade)
    requires GradeToScore(g) == GradeToScore(h)
    ensures g == h
  {
    match g
    case S =>
    case A =>
    case B =>
    case C =>
    case D =>
  }

  /** What one rating contributes to attribute `f`: the score of its grade, or nothing when it skips `f`. */
  function Contribution(r: Rating, f: Field): seq<nat>
  {
    match Given(r, f)
    case Some(g) => [GradeToScore(g)]
    case None => []
  }

  /** The scores of the ratings that give attribute `f`, in rating order. */
  function Scores(rs: seq<Rating>, f: Field): seq<nat>
  {
    if rs == [] then [] else Contribution(rs[0], f) + Scores(rs[1..], f)
  }

  function Sum(s: seq<nat>): nat
  {
    if s == [] then 0 else s[0] + Sum(s[1..])
  }

  /** The arithmetic mean, and 0 for no values. */
  function Mean(s: seq<nat>): real
  {
    if |s| == 0 then 0.0 else (Sum(s) as real) / (|s| as real)
  }

  /** The average of attribute `f` over only the ratings that give it. */
  function AttributeAverage(rs: seq<Rating>, f: Field): real
  {
    Mean(Scores(rs, f))
  }

  /**
   * The derived stats of a user whose ratings are `rs`: six attribute
   * averages, their unweighted mean (attributes nobody graded count as 0),
   * and the number of ratings whatever they graded.
   */
  function Aggregate(rs: seq<Rating>): (st: Stats)
    ensures forall f :: ZeroOrGradeRange(StatOf(st, f))
    ensures 0.0 <= st.overallScore <= 100.0
    ensures st.ratingsCount == |rs|
  {
    var speed := AttributeAverage(rs, Speed);
    var defense := AttributeAverage(rs, Defense);
    var offense := AttributeAverage(rs, Offense);
    var passing := AttributeAverage(rs, Passing);
    var shooting := AttributeAverage(rs, Shooting);
    var dribbling := AttributeAverage(rs, Dribbling);
    AverageRange(rs, Speed);
    AverageRange(rs, Defense);
    AverageRange(rs, Offense);
    AverageRange(rs, Passing);
    AverageRange(rs, Shooting);
    AverageRange(rs, Dribbling);
    MeanOfSixInRange(speed, defense, offense, passing, shooting, dribbling);
    Stats(speed, defense, offense, passing, shooting, dribbling,
          (speed + defense + offense + passing + shooting + dribbling) / 6.0,
          |rs|)
  }

  /** 0, for an attribute nobody graded, or a value between the lowest and the highest grade score. */
  predicate ZeroOrGradeRange(x: real)
  {
    x == 0.0 || 20.0 <= x <= 100.0
  }

  lemma MeanOfSixInRange(a: real, b: real, c: real, d: real, e: real, f: real)
    requires 0.0 <= a <= 100.0 && 0.0 <= b <= 100.0 && 0.0 <= c <= 100.0
    requires 0.0 <= d <= 100.0 && 0.0 <= e <= 100.0 && 0.0 <= f <= 100.0
    ensures 0.0 <= (a + b + c + d + e + f) / 6.0 <= 100.0
  {
  }

  lemma {:induction false} SumBounds(s: seq<nat>)
    requires forall k | 0 <= k < |s| :: 20 <= s[k] <= 100
    ensures 20 * |s| <= Sum(s) <= 100 * |s|
  {
    if s != [] {
      SumBounds(s[1..]);
    }
  }

  lemma {:induction false} SumAppend(a: seq<nat>, b: seq<nat>)
    ensures Sum(a + b) == Sum(a) + Sum(b)
  {
    if a != [] {
      assert (a + b)[1..] == a[1..] + b;
      SumAppend(a[1..], b);
    } else {
      assert a + b == b;
    }
  }

  lemma {:induction false} ScoresAppend(a: seq<Rating>, b: seq<Rating>, f: Field)
    ensures Scores(a + b, f) == Scores(a, f) + Scores(b, f)
  {
    if a != [] {
      assert (a + b)[1..] == a[1..] + b;
      ScoresAppend(a[1..], b, f);
    } else {
      assert a + b == b;
    }
  }

  /** No score for `f` exactly when no rating gives `f`. */
  lemma {:induction false} ScoresEmpty(rs: seq<Rating>, f: Field)
    ensures Scores(rs, f) == [] <==> forall k | 0 <= k < |rs| :: Given(rs[k], f).None?
  {
    if rs != [] {
      ScoresEmpty(rs[1..], f);
      assert forall k | 1 <= k < |rs| :: rs[k] == rs[1..][k - 1];
    }
  }

  /** Every score lies between the lowest and the highest grade score. */
  lemma {:induction false} ScoresInRange(rs: seq<Rating>, f: Field)
    ensures forall k | 0 <= k < |Scores(rs, f)| :: 20 <= Scores(rs, f)[k] <= 100
  {
    if rs != [] {
      ScoresInRange(rs[1..], f);
    }
  }

  /** An attribute average is 0 exactly when no rating gives the attribute. */
  lemma AverageZeroIffUngraded(rs: seq<Rating>, f: Field)
    ensures AttributeAverage(rs, f) == 0.0 <==> forall k | 0 <= k < |rs| :: Given(rs[k], f).None?
  {
    AverageRange(rs, f);
    ScoresEmpty(rs, f);
  }

  /** An attribute average is 0, or lies between the lowest and highest grade score. */
  lemma AverageRange(rs: seq<Rating>, f: Field)
    ensures Scores(rs, f) == [] ==> AttributeAverage(rs, f) == 0.0
    ensures Scores(rs, f) != [] ==> 20.0 <= AttributeAverage(rs, f) <= 100.0
    ensures ZeroOrGradeRange(AttributeAverage(rs, f))
  {
    var s := Scores(rs, f);
    if |s| > 0 {
      ScoresInRange(rs, f);
      SumBounds(s);
      QuotientBounds(Sum(s) as real, |s| as real);
    }
  }

  lemma QuotientBounds(total: real, n: real)
    requires n > 0.0 && 20.0 * n <= total <= 100.0 * n
    ensures 20.0 <= total / n <= 100.0
  {
  }

  /** Taking the same element out of two equal multisets leaves equal multisets. */
  lemma MultisetRemove<T>(x: T, t: seq<T>, before: seq<T>, after: seq<T>)
    requires multiset([x] + t) == multiset(before + [x] + after)
    ensures multiset(t) == multiset(before + after)
  {
    calc {
      multiset(t);
      multiset([x] + t) - multiset{x};
      multiset(before + [x] + after) - multiset{x};
      multiset(before) + multiset(after);
      multiset(before + after);
    }
  }

  /** Moving one rating to the front changes neither the sum nor the count of the scores. */
  lemma ScoresMoveToFront(before: seq<Rating>, x: Rating, after: seq<Rating>, f: Field)
    ensures Sum(Scores(before + [x] + after, f)) == Sum(Scores([x], f)) + Sum(Scores(before + after, f))
    ensures |Scores(before + [x] + after, f)| == |Scores([x], f)| + |Scores(before + after, f)|
  {
    ScoresAppend(before + [x], after, f);
    ScoresAppend(before, [x], f);
    ScoresAppend(before, after, f);
    SumAppend(Scores(before, f) + Scores([x], f), Scores(after, f));
    SumAppend(Scores(before, f), Scores([x], f));
    SumAppend(Scores(before, f), Scores(after, f));
  }

  /** The per-attribute sum and count do not depend on the order of the ratings. */
  lemma {:induction false} ScoresPermutation(rs: seq<Rating>, qs: seq<Rating>, f: Field)
    requires multiset(rs) == multiset(qs)
    ensures Sum(Scores(rs, f)) == Sum(Scores(qs, f)) && |Scores(rs, f)| == |Scores(qs, f)|
    decreases |rs|
  {
    if rs == [] {
      assert |qs| == |multiset(qs)| == 0;
    } else {
      var x, t := rs[0], rs[1..];
      assert rs == [x] + t;
      assert x in multiset(qs);
      var j :| 0 <= j < |qs| && qs[j] == x;
      var before, after := qs[..j], qs[j + 1..];
      assert qs == before + [x] + after;
      MultisetRemove(x, t, before, after);
      ScoresPermutation(t, before + after, f);
      ScoresMoveToFront(before, x, after, f);
      ScoresAppend([x], t, f);
      SumAppend(Scores([x], f), Scores(t, f));
    }
  }

  /** The aggregate is a function of the multiset of ratings: the index order does not matter. */
  lemma AggregateOrderIndependent(rs: seq<Rating>, qs: seq<Rating>)
    requires multiset(rs) == multiset(qs)
    ensures Aggregate(rs) == Aggregate(qs)
  {
    forall f | f in Fields
      ensures AttributeAverage(rs, f) == AttributeAverage(qs, f)
    {
      ScoresPermutation(rs, qs, f);
    }
    assert |rs| == |multiset(rs)| == |multiset(qs)| == |qs|;
  }

  /** The worked example: one rating gives speed S; another gives speed A and defense B. */
  lemma WorkedExample(r1: Rating, r2: Rating)
    requires r1.speedGiven == Some(S)
    requires r1.defenseGiven == r1.offenseGiven == r1.passingGiven == r1.shootingGiven == r1.dribblingGiven == None
    requires r2.speedGiven == Some(A) && r2.defenseGiven == Some(B)
    requires r2.offenseGiven == r2.passingGiven == r2.shootingGiven == r2.dribblingGiven == None
    ensures Aggregate([r1, r2]) == Stats(90.0, 60.0, 0.0, 0.0, 0.0, 0.0, 25.0, 2)
  {
    var rs := [r1, r2];
    assert rs[1..] == [r2] && [r2][1..] == [];
    assert AttributeAverage(rs, Speed) == 90.0 by {
      assert Scores([r2], Speed) == Contribution(r2, Speed);
      assert Scores(rs, Speed) == [100, 80];
      assert [100, 80][1..] == [80] && [80][1..] == [];
      assert Sum([100, 80]) == 180;
    }
    assert AttributeAverage(rs, Defense) == 60.0 by {
      assert Scores([r2], Defense) == Contribution(r2, Defense);
      assert Scores(rs, Defense) == [60];
      assert Sum([60]) == 60;
    }
    assert AttributeAverage(rs, Offense) == 0.0 by {
      assert Scores([r2], Offense) == Contribution(r2, Offense);
      assert Scores(rs, Offense) == [];
    }
    assert AttributeAverage(rs, Passing) == 0.0 by {
      assert Scores([r2], Passing) == Contribution(r2, Passing);
      assert Scores(rs, Passing) == [];
    }
    assert AttributeAverage(rs, Shooting) == 0.0 by {
      assert Scores([r2], Shooting) == Contribution(r2, Shooting);
      assert Scores(rs, Shooting) == [];
    }
    assert AttributeAverage(rs, Dribbling) == 0.0 by {
      assert Scores([r2], Dribbling) == Contribution(r2, Dribbling);
      assert Scores(rs, Dribbling) == [];
    }
    AggregateOfAverages(rs, 90.0, 60.0);
  }

  /** The stats of two ratings whose only averages are a speed and a defense. */
  lemma AggregateOfAverages(rs: seq<Rating>, speed: real, defense: real)
    requires |rs| == 2
    requires AttributeAverage(rs, Speed) == speed && AttributeAverage(rs, Defense) == defense
    requires AttributeAverage(rs, Offense) == AttributeAverage(rs, Passing) == 0.0
    requires AttributeAverage(rs, Shooting) == AttributeAverage(rs, Dribbling) == 0.0
    ensures Aggregate(rs) == Stats(speed, defense, 0.0, 0.0, 0.0, 0.0, (speed + defense) / 6.0, 2)
  {
  }

  // ---------------------------------------------------------------------
  // The aggregation as the source runs it: two loops over mutable records
  // ---------------------------------------------------------------------

  /** What one more rating adds to the scores of `f`: its grade's score, or nothing. */
  lemma ScoresStep(rs: seq<Rating>, x: Rating, f: Field)
    ensures Given(x, f).None? ==> Scores(rs + [x], f) == Scores(rs, f)
    ensures Given(x, f).Some? ==>
              && Sum(Scores(rs + [x], f)) == Sum(Scores(rs, f)) + GradeToScore(Given(x, f).value)
              && |Scores(rs + [x], f)| == |Scores(rs, f)| + 1
  {
    ScoresAppend(rs, [x], f);
    assert [x][1..] == [];
    SumAppend(Scores(rs, f), Scores([x], f));
    if Given(x, f).Some? {
      assert Sum([GradeToScore(Given(x, f).value)]) == GradeToScore(Given(x, f).value);
    } else {
      assert Scores(rs, f) + [] == Scores(rs, f);
    }
  }

  /** Slots `lo` to `hi` of `sums` and `counts` hold the score sum and count over `rs`. */
  predicate Tallied(sums: seq<nat>, counts: seq<nat>, rs: seq<Rating>, lo: nat, hi: nat)
    requires |sums| == |counts| == |Fields| && lo <= hi <= |Fields|
  {
    forall j | lo <= j < hi :: sums[j] == Sum(Scores(rs, Fields[j])) && counts[j] == |Scores(rs, Fields[j])|
  }

  /** Bringing slot `k` up to date over `after` moves the boundary between the two tallies. */
  lemma TallyStep(sums: seq<nat>, counts: seq<nat>, before: seq<Rating>, after: seq<Rating>, k: nat, sum: nat, count: nat)
    requires |sums| == |counts| == |Fields| && k < |Fields|
    requires Tallied(sums, counts, after, 0, k) && Tallied(sums, counts, before, k, |Fields|)
    requires sum == Sum(Scores(after, Fields[k])) && count == |Scores(after, Fields[k])|
    ensures Tallied(sums[k := sum], counts[k := count], after, 0, k + 1)
    ensures Tallied(sums[k := sum], counts[k := count], before, k + 1, |Fields|)
  {
  }

  /** Sum of the first `k` attribute averages, in `Fields` order. */
  function PartialTotal(rs: seq<Rating>, k: nat): real
    requires k <= |Fields|
  {
    if k == 0 then 0.0 else PartialTotal(rs, k - 1) + AttributeAverage(rs, Fields[k - 1])
  }

  /** The running total over all six attributes is the sum of the six averages. */
  lemma PartialTotalAll(rs: seq<Rating>, averages: seq<real>)
    requires |averages| == |Fields|
    requires forall j | 0 <= j < |Fields| :: averages[j] == AttributeAverage(rs, Fields[j])
    ensures PartialTotal(rs, |Fields|)
            == averages[0] + averages[1] + averages[2] + averages[3] + averages[4] + averages[5]
  {
    assert PartialTotal(rs, 1) == averages[0];
    assert PartialTotal(rs, 2) == averages[0] + averages[1];
    assert PartialTotal(rs, 3) == averages[0] + averages[1] + averages[2];
    assert PartialTotal(rs, 4) == averages[0] + averages[1] + averages[2] + averages[3];
    assert PartialTotal(rs, 5) == averages[0] + averages[1] + averages[2] + averages[3] + averages[4];
  }

  /** The six averages and their mean, assembled, are the aggregate. */
  lemma AssembleAggregate(rs: seq<Rating>, averages: seq<real>, total: real)
    requires |averages| == |Fields|
    requires forall j | 0 <= j < |Fields| :: averages[j] == AttributeAverage(rs, Fields[j])
    requires total == averages[0] + averages[1] + averages[2] + averages[3] + averages[4] + averages[5]
    ensures Aggregate(rs)
            == Stats(averages[0], averages[1], averages[2], averages[3], averages[4], averages[5],
                     total / 6.0, |rs|)
  {
  }

  /**
   * `sums`/`counts` accumulation over every rating and field, then the
   * averages, their total and the patch; the result is `Aggregate(rs)`.
   */
  method ComputeAggregate(rs: seq<Rating>) returns (st: Stats)
    ensures st == Aggregate(rs)
  {
    var sums: seq<nat> := seq(|Fields|, _ => 0);
    var counts: seq<nat> := seq(|Fields|, _ => 0);
    for i := 0 to |rs|
      invariant |sums| == |counts| == |Fields|
      invariant Tallied(sums, counts, rs[..i], 0, |Fields|)
    {
      assert rs[..i + 1] == rs[..i] + [rs[i]];
      for k := 0 to |Fields|
        invariant |sums| == |counts| == |Fields|
        invariant Tallied(sums, counts, rs[..i + 1], 0, k)
        invariant Tallied(sums, counts, rs[..i], k, |Fields|)
      {
        var grade := Given(rs[i], Fields[k]);
        ScoresStep(rs[..i], rs[i], Fields[k]);
        var sum, count := sums[k], counts[k];
        if grade.Some? {
          sum, count := sum + GradeToScore(grade.value), count + 1;
        }
        TallyStep(sums, counts, rs[..i], rs[..i + 1], k, sum, count);
        sums, counts := sums[k := sum], counts[k := count];
      }
    }
    assert rs[..|rs|] == rs;

    var totalAvg := 0.0;
    var averages: seq<real> := [];
    for k := 0 to |Fields|
      invariant |averages| == k
      invariant forall j | 0 <= j < k :: averages[j] == AttributeAverage(rs, Fields[j])
      invariant totalAvg == PartialTotal(rs, k)
    {
      var avg := if counts[k] > 0 then (sums[k] as real) / (counts[k] as real) else 0.0;
      averages := averages + [avg];
      totalAvg := totalAvg + avg;
    }
    PartialTotalAll(rs, averages);
    AssembleAggregate(rs, averages, totalAvg);
    var overallScore := if |Fields| > 0 then totalAvg / (|Fields| as real) else 0.0;
    st := Stats(averages[0], averages[1], averages[2], averages[3], averages[4], averages[5],
                overallScore, |rs|);
  }

  // ---------------------------------------------------------------------
  // The profile table
  // ---------------------------------------------------------------------

  /** The arguments of `createUserProfile`. */
  datatype NewProfile = NewProfile(
    displayName: string,
    bio: string,
    favoritePosition: Position,
    skillLevel: string,
    country: string)

  /** The arguments of `updateUserProfile`: every field optional, absent means "keep". */
  datatype ProfilePatch = ProfilePatch(
    displayName: Option<string>,
    bio: Option<string>,
    favoritePosition: Option<Position>,
    skillLevel: Option<string>,
    country: Option<string>)

  /** The row `createUserProfile` inserts for `u`. */
  function NewRow(u: UserId, args: NewProfile): Profile
  {
    Profile(u, args.displayName, args.bio, args.favoritePosition, args.skillLevel, args.country, None, None)
  }

  function Pick<T>(patched: Option<T>, current: T): T
  {
    match patched
    case Some(v) => v
    case None => current
  }

  /** `ctx.db.patch(profile._id, args)`: supplied fields replace, the rest stay. */
  function ApplyPatch(p: Profile, patch: ProfilePatch): (q: Profile)
    ensures q.userId == p.userId && q.profileImageUrl == p.profileImageUrl && q.stats == p.stats
    ensures patch.displayName.Some? ==> q.displayName == patch.displayName.value
    ensures patch.displayName.None? ==> q.displayName == p.displayName
    ensures patch.bio.Some? ==> q.bio == patch.bio.value
    ensures patch.bio.None? ==> q.bio == p.bio
    ensures patch.favoritePosition.Some? ==> q.favoritePosition == patch.favoritePosition.value
    ensures patch.favoritePosition.None? ==> q.favoritePosition == p.favoritePosition
    ensures patch.skillLevel.Some? ==> q.skillLevel == patch.skillLevel.value
    ensures patch.skillLevel.None? ==> q.skillLevel == p.skillLevel
    ensures patch.country.Some? ==> q.country == patch.country.value
    ensures patch.country.None? ==> q.country == p.country
  {
    p.(displayName := Pick(patch.displayName, p.displayName),
       bio := Pick(patch.bio, p.bio),
       favoritePosition := Pick(patch.favoritePosition, p.favoritePosition),
       skillLevel := Pick(patch.skillLevel, p.skillLevel),
       country := Pick(patch.country, p.country))
  }

  /** The table after the aggregation wrote `st` into `u`'s row; no row for `u` means no write. */
  function WithStats(rows: seq<Profile>, u: UserId, st: Stats): (r: seq<Profile>)
    ensures SameOwners(rows, r)
    ensures forall k | 0 <= k < |rows| :: r[k] == rows[k].(stats := r[k].stats)
    ensures forall k | 0 <= k < |rows| :: r[k].stats == if FindProfile(rows, u) == Some(k) then Some(st) else rows[k].stats
    ensures FindProfile(rows, u).None? ==> r == rows
  {
    match FindProfile(rows, u)
    case None => rows
    case Some(i) => rows[i := rows[i].(stats := Some(st))]
  }

  /** Writing the same stats twice is writing them once. */
  lemma WithStatsIdempotent(rows: seq<Profile>, u: UserId, st: Stats)
    ensures WithStats(WithStats(rows, u, st), u, st) == WithStats(rows, u, st)
  {
    FindProfileOwnersOnly(rows, WithStats(rows, u, st), u);
  }

  /** The `userProfiles` table. */
  class ProfileTable {
    var rows: seq<Profile>

    ghost predicate Valid()
      reads this
    {
      UniqueOwners(rows)
    }

    constructor ()
      ensures Valid() && rows == []
    {
      rows := [];
    }

    /** `createUserProfile`: the caller's first and only profile. */
    method CreateUserProfile(caller: Option<UserId>, args: NewProfile) returns (res: Outcome)
      requires Valid()
      modifies this
      ensures Valid()
      ensures caller.None? ==> res == Fail(Unauthenticated) && rows == old(rows)
      ensures caller.Some? && FindProfile(old(rows), caller.value).Some? ==>
                res == Fail(ProfileExists) && rows == old(rows)
      ensures caller.Some? && FindProfile(old(rows), caller.value).None? ==>
                res == Pass && rows == old(rows) + [NewRow(caller.value, args)]
    {
      if caller.None? {
        return Fail(Unauthenticated);
      }
      var userId := caller.value;
      var existing := FindProfile(rows, userId);
      if existing.Some? {
        return Fail(ProfileExists);
      }
      rows := rows + [NewRow(userId, args)];
      res := Pass;
    }

    /** `updateUserProfile`: patch the supplied fields of the caller's own profile. */
    method UpdateUserProfile(caller: Option<UserId>, patch: ProfilePatch) returns (res: Outcome)
      requires Valid()
      modifies this
      ensures Valid()
      ensures caller.None? ==> res == Fail(Unauthenticated) && rows == old(rows)
      ensures caller.Some? && FindProfile(old(rows), caller.value).None? ==>
                res == Fail(ProfileNotFound) && rows == old(rows)
      ensures caller.Some? && FindProfile(old(rows), caller.value).Some? ==>
                var i := FindProfile(old(rows), caller.value).value;
                res == Pass && rows == old(rows)[i := ApplyPatch(old(rows)[i], patch)]
    {
      if caller.None? {
        return Fail(Unauthenticated);
      }
      var profile := FindProfile(rows, caller.value);
      if profile.None? {
        return Fail(ProfileNotFound);
      }
      var i := profile.value;
      rows := rows[i := ApplyPatch(rows[i], patch)];
      res := Pass;
    }

    /** `saveProfilePicture`: store the uploaded file's id as the caller's picture. */
    method SaveProfilePicture(caller: Option<UserId>, storageId: string) returns (res: Outcome)
      requires Valid()
      modifies this
      ensures Valid()
      ensures caller.None? ==> res == Fail(Unauthenticated) && rows == old(rows)
      ensures caller.Some? && FindProfile(old(rows), caller.value).None? ==>
                res == Fail(ProfileNotFound) && rows == old(rows)
      ensures caller.Some? && FindProfile(old(rows), caller.value).Some? ==>
                var i := FindProfile(old(rows), caller.value).value;
                res == Pass && rows == old(rows)[i := old(rows)[i].(profileImageUrl := Some(storageId))]
    {
      if caller.None? {
        return Fail(Unauthenticated);
      }
      var profile := FindProfile(rows, caller.value);
      if profile.None? {
        return Fail(ProfileNotFound);
      }
      var i := profile.value;
      rows := rows[i := rows[i].(profileImageUrl := Some(storageId))];
      res := Pass;
    }

    /**
     * `updateAggregatedProfileStats`: recompute `userId`'s stats from all the
     * ratings the ledger holds for them and write them into their profile,
     * or do nothing when they have no profile.
     */
    method UpdateAggregatedProfileStats(userId: UserId, ledger: Ratings.RatingLedger)
      requires Valid()
      modifies this
      ensures Valid()
      ensures rows == WithStats(old(rows), userId, Aggregate(Ratings.ByRatedUser(ledger.ratings, userId)))
    {
      var profile := FindProfile(rows, userId);
      if profile.None? {
        return;
      }
      var ratings := Ratings.ByRatedUser(ledger.ratings, userId);
      var patch := ComputeAggregate(ratings);
      var i := profile.value;
      rows := rows[i := rows[i].(stats := Some(patch))];
    }
  }

  /** Re-running the aggregation with no new ratings writes the same values again. */
  method RerunWritesSameValues(table: ProfileTable, ledger: Ratings.RatingLedger, userId: UserId)
    requires table.Valid()
    modifies table
    ensures table.Valid()
    ensures table.rows
            == WithStats(old(table.rows), userId, Aggregate(Ratings.ByRatedUser(ledger.ratings, userId)))
  {
    table.UpdateAggregatedProfileStats(userId, ledger);
    var once := table.rows;
    table.UpdateAggregatedProfileStats(userId, ledger);
    WithStatsIdempotent(old(table.rows), userId, Aggregate(Ratings.ByRatedUser(ledger.ratings, userId)));
    assert table.rows == once;
  }
}
