/**
 * The stat hexagon's two numeric rules: the letter shown beside each
 * attribute, and the clamp that keeps each drawn value inside the hexagon.
 * A stat is a number, or absent (`null` or `undefined`), hence `Option<real>`.
 */
module StatHexagon {
  import opened Schema
  import UserProfiles

  /**
   * `valueToGrade`: the letter the legend assigns to a stat, "N/A" when
   * the stat is absent. Bands: S 90 and up, A from 80, B from 70, C from 60,
   * D below.
   */
  function ValueToGrade(value: Option<real>): (shown: string)
    ensures shown == "N/A" <==> value.None?
    ensures value.Some? ==>
              && (shown == "S" <==> 90.0 <= value.value)
              && (shown == "A" <==> 80.0 <= value.value < 90.0)
              && (shown == "B" <==> 70.0 <= value.value < 80.0)
              && (shown == "C" <==> 60.0 <= value.value < 70.0)
              && (shown == "D" <==> value.value < 60.0)
  {
    match value
    case None => "N/A"
    case Some(v) =>
      if v >= 90.0 then "S"
      else if v >= 80.0 then "A"
      else if v >= 70.0 then "B"
      else if v >= 60.0 then "C"
      else "D"
  }

  /** The position of a displayed letter from D (0) up to S (4); "N/A" ranks with D. */
  function DisplayRank(shown: string): nat
  {
    if shown == "S" then 4
    else if shown == "A" then 3
    else if shown == "B" then 2
    else if shown == "C" then 1
    else 0
  }

  /** A larger stat never shows a lower letter. */
  lemma ValueToGradeMonotone(v: real, w: real)
    requires v <= w
    ensures DisplayRank(ValueToGrade(Some(v))) <= DisplayRank(ValueToGrade(Some(w)))
  {
  }

  /** `Math.min(100, Math.max(0, value ?? 0))`: the stat as drawn on the hexagon. */
  function ClampStat(value: Option<real>): (r: real)
    ensures 0.0 <= r <= 100.0
    ensures value.None? ==> r == 0.0
    ensures value.Some? && 0.0 <= value.value <= 100.0 ==> r == value.value
    ensures value.Some? && value.value < 0.0 ==> r == 0.0
    ensures value.Some? && 100.0 < value.value ==> r == 100.0
  {
    var v := match value case Some(x) => x case None => 0.0;
    var lower := if 0.0 < v then v else 0.0;
    if 100.0 < lower then 100.0 else lower
  }

  /** Clamping a clamped stat changes nothing. */
  lemma ClampIdempotent(value: Option<real>)
    ensures ClampStat(Some(ClampStat(value))) == ClampStat(value)
  {
  }

  /** The letter shown for each grade's score: the score map is not inverted by the display. */
  function ShownForGrade(g: Grade): string
  {
    match g
    case S => "S"
    case A => "A"
    case B => "C"
    case C => "D"
    case D => "D"
  }

  /**
   * A profile whose every rating gave `g` shows `ShownForGrade(g)`: S, A
   * and D come back as given, while B shows as C and C shows as D.
   */
  lemma ScoreThenDisplay(g: Grade)
    ensures ValueToGrade(Some(UserProfiles.GradeToScore(g) as real)) == ShownForGrade(g)
    ensures ShownForGrade(g) == Letter(g) <==> g != B && g != C
  {
    match g
    case S =>
    case A =>
    case B =>
    case C =>
    case D =>
  }

  /** The six aggregated averages are drawn as computed: the clamp never changes them. */
  lemma AggregateDrawnUnclamped(rs: seq<Rating>)
    ensures forall f :: ClampStat(Some(StatOf(UserProfiles.Aggregate(rs), f))) == StatOf(UserProfiles.Aggregate(rs), f)
  {
  }
}
