/**
  The climate timeline: a slider over the years 2024 to 2100, four tables of
  projected values keyed by year, clamped piecewise-linear interpolation
  between the table's years, a partition of the years into four projection
  periods, and the rule that highlights a year marker near the chosen year.
*/
module Timeline {
  import opened Optional

  /** The slider's range; its step is one year. */
  const FirstYear := 2024
  const LastYear := 2100

  /** A table of projected values keyed by year. */
  type Table = map<int, real>

  /** Storm risk in percent. */
  const StormRisk: Table := map[2024 := 15.0, 2030 := 25.0, 2050 := 45.0, 2100 := 75.0]
  /** Sea level rise in centimetres. */
  const SeaLevel: Table := map[2024 := 10.0, 2030 := 15.0, 2050 := 30.0, 2100 := 70.0]
  /** Ocean pH. */
  const OceanPh: Table := map[2024 := 8.1, 2030 := 7.9, 2050 := 7.7, 2100 := 7.3]
  /** Temperature rise in degrees Celsius. */
  const TempRise: Table := map[2024 := 2.0, 2030 := 2.5, 2050 := 3.2, 2100 := 4.1]

  predicate Increasing(s: seq<int>)
  {
    forall i, j :: 0 <= i < j < |s| ==> s[i] < s[j]
  }

  /** The least element of a non-empty set of years, found by one pass over it. */
  method Least(years: set<int>) returns (m: int)
    requires years != {}
    ensures m in years && forall y :: y in years ==> m <= y
  {
    if forall y :: y !in years {
      // a non-empty set has an element
      assert false;
    }
    m :| m in years;
    var others := years - {m};
    while others != {}
      invariant others <= years && m in years
      invariant forall y :: y in years && y !in others ==> m <= y
      decreases |others|
    {
      if forall z :: z !in others {
        assert false;
      }
      var y :| y in others;
      if y < m {
        m := y;
      }
      others := others - {y};
    }
  }

  /** The table's years in ascending order, as `Object.keys(...).map(Number).sort(...)` gives them. */
  method SortedYears(years: set<int>) returns (ys: seq<int>)
    ensures Increasing(ys)
    ensures forall y :: y in ys <==> y in years
    ensures |ys| == |years|
  {
    ys := [];
    var rest := years;
    while rest != {}
      invariant Increasing(ys)
      invariant forall y :: y in years <==> y in ys || y in rest
      invariant forall i, y :: 0 <= i < |ys| && y in rest ==> ys[i] < y
      invariant |ys| + |rest| == |years|
      decreases |rest|
    {
      var m := Least(rest);
      ys := ys + [m];
      rest := rest - {m};
    }
  }

  /** `v1 + ((v2 - v1) * (year - y1)) / (y2 - y1)`: the straight line through (y1, v1) and (y2, v2). */
  function Lerp(v1: real, v2: real, y1: int, y2: int, year: int): real
    requires y1 < y2
  {
    v1 + ((v2 - v1) * (year - y1) as real) / (y2 - y1) as real
  }

  /** The line passes through both of its end points. */
  lemma LerpEndpoints(v1: real, v2: real, y1: int, y2: int)
    requires y1 < y2
    ensures Lerp(v1, v2, y1, y2, y1) == v1
    ensures Lerp(v1, v2, y1, y2, y2) == v2
  {
    var d := (y2 - y1) as real;
    assert (v2 - v1) * d / d == v2 - v1;
  }

  /** A quotient of reals bounded through its dividend. */
  lemma DivBounds(q: real, w: real, d: real)
    requires d > 0.0 && 0.0 <= q <= w * d
    ensures 0.0 <= q / d <= w
  {
    assert q / d * d == q;
  }

  /** A non-negative amount scaled by a fraction `a / d` in [0, 1] stays between 0 and itself. */
  lemma ScaledBetween(w: real, a: real, d: real)
    requires d > 0.0 && 0.0 <= a <= d && 0.0 <= w
    ensures 0.0 <= w * a / d <= w
  {
    assert w * a <= w * d by {
      assert w * d - w * a == w * (d - a);
    }
    DivBounds(w * a, w, d);
  }

  /** Scaling a negated amount negates the result. */
  lemma ScaledNegation(w: real, a: real, d: real)
    requires d > 0.0
    ensures (-w) * a / d == -(w * a / d)
  {
    assert (-w) * a == -(w * a);
  }

  /** Between its end points the line stays between their values. */
  lemma LerpBetween(v1: real, v2: real, y1: int, y2: int, year: int)
    requires y1 <= year <= y2 && y1 < y2
    ensures v1 <= v2 ==> v1 <= Lerp(v1, v2, y1, y2, year) <= v2
    ensures v2 <= v1 ==> v2 <= Lerp(v1, v2, y1, y2, year) <= v1
  {
    var d := (y2 - y1) as real;
    var a := (year - y1) as real;
    assert Lerp(v1, v2, y1, y2, year) == v1 + (v2 - v1) * a / d;
    if v1 <= v2 {
      ScaledBetween(v2 - v1, a, d);
    } else {
      ScaledBetween(v1 - v2, a, d);
      ScaledNegation(v1 - v2, a, d);
      assert -(v1 - v2) == v2 - v1;
    }
  }

  /** `a` and `b` are years of the table with no year of the table strictly between them. */
  ghost predicate Consecutive(table: Table, a: int, b: int)
  {
    a in table && b in table && a < b && forall k :: k in table ==> k <= a || b <= k
  }

  /** `k` is the table's smallest year. */
  ghost predicate Smallest(table: Table, k: int)
  {
    k in table && forall j :: j in table ==> k <= j
  }

  /** `k` is the table's largest year. */
  ghost predicate Largest(table: Table, k: int)
  {
    k in table && forall j :: j in table ==> j <= k
  }

  /**
    What `interpolate` returns for `year`: the value of the smallest year
    when `year` is at or below it, the value of the largest year when `year`
    is at or above it, and in between the line through two neighbouring
    years of the table that enclose `year`; `undefined`, modelled as `None`,
    exactly for an empty table. Such a result lies between the table's least
    and greatest values, and at a year of the table it is that year's value.
  */
  ghost predicate IsInterpolation(table: Table, year: int, v: Option<real>)
  {
    && (v == None <==> table == map[])
    && (forall k :: Smallest(table, k) && year <= k ==> v == Some(table[k]))
    && (forall k :: Largest(table, k) && k <= year ==> v == Some(table[k]))
    && (v.Some? && (exists a, b :: a in table && b in table && a < year < b) ==>
          exists y1, y2 :: Consecutive(table, y1, y2) && y1 <= year <= y2 &&
            v.value == Lerp(table[y1], table[y2], y1, y2, year))
    && (v.Some? ==> exists k :: k in table && table[k] <= v.value)
    && (v.Some? ==> exists k :: k in table && v.value <= table[k])
    && (year in table ==> v == Some(table[year]))
  }

  /** The years of `table` in ascending order. */
  ghost predicate SortedKeys(table: Table, years: seq<int>)
  {
    Increasing(years) && forall y :: y in years <==> y in table
  }

  /**
    `interpolate`: sort the years, clamp below the first and above the
    last, otherwise scan the neighbouring pairs for the one enclosing `year`.
    The fallback after the scan is never reached, since the pairs cover the
    whole range between the first and the last year.
  */
  method Interpolate(table: Table, year: int) returns (v: Option<real>)
    ensures IsInterpolation(table, year, v)
  {
    var years := SortedYears(table.Keys);
    if |years| == 0 {
      assert table.Keys == {};
      return None;
    }
    var n := |years|;
    if year <= years[0] {
      ClampLow(table, years, year);
      return Some(table[years[0]]);
    }
    if year >= years[n - 1] {
      ClampHigh(table, years, year);
      return Some(table[years[n - 1]]);
    }
    var i := 0;
    while i < n - 1
      invariant 0 <= i <= n - 1
      invariant years[i] < year
    {
      var y1, y2 := years[i], years[i + 1];
      if year >= y1 && year <= y2 {
        var v1, v2 := table[y1], table[y2];
        v := Some(Lerp(v1, v2, y1, y2, year));
        Bracket(table, years, i, year);
        return;
      }
      i := i + 1;
    }
    assert false;
  }

  lemma ClampLow(table: Table, years: seq<int>, year: int)
    requires SortedKeys(table, years) && |years| > 0 && year <= years[0]
    ensures IsInterpolation(table, year, Some(table[years[0]]))
  {
    Ends(table, years);
  }

  lemma ClampHigh(table: Table, years: seq<int>, year: int)
    requires SortedKeys(table, years) && |years| > 0 && years[|years| - 1] <= year
    ensures IsInterpolation(table, year, Some(table[years[|years| - 1]]))
  {
    Ends(table, years);
  }

  /** The first sorted year is the smallest, the last the largest. */
  lemma Ends(table: Table, years: seq<int>)
    requires SortedKeys(table, years) && |years| > 0
    ensures Smallest(table, years[0]) && Largest(table, years[|years| - 1])
  {
    forall k | k in table
      ensures years[0] <= k <= years[|years| - 1]
    {
      var j :| 0 <= j < |years| && years[j] == k;
      assert j == 0 || 0 < j;
    }
  }

  /** The pair of sorted years at `i` encloses `year`: the line through it is the interpolation. */
  lemma Bracket(table: Table, years: seq<int>, i: int, year: int)
    requires SortedKeys(table, years)
    requires 0 <= i < |years| - 1 && years[i] <= year <= years[i + 1]
    requires years[0] < year < years[|years| - 1]
    ensures IsInterpolation(table, year,
      Some(Lerp(table[years[i]], table[years[i + 1]], years[i], years[i + 1], year)))
  {
    var y1, y2 := years[i], years[i + 1];
    var r := Lerp(table[y1], table[y2], y1, y2, year);
    forall k | k in table
      ensures k <= y1 || y2 <= k
    {
      var j :| 0 <= j < |years| && years[j] == k;
      assert j <= i || i + 1 <= j;
    }
    assert Consecutive(table, y1, y2);
    Ends(table, years);
    LerpBetween(table[y1], table[y2], y1, y2, year);
    LerpEndpoints(table[y1], table[y2], y1, y2);
    if year in table {
      assert year == y1 || year == y2;
    }
  }

  /** Every value of the table lies in `[lo, hi]`. */
  ghost predicate Within(table: Table, lo: real, hi: real)
  {
    forall k :: k in table ==> lo <= table[k] <= hi
  }

  /** The four readings shown for the chosen year. */
  datatype Readings = Readings(stormRisk: real, seaLevel: real, oceanPh: real, tempRise: real)

  /**
    The readings for a year: each is its own table's interpolation at the
    year, so each stays between that table's least and greatest value
    whatever the year, and at one of the tables' years each is that year's entry.
  */
  method ReadingsFor(year: int) returns (r: Readings)
    ensures IsInterpolation(StormRisk, year, Some(r.stormRisk))
    ensures IsInterpolation(SeaLevel, year, Some(r.seaLevel))
    ensures IsInterpolation(OceanPh, year, Some(r.oceanPh))
    ensures IsInterpolation(TempRise, year, Some(r.tempRise))
    ensures 15.0 <= r.stormRisk <= 75.0 && 10.0 <= r.seaLevel <= 70.0
    ensures 7.3 <= r.oceanPh <= 8.1 && 2.0 <= r.tempRise <= 4.1
    ensures year == FirstYear ==> r == Readings(15.0, 10.0, 8.1, 2.0)
    ensures year == LastYear ==> r == Readings(75.0, 70.0, 7.3, 4.1)
  {
    TablesWithin();
    var storm := Reading(StormRisk, year, 15.0, 75.0);
    var sea := Reading(SeaLevel, year, 10.0, 70.0);
    var ph := Reading(OceanPh, year, 7.3, 8.1);
    var temp := Reading(TempRise, year, 2.0, 4.1);
    r := Readings(storm, sea, ph, temp);
  }

  /** Each table's values lie between its first and its last entry. */
  lemma TablesWithin()
    ensures Within(StormRisk, 15.0, 75.0) && Within(SeaLevel, 10.0, 70.0)
    ensures Within(OceanPh, 7.3, 8.1) && Within(TempRise, 2.0, 4.1)
    ensures FirstYear in StormRisk && FirstYear in SeaLevel && FirstYear in OceanPh && FirstYear in TempRise
  {
    assert StormRisk.Keys == {2024, 2030, 2050, 2100};
    assert SeaLevel.Keys == {2024, 2030, 2050, 2100};
    assert OceanPh.Keys == {2024, 2030, 2050, 2100};
    assert TempRise.Keys == {2024, 2030, 2050, 2100};
  }

  /** One reading from a non-empty table whose values lie in `[lo, hi]`. */
  method Reading(table: Table, year: int, lo: real, hi: real) returns (x: real)
    requires table != map[] && Within(table, lo, hi)
    ensures IsInterpolation(table, year, Some(x))
    ensures lo <= x <= hi
    ensures year in table ==> x == table[year]
  {
    var v := Interpolate(table, year);
    x := v.value;
    var k1 :| k1 in table && table[k1] <= x;
    var k2 :| k2 in table && x <= table[k2];
  }

  /** The projection period a year falls in. */
  datatype Period = Current | ShortTerm | MediumTerm | LongTerm

  /** `getYearInfo`, by period: up to 2025, up to 2035, up to 2055, and later. */
  function PeriodOf(year: int): Period
  {
    if year <= 2025 then Current
    else if year <= 2035 then ShortTerm
    else if year <= 2055 then MediumTerm
    else LongTerm
  }

  function Title(p: Period): string
  {
    match p
    case Current => "Current Conditions"
    case ShortTerm => "Short-term Projections"
    case MediumTerm => "Medium-term Projections"
    case LongTerm => "Long-term Projections"
  }

  function Description(p: Period): string
  {
    match p
    case Current => "Real-time threat analysis based on current environmental data"
    case ShortTerm => "Moderate sea level rise and increased storm intensity"
    case MediumTerm => "Significant coastal changes expected (~30cm sea level rise)"
    case LongTerm => "Dramatic coastline changes with up to 70cm rise possible"
  }

  function Color(p: Period): string
  {
    match p
    case Current => "text-primary"
    case ShortTerm => "text-warning"
    case MediumTerm => "text-warning"
    case LongTerm => "text-danger"
  }

  /** The periods' order. */
  function Rank(p: Period): nat
  {
    match p
    case Current => 0
    case ShortTerm => 1
    case MediumTerm => 2
    case LongTerm => 3
  }

  /** Each period is exactly one band of years. */
  lemma PeriodBands(year: int)
    ensures PeriodOf(year) == Current <==> year <= 2025
    ensures PeriodOf(year) == ShortTerm <==> 2025 < year <= 2035
    ensures PeriodOf(year) == MediumTerm <==> 2035 < year <= 2055
    ensures PeriodOf(year) == LongTerm <==> 2055 < year
  {
  }

  /** A later year never falls in an earlier period. */
  lemma PeriodMonotone(y1: int, y2: int)
    requires y1 <= y2
    ensures Rank(PeriodOf(y1)) <= Rank(PeriodOf(y2))
  {
  }

  /** The marked years under the slider. */
  const TimePoints: seq<int> := [2024, 2030, 2050, 2100]

  /** A marker is highlighted when the chosen year is within five years of it. */
  predicate Highlighted(year: int, point: int)
  {
    if year >= point then year - point <= 5 else point - year <= 5
  }

  /**
    Two markers are highlighted together only for the years 2025 to 2029,
    which lie within five years of both 2024 and 2030; the later marked
    years are more than ten years apart, so their markers never light up
    together.
  */
  lemma MarkersOverlap(year: int, i: int, j: int)
    requires 0 <= i < j < |TimePoints|
    ensures Highlighted(year, TimePoints[i]) && Highlighted(year, TimePoints[j])
      <==> i == 0 && j == 1 && 2025 <= year <= 2029
  {
    var p, q := TimePoints[i], TimePoints[j];
    if i == 0 {
      assert p == 2024 && (j == 1 <==> q == 2030) && q >= 2030;
    } else if i == 1 {
      assert p == 2030 && q >= 2050;
    } else {
      assert p == 2050 && q == 2100;
    }
  }

  /** The marker of `point` is highlighted exactly for the eleven years from `point - 5` to `point + 5`. */
  lemma HighlightedBand(year: int, point: int)
    ensures Highlighted(year, point) <==> point - 5 <= year <= point + 5
  {
  }
}
