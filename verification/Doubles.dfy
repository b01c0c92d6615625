/** The floating-point numbers that src/inference_grid/retry_after.py computes with, as the grid of
    RetryAfter: evenly spaced from one power of two to the next and twice as far apart beyond it,
    a sum rounded to the nearest, of two equally near ones to the even one, and an overflow past
    the last (IEEE 754, section 4.3.1). */
module Doubles {
  import opened Wrappers
  import opened RetryAfter

  /** `step` numbers lie between two neighbouring powers of two, one is 2^`scale` of the smallest
      units, and there are `step * binades` non-negative numbers. */
  datatype Format = Format(step: nat, scale: nat, binades: nat)

  const Binary64 := Format(0x10_0000_0000_0000, 1074, 2047)

  function Pow2(n: nat): (r: nat)
    ensures r >= 1
  {
    if n == 0 then 1 else 2 * Pow2(n - 1)
  }

  // ----- The magnitudes, in smallest units -----------------------------------------------

  /** The `k`-th number from zero up. */
  function Mag(p: nat, k: nat): nat
    requires p > 0
  {
    if k < 2 * p then k else 2 * Mag(p, k - p)
  }

  /** How far it is to the next. */
  function Step(p: nat, k: nat): int
    requires p > 0
  {
    Mag(p, k + 1) - Mag(p, k)
  }

  lemma {:induction false} StepDoubles(p: nat, k: nat)
    requires p > 0
    ensures k < 2 * p ==> Step(p, k) == 1
    ensures k >= 2 * p ==> Step(p, k) == 2 * Step(p, k - p)
  {
    if k == 2 * p - 1 {
      assert Mag(p, k + 1) == 2 * Mag(p, p);
    }
  }

  lemma {:induction false} StepWidens(p: nat, k: nat)
    requires p > 0
    ensures 1 <= Step(p, k) <= Step(p, k + 1)
    decreases k
  {
    StepDoubles(p, k);
    StepDoubles(p, k + 1);
    if k >= 2 * p {
      StepWidens(p, k - p);
    } else if k == 2 * p - 1 {
      StepDoubles(p, p);
    }
  }

  lemma {:induction false} StepsWiden(p: nat, j: nat, k: nat)
    requires p > 0 && j <= k
    ensures Step(p, j) <= Step(p, k)
    decreases k - j
  {
    if j < k {
      StepWidens(p, j);
      StepsWiden(p, j + 1, k);
    }
  }

  lemma {:induction false} MagGrows(p: nat, j: nat, k: nat)
    requires p > 0 && j < k
    ensures Mag(p, j) < Mag(p, k)
    decreases k - j
  {
    StepWidens(p, j);
    if j + 1 < k {
      MagGrows(p, j + 1, k);
    }
  }

  /** The numbers of one binade are multiples of one power of two. */
  lemma {:induction false} MagOfBinade(p: nat, a: nat, c: nat)
    requires p > 0 && p <= c < 2 * p
    ensures Mag(p, a * p + c) == c * Pow2(a)
    decreases a
  {
    if a > 0 {
      assert a * p + c - p == (a - 1) * p + c;
      assert a * p >= p;
      MagOfBinade(p, a - 1, c);
    }
  }

  /** The last number at or below `y`. */
  function Floor(p: nat, y: real, k: nat): (r: nat)
    requires p > 0 && Mag(p, k) as real <= y
    ensures Mag(p, r) as real <= y < Mag(p, r + 1) as real
    decreases y.Floor - Mag(p, k)
  {
    StepWidens(p, k);
    if Mag(p, k + 1) as real <= y then Floor(p, y, k + 1) else k
  }

  /** The nearer of the two neighbours of `y`, and of two equally near the even one. */
  function RoundMag(p: nat, y: real): (r: nat)
    requires p > 0 && y >= 0.0
  {
    var k := Floor(p, y, 0);
    var down, up := y - Mag(p, k) as real, Mag(p, k + 1) as real - y;
    if down < up || (down == up && k % 2 == 0) then k else k + 1
  }

  /** No number lies between the two neighbours. */
  lemma NothingBetween(p: nat, k: nat, j: nat)
    requires p > 0
    ensures Mag(p, j) <= Mag(p, k) || Mag(p, j) >= Mag(p, k + 1)
  {
    if j < k {
      MagGrows(p, j, k);
    } else if k + 1 < j {
      MagGrows(p, k + 1, j);
    }
  }

  lemma NearestMag(p: nat, y: real, j: nat)
    requires p > 0 && y >= 0.0
    ensures Abs(Mag(p, RoundMag(p, y)) as real - y) <= Abs(Mag(p, j) as real - y)
    ensures Abs(Mag(p, RoundMag(p, y)) as real - y) <= y
  {
    NothingBetween(p, Floor(p, y, 0), j);
  }

  /** `y` lies between two neighbours only. */
  lemma FloorIsOnly(p: nat, y: real, k: nat)
    requires p > 0 && Mag(p, k) as real <= y < Mag(p, k + 1) as real
    ensures Floor(p, y, 0) == k
  {
    var j := Floor(p, y, 0);
    if j + 1 < k {
      MagGrows(p, j + 1, k);
    } else if k + 1 < j {
      MagGrows(p, k + 1, j);
    }
  }

  lemma RoundMagOf(p: nat, k: nat)
    requires p > 0
    ensures RoundMag(p, Mag(p, k) as real) == k
  {
    StepWidens(p, k);
    FloorIsOnly(p, Mag(p, k) as real, k);
  }

  // ----- Signed numbers, and the grid ----------------------------------------------------

  function Signed(p: nat, j: int): int
    requires p > 0
  {
    if j >= 0 then Mag(p, j) as int else -(Mag(p, -j) as int)
  }

  function RoundSigned(p: nat, y: real): int
    requires p > 0
  {
    if y >= 0.0 then RoundMag(p, y) as int else -(RoundMag(p, -y) as int)
  }

  lemma NearestSigned(p: nat, y: real, j: int)
    requires p > 0
    ensures Abs(Signed(p, RoundSigned(p, y)) as real - y) <= Abs(Signed(p, j) as real - y)
  {
    var m := if j >= 0 then j else -j;
    NearestMag(p, Abs(y), m);
  }

  lemma RoundSignedOf(p: nat, j: int)
    requires p > 0
    ensures RoundSigned(p, Signed(p, j) as real) == j
  {
    RoundMagOf(p, if j >= 0 then j else -j);
    if j < 0 {
      MagGrows(p, 0, -j);
    }
  }

  lemma SignedGrows(p: nat, i: int, j: int)
    requires p > 0 && i < j
    ensures Signed(p, i) < Signed(p, j)
  {
    if i >= 0 {
      MagGrows(p, i, j);
    } else if j <= 0 {
      MagGrows(p, -j, -i);
    } else {
      MagGrows(p, 0, j);
      MagGrows(p, 0, -i);
    }
  }

  predicate Proper(f: Format) {
    f.step >= 2 && f.step % 2 == 0 && f.binades >= 1
  }

  /** The greatest index of a magnitude. */
  function Last(f: Format): (r: nat)
    requires Proper(f)
  {
    assert f.binades * f.step >= f.step;
    f.binades * f.step - 1
  }

  function InSeconds(f: Format, units: int): real {
    units as real / Pow2(f.scale) as real
  }

  function Value(f: Format, j: int): real
    requires f.step > 0
  {
    InSeconds(f, Signed(f.step, j))
  }

  function Points(f: Format): seq<real>
    requires Proper(f)
  {
    seq(2 * Last(f) + 1, i requires 0 <= i < 2 * Last(f) + 1 => Value(f, i - Last(f)))
  }

  function Units(f: Format, x: real): real {
    x * Pow2(f.scale) as real
  }

  /** The number nearest to `x`, were there no last one. */
  function RoundIndex(f: Format, x: real): int
    requires f.step > 0
  {
    RoundSigned(f.step, Units(f, x))
  }

  function Round(f: Format, x: real): Option<nat>
    requires Proper(f)
  {
    var r := RoundIndex(f, x);
    if -(Last(f) as int) <= r <= Last(f) then Some(Last(f) + r) else None
  }

  function GridOf(f: Format): Grid
    requires Proper(f)
  {
    Grid(Points(f), x => Round(f, x))
  }

  // ----- The grid is one RetryAfter speaks of --------------------------------------------

  lemma Quotients(a: real, b: real, q: real)
    requires q > 0.0
    ensures a < b ==> a / q < b / q
    ensures a <= b ==> a / q <= b / q
    ensures a / q - b / q == (a - b) / q
    ensures a / q * q == a
  {
    assert a / q * q == a && b / q * q == b;
    assert (a / q - b / q) * q == a - b;
  }

  lemma AbsOfQuotient(a: real, q: real)
    requires q > 0.0
    ensures Abs(a / q) == Abs(a) / q
  {
    if a < 0.0 {
      Quotients(a, 0.0, q);
    } else {
      Quotients(0.0, a, q);
    }
  }

  lemma ValueGrows(f: Format, i: int, j: int)
    requires f.step > 0 && i < j
    ensures Value(f, i) < Value(f, j)
  {
    SignedGrows(f.step, i, j);
    Quotients(Signed(f.step, i) as real, Signed(f.step, j) as real, Pow2(f.scale) as real);
  }

  lemma PointIs(f: Format, i: nat)
    requires Proper(f) && i < |Points(f)|
    ensures Points(f)[i] == Value(f, i - Last(f))
  {
  }

  lemma PointsIncrease(f: Format)
    requires Proper(f)
    ensures Increasing(Points(f))
  {
    forall i, j | 0 <= i < j < |Points(f)| ensures Points(f)[i] < Points(f)[j] {
      ValueGrows(f, i - Last(f), j - Last(f));
    }
  }

  lemma GapIs(f: Format, i: nat)
    requires Proper(f) && i >= Last(f) && i + 1 < |Points(f)|
    ensures Gap(Points(f), i) == Step(f.step, i - Last(f)) as real / Pow2(f.scale) as real
  {
    var k := i - Last(f);
    PointIs(f, i);
    PointIs(f, i + 1);
    Quotients(Mag(f.step, k + 1) as real, Mag(f.step, k) as real, Pow2(f.scale) as real);
  }

  lemma PointsWiden(f: Format)
    requires Proper(f)
    ensures Widening(Points(f))
  {
    var points := Points(f);
    forall i, j {:trigger Gap(points, i), Gap(points, j)} | 0 <= i <= j && j + 1 < |points| && points[i] >= 0.0
      ensures Gap(points, i) <= Gap(points, j)
    {
      NotNegative(f, i);
      GapIs(f, i);
      GapIs(f, j);
      StepsWiden(f.step, i - Last(f), j - Last(f));
      Quotients(Step(f.step, i - Last(f)) as real, Step(f.step, j - Last(f)) as real, Pow2(f.scale) as real);
    }
  }

  lemma NotNegative(f: Format, i: nat)
    requires Proper(f) && i < |Points(f)| && Points(f)[i] >= 0.0
    ensures i >= Last(f)
  {
    ZeroIsAt(f);
    if i < Last(f) {
      ValueGrows(f, i - Last(f), 0);
    }
  }

  lemma ZeroIsAt(f: Format)
    requires Proper(f)
    ensures Value(f, 0) == 0.0 && Points(f)[Last(f)] == 0.0
  {
    assert Mag(f.step, 0) == 0;
  }

  lemma NearerSeconds(f: Format, x: real, m: int, n: int)
    requires Abs(m as real - Units(f, x)) <= Abs(n as real - Units(f, x))
    ensures Abs(InSeconds(f, m) - x) <= Abs(InSeconds(f, n) - x)
  {
    NearerDivided(m as real, n as real, x, Units(f, x), Pow2(f.scale) as real);
  }

  /** The nearest of all values. */
  lemma NearestValue(f: Format, x: real, j: int)
    requires f.step > 0
    ensures Abs(Value(f, RoundIndex(f, x)) - x) <= Abs(Value(f, j) - x)
  {
    NearestSigned(f.step, Units(f, x), j);
    NearerSeconds(f, x, Signed(f.step, RoundIndex(f, x)), Signed(f.step, j));
  }

  lemma RoundIsNearest(f: Format, x: real)
    requires Proper(f) && Round(f, x).Some?
    ensures Nearest(Points(f), x, Round(f, x).value)
  {
    var r, i := RoundIndex(f, x), Round(f, x).value;
    assert i - Last(f) == r;
    PointIs(f, i);
    forall j | 0 <= j < |Points(f)| ensures Abs(Points(f)[i] - x) <= Abs(Points(f)[j] - x) {
      PointIs(f, j);
      NearestValue(f, x, j - Last(f));
    }
  }

  lemma NearerDivided(a: real, b: real, x: real, y: real, q: real)
    requires q > 0.0 && y == x * q && Abs(a - y) <= Abs(b - y)
    ensures Abs(a / q - x) <= Abs(b / q - x)
  {
    assert y / q == x;
    Quotients(a, y, q);
    Quotients(b, y, q);
    AbsOfQuotient(a - y, q);
    AbsOfQuotient(b - y, q);
    Quotients(Abs(a - y), Abs(b - y), q);
  }

  lemma RoundOfValue(f: Format, j: int)
    requires f.step > 0
    ensures RoundIndex(f, Value(f, j)) == j
  {
    BackToUnits(f, j);
    RoundSignedOf(f.step, j);
  }

  lemma BackToUnits(f: Format, j: int)
    requires f.step > 0
    ensures Units(f, Value(f, j)) == Signed(f.step, j) as real
  {
    Quotients(Signed(f.step, j) as real, 0.0, Pow2(f.scale) as real);
  }

  lemma RoundsToItself(f: Format, i: nat)
    requires Proper(f) && i < |Points(f)|
    ensures Round(f, Points(f)[i]) == Some(i)
  {
    PointIs(f, i);
    RoundOfValue(f, i - Last(f));
  }

  lemma GridIsValid(f: Format)
    requires Proper(f)
    ensures Valid(GridOf(f))
  {
    PointsIncrease(f);
    PointsWiden(f);
    ZeroIsAt(f);
    assert Points(f)[Last(f)] in Points(f);
    forall x | Round(f, x).Some? ensures Nearest(Points(f), x, Round(f, x).value) {
      RoundIsNearest(f, x);
    }
    forall i | 0 <= i < |Points(f)| ensures Round(f, Points(f)[i]) == Some(i) {
      RoundsToItself(f, i);
    }
  }

  // ----- A wait that is rounded down -----------------------------------------------------

  /** A whole number of seconds that is a number of the format, by its binade and its place there. */
  lemma Whole(f: Format, a: nat, c: nat)
    requires f.step > 0 && f.step <= c < 2 * f.step
    ensures Value(f, (f.scale + a) * f.step + c) == (c * Pow2(a)) as real
  {
    var j := (f.scale + a) * f.step + c;
    MagOfBinade(f.step, f.scale + a, c);
    Pow2Sum(f.scale, a);
    Regrouped(c, Pow2(f.scale), Pow2(a));
    Cancelled(c * Pow2(a), Pow2(f.scale));
  }

  lemma Regrouped(a: int, b: int, c: int)
    ensures a * (b * c) == a * c * b
  {
  }

  lemma Cancelled(n: int, q: int)
    requires q > 0
    ensures (n * q) as real / q as real == n as real
  {
    assert (n * q) as real == n as real * q as real;
  }

  lemma Opposite(f: Format, j: int)
    requires f.step > 0
    ensures Value(f, -j) == -Value(f, j)
  {
    assert Signed(f.step, -j) == -Signed(f.step, j);
    Negated(Signed(f.step, j) as real, Pow2(f.scale) as real);
  }

  lemma Negated(n: real, q: real)
    requires q > 0.0
    ensures (-n) / q == -(n / q)
  {
    assert -(n / q) * q == -n;
  }

  lemma {:induction false} Pow2Sum(m: nat, n: nat)
    ensures Pow2(m + n) == Pow2(m) * Pow2(n)
  {
    if m > 0 {
      Pow2Sum(m - 1, n);
    }
  }

  /** What is said of a value within the grid's range. */
  lemma InGrid(f: Format, j: int)
    requires Proper(f) && -(Last(f) as int) <= j <= Last(f)
    ensures Last(f) + j < |Points(f)| && Points(f)[Last(f) + j] == Value(f, j)
    ensures Round(f, Value(f, j)) == Some(Last(f) + j)
  {
    PointIs(f, Last(f) + j);
    RoundOfValue(f, j);
  }

  /** Half way to the next, an even number is where rounding goes. */
  lemma TieToEven(p: nat, y: real, k: nat)
    requires p > 0 && y >= 0.0 && k % 2 == 0
    requires y - Mag(p, k) as real == Mag(p, k + 1) as real - y
    ensures RoundMag(p, y) == k
  {
    StepWidens(p, k);
    FloorIsOnly(p, y, k);
  }

  /** Where `step` seconds stand, three times and four times as much. */
  function OneAt(f: Format): nat {
    f.scale * f.step + f.step
  }

  function ThreeAt(f: Format): nat {
    (f.scale + 1) * f.step + 3 * (f.step / 2)
  }

  function FourAt(f: Format): nat {
    (f.scale + 2) * f.step + f.step
  }

  lemma RangeCovers(f: Format)
    requires Proper(f) && f.binades >= f.scale + 4
    ensures FourAt(f) % 2 == 0 && FourAt(f) + 1 <= Last(f)
    ensures OneAt(f) + 1 <= Last(f) && ThreeAt(f) <= Last(f)
  {
    var p := f.step;
    assert f.binades * p >= (f.scale + 4) * p;
    assert (f.scale + 4) * p == f.scale * p + 4 * p;
    assert FourAt(f) == f.scale * p + 3 * p;
    assert (f.scale + 1) * p == f.scale * p + p;
    assert f.scale * p + 3 * p == 2 * ((f.scale + 3) * (p / 2)) by {
      assert (f.scale + 3) * p == (f.scale + 3) * (2 * (p / 2));
    }
  }

  lemma ThreeInSeconds(f: Format)
    requires Proper(f)
    ensures Value(f, -(ThreeAt(f) as int)) == -((3 * f.step) as real)
  {
    Whole(f, 1, 3 * (f.step / 2));
    Opposite(f, ThreeAt(f));
    assert Pow2(1) == 2;
  }

  lemma FourInSeconds(f: Format)
    requires Proper(f)
    ensures Value(f, FourAt(f)) == (4 * f.step) as real
    ensures Value(f, FourAt(f) + 1) == (4 * f.step) as real + 4.0
  {
    Whole(f, 2, f.step);
    Whole(f, 2, f.step + 1);
    assert Pow2(2) == 4;
  }

  lemma OneInSeconds(f: Format)
    requires Proper(f)
    ensures Value(f, OneAt(f)) == f.step as real
    ensures Value(f, OneAt(f) + 1) == (f.step + 1) as real
  {
    Whole(f, 0, f.step);
    Whole(f, 0, f.step + 1);
    assert Pow2(0) == 1;
  }

  /** In units: four times `step`, and the next number, are four seconds apart. */
  lemma FourInUnits(f: Format)
    requires Proper(f)
    ensures Mag(f.step, FourAt(f)) as real == Units(f, (4 * f.step) as real)
    ensures Mag(f.step, FourAt(f) + 1) as real == Units(f, (4 * f.step) as real + 4.0)
  {
    FourInSeconds(f);
    BackToUnits(f, FourAt(f));
    BackToUnits(f, FourAt(f) + 1);
  }

  lemma UnitsAdd(f: Format, x: real, y: real)
    ensures Units(f, x + y) == Units(f, x) + Units(f, y)
  {
  }

  lemma UnitsGrow(f: Format, x: real, y: real)
    requires 1.0 <= x <= y
    ensures 1.0 <= Units(f, x) <= Units(f, y)
  {
    var q := Pow2(f.scale) as real;
    assert x * q >= q && (y - x) * q >= 0.0;
  }

  /** Two seconds more than four times `step` are rounded down. */
  lemma DelayRoundsDown(f: Format, delay: real, four: real, k: nat)
    requires Proper(f) && delay == four + 2.0 && k % 2 == 0
    requires Mag(f.step, k) as real == Units(f, four) && Mag(f.step, k + 1) as real == Units(f, four + 4.0)
    ensures RoundIndex(f, delay) == k
  {
    UnitsAdd(f, four, 2.0);
    UnitsAdd(f, delay, 2.0);
    TieIsRounded(f, delay, Units(f, delay), k);
  }

  lemma TieIsRounded(f: Format, x: real, y: real, k: nat)
    requires f.step > 0 && y == Units(f, x) && k % 2 == 0
    requires y - Mag(f.step, k) as real == Mag(f.step, k + 1) as real - y
    ensures RoundIndex(f, x) == k
  {
    StepWidens(f.step, k);
    TieToEven(f.step, y, k);
  }

  /** A fallback from one second up to there is accepted. */
  lemma FallbackIsAccepted(f: Format, x: real, four: real, k: nat)
    requires Proper(f) && k + 1 <= Last(f) && 1.0 <= x <= four && Mag(f.step, k) as real == Units(f, four)
    ensures Round(f, x).Some? && Round(f, x).value < |Points(f)| && Points(f)[Round(f, x).value] > 0.0
  {
    UnitsGrow(f, x, four);
    FloorBetween(f.step, Units(f, x), k);
    IndexAccepted(f, x);
  }

  lemma IndexAccepted(f: Format, x: real)
    requires Proper(f) && 1 <= RoundIndex(f, x) <= Last(f)
    ensures Round(f, x).Some? && Round(f, x).value < |Points(f)| && Points(f)[Round(f, x).value] > 0.0
  {
    var r := RoundIndex(f, x);
    InGrid(f, r);
    ZeroIsAt(f);
    ValueGrows(f, 0, r);
  }

  lemma FloorBetween(p: nat, y: real, k: nat)
    requires p > 0 && 1.0 <= y <= Mag(p, k) as real
    ensures 1 <= RoundMag(p, y) <= k + 1
  {
    var j := Floor(p, y, 0);
    assert Mag(p, 1) == 1;
    if k < j {
      MagGrows(p, k, j);
    }
  }

  /** Where on the grid these are. */
  lemma PointsThere(f: Format) returns (n: nat, s: nat)
    requires Proper(f) && f.binades >= f.scale + 4
    ensures n < |Points(f)| && Points(f)[n] == -((3 * f.step) as real)
    ensures s + 1 < |Points(f)| && Points(f)[s] == f.step as real && Points(f)[s + 1] == (f.step + 1) as real
  {
    RangeCovers(f);
    n, s := Last(f) - ThreeAt(f), Last(f) + OneAt(f);
    ThreeInSeconds(f);
    OneInSeconds(f);
    PointIs(f, n);
    PointIs(f, s);
    PointIs(f, s + 1);
  }

  lemma FourThere(f: Format) returns (k: nat)
    requires Proper(f) && f.binades >= f.scale + 4
    ensures k % 2 == 0 && k + 1 <= Last(f) && Last(f) + k < |Points(f)| && Points(f)[Last(f) + k] == (4 * f.step) as real
    ensures Mag(f.step, k) as real == Units(f, (4 * f.step) as real)
    ensures Mag(f.step, k + 1) as real == Units(f, (4 * f.step) as real + 4.0)
  {
    RangeCovers(f);
    k := FourAt(f);
    FourInSeconds(f);
    FourInUnits(f);
    PointIs(f, Last(f) + k);
  }

  lemma RoundAt(f: Format, g: Grid, x: real, k: nat)
    requires Proper(f) && g == GridOf(f) && RoundIndex(f, x) == k && k <= Last(f)
    ensures g.round(x) == Some(Last(f) + k)
  {
  }

  lemma PointRounds(f: Format, g: Grid, x: real, i: nat)
    requires Proper(f) && g == GridOf(f) && i < |g.points| && g.points[i] == x
    ensures g.round(x) == Some(i)
  {
    RoundsToItself(f, i);
  }

  lemma DelayThere(f: Format, g: Grid, delay: nat, fallback: real) returns (d: nat)
    requires Proper(f) && f.binades >= f.scale + 4 && g == GridOf(f)
    requires delay == 4 * f.step + 2 && 1.0 <= fallback <= (4 * f.step) as real
    ensures d < |g.points| && g.points[d] == (4 * f.step) as real && g.round(delay as real) == Some(d)
    ensures g.round(fallback).Some? && g.round(fallback).value < |g.points| && g.points[g.round(fallback).value] > 0.0
  {
    var k := FourThere(f);
    d := Last(f) + k;
    DelayRoundsDown(f, delay as real, (4 * f.step) as real, k);
    RoundAt(f, g, delay as real, k);
    FallbackIsAccepted(f, fallback, (4 * f.step) as real, k);
  }

  /** The step up from the rounded sum. */
  lemma AddUpThere(g: Grid, delay: real, n: nat, d: nat, s: nat)
    requires n < |g.points| && d < |g.points| && s + 1 < |g.points|
    requires g.round(delay) == Some(d) && g.round(g.points[n] + g.points[d]) == Some(s)
    requires g.points[s] < g.points[n] + delay
    ensures AddUp(g, n, delay) == Some(s + 1)
  {
  }

  lemma DeadlineThere(g: Grid, delay: nat, now: real, fallback: real, n: nat, r: nat)
    requires n < |g.points| && r < |g.points| && g.points[n] < g.points[r]
    requires g.round(now) == Some(n) && AddUp(g, n, delay as real) == Some(r)
    requires g.round(fallback).Some? && g.round(fallback).value < |g.points| && g.points[g.round(fallback).value] > 0.0
    ensures Deadline(g, Seconds(delay), now, fallback) == Some(r)
  {
  }

  /** Before the epoch a wait that is not representable can be shortened: on every such format with
      the range, three times `step` seconds before it a wait of two more than four times `step` ends
      one second early, whatever fallback is accepted. */
  lemma NegativeNowShortens(f: Format, g: Grid, delay: nat, now: real, fallback: real)
    requires Proper(f) && f.binades >= f.scale + 4 && g == GridOf(f)
    requires delay == 4 * f.step + 2 && now == -((3 * f.step) as real) && 1.0 <= fallback <= (4 * f.step) as real
    ensures Valid(g) && Deadline(g, Seconds(delay), now, fallback).Some?
    ensures g.points[Deadline(g, Seconds(delay), now, fallback).value] == now + delay as real - 1.0
  {
    var n, s := PointsThere(f);
    var d := DelayThere(f, g, delay, fallback);
    PointRounds(f, g, g.points[n] + g.points[d], s);
    AddUpThere(g, delay as real, n, d, s);
    PointRounds(f, g, now, n);
    DeadlineThere(g, delay, now, fallback, n, s + 1);
    GridIsValid(f);
  }

  /** On doubles: 13510798882111488 seconds before the epoch and 18014398509481986 to wait. */
  lemma DoublesShorten(g: Grid, now: real, delay: nat, fallback: real)
    requires g == GridOf(Binary64) && now == -13510798882111488.0 && delay == 18014398509481986 && fallback == 60.0
    ensures Valid(g) && Deadline(g, Seconds(delay), now, fallback).Some?
    ensures g.points[Deadline(g, Seconds(delay), now, fallback).value] == 4503599627370497.0 < now + delay as real
  {
    NegativeNowShortens(Binary64, g, delay, now, fallback);
  }
}
