/** Retry-After deadlines (src/inference_grid/retry_after.py; section 10.2.3 of RFC 9110) over a
    grid of representable instants: adding rounds to the nearest one, and steps up once where
    that is before the exact sum. */
module RetryAfter {
  import opened Wrappers

  /** The representable numbers in increasing order, and rounding to the index of a nearest one;
      None is an overflow. Any way of breaking ties is allowed. */
  datatype Grid = Grid(points: seq<real>, round: real -> Option<nat>)

  function Abs(x: real): real {
    if x < 0.0 then -x else x
  }

  ghost predicate Nearest(points: seq<real>, x: real, i: nat) {
    i < |points| && forall j :: 0 <= j < |points| ==> Abs(points[i] - x) <= Abs(points[j] - x)
  }

  ghost predicate Increasing(points: seq<real>) {
    forall i, j :: 0 <= i < j < |points| ==> points[i] < points[j]
  }

  /** The distance from one point to the next. */
  function Gap(points: seq<real>, i: nat): real
    requires i + 1 < |points|
  {
    points[i + 1] - points[i]
  }

  /** Away from zero the points lie no closer together. */
  ghost predicate Widening(points: seq<real>) {
    forall i, j {:trigger Gap(points, i), Gap(points, j)} ::
      0 <= i <= j && j + 1 < |points| && points[i] >= 0.0 ==> Gap(points, i) <= Gap(points, j)
  }

  ghost predicate Valid(g: Grid) {
    && Increasing(g.points)
    && Widening(g.points)
    && 0.0 in g.points
    && (forall x :: g.round(x).Some? ==> Nearest(g.points, x, g.round(x).value))
    && (forall i :: 0 <= i < |g.points| ==> g.round(g.points[i]) == Some(i))
  }

  /** A header value: delay seconds, a date that parses with a zone, or anything else. */
  datatype Header = Seconds(n: nat) | Date(at: real) | Other

  /** The next representable number above, unless there is none: `math.nextafter`. */
  function NextAfter(g: Grid, i: nat): Option<nat> {
    if i + 1 < |g.points| then Some(i + 1) else None
  }

  /** The index of `now + delay` after the correction; None when it overflows. */
  function AddUp(g: Grid, now: nat, delay: real): Option<nat>
    requires now < |g.points|
  {
    match g.round(delay)
    case None => None
    case Some(d) =>
      if d >= |g.points| then None
      else
        match g.round(g.points[now] + g.points[d])
        case None => None
        case Some(s) =>
          if s >= |g.points| then None
          else if g.points[s] < g.points[now] + delay then NextAfter(g, s)
          else Some(s)
  }

  function Later(g: Grid, i: nat, j: nat): nat
    requires i < |g.points| && j < |g.points|
  {
    if g.points[i] < g.points[j] then j else i
  }

  /** The deadline as a grid index; None is an error the caller gets. */
  function Deadline(g: Grid, header: Header, now: real, fallback: real): (r: Option<nat>)
    ensures r.Some? ==> r.value < |g.points|
  {
    match (g.round(now), g.round(fallback))
    case (Some(n), Some(f)) =>
      if n >= |g.points| || f >= |g.points| || g.points[f] <= 0.0 then None
      else (
        match header
        case Date(at) => (match g.round(at) case Some(d) => if d < |g.points| then Some(Later(g, n, d)) else None case None => None)
        case Seconds(s) => (match AddUp(g, n, s as real) case Some(d) => Some(Later(g, n, d)) case None => None)
        case Other => (match AddUp(g, n, g.points[f]) case Some(d) => Some(Later(g, n, d)) case None => None)
      )
    case _ => None
  }

  method RetryDeadline(g: Grid, header: Header, now: real, fallback: real) returns (r: Option<nat>)
    ensures r == Deadline(g, header, now, fallback)
  {
    var n := g.round(now);
    if n.None? { return None; }
    var f := g.round(fallback);
    if f.None? || n.value >= |g.points| || f.value >= |g.points| || g.points[f.value] <= 0.0 { return None; }
    var delay := g.points[f.value];
    match header {
      case Seconds(s) =>
        delay := s as real;
      case Date(at) =>
        var d := g.round(at);
        if d.None? || d.value >= |g.points| { return None; }
        return Some(Later(g, n.value, d.value));
      case Other =>
    }
    var rounded := g.round(delay);
    if rounded.None? || rounded.value >= |g.points| { return None; }
    var deadline := g.round(g.points[n.value] + g.points[rounded.value]);
    if deadline.None? || deadline.value >= |g.points| { return None; }
    if g.points[deadline.value] < g.points[n.value] + delay {
      deadline := NextAfter(g, deadline.value);
      if deadline.None? { return None; }
    }
    return Some(Later(g, n.value, deadline.value));
  }

  // ----- Never rounded down --------------------------------------------------------------

  ghost predicate Representable(g: Grid, x: real) {
    exists i :: 0 <= i < |g.points| && g.points[i] == x
  }

  /** The least representable instant at or after `x`. */
  ghost predicate LeastFrom(g: Grid, x: real, i: nat) {
    && i < |g.points| && g.points[i] >= x
    && forall j :: 0 <= j < |g.points| && g.points[j] >= x ==> g.points[i] <= g.points[j]
  }

  lemma NearestBelow(g: Grid, x: real, i: nat)
    requires Valid(g) && Nearest(g.points, x, i) && i + 1 < |g.points|
    ensures x - g.points[i] <= Gap(g.points, i) / 2.0
  {
  }

  lemma NearestNotBelow(g: Grid, x: real, i: nat, d: nat)
    requires Valid(g) && Nearest(g.points, x, i) && d < |g.points| && g.points[d] <= x
    ensures d <= i
  {
  }

  lemma AddUpIs(g: Grid, now: nat, delay: real) returns (d: nat, s: nat)
    requires now < |g.points| && AddUp(g, now, delay).Some?
    ensures d < |g.points| && s < |g.points| && g.round(delay) == Some(d) && g.round(g.points[now] + g.points[d]) == Some(s)
    ensures g.points[s] < g.points[now] + delay ==> s + 1 < |g.points| && AddUp(g, now, delay) == Some(s + 1)
    ensures g.points[s] >= g.points[now] + delay ==> AddUp(g, now, delay) == Some(s)
  {
    d := g.round(delay).value;
    s := g.round(g.points[now] + g.points[d]).value;
  }

  /** Rounding lost no more than one step up gives back: on the delay and on the sum together at
      most the gap above the rounded sum, or nothing at all. */
  predicate OneStepIsEnough(g: Grid, now: nat, delay: real)
    requires now < |g.points|
  {
    match g.round(delay)
    case None => false
    case Some(d) =>
      d < |g.points| &&
      match g.round(g.points[now] + g.points[d])
      case None => false
      case Some(s) =>
        && s < |g.points|
        && (g.points[s] < g.points[now] + delay && s + 1 < |g.points| ==>
              (delay - g.points[d]) + (g.points[now] + g.points[d] - g.points[s]) <= Gap(g.points, s))
  }

  /** The corrected sum is not below the exact one exactly when one step was enough. */
  lemma AddUpKeepsExactly(g: Grid, now: nat, delay: real)
    requires now < |g.points| && AddUp(g, now, delay).Some?
    ensures AddUp(g, now, delay).value < |g.points|
    ensures g.points[AddUp(g, now, delay).value] >= g.points[now] + delay <==> OneStepIsEnough(g, now, delay)
  {
    var d, s := AddUpIs(g, now, delay);
  }

  /** So it is, unless now is before the epoch and the delay is not representable. */
  lemma OneStepSuffices(g: Grid, now: nat, delay: real)
    requires Valid(g) && now < |g.points| && delay >= 0.0
    requires g.points[now] >= 0.0 || Representable(g, delay)
    requires AddUp(g, now, delay).Some?
    ensures OneStepIsEnough(g, now, delay)
  {
    var d, s := AddUpIs(g, now, delay);
    if g.points[s] < g.points[now] + delay {
      LossesFit(g, now, delay, d, s);
    }
    EnoughBy(g, now, delay, d, s);
  }

  lemma EnoughBy(g: Grid, now: nat, delay: real, d: nat, s: nat)
    requires now < |g.points| && d < |g.points| && s < |g.points|
    requires g.round(delay) == Some(d) && g.round(g.points[now] + g.points[d]) == Some(s)
    requires g.points[s] < g.points[now] + delay && s + 1 < |g.points| ==>
               (delay - g.points[d]) + (g.points[now] + g.points[d] - g.points[s]) <= Gap(g.points, s)
    ensures OneStepIsEnough(g, now, delay)
  {
  }

  lemma LossesFit(g: Grid, now: nat, delay: real, d: nat, s: nat)
    requires Valid(g) && now < |g.points| && delay >= 0.0 && d < |g.points| && s + 1 < |g.points|
    requires g.points[now] >= 0.0 || Representable(g, delay)
    requires g.round(delay) == Some(d) && g.round(g.points[now] + g.points[d]) == Some(s)
    requires g.points[s] < g.points[now] + delay
    ensures (delay - g.points[d]) + (g.points[now] + g.points[d] - g.points[s]) <= Gap(g.points, s)
  {
    var sum := g.points[now] + g.points[d];
    RoundedBelow(g, sum, s);
    if Representable(g, delay) {
      RepresentableRoundsToItself(g, delay);
    } else if g.points[d] < delay {
      GapBelow(g, now, delay, d, s);
      HalfGaps(g.points[now], g.points[d], delay, g.points[s], Gap(g.points, d), Gap(g.points, s));
    }
  }

  /** The delay lost at most half of a gap that is no wider than the one at the sum. */
  lemma GapBelow(g: Grid, now: nat, delay: real, d: nat, s: nat)
    requires Valid(g) && now < |g.points| && d < |g.points| && s + 1 < |g.points| && g.points[now] >= 0.0 && delay >= 0.0
    requires g.round(delay) == Some(d) && g.round(g.points[now] + g.points[d]) == Some(s)
    ensures d + 1 < |g.points| && delay - g.points[d] <= Gap(g.points, d) / 2.0
    ensures Gap(g.points, d) <= Gap(g.points, s)
  {
    RoundedInOrder(g, now, delay, d, s);
    RoundedBelow(g, delay, d);
    GapsWiden(g, d, s);
  }

  lemma HalfGaps(now: real, d: real, delay: real, s: real, gap: real, gap': real)
    requires delay - d <= gap / 2.0 && now + d - s <= gap' / 2.0 && gap <= gap'
    ensures (delay - d) + (now + d - s) <= gap'
  {
  }

  lemma RepresentableRoundsToItself(g: Grid, x: real)
    requires Valid(g) && Representable(g, x)
    ensures g.round(x).Some? && g.round(x).value < |g.points| && g.points[g.round(x).value] == x
  {
    var i :| 0 <= i < |g.points| && g.points[i] == x;
  }

  lemma RoundedBelow(g: Grid, x: real, i: nat)
    requires Valid(g) && g.round(x) == Some(i) && i + 1 < |g.points|
    ensures x - g.points[i] <= Gap(g.points, i) / 2.0
  {
    NearestBelow(g, x, i);
  }

  /** From the epoch on the rounded delay is no later than the rounded sum, and not negative. */
  lemma RoundedInOrder(g: Grid, now: nat, delay: real, d: nat, s: nat)
    requires Valid(g) && now < |g.points| && d < |g.points| && g.points[now] >= 0.0 && delay >= 0.0
    requires g.round(delay) == Some(d) && g.round(g.points[now] + g.points[d]) == Some(s)
    ensures d <= s && g.points[d] >= 0.0
  {
    var zero :| 0 <= zero < |g.points| && g.points[zero] == 0.0;
    NearestNotBelow(g, delay, d, zero);
    NearestNotBelow(g, g.points[now] + g.points[d], s, d);
  }

  lemma GapsWiden(g: Grid, d: nat, s: nat)
    requires Valid(g) && d <= s && s + 1 < |g.points| && g.points[d] >= 0.0
    ensures Gap(g.points, d) <= Gap(g.points, s)
  {
  }

  /** For a delay that is representable, the sum corrected upward is the least instant that does
      not shorten the wait. */
  lemma AddUpIsLeast(g: Grid, now: nat, delay: real)
    requires Valid(g) && now < |g.points| && delay >= 0.0 && Representable(g, delay)
    requires AddUp(g, now, delay).Some?
    ensures LeastFrom(g, g.points[now] + delay, AddUp(g, now, delay).value)
  {
    RepresentableRoundsToItself(g, delay);
    var d, s := AddUpIs(g, now, delay);
    NearestThenUp(g, g.points[now] + delay, s);
  }

  /** The nearest point or, where that is below, the next one is the least that is not below. */
  lemma NearestThenUp(g: Grid, x: real, s: nat)
    requires Valid(g) && g.round(x) == Some(s) && s < |g.points|
    ensures g.points[s] >= x ==> LeastFrom(g, x, s)
    ensures g.points[s] < x && s + 1 < |g.points| ==> LeastFrom(g, x, s + 1)
  {
    assert Nearest(g.points, x, s);
    LeastOfNearest(g, x, s);
  }

  lemma LeastOfNearest(g: Grid, x: real, s: nat)
    requires Increasing(g.points) && Nearest(g.points, x, s)
    ensures g.points[s] >= x ==> LeastFrom(g, x, s)
    ensures g.points[s] < x && s + 1 < |g.points| ==> LeastFrom(g, x, s + 1)
  {
    forall j | 0 <= j < |g.points| && g.points[j] >= x
      ensures g.points[s] >= x ==> g.points[s] <= g.points[j]
      ensures g.points[s] < x ==> s < j
    {
      assert Abs(g.points[s] - x) <= Abs(g.points[j] - x);
    }
    if g.points[s] < x && s + 1 < |g.points| {
      assert Abs(g.points[s] - x) <= Abs(g.points[s + 1] - x);
    }
  }

  // ----- The deadline --------------------------------------------------------------------

  /** The exact wait a header asks for: its seconds, or the fallback. */
  function Wait(g: Grid, header: Header, fallback: nat): real
    requires fallback < |g.points|
  {
    match header case Seconds(n) => n as real case _ => g.points[fallback]
  }

  /** A deadline for delay seconds or the fallback keeps the wait exactly when what rounding lost on
      the wait and on the sum is at most the one step up. */
  lemma DeadlineKeepsExactly(g: Grid, header: Header, now: real, fallback: real)
    requires Valid(g) && !header.Date? && Deadline(g, header, now, fallback).Some?
    ensures g.round(now).Some? && g.round(now).value < |g.points|
    ensures g.round(fallback).Some? && g.round(fallback).value < |g.points|
    ensures var wait := Wait(g, header, g.round(fallback).value);
            g.points[Deadline(g, header, now, fallback).value] >= g.points[g.round(now).value] + wait <==>
              OneStepIsEnough(g, g.round(now).value, wait)
  {
    var n, f := g.round(now).value, g.round(fallback).value;
    var wait := Wait(g, header, f);
    AddUpKeepsExactly(g, n, wait);
    if wait == 0.0 {
      assert Representable(g, wait);
      OneStepSuffices(g, n, wait);
    }
  }

  /** No deadline for delay seconds or the fallback is before now plus the exact wait: for every
      now at or after the epoch, and for every now when the wait is representable. */
  lemma DeadlineNeverShortens(g: Grid, header: Header, now: real, fallback: real)
    requires Valid(g) && !header.Date? && Deadline(g, header, now, fallback).Some?
    ensures g.round(now).Some? && g.round(now).value < |g.points|
    ensures g.round(fallback).Some? && g.round(fallback).value < |g.points|
    ensures var wait := Wait(g, header, g.round(fallback).value);
            g.points[g.round(now).value] >= 0.0 || Representable(g, wait) ==>
              g.points[Deadline(g, header, now, fallback).value] >= g.points[g.round(now).value] + wait
  {
    var n, f := g.round(now).value, g.round(fallback).value;
    var wait := Wait(g, header, f);
    DeadlineKeepsExactly(g, header, now, fallback);
    if g.points[n] >= 0.0 || Representable(g, wait) {
      OneStepSuffices(g, n, wait);
    }
  }

  /** When the wait itself is representable the deadline is the least instant that keeps it. */
  lemma DeadlineIsLeast(g: Grid, header: Header, now: real, fallback: real)
    requires Valid(g) && !header.Date? && Deadline(g, header, now, fallback).Some?
    requires g.round(now).Some? && g.round(now).value < |g.points|
    requires g.round(fallback).Some? && g.round(fallback).value < |g.points|
    requires Representable(g, Wait(g, header, g.round(fallback).value))
    ensures LeastFrom(g, g.points[g.round(now).value] + Wait(g, header, g.round(fallback).value),
                      Deadline(g, header, now, fallback).value)
  {
    AddUpIsLeast(g, g.round(now).value, Wait(g, header, g.round(fallback).value));
  }

  /** A date is an absolute deadline; one in the past is now. No header's deadline is before
      now. */
  lemma DeadlineIsNotPast(g: Grid, header: Header, now: real, fallback: real)
    requires Valid(g) && Deadline(g, header, now, fallback).Some?
    ensures g.round(now).Some? && g.round(now).value < |g.points|
    ensures g.points[Deadline(g, header, now, fallback).value] >= g.points[g.round(now).value]
    ensures header.Date? && Representable(g, header.at) ==>
              g.points[Deadline(g, header, now, fallback).value] ==
              if header.at < g.points[g.round(now).value] then g.points[g.round(now).value] else header.at
  {
    if header.Date? && Representable(g, header.at) {
      RepresentableRoundsToItself(g, header.at);
    }
  }
}
