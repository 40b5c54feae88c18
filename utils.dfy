/**
 * The two helpers of the rating engines: the rank name shown for a rating
 * and the bisection root finder used by the MMR skill estimates.
 */
module Utils {
  import opened Dicts

  // ---------------------------------------------------------------------
  // Rank names
  // ---------------------------------------------------------------------

  /** A cell of the rating column: the column header `'ELO'`, or a rating. */
  datatype EloCell = Header | Rating(value: real)

  datatype Rank = Division | Bronze | Silver | Gold | Platinum | Diamond | Master | Grandmaster {

    /** The string shown in the ranking table. */
    function Name(): string {
      match this
      case Division => "DIVISION"
      case Bronze => "BRONZE"
      case Silver => "SILVER"
      case Gold => "GOLD"
      case Platinum => "PLATINUM"
      case Diamond => "DIAMOND"
      case Master => "MASTER"
      case Grandmaster => "GRANDMASTER"
    }

    /** Position in the ladder, the header tier first. */
    function Tier(): nat {
      match this
      case Division => 0
      case Bronze => 1
      case Silver => 2
      case Gold => 3
      case Platinum => 4
      case Diamond => 5
      case Master => 6
      case Grandmaster => 7
    }
  }

  /** The lower bounds of the Silver to Grandmaster ranks. */
  const Thresholds: seq<real> := [500.0, 900.0, 1300.0, 1700.0, 2100.0, 2500.0]

  /** The if/elif chain of `getRankFromELO`, each bound compared with a strict `<`. */
  function RankOf(cell: EloCell): Rank {
    match cell
    case Header => Division
    case Rating(x) =>
      if x < 500.0 then Bronze
      else if x < 900.0 then Silver
      else if x < 1300.0 then Gold
      else if x < 1700.0 then Platinum
      else if x < 2100.0 then Diamond
      else if x < 2500.0 then Master
      else Grandmaster
  }

  /** `getRankFromELO`. */
  function GetRankFromElo(cell: EloCell): string {
    RankOf(cell).Name()
  }

  /** How many of the bounds in `ts` the rating `x` reaches. */
  function Reached(x: real, ts: seq<real>): nat {
    if ts == [] then 0 else (if ts[0] <= x then 1 else 0) + Reached(x, ts[1..])
  }

  /** Every rank has its own name, so a name identifies the rank. */
  lemma NamesDistinct(r1: Rank, r2: Rank)
    ensures r1.Name() == r2.Name() <==> r1 == r2
  {
    NameRoundTrip(r1);
    NameRoundTrip(r2);
  }

  /** Reads a rank back from its name. */
  function RankNamed(s: string): Option<Rank> {
    if s == "DIVISION" then Some(Division)
    else if s == "BRONZE" then Some(Bronze)
    else if s == "SILVER" then Some(Silver)
    else if s == "GOLD" then Some(Gold)
    else if s == "PLATINUM" then Some(Platinum)
    else if s == "DIAMOND" then Some(Diamond)
    else if s == "MASTER" then Some(Master)
    else if s == "GRANDMASTER" then Some(Grandmaster)
    else None
  }

  lemma NameRoundTrip(r: Rank)
    ensures RankNamed(r.Name()) == Some(r)
  {
  }

  /** The header, and nothing else, is shown as DIVISION. */
  lemma DivisionOnlyForHeader(cell: EloCell)
    ensures GetRankFromElo(cell) == "DIVISION" <==> cell == Header
  {
    NamesDistinct(RankOf(cell), Division);
  }

  /**
   * A rating's rank is one above the number of bounds it reaches: a rating
   * equal to a bound already belongs to the rank above it.
   */
  lemma {:induction false} RankCountsThresholds(x: real)
    ensures RankOf(Rating(x)).Tier() == 1 + Reached(x, Thresholds)
  {
    var ts := Thresholds;
    var c6 := Reached(x, ts[6..]);
    var c5 := Reached(x, ts[5..]);
    var c4 := Reached(x, ts[4..]);
    var c3 := Reached(x, ts[3..]);
    var c2 := Reached(x, ts[2..]);
    var c1 := Reached(x, ts[1..]);
    assert c6 == 0;
    assert ts[5..][1..] == ts[6..] && c5 == (if 2500.0 <= x then 1 else 0) + c6;
    assert ts[4..][1..] == ts[5..] && c4 == (if 2100.0 <= x then 1 else 0) + c5;
    assert ts[3..][1..] == ts[4..] && c3 == (if 1700.0 <= x then 1 else 0) + c4;
    assert ts[2..][1..] == ts[3..] && c2 == (if 1300.0 <= x then 1 else 0) + c3;
    assert ts[1..][1..] == ts[2..] && c1 == (if 900.0 <= x then 1 else 0) + c2;
  }

  lemma {:induction false} ReachedMonotone(x: real, y: real, ts: seq<real>)
    requires x <= y
    ensures Reached(x, ts) <= Reached(y, ts)
  {
    if ts != [] {
      ReachedMonotone(x, y, ts[1..]);
    }
  }

  /** A higher rating never shows a lower rank. */
  lemma RankMonotone(x: real, y: real)
    requires x <= y
    ensures RankOf(Rating(x)).Tier() <= RankOf(Rating(y)).Tier()
  {
    RankCountsThresholds(x);
    RankCountsThresholds(y);
    ReachedMonotone(x, y, Thresholds);
  }

  // ---------------------------------------------------------------------
  // Bisection
  // ---------------------------------------------------------------------

  /** The fixed bracket, the stopping tolerance, and the bracket's width. */
  const Lower: real := -10000.0
  const Upper: real := 10000.0
  const Tolerance: real := 0.00001
  const Width: real := 20000.0

  function Abs(x: real): real {
    if x < 0.0 then -x else x
  }

  /** 2^-n. */
  function Half(n: nat): (h: real)
    ensures 0.0 < h <= 1.0
  {
    if n == 0 then 1.0 else Half(n - 1) / 2.0
  }

  /**
   * The loop state after `n` halvings: the bracket `[a, b]` lies inside the
   * fixed one and has width `Width * 2^-n`, and `delta` is the width the
   * previous iteration measured (1 before the first iteration).
   */
  ghost predicate BisectionState(a: real, b: real, delta: real, n: nat) {
    && n <= 32
    && b - a == Width * Half(n)
    && delta == (if n == 0 then 1.0 else Width * Half(n - 1))
    && Lower <= a && b <= Upper
  }

  lemma {:induction false} HalfAdd(i: nat, j: nat)
    ensures Half(i + j) == Half(i) * Half(j)
  {
    if j > 0 {
      HalfAdd(i, j - 1);
      assert Half(i + j) == Half(i + j - 1) / 2.0;
    }
  }

  /** The measured width drops to the tolerance after 32 halvings and not before. */
  lemma HalvingsSuffice()
    ensures Width * Half(31) <= Tolerance < Width * Half(30)
  {
    assert Half(10) == 1.0 / 1024.0;
    HalfAdd(10, 10);
    HalfAdd(20, 10);
    assert Half(30) == 1.0 / 1073741824.0;
  }

  /**
   * The search from a given loop state: the loop body, iterated until the
   * measured width is at most the tolerance or the midpoint is a zero.
   */
  function BisectFrom(f: real -> real, a: real, b: real, delta: real, ghost n: nat): (r: real)
    requires BisectionState(a, b, delta, n)
    ensures a <= r < b
    decreases 32 - n
  {
    if delta <= Tolerance then a
    else
      HalvingsSuffice();
      var m := (a + b) / 2.0;
      if f(m) == 0.0 then m
      else if f(a) * f(m) > 0.0 then BisectFrom(f, m, b, Abs(b - a), n + 1)
      else BisectFrom(f, a, m, Abs(b - a), n + 1)
  }

  /** What `findZero(f)` returns. */
  function Bisection(f: real -> real): real {
    BisectFrom(f, Lower, Upper, 1.0, 0)
  }

  /** `findZero`: the bisection loop, halving the bracket until it is narrow enough. */
  method FindZero(f: real -> real) returns (r: real)
    ensures r == Bisection(f)
    ensures Lower <= r < Upper
  {
    var delta := 1.0;
    var a := Lower;
    var b := Upper;
    ghost var n: nat := 0;
    ghost var goal := Bisection(f);
    while delta > Tolerance
      invariant BisectionState(a, b, delta, n)
      invariant BisectFrom(f, a, b, delta, n) == goal
      decreases 32 - n
    {
      BisectStep(f, a, b, delta, n);
      var m := (a + b) / 2.0;
      delta := Abs(b - a);
      if f(m) == 0.0 {
        assert m == goal;
        a := m;
        break;
      } else if f(a) * f(m) > 0.0 {
        a := m;
      } else {
        b := m;
      }
      n := n + 1;
    }
    BisectDone(f, a, b, delta, n);
    r := a;
  }

  /** Once the measured width is within the tolerance, the search returns the lower end. */
  lemma BisectDone(f: real -> real, a: real, b: real, delta: real, n: nat)
    ensures BisectionState(a, b, delta, n) && delta <= Tolerance ==> BisectFrom(f, a, b, delta, n) == a
  {
  }

  /** One iteration of the loop: both halves are loop states, and the search continues in the one the signs select. */
  lemma BisectStep(f: real -> real, a: real, b: real, delta: real, n: nat)
    requires BisectionState(a, b, delta, n) && Tolerance < delta
    ensures n < 32
    ensures var m := (a + b) / 2.0;
      && BisectionState(m, b, Abs(b - a), n + 1)
      && BisectionState(a, m, Abs(b - a), n + 1)
      && BisectFrom(f, a, b, delta, n) ==
         if f(m) == 0.0 then m
         else if f(a) * f(m) > 0.0 then BisectFrom(f, m, b, Abs(b - a), n + 1)
         else BisectFrom(f, a, m, Abs(b - a), n + 1)
  {
    DeltaAboveTolerance(a, b, delta, n);
    Halving(a, b, delta, n);
  }

  /** When `f(a)` and `f(m)` have the same sign, `f(m)` and `f(b)` do not. */
  lemma SignStep(fa: real, fm: real, fb: real)
    requires fa * fb <= 0.0
    requires fa * fm > 0.0
    ensures fm * fb <= 0.0
  {
    if fa > 0.0 {
      assert fm > 0.0 && fb <= 0.0;
    } else {
      assert fa < 0.0 && fm < 0.0 && fb >= 0.0;
    }
  }

  /** The measured width is above the tolerance exactly before the 32nd halving. */
  lemma DeltaAboveTolerance(a: real, b: real, delta: real, n: nat)
    requires BisectionState(a, b, delta, n)
    ensures n < 32 <==> Tolerance < delta
  {
    HalvingsSuffice();
    if 0 < n < 32 {
      HalfDecreasing(n - 1, 30);
    }
  }

  /**
   * `r` is a zero of `f`, or `f` changes sign (or vanishes) between `r` and
   * `r + Width * 2^-32`, the width of the bracket after the last halving.
   */
  ghost predicate NearRoot(f: real -> real, r: real) {
    f(r) == 0.0 || f(r) * f(r + Width * Half(32)) <= 0.0
  }

  /**
   * Bracketing: if `f` changes sign (or vanishes) between `a` and `b`, the
   * search returns a zero of `f`, or a point `r` such that `f` changes sign
   * (or vanishes) between `r` and `r + Width * 2^-32`, which is within half
   * the tolerance.
   */
  lemma {:induction false} BisectFromBrackets(f: real -> real, a: real, b: real, delta: real, n: nat)
    requires BisectionState(a, b, delta, n)
    requires f(a) * f(b) <= 0.0
    ensures NearRoot(f, BisectFrom(f, a, b, delta, n))
    decreases 32 - n
  {
    if delta <= Tolerance {
      BracketsAtEnd(f, a, b, delta, n);
    } else {
      DeltaAboveTolerance(a, b, delta, n);
      Halving(a, b, delta, n);
      var m := (a + b) / 2.0;
      var fa, fm, fb := f(a), f(m), f(b);
      if fm == 0.0 {
        assert BisectFrom(f, a, b, delta, n) == m;
      } else if fa * fm > 0.0 {
        SignStep(fa, fm, fb);
        BisectFromBrackets(f, m, b, Abs(b - a), n + 1);
        MovesLower(f, a, b, delta, n);
      } else {
        BisectFromBrackets(f, a, m, Abs(b - a), n + 1);
        assert BisectFrom(f, a, b, delta, n) == BisectFrom(f, a, m, Abs(b - a), n + 1);
      }
    }
  }

  /** Either half of the bracket is the next loop state. */
  lemma Halving(a: real, b: real, delta: real, n: nat)
    requires BisectionState(a, b, delta, n)
    requires n < 32
    ensures BisectionState((a + b) / 2.0, b, Abs(b - a), n + 1)
    ensures BisectionState(a, (a + b) / 2.0, Abs(b - a), n + 1)
  {
  }

  /** A midpoint with the sign of `f(a)` becomes the new lower end. */
  lemma MovesLower(f: real -> real, a: real, b: real, delta: real, n: nat)
    requires BisectionState(a, b, delta, n)
    requires Tolerance < delta
    requires f((a + b) / 2.0) != 0.0 && f(a) * f((a + b) / 2.0) > 0.0
    ensures n < 32
    ensures BisectFrom(f, a, b, delta, n) == BisectFrom(f, (a + b) / 2.0, b, Abs(b - a), n + 1)
  {
    HalvingsSuffice();
  }

  /** On a normal exit the bracket is the final one, of width `Width * 2^-32`. */
  lemma BracketsAtEnd(f: real -> real, a: real, b: real, delta: real, n: nat)
    requires BisectionState(a, b, delta, n)
    requires f(a) * f(b) <= 0.0
    requires delta <= Tolerance
    ensures NearRoot(f, BisectFrom(f, a, b, delta, n))
  {
    DeltaAboveTolerance(a, b, delta, n);
    assert n == 32;
    assert a + Width * Half(32) == b;
    assert BisectFrom(f, a, b, delta, n) == a;
  }

  /** `findZero` on a function that changes sign over the fixed bracket. */
  lemma BisectionBrackets(f: real -> real)
    requires f(Lower) * f(Upper) <= 0.0
    ensures NearRoot(f, Bisection(f))
    ensures Width * Half(32) <= Tolerance / 2.0
  {
    HalvingsSuffice();
    BisectFromBrackets(f, Lower, Upper, 1.0, 0);
  }

  /** A zero hit exactly at the first midpoint is returned as is. */
  lemma BisectionFirstMidpoint(f: real -> real)
    requires f(0.0) == 0.0
    ensures Bisection(f) == 0.0
  {
    HalvingsSuffice();
    assert (Lower + Upper) / 2.0 == 0.0;
  }

  /**
   * Without a sign change the search never moves `b`: the result drifts to
   * the top of the bracket instead of signalling a failure.
   */
  lemma {:induction false} BisectFromDrifts(f: real -> real, a: real, delta: real, n: nat)
    requires BisectionState(a, Upper, delta, n)
    requires forall x :: Lower <= x < Upper ==> f(x) > 0.0
    ensures BisectFrom(f, a, Upper, delta, n) == Upper - Width * Half(32)
    decreases 32 - n
  {
    HalvingsSuffice();
    DeltaAboveTolerance(a, Upper, delta, n);
    if delta > Tolerance {
      BisectStep(f, a, Upper, delta, n);
      var m := (a + Upper) / 2.0;
      PositiveProduct(f(a), f(m));
      BisectFromDrifts(f, m, Abs(Upper - a), n + 1);
    }
  }

  lemma PositiveProduct(x: real, y: real)
    requires 0.0 < x && 0.0 < y
    ensures 0.0 < x * y
  {
  }

  lemma {:induction false} HalfDecreasing(i: nat, j: nat)
    requires i <= j
    ensures Half(j) <= Half(i)
    decreases j - i
  {
    if i < j {
      HalfDecreasing(i, j - 1);
    }
  }

  /** A function positive over the bracket yields the top of the bracket minus 2^-32 of its width. */
  lemma BisectionWithoutRoot(f: real -> real)
    requires forall x :: Lower <= x < Upper ==> f(x) > 0.0
    ensures Bisection(f) == Upper - Width * Half(32)
  {
    BisectFromDrifts(f, Lower, 1.0, 0);
  }

  /** The search reads `f` only inside the bracket. */
  lemma {:induction false} BisectFromExtensional(f: real -> real, g: real -> real, a: real, b: real, delta: real, n: nat)
    requires BisectionState(a, b, delta, n)
    requires forall x :: Lower <= x <= Upper ==> f(x) == g(x)
    ensures BisectFrom(f, a, b, delta, n) == BisectFrom(g, a, b, delta, n)
    decreases 32 - n
  {
    if delta > Tolerance {
      HalvingsSuffice();
      var m := (a + b) / 2.0;
      BisectFromExtensional(f, g, m, b, Abs(b - a), n + 1);
      BisectFromExtensional(f, g, a, m, Abs(b - a), n + 1);
    }
  }

  lemma BisectionExtensional(f: real -> real, g: real -> real)
    requires forall x :: Lower <= x <= Upper ==> f(x) == g(x)
    ensures Bisection(f) == Bisection(g)
  {
    BisectFromExtensional(f, g, Lower, Upper, 1.0, 0);
  }
}
