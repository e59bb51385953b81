/**
 * Bounded arithmetic of the ledger: the clamp that keeps a posted amount inside
 * `[-MAX_INT64, MAX_INT64]`, and the list of amounts the correcting loop posts.
 */
module Int64 {

  const MAX_INT64 := 0x7fff_ffff_ffff_ffff
  const MIN_INT64 := -0x8000_0000_0000_0000

  predicate In64(x: int) { MIN_INT64 <= x <= MAX_INT64 }

  /** Amounts that can be negated without leaving int64. */
  predicate Postable(x: int) { -MAX_INT64 <= x <= MAX_INT64 }

  function Abs(x: int): nat { if x < 0 then -x else x }

  /** The clamp of the Python code. */
  function ContainPrincipalOverflow(value: int): (r: int)
    ensures Postable(r) && (Postable(value) ==> r == value)
    ensures value != 0 ==> r != 0 && Abs(value - r) < Abs(value)
  {
    if value <= MIN_INT64 then -MAX_INT64
    else if value > MAX_INT64 then MAX_INT64
    else value
  }

  /** The clamp of the stored procedure, which compares against different bounds. */
  function ContainPrincipalOverflowSql(value: int): int {
    if value < -9223372036854775807 then -9223372036854775807
    else if value > 9223372036854775807 then 9223372036854775807
    else value
  }

  lemma ClampsAgree(v: int)
    ensures ContainPrincipalOverflowSql(v) == ContainPrincipalOverflow(v)
  {
  }

  /** The amounts that the correcting loop posts in order to move a principal by `delta`. */
  function Corrections(delta: int): seq<int>
    decreases Abs(delta)
  {
    if delta == 0 then []
    else
      var safe := ContainPrincipalOverflow(delta);
      [safe] + Corrections(delta - safe)
  }

  function Sum(xs: seq<int>): int {
    if xs == [] then 0 else xs[0] + Sum(xs[1..])
  }

  predicate Between(x: int, a: int, b: int) { a <= x <= b || b <= x <= a }

  /** All principals on the way from `start` lie between `start` and `target`. */
  predicate StaysBetween(start: int, target: int, amounts: seq<int>)
    decreases |amounts|
  {
    amounts == [] ||
    (Between(start + amounts[0], start, target) && StaysBetween(start + amounts[0], target, amounts[1..]))
  }

  /** The loop posts non-zero amounts, hits the target exactly, and never overshoots. */
  lemma {:induction false} CorrectionsReachTarget(start: int, target: int)
    ensures var cs := Corrections(target - start);
            && Sum(cs) == target - start
            && StaysBetween(start, target, cs)
            && (forall i :: 0 <= i < |cs| ==> cs[i] != 0 && Postable(cs[i]))
    decreases Abs(target - start)
  {
    if start != target {
      var safe := ContainPrincipalOverflow(target - start);
      CorrectionsReachTarget(start + safe, target);
      assert target - (start + safe) == target - start - safe;
      assert Corrections(target - start)[1..] == Corrections(target - start - safe);
    }
  }

  /** Between two int64 principals the loop runs at most three times. */
  lemma AtMostThreeCorrections(start: int, target: int)
    requires In64(start) && In64(target)
    ensures |Corrections(target - start)| <= 3
    ensures start == MIN_INT64 && target == MAX_INT64 ==> |Corrections(target - start)| == 3
  {
    var d := target - start;
    if d != 0 {
      var d1 := d - ContainPrincipalOverflow(d);
      if d1 != 0 {
        var d2 := d1 - ContainPrincipalOverflow(d1);
        if d2 != 0 {
          assert Corrections(d2) == [d2] + Corrections(0);
          assert |Corrections(d1)| == 1 + |Corrections(d2)|;
          assert |Corrections(d)| == 1 + |Corrections(d1)|;
        }
      }
    }
  }

  /** No other way to post the same difference with postable amounts is shorter. */
  lemma {:induction false} FewestCorrections(amounts: seq<int>)
    requires forall i :: 0 <= i < |amounts| ==> Postable(amounts[i])
    ensures |Corrections(Sum(amounts))| <= |amounts|
  {
    if amounts != [] {
      SumIsBounded(amounts);
      CorrectionsFit(Sum(amounts), |amounts|);
    }
  }

  lemma {:induction false} SumIsBounded(amounts: seq<int>)
    requires forall i :: 0 <= i < |amounts| ==> Postable(amounts[i])
    ensures Abs(Sum(amounts)) <= |amounts| * MAX_INT64
  {
    if amounts != [] {
      SumIsBounded(amounts[1..]);
    }
  }

  lemma {:induction false} CorrectionsFit(delta: int, n: nat)
    requires Abs(delta) <= n * MAX_INT64
    ensures |Corrections(delta)| <= n
    decreases n
  {
    if delta != 0 {
      CorrectionsFit(delta - ContainPrincipalOverflow(delta), n - 1);
    }
  }
}
