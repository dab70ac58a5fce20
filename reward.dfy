/** The error and reward the environment computes after every step.

    Angles are exact here: the error is a sum of two squared ratios and the
    reward a threshold-gated rescaling of it plus a shaping term, all over
    `real`. */
module CameraReward {
  import opened CameraGrid

  /** Normalised squared angular error: each angle divided by the largest
      absolute angle of its grid (MaxTilt and MaxPan, see GridMaxima),
      squared, and the two summed. */
  function Error(tilt: int, pan: int): (e: real)
    ensures e >= 0.0
    ensures e == 0.0 <==> tilt == 0 && pan == 0
  {
    SquaredRatio(tilt, MaxTilt) + SquaredRatio(pan, MaxPan)
  }

  /** (angle / bound) squared. */
  function SquaredRatio(angle: int, bound: nat): (q: real)
    requires bound > 0
    ensures q >= 0.0
    ensures q == 0.0 <==> angle == 0
    ensures Abs(angle) <= bound ==> q <= 1.0
  {
    var x := angle as real / bound as real;
    SquareBounds(x);
    x * x
  }

  lemma SquareBounds(x: real)
    ensures x * x >= 0.0
    ensures x != 0.0 ==> x * x > 0.0
    ensures -1.0 <= x <= 1.0 ==> x * x <= 1.0
  {
    var a := if x < 0.0 then -x else x;
    assert x * x == a * a;
    if x != 0.0 {
      PositiveSquare(a);
    }
    if a <= 1.0 {
      SquareMonotone(a, 1.0);
    }
  }

  lemma PositiveSquare(a: real)
    requires a > 0.0
    ensures a * a > 0.0
  {
  }

  lemma SquareMonotone(x: real, y: real)
    requires 0.0 <= x <= y
    ensures x * x <= y * y
  {
    assert x * x <= x * y;
    assert x * y <= y * y;
  }

  /** The error at grid indices. */
  function ErrorAt(i: int, j: int): real
    requires InGrid(i, j)
  {
    Error(Tilts[i], Pans[j])
  }

  /** On the grid the error lies in [0, 2] and is zero exactly at the centre. */
  lemma ErrorOnGrid(i: int, j: int)
    requires InGrid(i, j)
    ensures 0.0 <= ErrorAt(i, j) <= 2.0
    ensures ErrorAt(i, j) == 0.0 <==> i == CentreTilt && j == CentrePan
  {
    GridMaxima();
    ZeroAngleAtCentre(i, j);
    assert Abs(Tilts[i]) <= MaxTilt;
    assert Abs(Pans[j]) <= MaxPan;
  }

  /** Base reward: raw = (2 - error) / 2, zero below 0.95, otherwise the
      top 5% of raw's range rescaled to [0, 1]. */
  function BaseReward(error: real): (r: real)
    ensures r >= 0.0
    ensures r == 0.0 <==> error >= 0.1
    ensures error <= 0.1 ==> r == (0.1 - error) / 0.1
    ensures error >= 0.0 ==> r <= 1.0
    ensures r == 1.0 <==> error == 0.0
  {
    var raw := (2.0 - error) / 2.0;
    if raw < 0.95 then 0.0 else (raw - 0.95) / 0.05
  }

  /** A larger error never earns a larger base reward. */
  lemma BaseRewardMonotone(e1: real, e2: real)
    requires e1 <= e2
    ensures BaseReward(e1) >= BaseReward(e2)
  {
  }

  /** The base reward is positive exactly on the centre and its eight grid
      neighbours: one tilt step and one pan step away is still rewarded,
      two steps on either axis is not. */
  lemma RewardRegion(i: int, j: int)
    requires InGrid(i, j)
    ensures BaseReward(ErrorAt(i, j)) > 0.0 <==>
      -1 <= i - CentreTilt <= 1 && -1 <= j - CentrePan <= 1
  {
    var t := SquaredRatio(Tilts[i], 60);
    var p := SquaredRatio(Pans[j], 90);
    assert ErrorAt(i, j) == t + p;
    TiltTerm(i);
    PanTerm(j);
  }

  lemma TiltTerm(i: int)
    requires 0 <= i < |Tilts|
    ensures -1 <= i - CentreTilt <= 1 ==> SquaredRatio(Tilts[i], 60) <= 0.0625
    ensures !(-1 <= i - CentreTilt <= 1) ==> SquaredRatio(Tilts[i], 60) >= 0.25
  {
    var x := Tilts[i] as real / 60.0;
    if i <= 1 {
      assert x <= -0.5;
      SquareMonotone(0.5, -x);
      assert x * x == (-x) * (-x);
    } else if i >= 5 {
      assert x >= 0.5;
      SquareMonotone(0.5, x);
    } else if i == 2 {
      assert x == -0.25;
    } else if i == 4 {
      assert x == 0.25;
    }
  }

  lemma PanTerm(j: int)
    requires 0 <= j < |Pans|
    ensures -1 <= j - CentrePan <= 1 ==> SquaredRatio(Pans[j], 90) <= 1.0 / 36.0
    ensures !(-1 <= j - CentrePan <= 1) ==> SquaredRatio(Pans[j], 90) >= 1.0 / 9.0
  {
    PanAt(j);
    var y := Pans[j] as real / 90.0;
    if j <= 4 {
      assert y <= -1.0 / 3.0;
      SquareMonotone(1.0 / 3.0, -y);
      assert y * y == (-y) * (-y);
    } else if j >= 8 {
      assert y >= 1.0 / 3.0;
      SquareMonotone(1.0 / 3.0, y);
    } else if j == 5 {
      assert y == -1.0 / 6.0;
    } else if j == 7 {
      assert y == 1.0 / 6.0;
    }
  }

  /** Trend shaping from the error history (after the newest error has been
      appended): +0.1 when the error went down since the previous step,
      -0.15 when it went up, nothing on a tie or while the history holds
      at most two errors. */
  function Shaping(history: seq<real>): (b: real)
    ensures |history| <= 2 ==> b == 0.0
    ensures b == 0.1 <==> |history| > 2 && history[|history| - 2] > history[|history| - 1]
    ensures b == -0.15 <==> |history| > 2 && history[|history| - 2] < history[|history| - 1]
    ensures b == 0.0 <==> |history| <= 2 || history[|history| - 2] == history[|history| - 1]
    ensures -0.15 <= b <= 0.1
  {
    var n := |history|;
    if n > 2 && history[n - 2] > history[n - 1] then 0.1
    else if n > 2 && history[n - 2] < history[n - 1] then -0.15
    else 0.0
  }

  /** The reward one step returns: base reward of the new error plus the
      trend shaping over the history that ends with it. */
  function Reward(error: real, history: seq<real>): (r: real)
    requires history != [] && history[|history| - 1] == error
    ensures error >= 0.0 ==> -0.15 <= r <= 1.1
    ensures error >= 0.1 ==> r <= 0.1
    ensures |history| <= 2 || history[|history| - 2] == error ==> r == BaseReward(error)
    ensures |history| > 2 && history[|history| - 2] > error ==> r == BaseReward(error) + 0.1
    ensures |history| > 2 && history[|history| - 2] < error ==> r == BaseReward(error) - 0.15
  {
    BaseReward(error) + Shaping(history)
  }

  /** Sum of the shaping terms over an episode whose error history is
      `history`: step k contributes the shaping of the first k errors. */
  function ShapingTotal(history: seq<real>): real
    decreases |history|
  {
    if history == [] then 0.0
    else ShapingTotal(history[..|history| - 1]) + Shaping(history)
  }

  predicate Decreasing(history: seq<real>) {
    forall k :: 0 < k < |history| ==> history[k - 1] > history[k]
  }

  predicate Increasing(history: seq<real>) {
    forall k :: 0 < k < |history| ==> history[k - 1] < history[k]
  }

  /** An episode whose error goes down at every step collects +0.1 on every
      step but the first two. */
  lemma {:induction false} DecreasingEpisode(history: seq<real>)
    requires |history| >= 2 && Decreasing(history)
    ensures ShapingTotal(history) == 0.1 * (|history| - 2) as real
    decreases |history|
  {
    var n := |history|;
    var front := history[..n - 1];
    if n == 2 {
      assert front[..0] == [];
      assert ShapingTotal(front) == ShapingTotal(front[..0]) + Shaping(front);
    } else {
      assert Decreasing(front) by {
        forall k | 0 < k < |front| ensures front[k - 1] > front[k] {
          assert front[k - 1] == history[k - 1] && front[k] == history[k];
        }
      }
      DecreasingEpisode(front);
    }
  }

  /** An episode whose error goes up at every step loses 0.15 on every step
      but the first two. */
  lemma {:induction false} IncreasingEpisode(history: seq<real>)
    requires |history| >= 2 && Increasing(history)
    ensures ShapingTotal(history) == -0.15 * (|history| - 2) as real
    decreases |history|
  {
    var n := |history|;
    var front := history[..n - 1];
    if n == 2 {
      assert front[..0] == [];
      assert ShapingTotal(front) == ShapingTotal(front[..0]) + Shaping(front);
    } else {
      assert Increasing(front) by {
        forall k | 0 < k < |front| ensures front[k - 1] < front[k] {
          assert front[k - 1] == history[k - 1] && front[k] == history[k];
        }
      }
      IncreasingEpisode(front);
    }
  }

  /** Whatever the errors, shaping over an episode of n >= 2 steps lies
      between the all-worse and the all-better totals. */
  lemma {:induction false} ShapingTotalBounds(history: seq<real>)
    requires |history| >= 2
    ensures -0.15 * (|history| - 2) as real <= ShapingTotal(history) <= 0.1 * (|history| - 2) as real
    decreases |history|
  {
    var n := |history|;
    var front := history[..n - 1];
    if n == 2 {
      assert front[..0] == [];
      assert ShapingTotal(front) == ShapingTotal(front[..0]) + Shaping(front);
    } else {
      ShapingTotalBounds(front);
    }
  }
}
