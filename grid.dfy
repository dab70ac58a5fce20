/** The camera's orientation grid and the five discrete moves over it.

    The camera's state is a pair of indices into two fixed angle grids; an
    action moves one index by one step and is clamped at the grid's edge,
    never wrapping around. */
module CameraGrid {

  /** Tilt angles in degrees, in increasing order. */
  const Tilts: seq<int> := [-60, -30, -15, 0, 15, 30, 60]

  /** Pan angles in degrees, in increasing order. */
  const Pans: seq<int> := [-90, -75, -60, -45, -30, -15, 0, 15, 30, 45, 60, 75, 90]

  /** Index of tilt 0 and of pan 0: the camera looks straight at the face. */
  const CentreTilt: nat := 3
  const CentrePan: nat := 6

  /** The five actions, as the integers the environment receives. */
  const Stay := 0
  const TiltDown := 1
  const TiltUp := 2
  const PanRight := 3
  const PanLeft := 4

  predicate IsAction(action: int) {
    0 <= action < 5
  }

  predicate InGrid(tilt: int, pan: int) {
    0 <= tilt < |Tilts| && 0 <= pan < |Pans|
  }

  function Abs(x: int): nat {
    if x < 0 then -x else x
  }

  /** The largest absolute value in a non-empty sequence of angles. */
  function MaxAbs(s: seq<int>): (m: nat)
    requires s != []
    ensures forall k :: 0 <= k < |s| ==> Abs(s[k]) <= m
    ensures exists k :: 0 <= k < |s| && Abs(s[k]) == m
    decreases |s|
  {
    if |s| == 1 then Abs(s[0])
    else
      var rest := MaxAbs(s[1..]);
      assert forall k :: 1 <= k < |s| ==> s[k] == s[1..][k - 1];
      if Abs(s[0]) >= rest then Abs(s[0]) else rest
  }

  /** The largest absolute tilt and pan of the grids, by which the error
      normalises each angle. */
  const MaxTilt: nat := 60
  const MaxPan: nat := 90

  /** MaxTilt and MaxPan are the grids' largest absolute angles. */
  lemma GridMaxima()
    ensures MaxAbs(Tilts) == MaxTilt
    ensures MaxAbs(Pans) == MaxPan
  {
    TiltsWithin60();
    MaxAbsIs(Tilts, 6, 60);
    PansWithin90();
    MaxAbsIs(Pans, 12, 90);
  }

  lemma TiltsWithin60()
    ensures forall k :: 0 <= k < |Tilts| ==> Abs(Tilts[k]) <= 60
  {
  }

  lemma PansWithin90()
    ensures forall k :: 0 <= k < |Pans| ==> Abs(Pans[k]) <= 90
  {
    forall k | 0 <= k < |Pans| ensures Abs(Pans[k]) <= 90 {
      PanAt(k);
    }
  }

  /** A bound that some element attains is the largest absolute value. */
  lemma MaxAbsIs(s: seq<int>, at: int, v: nat)
    requires 0 <= at < |s| && Abs(s[at]) == v
    requires forall k :: 0 <= k < |s| ==> Abs(s[k]) <= v
    ensures MaxAbs(s) == v
  {
    var m := MaxAbs(s);
    var k :| 0 <= k < |s| && Abs(s[k]) == m;
  }

  /** The pan grid is evenly spaced: 15 degrees per index, centred on index 6. */
  lemma PanAt(j: int)
    requires 0 <= j < |Pans|
    ensures Pans[j] == 15 * (j - CentrePan)
  {
  }

  /** The only index with a zero angle is the centre index, on both axes. */
  lemma ZeroAngleAtCentre(i: int, j: int)
    requires InGrid(i, j)
    ensures Tilts[i] == 0 <==> i == CentreTilt
    ensures Pans[j] == 0 <==> j == CentrePan
  {
    PanAt(j);
  }

  /** The new (tilt, pan) indices after one action. Action 0 stays, 1 and 2
      step the tilt index down and up, 3 and 4 step the pan index down and
      up; a step past either end of the grid leaves the index where it is. */
  function Move(action: int, tilt: int, pan: int): (r: (int, int))
    requires IsAction(action) && InGrid(tilt, pan)
    ensures InGrid(r.0, r.1)
    ensures action == Stay ==> r == (tilt, pan)
    ensures action == TiltDown || action == TiltUp ==> r.1 == pan
    ensures action == PanRight || action == PanLeft ==> r.0 == tilt
    ensures action == TiltDown ==> r.0 == (if tilt == 0 then tilt else tilt - 1)
    ensures action == TiltUp ==> r.0 == (if tilt == |Tilts| - 1 then tilt else tilt + 1)
    ensures action == PanRight ==> r.1 == (if pan == 0 then pan else pan - 1)
    ensures action == PanLeft ==> r.1 == (if pan == |Pans| - 1 then pan else pan + 1)
  {
    if action == Stay then (tilt, pan)
    else if action == TiltDown then (Max(0, tilt - 1), pan)
    else if action == TiltUp then (Min(|Tilts| - 1, tilt + 1), pan)
    else if action == PanRight then (tilt, Max(0, pan - 1))
    else (tilt, Min(|Pans| - 1, pan + 1))
  }

  function Max(a: int, b: int): int {
    if a >= b then a else b
  }

  function Min(a: int, b: int): int {
    if a <= b then a else b
  }

  /** The indices after the same action is taken n times in a row. */
  function Repeat(action: int, n: nat, tilt: int, pan: int): (r: (int, int))
    requires IsAction(action) && InGrid(tilt, pan)
    ensures InGrid(r.0, r.1)
    decreases n
  {
    if n == 0 then (tilt, pan)
    else
      var next := Move(action, tilt, pan);
      Repeat(action, n - 1, next.0, next.1)
  }

  /** Pushing the same direction n times moves the index n steps, clamped
      at the edge it runs into: it never wraps to the other end, and once
      at the edge, further pushes change nothing. */
  lemma {:induction false} RepeatClamps(action: int, n: nat, tilt: int, pan: int)
    requires IsAction(action) && InGrid(tilt, pan)
    ensures action == Stay ==> Repeat(action, n, tilt, pan) == (tilt, pan)
    ensures action == TiltDown ==> Repeat(action, n, tilt, pan) == (Max(0, tilt - n), pan)
    ensures action == TiltUp ==> Repeat(action, n, tilt, pan) == (Min(|Tilts| - 1, tilt + n), pan)
    ensures action == PanRight ==> Repeat(action, n, tilt, pan) == (tilt, Max(0, pan - n))
    ensures action == PanLeft ==> Repeat(action, n, tilt, pan) == (tilt, Min(|Pans| - 1, pan + n))
    decreases n
  {
    if n > 0 {
      var next := Move(action, tilt, pan);
      RepeatClamps(action, n - 1, next.0, next.1);
    }
  }
}
