/** Episodes driven through the environment's own methods, showing what a
    caller can rely on from their contracts alone. */
module CameraScenarios {
  import opened CameraGrid
  import opened CameraReward
  import opened CameraFrames
  import opened CameraEnvironment

  /** The dataset holds every grid cell for this person. */
  predicate Covers(persons: Dataset, person: int) {
    forall i, j :: 0 <= i < |Tilts| && 0 <= j < |Pans| ==> HasFrame(persons, person, i, j)
  }

  /** Staying at the centre earns the full base reward of 1 on every step:
      from the third step on the history ends in a tie, which adds
      nothing. */
  method StayAtCentre(persons: Dataset, testing: bool, person: int) returns (r1: real, r2: real, r3: real)
    requires InPool(testing, person) && Covers(persons, person)
    ensures r1 == 1.0 && r2 == 1.0 && r3 == 1.0
  {
    var env := new CameraControlEnv(persons, testing, false, person);
    var _ := env.Reset(person, CentreTilt, CentrePan);
    ErrorOnGrid(CentreTilt, CentrePan);
    var _, a, _, _ := env.Step(Stay);
    var _, b, _, _ := env.Step(Stay);
    var _, c, _, _ := env.Step(Stay);
    r1, r2, r3 := a, b, c;
  }

  /** Starting 30 degrees off in pan and panning back to the centre and one
      step past it. The second step improves the error but earns no bonus,
      because the history then holds only two errors; the third earns the
      +0.1 bonus and the fourth, moving away again, the -0.15 penalty. */
  method PanThroughCentre(persons: Dataset, testing: bool, person: int)
    returns (r1: real, r2: real, r3: real, r4: real)
    requires InPool(testing, person) && Covers(persons, person)
    ensures r1 == 0.0
    ensures r2 == 13.0 / 18.0
    ensures r3 == 1.1
    ensures r4 == 13.0 / 18.0 - 0.15
  {
    var env := new CameraControlEnv(persons, testing, false, person);
    var _ := env.Reset(person, CentreTilt, CentrePan + 2);
    assert ErrorAt(CentreTilt, CentrePan + 2) == 1.0 / 9.0;
    assert ErrorAt(CentreTilt, CentrePan + 1) == 1.0 / 36.0;
    ErrorOnGrid(CentreTilt, CentrePan);
    var _, a, _, _ := env.Step(Stay);
    var _, b, _, _ := env.Step(PanRight);
    var _, c, _, _ := env.Step(PanRight);
    var _, d, _, _ := env.Step(PanLeft);
    r1, r2, r3, r4 := a, b, c, d;
  }
}
