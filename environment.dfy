/** The camera-control environment: an episode state that `Reset` starts
    and `Step` advances, plus statistics kept across episodes.

    The random draws of person and start indices are parameters of the
    constructor and of `Reset`, constrained to the ranges they are drawn
    from. */
module CameraEnvironment {
  import opened CameraGrid
  import opened CameraReward
  import opened CameraFrames
  import opened CameraStatistics

  /** Persons are drawn from [20, 30) when testing and from [0, 20) when
      training; the two pools are disjoint. */
  function PoolLow(testing: bool): int {
    if testing then 20 else 0
  }

  function PoolHigh(testing: bool): int {
    if testing then 30 else 20
  }

  predicate InPool(testing: bool, person: int) {
    PoolLow(testing) <= person < PoolHigh(testing)
  }

  lemma PoolsDisjoint(person: int)
    ensures !(InPool(true, person) && InPool(false, person))
    ensures InPool(true, person) <==> 20 <= person < 30
    ensures InPool(false, person) <==> 0 <= person < 20
  {
  }

  /** The dataset holds frames for this person at these grid indices. */
  predicate HasFrame(persons: Dataset, person: int, tilt: int, pan: int)
    requires InGrid(tilt, pan)
  {
    person in persons && (Tilts[tilt], Pans[pan]) in persons[person]
  }

  function Lookup(persons: Dataset, person: int, tilt: int, pan: int): Entry
    requires InGrid(tilt, pan) && HasFrame(persons, person, tilt, pan)
  {
    persons[person][(Tilts[tilt], Pans[pan])]
  }

  /** The current episode's final slot holds these angles. */
  predicate EndsAt(s: Statistics, tilt: int, pan: int)
    requires |s.finalTiltError| > 0 && |s.finalPanError| > 0
  {
    Last(s.finalTiltError) == tilt && Last(s.finalPanError) == pan
  }

  /** The observations are the frames stored at these indices, the input
      one centred. */
  predicate Shows(persons: Dataset, person: int, tilt: int, pan: int, obs: Image, render: Image)
    requires InGrid(tilt, pan)
  {
    HasFrame(persons, person, tilt, pan) &&
    obs == Center(Lookup(persons, person, tilt, pan).input) &&
    render == Lookup(persons, person, tilt, pan).display
  }

  /** Side of the square network input and of the display frame. */
  const InputSide := 64
  const DisplaySide := 256

  class CameraControlEnv {
    const persons: Dataset
    const testing: bool
    const interactive: bool

    var currentPerson: int
    var currentTilt: int
    var currentPan: int

    /** Errors of the current episode, one per step. */
    var errorMemory: seq<real>

    var observation: Image
    var renderObservation: Image

    var epochCounter: int
    var iterationCounter: int

    /** Per episode: the angles it started at, and the angles of its last
        step (the four statistics lists). */
    var stats: Statistics

    ghost predicate Valid()
      reads this
    {
      InGrid(currentTilt, currentPan) &&
      InPool(testing, currentPerson) &&
      // one entry per reset in each statistics list
      epochCounter >= -1 &&
      Consistent(stats) && Episodes(stats) == epochCounter + 1 &&
      // one error per step of the current episode
      |errorMemory| == iterationCounter &&
      (epochCounter == -1 ==> iterationCounter == 0) &&
      (iterationCounter > 0 ==> errorMemory[iterationCounter - 1] == ErrorAt(currentTilt, currentPan)) &&
      // once an episode runs, its final slot and the observation follow the camera
      (epochCounter >= 0 ==>
        EndsAt(stats, Tilts[currentTilt], Pans[currentPan]) &&
        Shows(persons, currentPerson, currentTilt, currentPan, observation, renderObservation))
    }

    /** A fresh environment: indices (0, 0), a person from the pool, empty
        statistics and black frames; no episode has started yet. */
    constructor (persons: Dataset, testing: bool, interactive: bool, person: int)
      requires InPool(testing, person)
      ensures Valid()
      ensures this.persons == persons && this.testing == testing && this.interactive == interactive
      ensures currentPerson == person && currentTilt == 0 && currentPan == 0
      ensures errorMemory == []
      ensures epochCounter == -1 && iterationCounter == 0
      ensures stats == NoEpisodes
      ensures observation == Zeros(InputSide * InputSide)
      ensures renderObservation == Zeros(DisplaySide * DisplaySide)
    {
      this.persons := persons;
      this.testing := testing;
      this.interactive := interactive;
      currentTilt := 0;
      currentPan := 0;
      currentPerson := person;
      errorMemory := [];
      observation := Zeros(InputSide * InputSide);
      renderObservation := Zeros(DisplaySide * DisplaySide);
      epochCounter := -1;
      iterationCounter := 0;
      stats := NoEpisodes;
    }

    /** Starts an episode at the drawn person and indices and returns its
        centred first observation. */
    method Reset(person: int, tilt: int, pan: int) returns (obs: Image)
      requires Valid()
      requires InPool(testing, person) && InGrid(tilt, pan)
      requires HasFrame(persons, person, tilt, pan)
      modifies this
      ensures Valid()
      ensures currentPerson == person && currentTilt == tilt && currentPan == pan
      ensures errorMemory == [] && iterationCounter == 0
      ensures epochCounter == old(epochCounter) + 1
      ensures stats == StartEpisode(old(stats), Tilts[tilt], Pans[pan])
      ensures obs == observation == Center(Lookup(persons, person, tilt, pan).input)
      ensures renderObservation == Lookup(persons, person, tilt, pan).display
    {
      var t, p := Tilts[tilt], Pans[pan];
      var entry := persons[person][(t, p)];
      currentPerson, errorMemory, currentTilt, currentPan := person, [], tilt, pan;
      observation, renderObservation := Center(entry.input), entry.display;

      epochCounter, iterationCounter := epochCounter + 1, 0;

      // the final slots start equal to the initial angles
      stats := StartEpisode(stats, t, p);

      obs := observation;
    }

    /** Moves the camera one grid step in place; a step off the grid's
        edge leaves the index unchanged. */
    method ApplyAction(action: int)
      requires IsAction(action) && InGrid(currentTilt, currentPan)
      modifies this`currentTilt, this`currentPan
      ensures (currentTilt, currentPan) == Move(action, old(currentTilt), old(currentPan))
    {
      if action == 0 {
      } else if action == 1 {
        currentTilt := Max(0, currentTilt - 1);
      } else if action == 2 {
        currentTilt := Min(|Tilts| - 1, currentTilt + 1);
      } else if action == 3 {
        currentPan := Max(0, currentPan - 1);
      } else {
        currentPan := Min(|Pans| - 1, currentPan + 1);
      }
    }

    /** Applies one action, records where the episode now ends, appends the
        new error and returns the observation, the shaped reward, done
        (always false) and an empty info map. */
    method Step(action: int) returns (obs: Image, reward: real, done: bool, info: map<string, string>)
      requires Valid()
      requires IsAction(action)
      requires epochCounter >= 0
      requires HasFrame(persons, currentPerson,
                        Move(action, currentTilt, currentPan).0, Move(action, currentTilt, currentPan).1)
      modifies this
      ensures Valid()
      ensures (currentTilt, currentPan) == Move(action, old(currentTilt), old(currentPan))
      ensures currentPerson == old(currentPerson)
      ensures epochCounter == old(epochCounter)
      ensures errorMemory == old(errorMemory) + [ErrorAt(currentTilt, currentPan)]
      ensures iterationCounter == old(iterationCounter) + 1
      ensures stats == EndAt(old(stats), Tilts[currentTilt], Pans[currentPan])
      ensures obs == observation == Center(Lookup(persons, currentPerson, currentTilt, currentPan).input)
      ensures renderObservation == Lookup(persons, currentPerson, currentTilt, currentPan).display
      ensures reward == Reward(ErrorAt(currentTilt, currentPan), errorMemory)
      ensures -0.15 <= reward <= 1.1
      ensures !done && info == map[]
    {
      ApplyAction(action);
      var tilt, pan := currentTilt, currentPan;

      var t, p := Tilts[tilt], Pans[pan];

      // only the current episode's final slot changes
      stats := EndAt(stats, t, p);

      var entry := persons[currentPerson][(t, p)];
      observation, renderObservation := Center(entry.input), entry.display;

      var error := Error(t, p);
      ErrorOnGrid(tilt, pan);
      errorMemory := errorMemory + [error];
      reward := Reward(error, errorMemory);

      iterationCounter := iterationCounter + 1;
      done, info := false, map[];
      obs := observation;
    }
  }
}
