/** Statistics kept across episodes: for every episode, the angles it
    started at and the angles it ended at.

    `reset` appends the start angles to all four lists (the final slot
    starts as a copy of the initial one); every `step` overwrites only the
    final slot of the current episode. */
module CameraStatistics {

  datatype Statistics = Statistics(
    initPanError: seq<int>,
    initTiltError: seq<int>,
    finalPanError: seq<int>,
    finalTiltError: seq<int>)

  const NoEpisodes := Statistics([], [], [], [])

  /** One entry per episode in each of the four lists. */
  predicate Consistent(s: Statistics) {
    |s.initTiltError| == |s.initPanError| == |s.finalTiltError| == |s.finalPanError|
  }

  function Episodes(s: Statistics): nat {
    |s.initTiltError|
  }

  /** A new episode starting at the given angles: every list grows by one
      entry, and the new episode's final angles equal its initial ones
      (StartEpisodeKeeps: the earlier entries stay). */
  function StartEpisode(s: Statistics, tilt: int, pan: int): (r: Statistics)
    ensures |r.initTiltError| == |s.initTiltError| + 1 && |r.initPanError| == |s.initPanError| + 1
    ensures |r.finalTiltError| == |s.finalTiltError| + 1 && |r.finalPanError| == |s.finalPanError| + 1
    ensures Last(r.initTiltError) == Last(r.finalTiltError) == tilt
    ensures Last(r.initPanError) == Last(r.finalPanError) == pan
  {
    Statistics(s.initPanError + [pan], s.initTiltError + [tilt],
               s.finalPanError + [pan], s.finalTiltError + [tilt])
  }

  function Last(xs: seq<int>): int
    requires xs != []
  {
    xs[|xs| - 1]
  }


  /** The current episode now ends at the given angles: the lengths and
      both initial lists stay as they were (EndAtKeeps: so does every entry
      of the final lists but the last). */
  function EndAt(s: Statistics, tilt: int, pan: int): (r: Statistics)
    requires |s.finalPanError| > 0 && |s.finalTiltError| > 0
    ensures r.initTiltError == s.initTiltError && r.initPanError == s.initPanError
    ensures |r.finalTiltError| == |s.finalTiltError| && |r.finalPanError| == |s.finalPanError|
    ensures Last(r.finalTiltError) == tilt && Last(r.finalPanError) == pan
  {
    s.(finalPanError := s.finalPanError[|s.finalPanError| - 1 := pan],
       finalTiltError := s.finalTiltError[|s.finalTiltError| - 1 := tilt])
  }

  /** Starting an episode keeps every entry of the earlier ones. */
  lemma StartEpisodeKeeps(s: Statistics, tilt: int, pan: int)
    ensures forall k :: 0 <= k < |s.initTiltError| ==> StartEpisode(s, tilt, pan).initTiltError[k] == s.initTiltError[k]
    ensures forall k :: 0 <= k < |s.initPanError| ==> StartEpisode(s, tilt, pan).initPanError[k] == s.initPanError[k]
    ensures forall k :: 0 <= k < |s.finalTiltError| ==> StartEpisode(s, tilt, pan).finalTiltError[k] == s.finalTiltError[k]
    ensures forall k :: 0 <= k < |s.finalPanError| ==> StartEpisode(s, tilt, pan).finalPanError[k] == s.finalPanError[k]
  {
  }

  /** Ending the current episode somewhere else changes only its own final
      entries. */
  lemma EndAtKeeps(s: Statistics, tilt: int, pan: int)
    requires |s.finalPanError| > 0 && |s.finalTiltError| > 0
    ensures forall k :: 0 <= k < |s.finalTiltError| - 1 ==> EndAt(s, tilt, pan).finalTiltError[k] == s.finalTiltError[k]
    ensures forall k :: 0 <= k < |s.finalPanError| - 1 ==> EndAt(s, tilt, pan).finalPanError[k] == s.finalPanError[k]
  {
  }

  /** What the environment is asked to do, with the angles the camera is at
      afterwards. */
  datatype Event = Started(tilt: int, pan: int) | Moved(tilt: int, pan: int)

  /** No step before the first reset. */
  predicate WellFormed(log: seq<Event>) {
    log == [] || log[0].Started?
  }

  function StartCount(log: seq<Event>): nat {
    if log == [] then 0
    else StartCount(log[..|log| - 1]) + (if log[|log| - 1].Started? then 1 else 0)
  }

  /** The statistics after a log of resets and steps. */
  function Replay(log: seq<Event>): (s: Statistics)
    requires WellFormed(log)
    ensures Consistent(s) && Episodes(s) == StartCount(log)
    ensures log != [] ==> Episodes(s) > 0
    decreases |log|
  {
    if log == [] then NoEpisodes
    else
      var front := log[..|log| - 1];
      assert front != [] ==> front[0] == log[0];
      Apply(Replay(front), log[|log| - 1])
  }

  /** One reset or step applied to the statistics. */
  function Apply(s: Statistics, e: Event): (r: Statistics)
    requires Consistent(s) && (e.Moved? ==> Episodes(s) > 0)
    ensures Consistent(r)
    ensures Episodes(r) == Episodes(s) + (if e.Started? then 1 else 0)
  {
    match e
    case Started(t, p) => StartEpisode(s, t, p)
    case Moved(t, p) => EndAt(s, t, p)
  }

  /** Entries of episodes before the current one survive any event. */
  lemma ApplyKeeps(s: Statistics, e: Event, k: nat)
    requires Consistent(s) && (e.Moved? ==> Episodes(s) > 0) && k < Episodes(s) - 1
    ensures Apply(s, e).finalTiltError[k] == s.finalTiltError[k]
    ensures Apply(s, e).finalPanError[k] == s.finalPanError[k]
    ensures Apply(s, e).initTiltError[k] == s.initTiltError[k]
    ensures Apply(s, e).initPanError[k] == s.initPanError[k]
  {
    match e
    case Started(t, p) => StartEpisodeKeeps(s, t, p);
    case Moved(t, p) => EndAtKeeps(s, t, p);
  }

  /** The angles each episode started at, in order. */
  function Starts(log: seq<Event>): seq<(int, int)> {
    if log == [] then []
    else
      var last := log[|log| - 1];
      Starts(log[..|log| - 1]) + (if last.Started? then [(last.tilt, last.pan)] else [])
  }

  /** The initial lists hold exactly the start angles of the episodes, and
      steps never touch them. */
  lemma {:induction false} ReplayInitial(log: seq<Event>)
    requires WellFormed(log)
    ensures |Starts(log)| == Episodes(Replay(log))
    ensures forall k :: 0 <= k < |Starts(log)| ==>
      Replay(log).initTiltError[k] == Starts(log)[k].0 && Replay(log).initPanError[k] == Starts(log)[k].1
    decreases |log|
  {
    if log != [] {
      var front := log[..|log| - 1];
      assert front != [] ==> front[0] == log[0];
      ReplayInitial(front);
    }
  }

  /** The current episode's final slot holds the angles of the latest
      event: the last step, or the start when no step has been taken. */
  lemma ReplayFinal(log: seq<Event>)
    requires WellFormed(log) && log != []
    ensures Replay(log).finalTiltError[Episodes(Replay(log)) - 1] == log[|log| - 1].tilt
    ensures Replay(log).finalPanError[Episodes(Replay(log)) - 1] == log[|log| - 1].pan
  {
    var front := log[..|log| - 1];
    assert front != [] ==> front[0] == log[0];
  }

  /** Once the next episode has started, an episode's final angles are
      frozen: no later reset or step changes them. */
  lemma {:induction false} FinishedEpisodesFrozen(log: seq<Event>, more: seq<Event>, k: nat)
    requires WellFormed(log) && k < Episodes(Replay(log)) - 1
    ensures WellFormed(log + more)
    ensures Episodes(Replay(log + more)) >= Episodes(Replay(log))
    ensures Replay(log + more).finalTiltError[k] == Replay(log).finalTiltError[k]
    ensures Replay(log + more).finalPanError[k] == Replay(log).finalPanError[k]
    ensures Replay(log + more).initTiltError[k] == Replay(log).initTiltError[k]
    ensures Replay(log + more).initPanError[k] == Replay(log).initPanError[k]
    decreases |more|
  {
    StartCountGrows(log, more);
    if more == [] {
      assert log + more == log;
    } else {
      var all := log + more;
      var shorter := more[..|more| - 1];
      assert all[..|all| - 1] == log + shorter;
      FinishedEpisodesFrozen(log, shorter, k);
      ApplyKeeps(Replay(log + shorter), all[|all| - 1], k);
    }
  }

  /** An episode's final angles are those of its last reset or step before
      the next reset, and they stay so whatever happens afterwards. */
  lemma EpisodeEndsAtLastEvent(log: seq<Event>, reset: Event, rest: seq<Event>)
    requires WellFormed(log) && log != [] && reset.Started?
    ensures WellFormed(log + [reset] + rest)
    ensures Episodes(Replay(log + [reset] + rest)) > Episodes(Replay(log))
    ensures Replay(log + [reset] + rest).finalTiltError[Episodes(Replay(log)) - 1] == log[|log| - 1].tilt
    ensures Replay(log + [reset] + rest).finalPanError[Episodes(Replay(log)) - 1] == log[|log| - 1].pan
  {
    var prev := Replay(log);
    var k := Episodes(prev) - 1;
    ReplayFinal(log);
    var started := log + [reset];
    ReplaySnoc(log, reset);
    var next := Replay(started);
    ApplyKeepsCurrent(prev, reset, k);
    assert next.finalTiltError[k] == prev.finalTiltError[k] && next.finalPanError[k] == prev.finalPanError[k];
    FinishedEpisodesFrozen(started, rest, k);
  }

  /** Replaying one more event applies it to the statistics so far. */
  lemma ReplaySnoc(log: seq<Event>, e: Event)
    requires WellFormed(log) && (log != [] || e.Started?)
    ensures WellFormed(log + [e])
    ensures Replay(log + [e]) == Apply(Replay(log), e)
  {
    var all := log + [e];
    assert all[..|all| - 1] == log;
    assert all[0] == if log == [] then e else log[0];
  }

  /** A reset keeps every entry of the episodes before it, the current one
      included. */
  lemma ApplyKeepsCurrent(s: Statistics, e: Event, k: nat)
    requires Consistent(s) && e.Started? && k < Episodes(s)
    ensures Apply(s, e).finalTiltError[k] == s.finalTiltError[k]
    ensures Apply(s, e).finalPanError[k] == s.finalPanError[k]
  {
    StartEpisodeKeeps(s, e.tilt, e.pan);
  }

  lemma {:induction false} StartCountGrows(log: seq<Event>, more: seq<Event>)
    ensures StartCount(log + more) >= StartCount(log)
    decreases |more|
  {
    if more == [] {
      assert log + more == log;
    } else {
      var all := log + more;
      var shorter := more[..|more| - 1];
      assert all[..|all| - 1] == log + shorter;
      StartCountGrows(log, shorter);
    }
  }
}
