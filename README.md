# Camera control environment — a verified Dafny model

This project models `CameraControlEnv`, the reinforcement-learning environment
of a pan/tilt camera that has to turn towards a person's face. Its state is a
pair of indices into two fixed angle grids: 7 tilts in [-60, 60] degrees and
13 pans in [-90, 90] degrees. `reset` starts an episode at a random person and
random indices. `step` applies one of five actions (stay, or one grid step on
one axis, clamped at the grid's edge). It then looks up the precomputed frame
for the new angles and computes a normalised squared angular error. The reward
is a thresholded rescaling of that error plus a trend bonus or penalty
computed from the episode's error history. Across episodes the environment
records each episode's initial and final angles.

Modules:

- `CameraGrid` (grid.dfy): the angle grids, the actions and the clamped move
  (`Move`), with repeated moves (`Repeat`).
- `CameraReward` (reward.dfy): the error, the base reward, the trend shaping
  and the per-step reward, all over exact `real`s.
- `CameraFrames` (frames.dfy): frames as sequences of RGB pixels, the dataset
  map, and the mean subtraction applied to the network input.
- `CameraStatistics` (statistics.dfy): the four per-episode statistics lists,
  the update `reset` and `step` make to them, and a replay of a whole
  reset/step history.
- `CameraEnvironment` (environment.dfy): the class `CameraControlEnv`, whose
  fields and `Reset`/`Step` methods follow the source's instance fields and
  methods. `Valid()` is the invariant that every method keeps.
- `CameraScenarios` (scenarios.dfy): two short episodes driven through the
  class's methods, with their rewards derived from the method contracts
  alone.

The source draws the person and the start indices from `np.random`. Here they
are parameters of the constructor and of `Reset`, required to lie in the
ranges the source draws from. The dataset loaded from a pickle file is the
constructor parameter `persons`, a map from person to (tilt angle, pan angle)
to frames.

The action numbering follows the comments in `step` (1 = tilt index down,
2 = tilt up, 3 = pan index down, 4 = pan up). The display strings in the same
method name the directions the other way round; the model only needs the
index arithmetic, which is unambiguous.

The reward lies in [-0.15, 1.1]. That follows from the code: the base reward
is in [0, 1] and the shaping is one of -0.15, 0 or +0.1 (`Reward`).

The observation space is declared as Box(-127, 127). For 8-bit frames,
`CenteredRange` bounds the centred red channel by 146 (255 - 109), and
`CenteredRedReaches146` shows a full-red pixel reaching that value. The
declared bound is therefore not an invariant of the observations. It is a declaration only, and nothing in the environment
enforces it.

The shaping bonus is only added once the error history holds more than two
entries. So the second step of an episode earns no bonus or penalty even
though it has a previous error to compare with. The model keeps this as
written. `CameraScenarios.PanThroughCentre` shows it: the second step lowers
the error and still earns only its base reward.

## Model

| member | source | states |
|---|---|---|
| CameraGrid.Move | rl_utils/CameraEnviroment.py:109-120 | from in-grid indices the result stays in the grid; action 0 changes nothing; actions 1/2 change only the tilt index and 3/4 only the pan index; 1/3 decrement by one or, at index 0, stay put; 2/4 increment by one or, at the last index, stay put |
| CameraGrid.RepeatClamps | rl_utils/CameraEnviroment.py:109-118 | n repetitions of one action saturate at the edge instead of wrapping: tilt-down n times from t gives max(0, t - n), tilt-up gives min(6, t + n), and likewise for pan with bound 12 |
| CameraGrid.Repeat | rl_utils/CameraEnviroment.py:109-120 | n repetitions of one action from in-grid indices stay in the grid |
| CameraGrid.MaxAbs | rl_utils/CameraEnviroment.py:148 | np.max(np.abs(grid)): bounds every element's absolute value and is attained by one of them |
| CameraGrid.GridMaxima | rl_utils/CameraEnviroment.py:26-27 | the largest absolute tilt is 60 and the largest absolute pan 90, the divisors of the error |
| CameraGrid.ZeroAngleAtCentre | rl_utils/CameraEnviroment.py:26-27 | the tilt angle is 0 exactly at index 3 and the pan angle is 0 exactly at index 6 |
| CameraReward.Error | rl_utils/CameraEnviroment.py:148 | the error is non-negative and zero exactly when both angles are zero |
| CameraReward.SquaredRatio | rl_utils/CameraEnviroment.py:148 | (angle/bound)^2 is non-negative, zero exactly for angle 0, and at most 1 when the angle is within the bound |
| CameraReward.ErrorOnGrid | rl_utils/CameraEnviroment.py:148 | on the grid the error lies in [0, 2] and is zero exactly at indices (3, 6) |
| CameraReward.BaseReward | rl_utils/CameraEnviroment.py:152-156 | the base reward is in [0, 1] for a non-negative error; it is 0 exactly when error >= 0.1, equals (0.1 - error)/0.1 below that, and is 1 exactly when the error is 0 |
| CameraReward.BaseRewardMonotone | rl_utils/CameraEnviroment.py:152-156 | a larger error never earns a larger base reward |
| CameraReward.RewardRegion | rl_utils/CameraEnviroment.py:148-156 | the base reward is positive exactly at the centre and its eight grid neighbours |
| CameraReward.Shaping | rl_utils/CameraEnviroment.py:159-162 | nothing while the history holds at most two errors; +0.1 exactly when it holds more and the newest error is below the previous one; -0.15 exactly when it holds more and the newest is above; 0 exactly when it holds at most two or the last two are equal; always in [-0.15, 0.1] |
| CameraReward.Reward | rl_utils/CameraEnviroment.py:149-162 | for a history ending with the new error: the reward is in [-0.15, 1.1]; at most 0.1 once the error reaches 0.1; the base reward in the first two steps and on a tie; the base reward plus 0.1 after an improvement and minus 0.15 after a worsening |
| CameraReward.DecreasingEpisode | rl_utils/CameraEnviroment.py:159-160 | an episode whose error falls at every step collects 0.1 on every step after the second |
| CameraReward.IncreasingEpisode | rl_utils/CameraEnviroment.py:161-162 | an episode whose error rises at every step loses 0.15 on every step after the second |
| CameraReward.ShapingTotalBounds | rl_utils/CameraEnviroment.py:159-162 | the total shaping over an n-step episode lies between -0.15(n-2) and 0.1(n-2) |
| CameraFrames.Center | rl_utils/CameraEnviroment.py:144-145 | the centred input has one pixel per frame pixel, and adding the mean (109, 114, 131) back gives the frame's pixel |
| CameraFrames.Uncenter | rl_utils/CameraEnviroment.py:175 | adding the mean back keeps the length, and subtracting it again gives the centred pixel |
| CameraFrames.CenterRoundTrip | rl_utils/CameraEnviroment.py:175 | mean subtraction and adding the mean back are inverse to each other |
| CameraFrames.CenteredRange | rl_utils/CameraEnviroment.py:44-51 | from 8-bit frames the centred channels lie in [-109, 146], [-114, 141] and [-131, 124] |
| CameraFrames.CenteredRedReaches146 | rl_utils/CameraEnviroment.py:44-51 | a full-red 8-bit pixel centres to red 146, outside the declared [-127, 127] box |
| CameraStatistics.StartEpisode | rl_utils/CameraEnviroment.py:91-95 | each of the four lists grows by one entry, and the new episode's initial and final angles are the start angles |
| CameraStatistics.StartEpisodeKeeps | rl_utils/CameraEnviroment.py:91-95 | starting an episode keeps every earlier entry of all four lists |
| CameraStatistics.EndAt | rl_utils/CameraEnviroment.py:140-142 | the last entry of the two final lists becomes the new angles; lengths and both initial lists are unchanged |
| CameraStatistics.EndAtKeeps | rl_utils/CameraEnviroment.py:140-142 | a step keeps every entry of the final lists but the last |
| CameraStatistics.Apply | rl_utils/CameraEnviroment.py:88-95 | a reset adds one episode to all four lists, a step adds none, and the lists stay of equal length |
| CameraStatistics.ApplyKeeps | rl_utils/CameraEnviroment.py:140-142 | no reset or step changes the entries of an episode before the current one |
| CameraStatistics.Replay | rl_utils/CameraEnviroment.py:54-59 | after any history of resets and steps the four lists have one entry per reset |
| CameraStatistics.ReplayInitial | rl_utils/CameraEnviroment.py:92-93 | the initial lists hold exactly the start angles of the episodes, in order |
| CameraStatistics.ReplayFinal | rl_utils/CameraEnviroment.py:141-142 | the current episode's final entry holds the angles of the latest reset or step |
| CameraStatistics.FinishedEpisodesFrozen | rl_utils/CameraEnviroment.py:91-95 | once a later episode has started, nothing changes an earlier episode's entries |
| CameraStatistics.ReplaySnoc | rl_utils/CameraEnviroment.py:88-95 | replaying one more reset or step applies it to the statistics so far |
| CameraStatistics.ApplyKeepsCurrent | rl_utils/CameraEnviroment.py:94-95 | a reset keeps the final entries of every episode before it, the current one included |
| CameraStatistics.EpisodeEndsAtLastEvent | rl_utils/CameraEnviroment.py:141-142 | an episode's final angles are those of its last reset or step before the next reset, whatever happens afterwards |
| CameraStatistics.StartCountGrows | rl_utils/CameraEnviroment.py:88 | the number of resets never falls as the history grows |
| CameraEnvironment.PoolsDisjoint | rl_utils/CameraEnviroment.py:69-72 | testing persons come from [20, 30), training persons from [0, 20), and no person is in both |
| CameraEnvironment.CameraControlEnv.constructor | rl_utils/CameraEnviroment.py:11-63 | indices (0, 0), a person from the pool, empty history and statistics, epoch counter -1, iteration counter 0, black 64x64 and 256x256 frames; the invariant holds |
| CameraEnvironment.CameraControlEnv.Reset | rl_utils/CameraEnviroment.py:66-101 | the drawn person and indices become current; the history is emptied and the iteration counter zeroed; the epoch counter goes up by one; the statistics gain one episode starting at the drawn angles; the returned observation is the centred input frame at those angles |
| CameraEnvironment.CameraControlEnv.ApplyAction | rl_utils/CameraEnviroment.py:109-120 | the in-place index update equals the clamped move |
| CameraEnvironment.CameraControlEnv.Step | rl_utils/CameraEnviroment.py:106-166 | the indices make the clamped move; exactly one error, the new position's, is appended to the history; the iteration counter goes up by one; only the current episode's final angles change; the observation is the centred frame at the new angles; the reward is the shaped reward, in [-0.15, 1.1]; done is false and info is empty |
| CameraScenarios.StayAtCentre | rl_utils/CameraEnviroment.py:148-162 | staying at the centre for three steps after a reset earns reward 1 each time, the third being a tie that adds nothing |
| CameraScenarios.PanThroughCentre | rl_utils/CameraEnviroment.py:152-162 | from pan +30 at tilt 0, stay, pan down twice and back up once: rewards 0, 13/18 (no bonus on the second step), 1.1 and 13/18 - 0.15 |

## Left out

- Loading the dataset from a pickle file (the file path and `open`) is I/O. The constructor receives the loaded map `persons` instead.
- `np.random` draws and `seed` are a global random generator. The drawn person and indices are parameters of the constructor and `Reset`, required to be in the drawn ranges.
- A missing dataset key raises KeyError in the source. Here the lookup is a precondition (`HasFrame`). So the partial updates made before such a KeyError are not modelled:
  - in `reset`, the reassigned `current_person`, `error_memory`, `current_tilt` and `current_pan` (lines 69-79, before the lookup at line 84);
  - in `step`, the moved indices and the overwritten final statistics (lines 109-142, before the lookup at line 144).
- CameraEnvironment.CameraControlEnv.Step requires a prior reset. The source fails on `final_pan_error[-1]` with an empty list, and the model does not reproduce that failure.
- An action outside 0..4 fails `assert False` in the source after nothing has changed. It is a precondition here.
- `render` draws with cv2 and waits for a key press, which is UI and I/O. Only its arithmetic, adding the mean back, is modelled (`Uncenter`); the uint8 cast is not.
- The gym `action_space`/`observation_space` declarations, `metadata`, the text fields `current_state_text`/`action_text` and `__str__` are cosmetic and carry no behavioural contract.
- Floating point: the error and the reward are exact `real`s, not IEEE doubles. No grid point has an error exactly at the 0.1 threshold, so no outcome of the threshold hinges on rounding.
- Frames are flat sequences of pixels. The 64x64x3 and 256x256x3 array shapes and numpy broadcasting are not modelled; only the per-pixel arithmetic is.
- The four statistics lists are one record field (`stats`) of the class rather than four separate fields. Each method states the whole new record.
