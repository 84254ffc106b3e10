# Cart-pole Q-learning, modelled in Dafny

This project models the learning core of the inverted-pendulum trainer in
`Intelligent_Pendulum/pendulum_mk5.py`. That core is tabular, epsilon-greedy
Q-learning over a discretized cart-pole simulator, and it has these parts:

- **`CartPole`** (`cartpole.dfy`): the simulator object `InvertedPendulum`.
  It holds constants and a mutable four-component state. Its methods reset
  the state, read it and advance it by one semi-implicit Euler step. The
  equations of motion reach the step as a `Physics` function supplied by the
  caller.
- **`Discretizer`** (`discretizer.dfy`): maps each state component to a bin
  index. This is `np.digitize` minus one, clamped to `[0, len(bins) - 1]`.
  `Digitize` states the convention; the lemmas relate it to an independent
  definition of "the bin holding v" (`InBin`).
- **`RewardFunction`** (`reward.dfy`): the quadratic penalty plus the bonus
  of 5 inside the balanced region.
- **`ValueTable`** (`value_table.dfy`): the table `Q` of shape
  `(10, 10, 20, 10, 3)`, stored as its row-major flat array in class
  `QTable`. The class has:
  - `Greedy`, which computes `np.argmax` and picks the first maximum;
  - `Update`, the Q-learning update;
  - `Export`, the `np.ndenumerate` enumeration that writes the CSV rows.

  `Greedy` is proved against the pure function `ArgMax`, `Update` against
  `QUpdate`, and `Export` against `Rank` and `RowOf`; the lemmas about those
  functions carry the properties.
- **`Trainer`** (`trainer.dfy`) holds the rate schedule, the episode and the
  training loop. They are written twice:
  - as functions `Run`, `Episode` and `Training`, with lemmas for
    termination and for the bound `Q <= 5 / (1 - gamma)`;
  - as the methods `LearnStep`, `RunEpisode`, `Train` and `TrainAndExport`,
    which act on the simulator and the table in place and are proved equal
    to the functions.

The random draws come in through an `Rng` value. Its `random(e, t)` and
`randint(e, t)` are the draws at step `t` of episode `e`. Reals are exact
mathematical reals.

## Model

| member | source | states |
|---|---|---|
| CartPole.InvertedPendulum.constructor | Intelligent_Pendulum/pendulum_mk5.py:8-15 | default constants m=0.2, M=0.5, l=0.3, b=0.1, g=9.81, dt=0.01 and the all-zero initial state |
| CartPole.InvertedPendulum.Reset | Intelligent_Pendulum/pendulum_mk5.py:17-22 | the state becomes the given one, or all zeros when none is given, and a copy of it is returned |
| CartPole.InvertedPendulum.GetState | Intelligent_Pendulum/pendulum_mk5.py:44-45 | returns the current state and changes nothing |
| CartPole.InvertedPendulum.Step | Intelligent_Pendulum/pendulum_mk5.py:24-42 | the new state is the semi-implicit Euler step of the old state, with the accelerations taken at the old state and force u; the new state is returned |
| CartPole.SemiImplicitVsExplicit | Intelligent_Pendulum/pendulum_mk5.py:36-39 | velocities match a forward Euler step; each position moves further by acceleration times dt squared, because it is advanced with the updated velocity |
| Discretizer.Digitize | Intelligent_Pendulum/pendulum_mk5.py:59 | the digitize count never exceeds the number of boundaries |
| Discretizer.DigitizeSplits | Intelligent_Pendulum/pendulum_mk5.py:59 | for increasing boundaries, the count splits them into those at or below v and those above v |
| Discretizer.BinIndex | Intelligent_Pendulum/pendulum_mk5.py:59-60 | the clamped index is a valid index into the boundaries (below len(b)) |
| Discretizer.Discretize | Intelligent_Pendulum/pendulum_mk5.py:54-62 | every component of the key is below the length of its boundary sequence |
| Discretizer.InBinUnique | Intelligent_Pendulum/pendulum_mk5.py:59-60 | bins do not overlap |
| Discretizer.BinIndexIsBin | Intelligent_Pendulum/pendulum_mk5.py:59-60 | the index is k if and only if v lies in bin k (the end bins are open-ended, the rest are right-open) |
| Discretizer.BinIndexAtBoundary | Intelligent_Pendulum/pendulum_mk5.py:59-60 | a value equal to boundary b[k] gets index k |
| Discretizer.BinIndexBelowFirst | Intelligent_Pendulum/pendulum_mk5.py:59-60 | a value below the first boundary is clamped to index 0 |
| Discretizer.BinIndexFromLast | Intelligent_Pendulum/pendulum_mk5.py:59-60 | a value at or beyond the last boundary is clamped to index len(b) - 1 |
| Discretizer.DigitizeMonotone | Intelligent_Pendulum/pendulum_mk5.py:59 | the digitize count is monotone in the value |
| Discretizer.BinIndexMonotone | Intelligent_Pendulum/pendulum_mk5.py:59-60 | the bin index is monotone in the value |
| Discretizer.DiscretizeMonotone | Intelligent_Pendulum/pendulum_mk5.py:54-62 | discretization is monotone in every component |
| RewardFunction.Penalty | Intelligent_Pendulum/pendulum_mk5.py:65-74 | the weighted sum of squares is never negative |
| RewardFunction.Reward | Intelligent_Pendulum/pendulum_mk5.py:64-80 | the reward never exceeds the bonus 5 and is never positive outside the balanced region |
| RewardFunction.RewardBonusIff | Intelligent_Pendulum/pendulum_mk5.py:74-78 | the bonus is added if and only if all three strict closeness tests hold |
| RewardFunction.RewardBonusExample | Intelligent_Pendulum/pendulum_mk5.py:64-80 | a near-upright state (angle 0.05, angular velocity 0.1) earns 5 - 0.0035 = 4.9965; with angular velocity 0.5, exactly at the strict threshold, the bonus is lost (-0.0275) |
| ValueTable.Rank | Intelligent_Pendulum/pendulum_mk5.py:97 | the row-major rank of an in-grid state is below 10*10*20*10 |
| ValueTable.Offset | Intelligent_Pendulum/pendulum_mk5.py:97 | the flat position of Q[s][a] is inside the table |
| ValueTable.RankOrder | Intelligent_Pendulum/pendulum_mk5.py:97 | rank order is lexicographic order of the indices, so ranks are distinct |
| ValueTable.OffsetInjective | Intelligent_Pendulum/pendulum_mk5.py:97 | different (state, action) pairs occupy different entries |
| ValueTable.RowOf | Intelligent_Pendulum/pendulum_mk5.py:113 | Q[s] has one entry per action, and entry a is Q[s][a] |
| ValueTable.ArgMax | Intelligent_Pendulum/pendulum_mk5.py:113 | np.argmax: an index whose value no entry exceeds, and every earlier entry is strictly smaller (the first maximum) |
| ValueTable.FirstMaxOfPrefix | Intelligent_Pendulum/pendulum_mk5.py:113 | the same first-maximum property over the first n entries |
| ValueTable.FirstMaxUnique | Intelligent_Pendulum/pendulum_mk5.py:113 | the first maximum is unique, so any method that meets the argmax contract returns ArgMax |
| ValueTable.Max | Intelligent_Pendulum/pendulum_mk5.py:120 | np.max: an upper bound of the row |
| ValueTable.MaxAttained | Intelligent_Pendulum/pendulum_mk5.py:120 | the maximum is an element of the row and lies below every bound of the row |
| ValueTable.QUpdate | Intelligent_Pendulum/pendulum_mk5.py:120 | the update keeps the table's size |
| ValueTable.QUpdateWrites | Intelligent_Pendulum/pendulum_mk5.py:120 | the new Q[s][a] is (1 - alpha) * old Q[s][a] + alpha * (r + gamma * max of the old Q[ns]) |
| ValueTable.QUpdateFrame | Intelligent_Pendulum/pendulum_mk5.py:120 | every other entry Q[k][b] is unchanged |
| ValueTable.QUpdateKeeps | Intelligent_Pendulum/pendulum_mk5.py:120 | one given other entry is unchanged |
| ValueTable.QUpdateBounded | Intelligent_Pendulum/pendulum_mk5.py:120 | with 0 <= alpha <= 1, gamma >= 0 and r <= (1 - gamma) * bound, an update keeps every entry at most bound |
| ValueTable.ConvexCombinationBounded | Intelligent_Pendulum/pendulum_mk5.py:120 | the blend of two values at most bound, with target reward at most (1 - gamma) * bound, is at most bound |
| ValueTable.QTable.constructor | Intelligent_Pendulum/pendulum_mk5.py:97 | a fresh table of 10*10*20*10*3 zeros |
| ValueTable.QTable.Greedy | Intelligent_Pendulum/pendulum_mk5.py:113 | returns an action below 3 whose value in state s is maximal, and no earlier action reaches that value |
| ValueTable.QTable.Update | Intelligent_Pendulum/pendulum_mk5.py:120 | the new table is QUpdate of the old one: the right-hand side is read before the write |
| ValueTable.QTable.Export | Intelligent_Pendulum/pendulum_mk5.py:126-130 | one record per cell; record j has the indices of rank j and that cell's values for all actions |
| ValueTable.ExportIsRowMajor | Intelligent_Pendulum/pendulum_mk5.py:128-130 | every cell appears exactly once, and in lexicographic (row-major) order of its indices |
| Trainer.Reference | Intelligent_Pendulum/pendulum_mk5.py:91-96 | the reference rates (alpha_max 0.125, gamma 0.99) keep every update a convex combination, and give the value bound 500 |
| Trainer.Anneal | Intelligent_Pendulum/pendulum_mk5.py:102-103 | for a non-negative maximum, the rate lies between floor and maximum + floor |
| Trainer.FractionBelowOne | Intelligent_Pendulum/pendulum_mk5.py:102-103 | episode / episodes lies in [0, 1) |
| Trainer.AnnealAboveFloor | Intelligent_Pendulum/pendulum_mk5.py:102-103 | for a positive maximum, the rate stays strictly above its floor (0.01 for epsilon, 0.05 for alpha) |
| Trainer.AnnealNonIncreasing | Intelligent_Pendulum/pendulum_mk5.py:102-103 | the rate never increases from one episode to a later one |
| Trainer.Choose | Intelligent_Pendulum/pendulum_mk5.py:110-113 | the action is one of the three; when the draw is below epsilon it is the random index, otherwise it is the first action of maximal value |
| Trainer.StepFrom | Intelligent_Pendulum/pendulum_mk5.py:107-120 | a step keeps the table's size |
| Trainer.StepOf | Intelligent_Pendulum/pendulum_mk5.py:107-120 | the step applies to every table of the right size and agrees with StepFrom |
| Trainer.Run | Intelligent_Pendulum/pendulum_mk5.py:106-123 | the rest of an episode keeps the table's size |
| Trainer.RunUnfold | Intelligent_Pendulum/pendulum_mk5.py:106-123 | before step 500, the episode is one step followed either by the end (out of bounds) or by the rest |
| Trainer.Episode | Intelligent_Pendulum/pendulum_mk5.py:106-123 | an episode keeps the table's size |
| Trainer.RunShape | Intelligent_Pendulum/pendulum_mk5.py:106-123 | from step t, the episode takes between 1 and 500 - t more steps, keeps earlier states, passes only through in-bounds states before its last, and ends early only out of bounds |
| Trainer.ShapeOfLastStep | Intelligent_Pendulum/pendulum_mk5.py:122-123 | a step that leaves the bounds, or the 500th step, ends a well-shaped episode |
| Trainer.ShapeExtends | Intelligent_Pendulum/pendulum_mk5.py:106-123 | an in-bounds step followed by a well-shaped rest is well shaped |
| Trainer.EpisodeTermination | Intelligent_Pendulum/pendulum_mk5.py:106-123 | an episode makes between 1 and 500 updates, ends in its last state, and ends before 500 only right after the first out-of-bounds state |
| Trainer.FirstStepTermination | Intelligent_Pendulum/pendulum_mk5.py:116-123 | if the first step leaves the bounds, the episode is exactly that step, and its update is still applied |
| Trainer.QBoundDiscounted | Intelligent_Pendulum/pendulum_mk5.py:94 | (1 - gamma) * QBound(gamma) is the bonus |
| Trainer.StepBounded | Intelligent_Pendulum/pendulum_mk5.py:107-120 | with alpha in [0, 1] and gamma in [0, 1), a learner step keeps every entry at most 5 / (1 - gamma) |
| Trainer.StepFromBounded | Intelligent_Pendulum/pendulum_mk5.py:107-120 | the same bound for one given table, state and step |
| Trainer.RunBounded | Intelligent_Pendulum/pendulum_mk5.py:106-123 | the rest of an episode keeps every bound its steps keep |
| Trainer.EpisodeBounded | Intelligent_Pendulum/pendulum_mk5.py:106-123 | an episode keeps every entry at most 5 / (1 - gamma) |
| Trainer.Training | Intelligent_Pendulum/pendulum_mk5.py:100-123 | training keeps the table's size |
| Trainer.TrainingBounded | Intelligent_Pendulum/pendulum_mk5.py:100-123 | with the reference-style rates, training from a table at most 5 / (1 - gamma) keeps it there |
| Trainer.LearnStep | Intelligent_Pendulum/pendulum_mk5.py:107-120 | one in-place step leaves the simulator and the table exactly as StepFrom says, and returns the new state |
| Trainer.ChooseAction | Intelligent_Pendulum/pendulum_mk5.py:110-113 | the in-place choice equals Choose on the table's contents |
| Trainer.RunEpisode | Intelligent_Pendulum/pendulum_mk5.py:106-123 | the in-place inner loop leaves the table and the simulator as Episode says, and returns its number of steps |
| Trainer.Train | Intelligent_Pendulum/pendulum_mk5.py:100-123 | the in-place training loop (reset, rates, inner loop) leaves the table and the simulator as Training says |
| Trainer.TrainAndExport | Intelligent_Pendulum/pendulum_mk5.py:97-130 | the CSV records are the rows of the table trained from zeros, one per cell in row-major order; with rates as in the reference run every exported value is at most 5 / (1 - gamma) |
| Trainer.GreedyForce | Intelligent_Pendulum/pendulum_mk5.py:152-155 | the policy applies the force of the first action whose value in the current cell is maximal |

## Left out

- Pygame visualization (lines 132-180): only the greedy choice it makes (lines 152-155) is modelled, as `GreedyForce`.
- CSV file I/O (lines 126-127): `Export` and `TrainAndExport` produce the records that are written; opening and writing the file is not modelled.
- Console output (line 105) is not modelled.
- The equations of motion (lines 28-34) use sine and cosine. They are not modelled; the accelerations reach `InvertedPendulum.Step` as the `Physics` parameter.
- The pseudo-random generator (lines 110-111) is not modelled. Its draws are the `Rng` parameter, and `randint(0, 2)` is assumed in range through `RngOk`.
- The bin boundaries (`np.linspace`, lines 48-51) and the value of pi are parameters (`Config.bins`, `Config.pi`). Only their counts (10, 10, 20, 10) are fixed, as the table's shape.
- Floating-point rounding is not modelled: all arithmetic is on exact reals. NumPy's float64 NaN handling in `argmax`/`max` therefore has no counterpart.
- The table shape is fixed by constants (line 97). Configurations whose boundary counts differ are excluded by `ConfigOk`, because the program builds the table from the same bin arrays it discretizes with.
- The program does not validate its configuration, and the model adds no validation. For example, `episodes = 0` simply trains nothing.
- The commented-out alternative rewards (lines 82-88) are not modelled.
- NumPy's state copies (lines 22, 45) are modelled by the state being a value: no caller can alias the simulator's state. This also erases the alias that `step` hands out, since it returns `self.state` itself rather than a copy (line 42); the program never mutates that returned array, so no behaviour is lost.
- Trainer.AnnealAboveFloor: requires a positive maximum; with a maximum of zero the rate equals its floor, which `Anneal`'s own contract covers.
- ValueTable.QTable.Update: its contract is the tie to `QUpdate`; the closed form of the written entry and the unchanged rest are the lemmas `QUpdateWrites` and `QUpdateFrame`.
- Trainer.FirstStepTermination: whether the first step leaves the bounds depends on the equations of motion, which are not modelled, so the lemma assumes it rather than deriving it from a start just past a limit.
