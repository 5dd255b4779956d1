# Experience-replay buffers, modelled in Dafny

This project models the experience-replay storage of an off-policy
reinforcement-learning code base. The model covers `utils/replay_memory.py`:

- **Transition**: the record type. It holds a state `s`, an action `a`, a next state
  `s_1` (here `s1`), a reward `r` and a terminal flag `done`.
- **ReplayMemory**: a fixed-capacity ring buffer. `push` appends until `capacity`
  slots exist. After that it overwrites the slot at the cursor `position`. The cursor
  then advances modulo `capacity`. `sample` draws distinct slots at random and
  transposes the chosen transitions into five columns: `s`, `a`, `s_1`, `r` and `done`.
  The last three get a trailing singleton dimension.
- **PrioritisedReplayMemory**: the same ring, plus an `errors` list of priorities at
  the same indices. Every stored slot gets the sentinel priority 10000. `sample` also
  returns the chosen slots. `update` overwrites the priorities of the listed slots
  with `|error| + e`.

Layout:

- `batching.dfy` (module `Batching`): the `Transition` and `Batch` datatypes, the
  transposition `Columns` and its inverse `Rows`, and the predicate for a
  without-replacement selection of slots.
- `ring.dfy` (module `Ring`): the ring arithmetic shared by both buffers. Read oldest
  first from the cursor (`Rotate`), the stored slots are always the last `capacity`
  items pushed (`Last`).
- `replay_memory.dfy` (module `Replay`): both buffers as classes. The fields are
  `memory`, `errors` and `position`, as in the source. A ghost field `pushed` records
  the push history. `Valid()` ties the fields to that history. `Push` and `Update`
  are methods that change the state. `Sample` is a method that only reads it. The
  specification of `update` is the function `Overwritten`. Lemmas about it state
  last-write-wins and the priority floor.
- `scenarios.dfy` (module `Scenarios`): the concrete behaviour that the repository's
  unit tests check, proved from the classes' contracts.

Random choice is modelled as a nondeterministic choice (`:|`) of pairwise-distinct
in-range slots. Floating-point numbers are modelled as `real`.

The repository's tests `test_multi_step` and `test_zero_step` build
`ReplayMemory(capacity=10, multi_step_n=2)` and `ReplayMemory(capacity=10,
multi_step_n=0)` respectively. They expect an n-step return accumulator. `utils/replay_memory.py` has no such accumulator: its constructor takes
only `capacity`. This model follows the code. The n-step accumulator is not part of
this model.

In the code, `PrioritisedReplayMemory` does not inherit from `ReplayMemory`. It
repeats the ring logic. The model keeps the two classes apart, but both use the ring
lemmas of `Ring`.

## Model

| member | source | states |
|---|---|---|
| `Batching.Columns` | utils/replay_memory.py:24-30 | The five columns have one entry per sampled transition. Entry i of `s`, `s_1` is the i-th transition's state and next state. Entry i of `a`, `r`, `done` is the singleton row of the i-th transition's field. |
| `Batching.RowsOfColumns` | utils/replay_memory.py:24 | The transposition loses nothing: reading the columns back row by row gives exactly the sampled transitions. |
| `Batching.ColumnsOfRows` | utils/replay_memory.py:24-30 | Every well-shaped batch (equal column lengths, singleton scalar rows) is the transposition of its rows, so `Columns` is onto well-shaped batches. |
| `Batching.StateShape` | utils/replay_memory.py:25-28 | When every sampled state and next state has length d, the state columns have shape (k, d). |
| `Batching.SelectionExists` | utils/replay_memory.py:23 | A without-replacement selection of k slots exists whenever k is at most the number stored, so sampling can succeed. |
| `Ring.Advance` | utils/replay_memory.py:20 | The cursor after a store is `(position + 1) mod capacity`. |
| `Ring.StoreWhileFilling` | utils/replay_memory.py:17-19 | While the ring is not full, a store appends at the cursor, which equals the length. The stored slots are then the whole history. |
| `Ring.StoreWhenFull` | utils/replay_memory.py:19-20 | Once full, a store overwrites the oldest slot. Read from the advanced cursor, the slots drop the oldest item and end with the new one. |
| `Ring.StoreKeepsWindow` | utils/replay_memory.py:15-20 | One store keeps the ring shape (length at most capacity, cursor in range, cursor equals length while filling). The slots read oldest first stay the last `capacity` items pushed. |
| `Replay.ReplayMemory.constructor` | utils/replay_memory.py:10-13 | A new buffer is empty with cursor 0 and satisfies the ring invariant. |
| `Replay.ReplayMemory.Push` | utils/replay_memory.py:15-20 | Grows by exactly one slot until full, then not at all. Writes the item at the old cursor. Leaves every other slot unchanged. Sets the cursor to `(old position + 1) mod capacity`. Keeps the invariant that the slots hold the last `capacity` pushes. |
| `Replay.ReplayMemory.Len` | utils/replay_memory.py:33-34 | Occupancy is the number of pushes so far, capped at the capacity. |
| `Replay.ReplayMemory.Sample` | utils/replay_memory.py:22-31 | Succeeds exactly when 1 <= batch_size <= len. The batch is the column form of the transitions at some k pairwise-distinct in-range slots. Size 0 fails with the empty-batch error. Negative or too large sizes fail with the sampler's error. |
| `Replay.PrioritisedReplayMemory.constructor` | utils/replay_memory.py:45-51 | A new buffer has no transitions and no priorities, cursor 0, and the given floor and exponent. |
| `Replay.PrioritisedReplayMemory.Push` | utils/replay_memory.py:53-60 | Same ring discipline as the uniform push, applied to both lists. The lengths stay equal. The written slot gets priority exactly 10000. Every other transition and priority is unchanged. |
| `Replay.PrioritisedReplayMemory.Len` | utils/replay_memory.py:81-82 | Occupancy is the number of pushes so far, capped at the capacity. It equals the number of priorities. |
| `Replay.PrioritisedReplayMemory.Sample` | utils/replay_memory.py:62-74 | Succeeds exactly when 1 <= batch_size <= len. It returns k pairwise-distinct slots, each in range and each with a positive priority, together with the column form of the transitions at those slots. |
| `Replay.PrioritisedReplayMemory.Update` | utils/replay_memory.py:76-79 | Performs the writes `errors[indices[i]] = abs(observed[i]) + e` in order. On success the new priorities are `Overwritten` over all steps. Otherwise it stops at the first step whose observed error is missing or whose index is outside the list, keeping the earlier writes. The transitions and the invariant, including the floor, are preserved. |
| `Replay.Overwritten` | utils/replay_memory.py:76-79 | The writes of `update` never change the number of priorities. |
| `Replay.PySlot` | utils/replay_memory.py:79 | A Python list index j is valid for length n exactly when -n <= j < n. A negative index counts from the end. |
| `Replay.LastWriter` | utils/replay_memory.py:78-79 | Finds the last of the first k update steps that names a slot, or reports that no step names it. |
| `Replay.OverwrittenAt` | utils/replay_memory.py:76-79 | After the updates, each slot holds `abs(x) + e` for the last step naming it, whatever it held before. A slot that no step names keeps its old priority. |
| `Replay.OverwrittenKeepsFloor` | utils/replay_memory.py:77-79 | If every priority is the sentinel or at least `e`, that stays true after any number of update steps. |
| `Replay.StoreKeepsFloor` | utils/replay_memory.py:55-59 | Storing the sentinel priority, in a new slot or over an old one, keeps every priority at the sentinel or at least `e`. |
| `Replay.FloorIsPositive` | utils/replay_memory.py:63-66 | With `e > 0`, every priority is positive, so every stored slot can be drawn. |
| `Scenarios.UniformAppendTwenty` | utils/test/test_replay_memory.py:9-13 | Twenty pushes into a capacity-10 buffer leave exactly 10 stored. |
| `Scenarios.PrioritisedAppendTwenty` | utils/test/test_prioritised_replay_memory.py:9-13 | Twenty pushes into a capacity-10 prioritised buffer leave 10 transitions and 10 priorities. |
| `Scenarios.FilledUniform` | utils/test/test_replay_memory.py:16-18 | Ten pushes of 4-component records into a fresh capacity-10 buffer leave ten stored transitions, all with 4-component states. |
| `Scenarios.UniformSampleTwo` | utils/test/test_replay_memory.py:15-25 | After ten pushes of 4-component states, `sample(2)` succeeds. The state columns have shape (2, 4) and the action, reward and flag columns have shape (2, 1). |
| `Scenarios.FilledPrioritised` | utils/test/test_prioritised_replay_memory.py:17-19 | Ten pushes of 4-component records into a fresh capacity-10 prioritised buffer leave ten transitions with 4-component states and ten priorities, all 10000. |
| `Scenarios.PrioritisedSampleTwo` | utils/test/test_prioritised_replay_memory.py:16-26 | After ten pushes, the prioritised `sample(2)` succeeds with two distinct in-range slots. The state columns have shape (2, 4) and the action, reward and flag columns have shape (2, 1). |
| `Scenarios.PrioritisedUpdate` | utils/test/test_prioritised_replay_memory.py:29-36 | After ten pushes, `update([1, 3], [2, 5])` with `e = 0.1` sets priority 1 to 2.1 and priority 3 to 5.1. Priority 0 keeps the sentinel. |

## Left out

- Priority weighting: `sample` weights each slot by `errors ** alpha`, normalised by the sum (utils/replay_memory.py:63-64). This is floating-point power and division and is not modelled. `alpha` is stored but unused. Only the support of the distribution is modelled: every chosen slot has a positive priority.
- Randomness: `random.sample` and `np.random.choice` become a nondeterministic choice of distinct slots. The probabilities of the draws are not modelled. This includes the statistical claim that a fresh (sentinel) slot is drawn far more often than a low-error one.
- Floating point: rewards, states and priorities are `real`. Rounding is not modelled. For example, `2 + 0.1 == 2.1` holds in the reals, and it also holds in IEEE doubles.
- numpy: array conversion, `np.take` on lists of records, and `expand_dims` are modelled by sequences. The trailing singleton dimension is a one-element row.
- `__str__` (utils/replay_memory.py:36-40, 84-88): debug formatting only.
- n-step return accumulation (`multi_step_n`, the discounted window): it is exercised by utils/test/test_replay_memory.py:27-49, but its implementation is not in utils/replay_memory.py, so it is not part of this model.
- Importance-sampling weights: the code has none.
- Concurrency: the buffers are single-threaded. The hazard of a push landing between a sample and its update is outside the model.
- Replay.ReplayMemory.constructor: requires `capacity >= 1`. The code accepts any capacity, but with `capacity <= 0` every later `push` raises (an IndexError at `self.memory[0]`). The model does not carry a buffer that can never store anything.
- Replay.PrioritisedReplayMemory.constructor: requires `capacity >= 1` for the same reason. It also requires `e > 0`. The code accepts any `e`, but a non-positive floor can give a slot a zero or undefined (NaN) sampling weight, which numpy's `choice` rejects or skips. That failure is not modelled. The default `e` is 0.1.
- Default arguments: the source's constructor defaults `e=0.1` and `alpha=0.5` (utils/replay_memory.py:45). The model's constructor takes both values explicitly, so neither default is modelled.
- Replay.ReplayMemory.Sample: assumes numpy before version 1.24. There, `np.array(list(batched.s))` and `np.array(list(batched.s_1))` (utils/replay_memory.py:25, 28) turn states of unequal length into an object array. From numpy 1.24 on, that call raises a ValueError ("inhomogeneous shape"). The model drops that error path and returns such states as rows of their own length.
- Replay.PrioritisedReplayMemory.Sample: assumes numpy before version 1.24. There, `np.take(self.memory, indices, axis=0)` (utils/replay_memory.py:67) builds an object array from the records, whose list-valued `s` and `s_1` sit next to scalar `a`, `r` and `done`. From numpy 1.24 on, that call raises a ValueError for such records, the tests' own records included. So do `np.array(...)` on states of unequal length (lines 69, 71). The model drops these error paths: it succeeds whenever 1 <= batch_size <= len.
- Replay.PrioritisedReplayMemory.Update: indices are integers and observed errors are reals. A scalar `errors` argument, or other numpy broadcasting of it, is not modelled.
- Transition: states are sequences of reals and the action is an integer, matching the tests' records. Other numeric shapes are not modelled.
