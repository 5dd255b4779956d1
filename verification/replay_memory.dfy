/**
 * The two experience-replay buffers of utils/replay_memory.py: a uniform
 * ring buffer, and a prioritised one that keeps a priority score per
 * stored slot in a list parallel to the stored transitions.
 */
module Replay {
  import opened Batching
  import opened Ring

  /** The priority every freshly stored transition receives. */
  const Sentinel: real := 10000.0

  function Abs(x: real): (y: real)
    ensures y >= 0.0 && (y == x || y == -x)
  {
    if x < 0.0 then -x else x
  }

  datatype Option<T> = None | Some(value: T)

  /** Python's list indexing: `j` names a slot of a list of length `n` when
    * `-n <= j < n`, a negative `j` counting from the end. */
  function PySlot(j: int, n: nat): (slot: Option<nat>)
    ensures slot.Some? <==> -(n as int) <= j < n
    ensures slot.Some? ==> slot.value < n && (slot.value == j || slot.value == j + n)
  {
    if 0 <= j < n then Some(j) else if -(n as int) <= j < 0 then Some(j + n) else None
  }

  /** Step `i` of `update` completes: the observed error `i` exists and
    * index `i` names a slot of a priority list of length `n`. */
  predicate StepOk(indices: seq<int>, observed: seq<real>, n: nat, i: nat)
  {
    i < |indices| && i < |observed| && PySlot(indices[i], n).Some?
  }

  /** The priorities after the first `k` steps of `update`: step `i` writes
    * `|observed[i]| + e` into the slot `indices[i]` names. */
  function Overwritten(priorities: seq<real>, indices: seq<int>, observed: seq<real>, e: real, k: nat): (r: seq<real>)
    requires forall i :: 0 <= i < k ==> StepOk(indices, observed, |priorities|, i)
    ensures |r| == |priorities|
    decreases k
  {
    if k == 0 then priorities
    else
      assert StepOk(indices, observed, |priorities|, k - 1);
      var before := Overwritten(priorities, indices, observed, e, k - 1);
      before[PySlot(indices[k - 1], |priorities|).value := Abs(observed[k - 1]) + e]
  }

  /** The last of the first `k` steps that writes slot `s`, if any. */
  function LastWriter(indices: seq<int>, n: nat, s: nat, k: nat): (w: Option<nat>)
    requires k <= |indices|
    ensures w.Some? ==>
      w.value < k && PySlot(indices[w.value], n) == Some(s) &&
      forall i :: w.value < i < k ==> PySlot(indices[i], n) != Some(s)
    ensures w.None? ==> forall i :: 0 <= i < k ==> PySlot(indices[i], n) != Some(s)
  {
    if k == 0 then None
    else if PySlot(indices[k - 1], n) == Some(s) then Some(k - 1)
    else LastWriter(indices, n, s, k - 1)
  }

  /** Updates overwrite and never accumulate: each slot ends up with the
    * value of the last step that names it, and a slot no step names keeps
    * its old priority. */
  lemma {:induction false} OverwrittenAt(priorities: seq<real>, indices: seq<int>, observed: seq<real>, e: real, k: nat, s: nat)
    requires forall i :: 0 <= i < k ==> StepOk(indices, observed, |priorities|, i)
    requires s < |priorities| && k <= |indices| && k <= |observed|
    ensures Overwritten(priorities, indices, observed, e, k)[s] ==
      match LastWriter(indices, |priorities|, s, k)
      case None => priorities[s]
      case Some(i) => Abs(observed[i]) + e
    decreases k
  {
    if k > 0 {
      assert StepOk(indices, observed, |priorities|, k - 1);
      OverwrittenAt(priorities, indices, observed, e, k - 1, s);
      var slot := PySlot(indices[k - 1], |priorities|).value;
      var before := Overwritten(priorities, indices, observed, e, k - 1);
      assert Overwritten(priorities, indices, observed, e, k) == before[slot := Abs(observed[k - 1]) + e];
      if slot == s {
        assert LastWriter(indices, |priorities|, s, k) == Some(k - 1);
      } else {
        assert LastWriter(indices, |priorities|, s, k) == LastWriter(indices, |priorities|, s, k - 1);
      }
    }
  }

  /** Every priority is the sentinel or at least the floor `e`. */
  predicate Floor(priorities: seq<real>, e: real)
  {
    forall j :: 0 <= j < |priorities| ==> priorities[j] == Sentinel || priorities[j] >= e
  }

  /** Updates keep the floor: every written value is `|x| + e >= e`. */
  lemma {:induction false} OverwrittenKeepsFloor(priorities: seq<real>, indices: seq<int>, observed: seq<real>, e: real, k: nat)
    requires forall i :: 0 <= i < k ==> StepOk(indices, observed, |priorities|, i)
    requires Floor(priorities, e)
    ensures Floor(Overwritten(priorities, indices, observed, e, k), e)
    decreases k
  {
    if k > 0 {
      OverwrittenKeepsFloor(priorities, indices, observed, e, k - 1);
    }
  }

  /** Storing the sentinel, in a new slot or over an old one, keeps the
    * floor. */
  lemma StoreKeepsFloor(priorities: seq<real>, capacity: nat, position: nat, e: real)
    requires Floor(priorities, e) && position < |Grown(priorities, capacity, Sentinel)|
    ensures Floor(Grown(priorities, capacity, Sentinel)[position := Sentinel], e)
  {
  }

  /** With a positive floor every priority is positive, so every stored
    * slot has a nonzero chance of being sampled. */
  lemma FloorIsPositive(priorities: seq<real>, e: real)
    requires Floor(priorities, e) && e > 0.0
    ensures forall j :: 0 <= j < |priorities| ==> priorities[j] > 0.0
  {
  }

  /** How `update` ends: all steps done, or an IndexError at `step` (a
    * missing observed error or an index outside the list), with the writes
    * of the earlier steps already made. */
  datatype UpdateOutcome = Updated | IndexError(step: nat)

  /** Uniform experience replay: a ring of at most `capacity` transitions. */
  class ReplayMemory {
    const capacity: nat
    var memory: seq<Transition>
    var position: nat
    /** Every transition ever pushed, oldest first. */
    ghost var pushed: seq<Transition>

    /** The ring's shape holds, and read oldest first from the cursor the
      * stored slots are the last `capacity` transitions pushed. */
    ghost predicate Valid()
      reads this
    {
      Shape(|memory|, position, capacity) && Rotate(memory, position) == Last(pushed, capacity)
    }

    constructor (capacity: nat)
      requires capacity >= 1
      ensures Valid() && this.capacity == capacity
      ensures memory == [] && position == 0 && pushed == []
    {
      this.capacity := capacity;
      memory := [];
      position := 0;
      pushed := [];
    }

    /** Stores `item`: one more slot while the ring is filling, otherwise
      * the oldest slot (at the cursor) is overwritten; then the cursor
      * advances modulo the capacity. */
    method Push(item: Transition)
      requires Valid()
      modifies this
      ensures Valid()
      ensures pushed == old(pushed) + [item]
      ensures |memory| == if |old(memory)| < capacity then |old(memory)| + 1 else capacity
      ensures old(position) < |memory| && memory[old(position)] == item
      ensures forall j :: 0 <= j < |old(memory)| && j != old(position) ==> memory[j] == old(memory)[j]
      ensures position == (old(position) + 1) % capacity
    {
      StoreKeepsWindow(memory, position, capacity, pushed, item);
      if |memory| < capacity {
        memory := memory + [item];  // the new slot, written again below
      }
      memory := memory[position := item];
      position := Advance(position, capacity);
      pushed := pushed + [item];
    }

    /** The number of stored transitions: every push so far, up to the
      * capacity. */
    function Len(): (n: nat)
      reads this
      requires Valid()
      ensures n <= capacity
      ensures n == if |pushed| < capacity then |pushed| else capacity
    {
      |memory|
    }

    /** Draws `batchSize` distinct stored slots (in any order) and returns
      * the chosen transitions transposed into columns. */
    method Sample(batchSize: int) returns (res: Result<Batch>)
      requires Valid()
      ensures res.Ok? <==> 1 <= batchSize <= |memory|
      ensures res.Err? ==> res.error == if batchSize == 0 then EmptyBatch else BadSampleSize
      ensures res.Ok? ==>
        exists idx :: IsSelection(idx, |memory|, batchSize) && res.value == Columns(Gather(memory, idx))
    {
      if batchSize < 0 || batchSize > |memory| {
        return Err(BadSampleSize);
      }
      SelectionExists(|memory|, batchSize);
      var idx: seq<nat> :| IsSelection(idx, |memory|, batchSize);
      assert IsSelection(idx, |memory|, batchSize);  // unfolds the choice for the solver
      var out := Gather(memory, idx);
      if out == [] {
        return Err(EmptyBatch);
      }
      res := Ok(Columns(out));
    }
  }

  /** Proportional prioritised replay: the ring of transitions plus a
    * priority per stored slot, kept at the same indices. */
  class PrioritisedReplayMemory {
    const capacity: nat
    const e: real
    const alpha: real
    var memory: seq<Transition>
    var errors: seq<real>
    var position: nat
    /** Every transition ever pushed, oldest first. */
    ghost var pushed: seq<Transition>

    /** The ring invariant of `ReplayMemory`, one priority per stored slot,
      * and each priority is the sentinel or at least the floor `e > 0`. */
    ghost predicate Valid()
      reads this
    {
      Shape(|memory|, position, capacity) && Rotate(memory, position) == Last(pushed, capacity) &&
      |errors| == |memory| && e > 0.0 && Floor(errors, e)
    }

    constructor (capacity: nat, e: real, alpha: real)
      requires capacity >= 1 && e > 0.0
      ensures Valid() && this.capacity == capacity && this.e == e && this.alpha == alpha
      ensures memory == [] && errors == [] && position == 0 && pushed == []
    {
      this.capacity := capacity;
      this.e := e;
      this.alpha := alpha;
      memory := [];
      errors := [];
      position := 0;
      pushed := [];
    }

    /** Stores `item` as `ReplayMemory.Push` does and gives its slot the
      * sentinel priority; no other slot or priority changes. */
    method Push(item: Transition)
      requires Valid()
      modifies this
      ensures Valid()
      ensures pushed == old(pushed) + [item]
      ensures |memory| == |errors| == if |old(memory)| < capacity then |old(memory)| + 1 else capacity
      ensures old(position) < |memory| && memory[old(position)] == item && errors[old(position)] == Sentinel
      ensures forall j :: 0 <= j < |old(memory)| && j != old(position) ==>
        memory[j] == old(memory)[j] && errors[j] == old(errors)[j]
      ensures position == (old(position) + 1) % capacity
    {
      StoreKeepsWindow(memory, position, capacity, pushed, item);
      StoreKeepsFloor(errors, capacity, position, e);
      var m, p := memory, errors;
      if |m| < capacity {
        m, p := m + [item], p + [Sentinel];  // the new slots, written again below
      }
      assert m == Grown(memory, capacity, item) && p == Grown(errors, capacity, Sentinel);
      memory, errors := m[position := item], p[position := Sentinel];
      position := Advance(position, capacity);
      pushed := pushed + [item];
    }

    /** The number of stored transitions: every push so far, up to the
      * capacity. */
    function Len(): (n: nat)
      reads this
      requires Valid()
      ensures n <= capacity && n == |errors|
      ensures n == if |pushed| < capacity then |pushed| else capacity
    {
      |memory|
    }

    /** Draws `batchSize` distinct slots, every one with a positive
      * priority, and returns the chosen transitions as columns together
      * with the slots, which `Update` later takes back. */
    method Sample(batchSize: int) returns (res: Result<(Batch, seq<nat>)>)
      requires Valid()
      ensures res.Ok? <==> 1 <= batchSize <= |memory|
      ensures res.Err? ==> res.error == if batchSize == 0 && |memory| > 0 then EmptyBatch else BadSampleSize
      ensures res.Ok? ==>
        var (batch, idx) := res.value;
        IsSelection(idx, |errors|, batchSize) &&
        (forall i :: 0 <= i < batchSize ==> errors[idx[i]] > 0.0) &&
        batch == Columns(Gather(memory, idx))
    {
      if batchSize < 0 || batchSize > |errors| || |errors| == 0 {
        return Err(BadSampleSize);
      }
      FloorIsPositive(errors, e);
      SelectionExists(|errors|, batchSize);
      var idx: seq<nat> :| IsSelection(idx, |errors|, batchSize);
      assert IsSelection(idx, |errors|, batchSize);  // unfolds the choice for the solver
      var out := Gather(memory, idx);
      if out == [] {
        return Err(EmptyBatch);
      }
      res := Ok((Columns(out), idx));
    }

    /** For each `i` in turn, sets the priority at `indices[i]` to
      * `|observed[i]| + e`, stopping at the first step that raises an
      * IndexError. The transitions are untouched. */
    method Update(indices: seq<int>, observed: seq<real>) returns (outcome: UpdateOutcome)
      requires Valid()
      modifies this`errors
      ensures Valid() && memory == old(memory)
      ensures outcome.Updated? ==>
        (forall i :: 0 <= i < |indices| ==> StepOk(indices, observed, |old(errors)|, i)) &&
        errors == Overwritten(old(errors), indices, observed, e, |indices|)
      ensures outcome.IndexError? ==>
        outcome.step < |indices| && !StepOk(indices, observed, |old(errors)|, outcome.step) &&
        (forall i :: 0 <= i < outcome.step ==> StepOk(indices, observed, |old(errors)|, i)) &&
        errors == Overwritten(old(errors), indices, observed, e, outcome.step)
    {
      var i := 0;
      while i < |indices|
        invariant 0 <= i <= |indices|
        invariant forall j :: 0 <= j < i ==> StepOk(indices, observed, |old(errors)|, j)
        invariant errors == Overwritten(old(errors), indices, observed, e, i)
        invariant Valid()
      {
        if i >= |observed| {
          return IndexError(i);
        }
        var slot := PySlot(indices[i], |errors|);
        if slot.None? {
          return IndexError(i);
        }
        OverwrittenKeepsFloor(old(errors), indices, observed, e, i + 1);
        errors := errors[slot.value := Abs(observed[i]) + e];
        i := i + 1;
      }
      outcome := Updated;
    }
  }
}
