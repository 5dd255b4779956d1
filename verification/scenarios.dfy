/**
 * The concrete behaviour pinned down by utils/test/test_replay_memory.py and
 * utils/test/test_prioritised_replay_memory.py, stated as client methods
 * whose postconditions follow from the buffers' contracts alone.
 */
module Scenarios {
  import opened Batching
  import opened Ring
  import opened Replay

  /** The record the append tests push twenty times. */
  const AppendRecord := Transition([0.0, 1.0, 2.0, 3.0], 0, [4.0, 5.0, 6.0, 7.0], 0.0, true)

  /** The record the sample and update tests push on step `i`:
    * four-component states, action 0, reward 0 and a terminal flag. */
  function TestRecord(i: int): (t: Transition)
    ensures |t.s| == 4 && |t.s1| == 4
  {
    Transition([0.0, 1.0, 2.0, i as real], 0, [4.0, 5.0, 6.0, (i * i) as real], 0.0, true)
  }

  /** Twenty pushes into a uniform buffer of capacity 10 leave ten stored. */
  method UniformAppendTwenty() returns (stored: nat)
    ensures stored == 10
  {
    var m := new ReplayMemory(10);
    var i := 0;
    while i < 20
      invariant 0 <= i <= 20
      invariant m.Valid() && m.capacity == 10 && |m.pushed| == i
    {
      m.Push(AppendRecord);
      i := i + 1;
    }
    stored := m.Len();
  }

  /** Twenty pushes into a prioritised buffer of capacity 10 leave ten
    * transitions, each with a priority. */
  method PrioritisedAppendTwenty() returns (stored: nat, scored: nat)
    ensures stored == 10 && scored == 10
  {
    var m := new PrioritisedReplayMemory(10, 0.1, 0.5);
    var i := 0;
    while i < 20
      invariant 0 <= i <= 20
      invariant m.Valid() && m.capacity == 10 && |m.pushed| == i
    {
      m.Push(AppendRecord);
      i := i + 1;
    }
    stored := m.Len();
    scored := |m.errors|;
  }

  /** The setup of the sampling test: ten pushes of the test records into
    * a fresh buffer of capacity 10. */
  method FilledUniform() returns (m: ReplayMemory)
    ensures fresh(m) && m.Valid() && |m.memory| == 10
    ensures forall j :: 0 <= j < |m.memory| ==> |m.memory[j].s| == 4 && |m.memory[j].s1| == 4
  {
    m := new ReplayMemory(10);
    var i := 0;
    while i < 10
      invariant 0 <= i <= 10
      invariant m.Valid() && m.capacity == 10 && |m.pushed| == i
      invariant forall j :: 0 <= j < |m.memory| ==> |m.memory[j].s| == 4 && |m.memory[j].s1| == 4
    {
      m.Push(TestRecord(i));
      i := i + 1;
    }
  }

  /** Ten pushes, then a sample of two: the state columns have shape (2, 4)
    * and the action, reward and flag columns shape (2, 1). */
  method UniformSampleTwo() returns (res: Result<Batch>)
    ensures res.Ok? && Shaped(res.value, 2)
    ensures forall i :: 0 <= i < 2 ==> |res.value.s[i]| == 4 && |res.value.s1[i]| == 4
  {
    var m := FilledUniform();
    res := m.Sample(2);
    forall idx | IsSelection(idx, |m.memory|, 2)
      ensures forall i :: 0 <= i < 2 ==> |Columns(Gather(m.memory, idx)).s[i]| == 4 && |Columns(Gather(m.memory, idx)).s1[i]| == 4
    {
      StateShape(Gather(m.memory, idx), 4);
    }
  }

  /** The setup of the prioritised sampling test: ten pushes of the test
    * records into a fresh prioritised buffer of capacity 10. */
  method FilledPrioritised() returns (m: PrioritisedReplayMemory)
    ensures fresh(m) && m.Valid() && m.e == 0.1 && |m.memory| == 10 && |m.errors| == 10
    ensures forall j :: 0 <= j < |m.memory| ==> |m.memory[j].s| == 4 && |m.memory[j].s1| == 4
    ensures forall j :: 0 <= j < |m.errors| ==> m.errors[j] == Sentinel
  {
    m := new PrioritisedReplayMemory(10, 0.1, 0.5);
    var i := 0;
    while i < 10
      invariant 0 <= i <= 10
      invariant m.Valid() && m.capacity == 10 && m.e == 0.1 && |m.pushed| == i
      invariant forall j :: 0 <= j < |m.memory| ==> |m.memory[j].s| == 4 && |m.memory[j].s1| == 4
      invariant |m.errors| == i && forall j :: 0 <= j < i ==> m.errors[j] == Sentinel
    {
      m.Push(TestRecord(i));
      i := i + 1;
    }
  }

  /** Ten pushes, then a prioritised sample of two: the state columns have
    * shape (2, 4), the action, reward and flag columns shape (2, 1), and two
    * distinct slots come back. */
  method PrioritisedSampleTwo() returns (res: Result<(Batch, seq<nat>)>)
    ensures res.Ok? && Shaped(res.value.0, 2) && IsSelection(res.value.1, 10, 2)
    ensures forall i :: 0 <= i < 2 ==> |res.value.0.s[i]| == 4 && |res.value.0.s1[i]| == 4
  {
    var m := FilledPrioritised();
    res := m.Sample(2);
    StateShape(Gather(m.memory, res.value.1), 4);
  }

  /** Ten pushes, then `update([1, 3], [2, 5])` with floor 0.1: the two
    * named priorities become 2.1 and 5.1 and the others keep the sentinel. */
  method PrioritisedUpdate() returns (p0: real, p1: real, p3: real)
    ensures p1 == 2.1 && p3 == 5.1 && p0 == Sentinel
  {
    var m := FilledPrioritised();
    ghost var before := m.errors;
    var outcome := m.Update([1, 3], [2.0, 5.0]);
    assert StepOk([1, 3], [2.0, 5.0], 10, 0) && StepOk([1, 3], [2.0, 5.0], 10, 1);
    OverwrittenAt(before, [1, 3], [2.0, 5.0], 0.1, 2, 0);
    OverwrittenAt(before, [1, 3], [2.0, 5.0], 0.1, 2, 1);
    OverwrittenAt(before, [1, 3], [2.0, 5.0], 0.1, 2, 3);
    p0, p1, p3 := m.errors[0], m.errors[1], m.errors[3];
  }
}
