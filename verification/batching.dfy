/**
 * Transition records and the step shared by both `sample` operations of
 * utils/replay_memory.py: choosing distinct stored slots and transposing the
 * chosen transitions ("list of records") into five batch-major columns
 * ("record of lists").
 */
module Batching {

  /** One interaction record: state `s`, action `a`, next state `s1`
    * (the source's `s_1`), reward `r` and the terminal flag `done`. */
  datatype Transition = Transition(s: seq<real>, a: int, s1: seq<real>, r: real, done: bool)

  /** The five columns a sample returns. Action, reward and flag carry a
    * trailing singleton dimension (shape (k, 1)). The state columns have
    * shape (k, d) when every state has length d; states of unequal length
    * are kept as rows of their own length, as an object array would hold
    * them. */
  datatype Batch = Batch(s: seq<seq<real>>, a: seq<seq<int>>, s1: seq<seq<real>>,
                         r: seq<seq<real>>, done: seq<seq<bool>>)

  /** Why a sample fails: the random sampler rejects the batch size
    * (negative, larger than the population, or an empty population), or the
    * sampler returned no transitions and the transposition has nothing to
    * build a record from. */
  datatype SampleError = BadSampleSize | EmptyBatch

  datatype Result<T> = Ok(value: T) | Err(error: SampleError)

  /** Every column has `k` entries and the three scalar columns hold
    * singleton rows. */
  predicate Shaped(b: Batch, k: nat)
  {
    |b.s| == |b.a| == |b.s1| == |b.r| == |b.done| == k &&
    (forall i :: 0 <= i < k ==> |b.a[i]| == 1) &&
    (forall i :: 0 <= i < k ==> |b.r[i]| == 1) &&
    (forall i :: 0 <= i < k ==> |b.done[i]| == 1)
  }

  /** Transposes the sampled transitions into columns. */
  function Columns(ts: seq<Transition>): (b: Batch)
    ensures Shaped(b, |ts|)
    ensures forall i :: 0 <= i < |ts| ==>
      b.s[i] == ts[i].s && b.a[i] == [ts[i].a] && b.s1[i] == ts[i].s1 &&
      b.r[i] == [ts[i].r] && b.done[i] == [ts[i].done]
  {
    if ts == [] then Batch([], [], [], [], [])
    else
      var rest := Columns(ts[1..]);
      Batch([ts[0].s] + rest.s, [[ts[0].a]] + rest.a, [ts[0].s1] + rest.s1,
            [[ts[0].r]] + rest.r, [[ts[0].done]] + rest.done)
  }

  /** Reads a well-shaped batch back row by row: the inverse of `Columns`. */
  function Rows(b: Batch): (ts: seq<Transition>)
    requires Shaped(b, |b.s|)
    ensures |ts| == |b.s|
    ensures forall i :: 0 <= i < |ts| ==>
      ts[i] == Transition(b.s[i], b.a[i][0], b.s1[i], b.r[i][0], b.done[i][0])
  {
    seq(|b.s|, i requires 0 <= i < |b.s| => Transition(b.s[i], b.a[i][0], b.s1[i], b.r[i][0], b.done[i][0]))
  }

  /** Transposing loses nothing: the rows of the columns are the sample. */
  lemma RowsOfColumns(ts: seq<Transition>)
    ensures Rows(Columns(ts)) == ts
  {
    var back := Rows(Columns(ts));
    assert forall i :: 0 <= i < |ts| ==> back[i] == ts[i];
  }

  /** A column whose rows are singletons equals the column built by
    * wrapping each row's one entry. */
  lemma SingletonColumn<T>(col: seq<seq<T>>, out: seq<seq<T>>)
    requires |out| == |col|
    requires forall i :: 0 <= i < |col| ==> |col[i]| == 1 && out[i] == [col[i][0]]
    ensures out == col
  {
    forall i | 0 <= i < |col| ensures out[i] == col[i] {
      assert |col[i]| == 1;
    }
  }

  /** The state columns survive reading a batch back row by row. */
  lemma StateColumnsOfRows(b: Batch)
    requires Shaped(b, |b.s|)
    ensures Columns(Rows(b)).s == b.s && Columns(Rows(b)).s1 == b.s1
  {
    var ts := Rows(b);
    var c := Columns(ts);
    forall i | 0 <= i < |ts| ensures c.s[i] == b.s[i] && c.s1[i] == b.s1[i] {
      assert c.s[i] == ts[i].s && c.s1[i] == ts[i].s1;
    }
    assert c.s == b.s;
  }

  /** The singleton columns survive reading a batch back row by row. */
  lemma ScalarColumnsOfRows(b: Batch)
    requires Shaped(b, |b.s|)
    ensures Columns(Rows(b)).a == b.a && Columns(Rows(b)).r == b.r && Columns(Rows(b)).done == b.done
  {
    var c := Columns(Rows(b));
    SingletonColumn(b.a, c.a);
    SingletonColumn(b.r, c.r);
    SingletonColumn(b.done, c.done);
  }

  /** Every well-shaped batch is the transposition of some sample. */
  lemma ColumnsOfRows(b: Batch)
    requires Shaped(b, |b.s|)
    ensures Columns(Rows(b)) == b
  {
    StateColumnsOfRows(b);
    ScalarColumnsOfRows(b);
  }

  /** When every sampled state and next state has length `d`, the state
    * columns have shape (k, d). */
  lemma StateShape(ts: seq<Transition>, d: nat)
    requires forall i :: 0 <= i < |ts| ==> |ts[i].s| == d && |ts[i].s1| == d
    ensures forall i :: 0 <= i < |ts| ==> |Columns(ts).s[i]| == d && |Columns(ts).s1[i]| == d
  {
  }

  /** `k` pairwise-distinct slot numbers below `n`: what sampling without
    * replacement from a population of `n` stored transitions may return. */
  predicate IsSelection(idx: seq<nat>, n: nat, k: nat)
  {
    |idx| == k &&
    (forall i :: 0 <= i < k ==> idx[i] < n) &&
    (forall i, j :: 0 <= i < j < k ==> idx[i] != idx[j])
  }

  /** The slots 0, 1, ..., k - 1 in order. */
  function Prefix(k: nat): (idx: seq<nat>)
    ensures |idx| == k && forall i :: 0 <= i < k ==> idx[i] == i
  {
    seq(k, i => i)
  }

  /** A selection of every size up to the population exists. */
  lemma SelectionExists(n: nat, k: nat)
    requires k <= n
    ensures IsSelection(Prefix(k), n, k)
  {
  }

  /** The transitions stored at the chosen slots, in the order chosen. */
  function Gather(memory: seq<Transition>, idx: seq<nat>): (out: seq<Transition>)
    requires forall i :: 0 <= i < |idx| ==> idx[i] < |memory|
    ensures |out| == |idx|
  {
    seq(|idx|, i requires 0 <= i < |idx| => memory[idx[i]])
  }
}
