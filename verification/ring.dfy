/**
 * The ring discipline that both buffers of utils/replay_memory.py follow:
 * grow until `capacity` slots exist, then overwrite the slot at the cursor,
 * and advance the cursor modulo `capacity`. Read oldest-first from the
 * cursor, the stored slots are exactly the last `capacity` items pushed.
 */
module Ring {

  /** The cursor and occupancy a ring of the given capacity may have: the
    * cursor is a valid slot, and while the ring is filling it points just
    * past the last stored item. */
  predicate Shape(len: nat, position: nat, capacity: nat)
  {
    1 <= capacity && len <= capacity && position < capacity &&
    (len < capacity ==> position == len)
  }

  /** The last `c` items of `h`, i.e. what a buffer that keeps the newest
    * `c` items holds after seeing `h`. */
  function Last<T>(h: seq<T>, c: nat): (w: seq<T>)
    ensures |w| == if |h| < c then |h| else c
  {
    if |h| <= c then h else h[|h| - c..]
  }

  /** The stored slots read oldest first: the oldest item sits at the cursor
    * once the ring has wrapped. */
  function Rotate<T>(memory: seq<T>, position: nat): (r: seq<T>)
    requires position <= |memory|
    ensures |r| == |memory|
  {
    memory[position..] + memory[..position]
  }

  /** The list after the optional growth step: one more slot while the
    * ring is not full. The new slot is filled with `x`, which the write
    * at the cursor overwrites straight away. */
  function Grown<T>(memory: seq<T>, capacity: nat, x: T): (g: seq<T>)
    ensures |g| == if |memory| < capacity then |memory| + 1 else |memory|
    ensures forall i :: 0 <= i < |memory| ==> g[i] == memory[i]
  {
    if |memory| < capacity then memory + [x] else memory
  }

  /** The cursor after a store: the next slot, back to 0 past the end. */
  function Advance(position: nat, capacity: nat): (p: nat)
    requires position < capacity
    ensures p == (position + 1) % capacity
  {
    if position + 1 < capacity then position + 1 else 0
  }

  /** While the ring is filling, a store appends: the stored slots are the
    * whole history. */
  lemma StoreWhileFilling<T>(memory: seq<T>, position: nat, capacity: nat, h: seq<T>, x: T)
    requires Shape(|memory|, position, capacity) && |memory| < capacity
    requires Rotate(memory, position) == Last(h, capacity)
    ensures Grown(memory, capacity, x)[position := x] == h + [x]
    ensures Rotate(h + [x], Advance(position, capacity)) == Last(h + [x], capacity)
  {
    assert memory[position..] == [] && memory[..position] == memory;
    assert h == memory;
    var m2 := h + [x];
    var p2 := Advance(position, capacity);
    if position + 1 < capacity {
      assert m2[p2..] == [] && m2[..p2] == m2;
    } else {
      assert m2[p2..] == m2 && m2[..p2] == [];
    }
  }

  /** Once the ring is full, a store overwrites the oldest slot: read from
    * the advanced cursor, the slots drop the oldest item and end with `x`. */
  lemma StoreWhenFull<T>(memory: seq<T>, position: nat, capacity: nat, h: seq<T>, x: T)
    requires Shape(|memory|, position, capacity) && |memory| == capacity
    requires Rotate(memory, position) == Last(h, capacity)
    ensures Rotate(memory[position := x], Advance(position, capacity)) == Last(h + [x], capacity)
  {
    var w := Last(h, capacity);
    assert Last(h + [x], capacity) == w[1..] + [x] by {
      assert w == h[|h| - capacity..];
      assert (h + [x])[|h| + 1 - capacity..] == h[|h| + 1 - capacity..] + [x];
    }
    assert w[1..] == memory[position + 1..] + memory[..position] by {
      assert memory[position..] == [memory[position]] + memory[position + 1..];
    }
    var m2 := memory[position := x];
    assert m2 == memory[..position] + [x] + memory[position + 1..];
    var p2 := Advance(position, capacity);
    if position + 1 < capacity {
      assert m2[p2..] == memory[position + 1..];
      assert m2[..p2] == memory[..position] + [x];
    } else {
      assert memory[position + 1..] == [];
      assert m2[p2..] == m2 && m2[..p2] == [];
    }
  }

  /** One store keeps the ring's shape, and the slots read oldest first
    * stay the last `capacity` items of the history extended by the item. */
  lemma {:induction false} StoreKeepsWindow<T>(memory: seq<T>, position: nat, capacity: nat, h: seq<T>, x: T)
    requires Shape(|memory|, position, capacity)
    requires Rotate(memory, position) == Last(h, capacity)
    ensures position < |Grown(memory, capacity, x)|
    ensures Shape(|Grown(memory, capacity, x)|, Advance(position, capacity), capacity)
    ensures Rotate(Grown(memory, capacity, x)[position := x], Advance(position, capacity)) == Last(h + [x], capacity)
  {
    if |memory| < capacity {
      StoreWhileFilling(memory, position, capacity, h, x);
    } else {
      StoreWhenFull(memory, position, capacity, h, x);
    }
  }
}
