/** Index arithmetic of the channel's circular buffer, stated over the buffer's slots as a
    sequence. A buffered channel of capacity `n` keeps its `count` values in the `count` slots
    that follow `head` around the ring, and the other `n - count` slots, which begin at `tail`,
    are empty. Enqueueing writes the slot at `tail`, dequeueing clears the slot at `head`, and
    both indices advance by one modulo `n`. */
module Ring {
  import opened Wrappers

  /** The index `offset` slots after `start` in a ring of `n` slots: the channel's
      `(start + offset) % n`, computed by at most one wrap-around. */
  function Slot(start: nat, offset: nat, n: nat): (r: nat)
    requires start < n && offset <= n
    ensures r < n && r == (start + offset) % n
  {
    var x := start + offset;
    if x < n then NoWrap(x, n); x else WrapOnce(x, n); x - n
  }

  /** An index below `n` is its own remainder. */
  lemma NoWrap(x: nat, n: nat)
    requires x < n
    ensures x % n == x
  {
  }

  /** An index in `[n, 2n)` wraps around exactly once. */
  lemma WrapOnce(x: nat, n: nat)
    requires 0 < n <= x < 2 * n
    ensures x % n == x - n
  {
  }

  /** Walking `i` slots from `start`, then `j` more, is walking `i + j` slots. */
  lemma SlotCompose(start: nat, i: nat, j: nat, n: nat)
    requires start < n && i + j <= n
    ensures Slot(Slot(start, i, n), j, n) == Slot(start, i + j, n)
  {
  }

  /** The `count` slots from `head` hold the values of `contents`, in order. */
  ghost predicate Occupied<T>(buf: seq<Option<T>>, head: nat, count: nat, contents: seq<T>)
    requires head < |buf| && count <= |buf| && |contents| == count
  {
    forall i :: 0 <= i < count ==> buf[Slot(head, i, |buf|)] == Some(contents[i])
  }

  /** Every slot from the `count`-th after `head` up to the end of the ring is empty (`NULL` in
      the channel's buffer): no slot outside the occupied region holds a value. */
  ghost predicate Vacant<T>(buf: seq<Option<T>>, head: nat, count: nat)
    requires head < |buf| && count <= |buf|
  {
    forall i :: count <= i < |buf| ==> buf[Slot(head, i, |buf|)].None?
  }

  /** The ring invariant of a circular buffer `buf`: `contents` occupies the `count` slots from
      `head`, `tail` is the slot just after them, and every other slot is empty. A ring of no
      slots holds nothing. */
  ghost predicate RingInv<T>(buf: seq<Option<T>>, head: nat, tail: nat, count: nat, contents: seq<T>)
  {
    count <= |buf| && |contents| == count &&
    (|buf| == 0 ==> head == 0 && tail == 0) &&
    (|buf| > 0 ==> head < |buf| && tail == Slot(head, count, |buf|) &&
                   Occupied(buf, head, count, contents) && Vacant(buf, head, count))
  }

  /** A fresh buffer of empty slots holds no values. */
  lemma EmptyRing<T>(buf: seq<Option<T>>)
    requires forall i :: 0 <= i < |buf| ==> buf[i].None?
    ensures RingInv(buf, 0, 0, 0, [])
  {
  }

  /** Enqueue: storing `v` at `tail` and advancing `tail` by one appends `v` to the queue. */
  lemma EnqueueKeepsRing<T>(buf: seq<Option<T>>, head: nat, tail: nat, count: nat, contents: seq<T>, v: T)
    requires RingInv(buf, head, tail, count, contents) && count < |buf|
    ensures RingInv(buf[tail := Some(v)], head, Slot(tail, 1, |buf|), count + 1, contents + [v])
  {
    var n, buf', contents' := |buf|, buf[tail := Some(v)], contents + [v];
    SlotCompose(head, count, 1, n);
    forall i | 0 <= i < count + 1
      ensures buf'[Slot(head, i, n)] == Some(contents'[i])
    {
      if i < count {
        assert Slot(head, i, n) != tail;
      }
    }
    forall i | count + 1 <= i < n
      ensures buf'[Slot(head, i, n)].None?
    {
      assert Slot(head, i, n) != tail;
    }
  }

  /** Dequeue: the slot at `head` holds the oldest value; clearing it and advancing `head` by
      one removes that value from the front of the queue, and the cleared slot joins the empty
      ones. */
  lemma DequeueKeepsRing<T>(buf: seq<Option<T>>, head: nat, tail: nat, count: nat, contents: seq<T>)
    requires RingInv(buf, head, tail, count, contents) && count > 0
    ensures buf[head] == Some(contents[0])
    ensures RingInv(buf[head := None], Slot(head, 1, |buf|), tail, count - 1, contents[1..])
  {
    var n, buf', head' := |buf|, buf[head := None], Slot(head, 1, |buf|);
    assert Slot(head, 0, n) == head;
    SlotCompose(head, 1, count - 1, n);
    forall i | 0 <= i < count - 1
      ensures buf'[Slot(head', i, n)] == Some(contents[1..][i])
    {
      SlotCompose(head, 1, i, n);
    }
    forall i | count - 1 <= i < n
      ensures buf'[Slot(head', i, n)].None?
    {
      SlotCompose(head, 1, i, n);
    }
  }

  /** One step of draining without clearing: the slot at `head` holds the oldest value, and the
      slots from the next one hold the rest. */
  lemma DrainStep<T>(buf: seq<Option<T>>, head: nat, count: nat, contents: seq<T>)
    requires head < |buf| && 0 < count <= |buf| && |contents| == count
    requires Occupied(buf, head, count, contents)
    ensures buf[head] == Some(contents[0])
    ensures Occupied(buf, Slot(head, 1, |buf|), count - 1, contents[1..])
  {
    var n := |buf|;
    assert Slot(head, 0, n) == head;
    forall i | 0 <= i < count - 1
      ensures buf[Slot(Slot(head, 1, n), i, n)] == Some(contents[1..][i])
    {
      SlotCompose(head, 1, i, n);
    }
  }

  /** Moving the first value of `rest` to the end of `done` keeps their concatenation. */
  lemma PushFront<T>(done: seq<T>, rest: seq<T>)
    requires rest != []
    ensures (done + [rest[0]]) + rest[1..] == done + rest
  {
    assert rest == [rest[0]] + rest[1..];
  }
}
