/** The channel record of conduit_ffi.c (lines 17-35) and its exported operations. Each
    operation is one critical section under the channel's mutex, modelled as one atomic step.
    A blocking wait loop becomes a precondition: the step is enabled only when the loop's
    condition is false, that is, when the thread would have been woken and gone on.

    Ownership of the payloads the channel handles (the host runtime's reference counts) is
    tracked by ghost state: the values buffered in `contents`, the value the handoff slot owns
    (`Held`), and the multisets of values `delivered` to receivers and `released` by the
    channel. Together they are `Accounted()`. Every operation keeps the books: a send adds
    exactly the value handed to it, and every other step only moves values between these
    places, so no value is duplicated, lost or released twice. */
module Channels {
  import opened Wrappers
  import opened Ring
  import opened Rendezvous

  /** Outcome of a non-blocking send; the source returns the codes 0, 1 and 2. */
  datatype TrySendStatus = SendOk | SendWouldBlock | SendClosed
  {
    function Code(): nat
    {
      match this
      case SendOk => 0
      case SendWouldBlock => 1
      case SendClosed => 2
    }
  }

  /** Outcome of a non-blocking receive: `.ok value`, `.empty` or `.closed`. */
  datatype TryRecvResult<T> = RecvOk(value: T) | RecvEmpty | RecvClosed

  class Channel<T> {
    /** 0 selects the unbuffered (rendezvous) mode; fixed at construction. */
    const capacity: nat
    /** The circular buffer; no slots in unbuffered mode. `None` is a `NULL` slot. */
    const buffer: array<Option<T>>
    var head: nat
    var tail: nat
    var count: nat
    /** pending_value, pending_ready and pending_taken: the handoff slot of unbuffered mode. */
    var pending: Handoff<T>
    var closed: bool

    /** The buffered values, oldest first. */
    ghost var contents: seq<T>
    ghost var delivered: multiset<T>
    ghost var released: multiset<T>

    ghost predicate Valid()
      reads this, buffer
    {
      RingValid() && HandoffValid()
    }

    /** The circular buffer holds `contents` in the `count` slots from `head`, and every other
        slot, from `tail` on, is empty. */
    ghost predicate RingValid()
      reads this`head, this`tail, this`count, this`contents, buffer
    {
      buffer.Length == capacity && RingInv(buffer[..], head, tail, count, contents)
    }

    /** The handoff slot is in one of its three phases, and idle in buffered mode; a claimed
        value has been delivered. */
    ghost predicate HandoffValid()
      reads this`pending, this`delivered
    {
      WellFormed(pending) &&
      (capacity > 0 ==> Idle(pending)) &&
      (pending.taken ==> pending.value.value in delivered)
    }

    /** Every value the channel is answerable for: buffered, owned by the handoff slot,
        delivered to a receiver or released. */
    ghost function Accounted(): multiset<T>
      reads this`contents, this`pending, this`delivered, this`released
    {
      multiset(contents) + delivered + released + Held(pending)
    }

    /** There is something a receiver can take now: a buffered value or a claimable handoff. */
    predicate HasData()
      reads this
    {
      count > 0 || Claimable(pending)
    }

    /** The readiness test of select_poll (lines 590-605) for one (channel, is_send) pair. */
    predicate Ready(isSend: bool)
      reads this
    {
      if isSend then !closed && capacity > 0 && count < capacity
      else count > 0 || (pending.ready && !pending.taken) || closed
    }

    /** What select_poll's readiness test promises about the blocking operations. A receive is
        ready exactly when the wait of conduit_channel_recv is over: on an unbuffered channel
        (lines 300-302) a value is offered or the channel is closed, on a buffered one (lines
        326-328) a value is buffered or the channel is closed, so `Recv` may run. A send is
        ready exactly when a buffered send would get past its wait (lines 260-262) and enqueue
        rather than fail; an unbuffered send is never reported ready. */
    lemma ReadyCases()
      requires Valid()
      ensures Ready(false) <==> (capacity == 0 ==> pending.ready || closed) &&
                                (capacity > 0 ==> |contents| > 0 || closed)
      ensures Ready(true) <==> capacity > 0 && |contents| < capacity && !closed
    {
    }

    /** conduit_channel_new (lines 107-144, fields at 133-141): an open unbuffered channel. */
    constructor Unbuffered()
      ensures Valid() && fresh(buffer)
      ensures capacity == 0 && head == 0 && tail == 0 && count == 0
      ensures Idle(pending) && !closed
      ensures contents == [] && delivered == multiset{} && released == multiset{}
      ensures Accounted() == multiset{}
    {
      capacity := 0;
      buffer := new Option<T>[0];
      head, tail, count := 0, 0, 0;
      pending := Handoff(None, false, false);
      closed := false;
      contents := [];
      delivered, released := multiset{}, multiset{};
    }

    /** conduit_channel_new_buffered (lines 153-206): `capacity` zeroed slots; a capacity of 0
        gives exactly the state `Unbuffered` gives (lines 160-162). */
    constructor Buffered(capacity: nat)
      ensures Valid() && fresh(buffer)
      ensures this.capacity == capacity && head == 0 && tail == 0 && count == 0
      ensures Idle(pending) && !closed
      ensures contents == [] && delivered == multiset{} && released == multiset{}
      ensures Accounted() == multiset{}
    {
      this.capacity := capacity;
      buffer := new Option<T>[capacity](_ => None);
      head, tail, count := 0, 0, 0;
      pending := Handoff(None, false, false);
      closed := false;
      contents := [];
      delivered, released := multiset{}, multiset{};
      new;
      EmptyRing(buffer[..]);
    }

    /** Store `v` at the tail of the ring (lines 271-273 and 392-394). */
    method Enqueue(v: T)
      requires Valid() && capacity > 0 && count < capacity
      modifies this`tail, this`count, this`contents, buffer
      ensures Valid()
      ensures contents == old(contents) + [v]
      ensures head == old(head) && count == old(count) + 1
    {
      ghost var buf, t := buffer[..], tail;
      EnqueueKeepsRing(buf, head, tail, count, contents, v);
      buffer[tail] := Some(v);
      tail := (tail + 1) % capacity;
      count := count + 1;
      contents := contents + [v];
      assert buffer[..] == buf[t := Some(v)];
    }

    /** Take the value at the head of the ring and clear its slot (lines 337-340 and 458-461). */
    method Dequeue() returns (v: T)
      requires Valid() && capacity > 0 && count > 0
      modifies this`head, this`count, this`contents, buffer
      ensures Valid()
      ensures v == old(contents)[0] && contents == old(contents)[1..]
      ensures multiset(old(contents)) == multiset{v} + multiset(contents)
      ensures tail == old(tail) && count == old(count) - 1
    {
      ghost var buf, h, c := buffer[..], head, contents;
      DequeueKeepsRing(buf, head, tail, count, contents);
      v := buffer[head].value;
      buffer[head] := None;
      head := (head + 1) % capacity;
      count := count - 1;
      contents := contents[1..];
      assert buffer[..] == buf[h := None];
      assert c == [v] + contents;
    }

    /** conduit_channel_send on a buffered channel (lines 225-229 and 259-280). The step is
        enabled once the wait at lines 260-262 is over: there is room or the channel is closed.
        On a closed channel the value is released and nothing else changes. */
    method SendBuffered(v: T) returns (ok: bool)
      requires Valid() && capacity > 0
      requires count < capacity || closed
      modifies this`tail, this`count, this`contents, this`released, buffer
      ensures Valid() && closed == old(closed) && pending == old(pending)
      ensures count == |contents|
      ensures ok <==> !old(closed)
      ensures ok ==> contents == old(contents) + [v] && released == old(released)
      ensures !ok ==> released == old(released) + multiset{v}
      ensures !ok ==> unchanged(buffer) && contents == old(contents) &&
                      head == old(head) && tail == old(tail) && count == old(count)
      ensures delivered == old(delivered)
      ensures Accounted() == old(Accounted()) + multiset{v}
    {
      if closed {
        released := released + multiset{v};
        ok := false;
      } else {
        Enqueue(v);
        ok := true;
      }
    }

    /** The first half of conduit_channel_send on an unbuffered channel (lines 225-238): on an
        open channel the value is deposited in the handoff slot and the sender goes on to wait
        in `SendComplete`. The step is enabled once the slot is free or the channel is closed;
        the source does not wait for this, see `SendDepositAsWritten`. */
    method SendDeposit(v: T) returns (deposited: bool)
      requires Valid() && capacity == 0
      requires closed || Idle(pending)
      modifies this`pending, this`released
      ensures Valid() && closed == old(closed) && contents == old(contents)
      ensures deposited <==> !old(closed)
      ensures deposited ==> pending == Deposit(old(pending), v) && released == old(released)
      ensures !deposited ==> pending == old(pending) && released == old(released) + multiset{v}
      ensures delivered == old(delivered)
      ensures Accounted() == old(Accounted()) + multiset{v}
    {
      if closed {
        released := released + multiset{v};
        deposited := false;
      } else {
        pending := Deposit(pending, v);
        deposited := true;
      }
    }

    /** Lines 225-238 exactly as written: the deposit does not wait for the slot to be free.
        It touches only the handoff slot and the released values, and always leaves a well
        formed offer. From an idle slot the books stay balanced. Over a value another sender
        still offers, the slot drops that value, so the books no longer balance. Over a value a
        receiver has claimed, the slot forgets the claim: `taken` is lowered although the value
        has been delivered, so its sender will wait again and can later release it as unsent. */
    method SendDepositAsWritten(v: T) returns (deposited: bool)
      requires HandoffValid() && capacity == 0
      modifies this`pending, this`released
      ensures HandoffValid()
      ensures deposited <==> !old(closed)
      ensures deposited ==> pending == Deposit(old(pending), v) && released == old(released)
      ensures !deposited ==> pending == old(pending) && released == old(released) + multiset{v}
      ensures !(deposited && Offered(old(pending))) ==> Accounted() == old(Accounted()) + multiset{v}
      ensures deposited && Offered(old(pending)) ==> Accounted() != old(Accounted()) + multiset{v}
      ensures deposited && Claimed(old(pending)) ==>
                !pending.taken && old(pending.value.value) in delivered && pending.value == Some(v)
    {
      if closed {
        released := released + multiset{v};
        deposited := false;
      } else {
        ghost var before := pending;
        pending := Deposit(pending, v);
        deposited := true;
        if Offered(before) {
          OverwrittenOfferIsLost(multiset(contents) + delivered + released, before, v);
        }
      }
    }

    /** The second half of conduit_channel_send on an unbuffered channel (lines 240-257),
        enabled once the wait at lines 241-243 is over: the slot's value was taken or the
        channel closed. The sender reports success iff `taken`, releases its own value `v`
        otherwise, and empties the slot either way. The slot need not hold `v`: it does
        whenever every deposit waited for a free slot (`SendDeposit`), and then the books stay
        balanced and a successful `v` has been delivered. */
    method SendComplete(v: T) returns (ok: bool)
      requires Valid() && capacity == 0
      requires pending.taken || closed
      modifies this`pending, this`released
      ensures Valid() && Idle(pending) && closed == old(closed) && contents == old(contents)
      ensures ok <==> old(pending.taken)
      ensures ok ==> released == old(released)
      ensures !ok ==> released == old(released) + multiset{v}
      ensures delivered == old(delivered)
      ensures old(pending.value) == Some(v) ==> Accounted() == old(Accounted())
      ensures old(pending.value) == Some(v) && ok ==> v in delivered
    {
      var outcome := Complete(pending);
      pending, ok := outcome.0, outcome.1;
      if !ok {
        released := released + multiset{v};
      }
    }

    /** The unbuffered half of conduit_channel_recv (lines 298-323), once the wait at lines
        300-302 is over: claim the offered value, or report none on a closed channel. */
    method RecvOffered() returns (r: Option<T>)
      requires Valid() && capacity == 0 && (pending.ready || closed)
      modifies this`pending, this`delivered
      ensures Valid() && count == |contents| == 0
      ensures r.None? <==> !old(Claimable(pending))
      ensures r.None? ==> old(closed) && pending == old(pending)
      ensures r.Some? ==> r == old(pending.value) && pending == Claim(old(pending))
      ensures delivered == old(delivered) + Values(r)
      ensures Accounted() == old(Accounted())
    {
      if pending.ready && !pending.taken {
        var v := pending.value.value;
        pending := Claim(pending);
        delivered := delivered + multiset{v};
        r := Some(v);
      } else {
        r := None;
      }
    }

    /** The buffered half of conduit_channel_recv (lines 324-351), once the wait at lines
        326-328 is over: take the oldest value, or report none when the channel is closed and
        empty. */
    method RecvBuffered() returns (r: Option<T>)
      requires Valid() && capacity > 0 && (count > 0 || closed)
      modifies this`head, this`count, this`contents, this`delivered, buffer
      ensures Valid() && count == |contents|
      ensures r.None? <==> old(count) == 0
      ensures r.None? ==> old(closed) && contents == old(contents)
      ensures r.Some? ==> r.value == old(contents)[0] && contents == old(contents)[1..]
      ensures delivered == old(delivered) + Values(r)
      ensures Accounted() == old(Accounted())
    {
      if count == 0 {
        r := None;
      } else {
        var v := Dequeue();
        delivered := delivered + multiset{v};
        r := Some(v);
      }
    }

    /** conduit_channel_recv (lines 289-352), enabled once its wait is over: on an unbuffered
        channel (lines 300-302) a value is offered or the channel is closed, on a buffered one
        (lines 326-328) a value is buffered or the channel is closed. It returns none only when
        the channel is closed and has nothing left to hand out. */
    method Recv() returns (r: Option<T>)
      requires Valid()
      requires capacity == 0 ==> pending.ready || closed
      requires capacity > 0 ==> count > 0 || closed
      modifies this`head, this`count, this`contents, this`pending, this`delivered, buffer
      ensures Valid() && closed == old(closed) && released == old(released)
      ensures count == |contents|
      ensures r.None? <==> !old(HasData())
      ensures r.None? ==> old(closed) && pending == old(pending) && contents == old(contents)
      ensures capacity > 0 && r.Some? ==> r.value == old(contents)[0] && contents == old(contents)[1..]
      ensures capacity == 0 && r.Some? ==> r == old(pending.value) && pending == Claim(old(pending))
      ensures delivered == old(delivered) + Values(r)
      ensures Accounted() == old(Accounted())
    {
      if capacity == 0 {
        r := RecvOffered();
      } else {
        r := RecvBuffered();
      }
    }

    /** conduit_channel_try_send (lines 360-401). Closed: the value is released (code 2).
        Unbuffered, or buffered and full: the value is released (code 1). Otherwise it is
        enqueued (code 0). It succeeds exactly when select_poll finds a send on this channel
        ready. */
    method TrySend(v: T) returns (s: TrySendStatus)
      requires Valid()
      modifies this`tail, this`count, this`contents, this`released, buffer
      ensures Valid() && closed == old(closed) && pending == old(pending)
      ensures count == |contents|
      ensures s.SendOk? <==> old(Ready(true))
      ensures s.SendClosed? <==> old(closed)
      ensures capacity == 0 ==> !s.SendOk?
      ensures s.SendOk? ==> contents == old(contents) + [v] && released == old(released)
      ensures !s.SendOk? ==> released == old(released) + multiset{v}
      ensures !s.SendOk? ==> unchanged(buffer) && contents == old(contents) &&
                             head == old(head) && tail == old(tail) && count == old(count)
      ensures delivered == old(delivered)
      ensures Accounted() == old(Accounted()) + multiset{v}
    {
      if closed {
        released := released + multiset{v};
        s := SendClosed;
      } else if capacity == 0 {
        released := released + multiset{v};
        s := SendWouldBlock;
      } else if count >= capacity {
        released := released + multiset{v};
        s := SendWouldBlock;
      } else {
        Enqueue(v);
        s := SendOk;
      }
    }

    /** conduit_channel_try_recv (lines 411-472). A buffered value or an offered handoff is
        taken (.ok); otherwise the answer is .closed on a closed channel and .empty on an open
        one, so buffered values are handed out before closure is reported. It answers .empty
        exactly when select_poll finds a receive on this channel not ready. */
    method TryRecv() returns (r: TryRecvResult<T>)
      requires Valid()
      modifies this`head, this`count, this`contents, this`pending, this`delivered, buffer
      ensures Valid() && closed == old(closed) && released == old(released)
      ensures count == |contents|
      ensures r.RecvOk? <==> old(HasData())
      ensures r.RecvClosed? <==> !old(HasData()) && old(closed)
      ensures r.RecvEmpty? <==> !old(Ready(false))
      ensures !r.RecvOk? ==> pending == old(pending) && contents == old(contents) && unchanged(buffer)
      ensures capacity > 0 && r.RecvOk? ==> r.value == old(contents)[0] && contents == old(contents)[1..]
      ensures capacity == 0 && r.RecvOk? ==> Some(r.value) == old(pending.value) && pending == Claim(old(pending))
      ensures delivered == old(delivered) + (if r.RecvOk? then multiset{r.value} else multiset{})
      ensures Accounted() == old(Accounted())
    {
      if capacity == 0 {
        if pending.ready && !pending.taken {
          var v := pending.value.value;
          pending := Claim(pending);
          delivered := delivered + multiset{v};
          r := RecvOk(v);
        } else if closed {
          r := RecvClosed;
        } else {
          r := RecvEmpty;
        }
      } else if count == 0 {
        r := if closed then RecvClosed else RecvEmpty;
      } else {
        var v := Dequeue();
        delivered := delivered + multiset{v};
        r := RecvOk(v);
      }
    }

    /** conduit_channel_close (lines 480-500): raises `closed` if it is not yet raised and
        changes nothing else, so a second call has no effect. No operation lowers it. */
    method Close()
      requires Valid()
      modifies this`closed
      ensures Valid() && closed
    {
      if !closed {
        closed := true;
      }
    }

    /** conduit_channel_is_closed (lines 506-518). */
    method IsClosed() returns (b: bool)
      ensures b == closed
    {
      b := closed;
    }

    /** conduit_channel_len (lines 526-538): the number of buffered values, never more than the
        capacity, and 0 on an unbuffered channel. */
    method Len() returns (n: nat)
      requires Valid()
      ensures n == |contents| && n <= capacity
      ensures capacity == 0 ==> n == 0
    {
      n := count;
    }

    /** conduit_channel_capacity (lines 546-555): the capacity fixed at construction, which is
        the number of buffer slots. */
    method Cap() returns (n: nat)
      requires Valid()
      ensures n == capacity && n == buffer.Length
    {
      n := capacity;
    }

    /** The finalizer's drain loop (lines 50-56): the buffered values are released one by
        one, oldest first (`order` is the order of release), and the ring is left empty with
        `head` at the old `tail`. The loop walks the indices in locals and stores them once it
        ends; no other thread can observe the channel while it is being finalized. */
    method Drain() returns (ghost order: seq<T>)
      requires RingValid()
      modifies this`head, this`count, this`contents, this`released
      ensures count == 0 && head == old(tail) && contents == []
      ensures order == old(contents)
      ensures released == old(released) + multiset(order)
    {
      order := [];
      if capacity == 0 {
        return;
      }
      ghost var buf, rest := buffer[..], contents;
      var h: nat, c: nat := head, count;
      while c > 0
        invariant h < capacity && c <= capacity == |buf| && |rest| == c
        invariant old(contents) == order + rest
        invariant Occupied(buf, h, c, rest)
        invariant Slot(h, c, capacity) == tail
        modifies {}
        decreases c
      {
        DrainStep(buf, h, c, rest);
        var v := buffer[h].value;
        PushFront(order, rest);
        SlotCompose(h, 1, c - 1, capacity);
        h := (h + 1) % capacity;
        c := c - 1;
        order, rest := order + [v], rest[1..];
      }
      head, count := h, c;
      assert order == old(contents);
      contents := [];
      released := released + multiset(order);
    }

    /** The finalizer's cleanup (lines 43-70): the buffered values are drained, and the slot's
        value is released if the slot still points at one. When no receiver's claim is
        outstanding, everything the channel was answerable for has then been delivered or
        released exactly once. A claimed value the slot still points at has been delivered and
        is released as well. Freeing the memory is not modelled. */
    method Finalize()
      requires Valid()
      modifies this`head, this`count, this`contents, this`released
      ensures count == 0 && head == old(tail) && contents == []
      ensures released == old(released) + multiset(old(contents)) + Values(old(pending.value))
      ensures !old(pending.taken) ==> delivered + released == old(Accounted())
      ensures old(pending.taken) ==> old(pending.value.value) in delivered && old(pending.value.value) in released
    {
      ghost var order := Drain();
      if pending.value.Some? {
        released := released + multiset{pending.value.value};
      }
    }
  }
}
