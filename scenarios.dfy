/** Client runs of the channel operations, each on fresh channels and one thread's sequence of
    steps. Their postconditions follow from the operations' contracts alone. */
module Scenarios {
  import opened Wrappers
  import opened Rendezvous
  import opened Channels
  import opened Select

  /** A buffered channel hands values out in the order they went in, and a non-blocking send
      on the full channel would block. */
  method BufferedFifo() returns (full: TrySendStatus, a: Option<int>, b: Option<int>)
    ensures full == SendWouldBlock && full.Code() == 1
    ensures a == Some(1) && b == Some(2)
  {
    var ch := new Channel<int>.Buffered(2);
    var ok := ch.SendBuffered(1);
    ok := ch.SendBuffered(2);
    full := ch.TrySend(3);
    a := ch.Recv();
    b := ch.Recv();
  }

  /** One rendezvous: the sender deposits, the receiver claims the value, the sender sees it
      taken; a later non-blocking receive finds the slot empty again. */
  method Handoff() returns (got: Option<int>, sent: bool, after: TryRecvResult<int>)
    ensures got == Some(7) && sent
    ensures after == RecvEmpty
  {
    var ch := new Channel<int>.Unbuffered();
    var deposited := ch.SendDeposit(7);
    got := ch.Recv();
    sent := ch.SendComplete(7);
    after := ch.TryRecv();
  }

  /** A sender blocked on an unbuffered channel is woken by close and reports failure; a
      receiver then finds the channel closed. */
  method CloseWakesSender() returns (sent: bool, got: Option<int>, status: TryRecvResult<int>)
    ensures !sent && got == None && status == RecvClosed
  {
    var ch := new Channel<int>.Unbuffered();
    var deposited := ch.SendDeposit(7);
    ch.Close();
    sent := ch.SendComplete(7);
    got := ch.Recv();
    status := ch.TryRecv();
  }

  /** After close, sends fail, a value buffered before the close is still received, and only
      then does a receive report the closure. */
  method CloseKeepsBuffered() returns (late: bool, first: Option<int>, second: Option<int>)
    ensures !late && first == Some(1) && second == None
  {
    var ch := new Channel<int>.Buffered(2);
    var ok := ch.SendBuffered(1);
    ch.Close();
    late := ch.SendBuffered(2);
    first := ch.Recv();
    second := ch.Recv();
  }

  /** A non-blocking send on a closed channel reports code 2, and closing again changes
      nothing. */
  method TrySendClosed() returns (s: TrySendStatus, closed: bool)
    ensures s == SendClosed && s.Code() == 2 && closed
  {
    var ch := new Channel<int>.Buffered(1);
    ch.Close();
    ch.Close();
    s := ch.TrySend(3);
    closed := ch.IsClosed();
  }

  /** A non-blocking send on a zero-capacity buffered channel would block, as on an
      unbuffered one. */
  method UnbufferedTrySend() returns (s: TrySendStatus, c: nat)
    ensures s == SendWouldBlock && c == 0
  {
    var ch := new Channel<int>.Buffered(0);
    s := ch.TrySend(5);
    c := ch.Cap();
  }

  /** select over two buffered channels where only the second holds a value: a receive on it is
      the first ready case. */
  method SelectFirstReady() returns (idx: Option<nat>)
    ensures idx == Some(1)
  {
    var a := new Channel<int>.Buffered(1);
    var b := new Channel<int>.Buffered(1);
    var ok := b.SendBuffered(9);
    var cases := [(a, false), (b, false)];
    assert !ReadyAt(cases, 0);
    idx := SelectPoll(cases);
    assert ReadyAt(cases, 1);
    assert idx.Some? && idx.value != 0;
  }

  /** Two senders deposit `a` then `b` with the deposit as written, and no receiver has
      come: the slot offers `b`, and no value has been delivered or released. */
  method OfferedTwice(a: int, b: int) returns (ch: Channel<int>)
    ensures fresh(ch) && fresh(ch.buffer) && ch.Valid() && ch.capacity == 0 && !ch.closed
    ensures Offered(ch.pending) && ch.pending.value == Some(b)
    ensures ch.delivered == multiset{} && ch.released == multiset{}
  {
    ch := new Channel<int>.Unbuffered();
    var deposited := ch.SendDepositAsWritten(a);
    assert ch.Valid() && ch.delivered == multiset{} && ch.released == multiset{};
    deposited := ch.SendDepositAsWritten(b);
  }

  /** The deposit as written, over an offered value: two senders deposit `a` then `b` on an
      unbuffered channel and a receiver claims `b`. The first sender is woken first, sees the
      slot taken and reports success, so `a` is neither received nor released. The second
      sender, woken by close, reports failure and releases `b`, which the receiver owns. */
  method OverwrittenOfferLost(a: int, b: int) returns (ch: Channel<int>, got: Option<int>, first: bool, second: bool)
    requires a != b
    ensures got == Some(b) && first && !second
    ensures a !in ch.delivered && a !in ch.released
    ensures b in ch.delivered && b in ch.released
  {
    ch := OfferedTwice(a, b);
    got := ch.Recv();
    assert ch.pending.taken && ch.delivered == multiset{b};
    first := ch.SendComplete(a);
    assert ch.released == multiset{};
    ch.Close();
    second := ch.SendComplete(b);
  }

  /** A receiver has claimed `a` from its sender, who has not yet completed. */
  method ClaimedOnce(a: int) returns (ch: Channel<int>, got: Option<int>)
    ensures fresh(ch) && fresh(ch.buffer) && ch.Valid() && ch.capacity == 0 && !ch.closed
    ensures got == Some(a) && Claimed(ch.pending) && ch.pending.value == Some(a)
    ensures ch.delivered == multiset{a} && ch.released == multiset{}
  {
    ch := new Channel<int>.Unbuffered();
    var deposited := ch.SendDeposit(a);
    got := ch.Recv();
  }

  /** The deposit as written, over a claimed value: a receiver has claimed `a` but its sender
      has not yet completed when a second sender deposits `b`, which lowers `taken`. Woken by
      close, the first sender sees `a` as not taken, reports failure and releases `a`, which
      the receiver owns. */
  method ClaimedValueReleasedTwice(a: int, b: int) returns (ch: Channel<int>, got: Option<int>, first: bool)
    ensures got == Some(a) && !first
    ensures a in ch.delivered && a in ch.released
  {
    ch, got := ClaimedOnce(a);
    var deposited := ch.SendDepositAsWritten(b);
    ch.Close();
    first := ch.SendComplete(a);
  }
}
