# Conduit channels in Dafny

This project models the Go-style channel of Conduit's native layer (`native/src/conduit_ffi.c`).

A channel is a record:
- a mutex and two condition variables;
- a circular buffer of `capacity` value pointers, with `head`, `tail` and `count`;
- a one-slot handoff of `pending_value`, `pending_ready` and `pending_taken` for the unbuffered mode (capacity 0);
- a `closed` flag.

Every exported operation runs as one critical section under the mutex. The operations are:
- the constructors;
- blocking send and recv, non-blocking try_send and try_recv;
- close, is_closed, len and capacity;
- the finalizer;
- select_poll, which scans `(channel, is_send)` pairs.

Modules:
- `Wrappers`: `Option`, which stands for a nullable slot and for the optional result of a receive.
- `Ring`: the buffer's index arithmetic and its ring invariant, over the slots as a sequence. `contents` occupies the `count` slots from `head`, `tail` follows them, and every other slot is empty (`NULL`). Lemmas show that one enqueue or dequeue keeps the invariant and acts as a FIFO queue operation.
- `Rendezvous`: the handoff slot as a value. It has three phases (Idle, Offered, Claimed) and the transitions Deposit, Claim and Complete.
- `Channels`: `class Channel<T>` with the record's fields and one method per critical section.
  - A blocking wait loop becomes a precondition. The step is enabled when the loop's condition is false.
  - The unbuffered send waits in the middle of its critical section, so it is two steps: `SendDeposit` and `SendComplete`.
  - Ghost state tracks the reference counts the channel manages. `contents` holds the buffered values, `Held` the value the slot owns, and `delivered` and `released` the values handed to receivers and the values dropped (`lean_dec`).
  - Every send adds exactly its value to `Accounted()`, and every other step keeps it unchanged, so no value is lost or duplicated. This holds with the corrected deposit, `SendDeposit`, and when `SendComplete` is called by the sender whose value is in the slot; see "## Left out". `SendDepositAsWritten` models the source's unchecked deposit, and the Findings below show how it loses or double-releases a value.
- `Select`: select_poll, plus the all-closed scan of one round of select_wait.
- `Scenarios`: client runs whose results follow from the contracts alone.

## Model

| member | source | states |
|---|---|---|
| Ring.Slot | native/src/conduit_ffi.c:272 | the index `offset` slots after `start` lies inside the ring and is the source's `(start + offset) % capacity` |
| Ring.SlotCompose | native/src/conduit_ffi.c:339 | walking `i` then `j` slots is walking `i + j` slots |
| Ring.EmptyRing | native/src/conduit_ffi.c:169 | a zeroed buffer with `head = tail = count = 0` satisfies the ring invariant with no contents |
| Ring.EnqueueKeepsRing | native/src/conduit_ffi.c:271-273 | storing at `tail`, advancing `tail` and incrementing `count` appends the value to the queue and keeps every other slot empty |
| Ring.DequeueKeepsRing | native/src/conduit_ffi.c:337-340 | the slot at `head` holds the oldest value; clearing it, advancing `head` and decrementing `count` removes exactly that value, and the cleared slot joins the empty ones |
| Ring.DrainStep | native/src/conduit_ffi.c:50-54 | the drain loop finds the oldest value at `head`, and the rest of the queue follows it |
| Rendezvous.Deposit | native/src/conduit_ffi.c:233-235 | after a deposit the slot offers `v` to one receiver and owns exactly `v` |
| Rendezvous.Claim | native/src/conduit_ffi.c:304-308 | a claim leaves the value unclaimable a second time; the slot keeps pointing at it but no longer owns it |
| Rendezvous.Complete | native/src/conduit_ffi.c:245-248 | the sender succeeds iff the value was taken, and the slot returns to idle either way |
| Rendezvous.HandoffCycle | native/src/conduit_ffi.c:231-257 | deposit, claim and complete from an idle slot hand out the value once, report success and restore the idle slot |
| Rendezvous.OverwrittenOfferIsLost | native/src/conduit_ffi.c:231-235 | a deposit over an offered value drops it from the slot, so at that step the books cannot balance whatever else the channel holds |
| Channels.Channel.Unbuffered | native/src/conduit_ffi.c:107-144 | an open channel of capacity 0 with empty buffer, idle slot and no values accounted |
| Channels.Channel.Buffered | native/src/conduit_ffi.c:153-206 | an open channel of the given capacity with all slots empty; capacity 0 gives the same state as `Unbuffered` |
| Channels.Channel.Enqueue | native/src/conduit_ffi.c:271-273 | appends `v` to the queue, keeps the ring invariant, and increments `count` |
| Channels.Channel.Dequeue | native/src/conduit_ffi.c:337-340 | returns the oldest value, removes it from the queue, and decrements `count` |
| Channels.Channel.SendBuffered | native/src/conduit_ffi.c:225-229 | enabled once there is room or the channel is closed; succeeds iff open and then appends `v`; on a closed channel releases `v` and changes nothing else; adds exactly `v` to the books |
| Channels.Channel.SendDeposit | native/src/conduit_ffi.c:225-238 | on an open channel with a free slot offers `v`; on a closed one releases `v`; adds exactly `v` to the books |
| Channels.Channel.SendDepositAsWritten | native/src/conduit_ffi.c:225-238 | the deposit without waiting for a free slot always leaves a well-formed offer of `v`. From an idle or claimed slot the books stay balanced. Over an offered value they do not. Over a claimed value, `taken` is lowered although that value has been delivered |
| Channels.Channel.SendComplete | native/src/conduit_ffi.c:240-257 | enabled once the slot's value is taken or the channel is closed; reports success iff taken, releases the sender's own `v` otherwise, leaves the slot idle; when the slot held `v`, keeps the books and a success means `v` was delivered |
| Channels.Channel.RecvOffered | native/src/conduit_ffi.c:298-323 | claims the offered value, or returns none exactly when nothing is claimable (the channel is then closed) |
| Channels.Channel.RecvBuffered | native/src/conduit_ffi.c:324-351 | returns the oldest buffered value, or none exactly when the buffer is empty (the channel is then closed) |
| Channels.Channel.Recv | native/src/conduit_ffi.c:289-352 | returns none iff there is nothing to take, so buffered values are received after close; otherwise returns the oldest value or the offered one; moves it to `delivered` |
| Channels.Channel.TrySend | native/src/conduit_ffi.c:360-401 | code 0 iff a send is ready in select_poll's sense, code 2 iff closed, never 0 when unbuffered; on failure releases `v` and changes nothing else |
| Channels.Channel.TryRecv | native/src/conduit_ffi.c:411-472 | `.ok` iff there is something to take, `.closed` iff there is nothing and the channel is closed, `.empty` iff a receive is not ready in select_poll's sense |
| Channels.Channel.Close | native/src/conduit_ffi.c:480-500 | raises `closed`, keeps the channel valid, and changes no other field, so closing twice is closing once |
| Channels.Channel.IsClosed | native/src/conduit_ffi.c:506-518 | returns the closed flag |
| Channels.Channel.Len | native/src/conduit_ffi.c:526-538 | returns the number of buffered values, at most the capacity and 0 when unbuffered |
| Channels.Channel.Cap | native/src/conduit_ffi.c:546-555 | returns the capacity, which is the number of buffer slots |
| Channels.Channel.Drain | native/src/conduit_ffi.c:49-56 | releases every buffered value once, oldest first, and leaves the ring empty with `head` at the old `tail` |
| Channels.Channel.Finalize | native/src/conduit_ffi.c:43-70 | releases the buffered values and the slot's value; with no claim outstanding, every value accounted for has been delivered or released exactly once; a claimed value still in the slot ends up both delivered and released |
| Channels.Channel.ReadyCases | native/src/conduit_ffi.c:592-605 | a receive is reported ready exactly when the wait of a blocking recv (lines 300-302 unbuffered, 326-328 buffered) is over; a send is reported ready exactly when a buffered send would pass its wait (260-262) and enqueue, and never on an unbuffered channel |
| Select.SelectPoll | native/src/conduit_ffi.c:573-619 | returns the smallest ready index, or none iff no pair is ready; changes no channel |
| Select.AllClosed | native/src/conduit_ffi.c:653-667 | true iff every monitored channel is closed |
| Select.SelectWaitRound | native/src/conduit_ffi.c:640-672 | one round finds the first ready index, gives up iff nothing is ready and every channel is closed (only possible when every pair is a send), and sleeps otherwise |
| Scenarios.BufferedFifo | native/src/conduit_ffi.c:259-280 | two values sent on a channel of capacity 2 come out in order, and a third try_send answers code 1 |
| Scenarios.Handoff | native/src/conduit_ffi.c:231-257 | one rendezvous delivers 7, the sender reports success, and a later try_recv finds the slot empty |
| Scenarios.CloseWakesSender | native/src/conduit_ffi.c:489-495 | closing wakes a waiting unbuffered sender, which reports failure; receives then report closure |
| Scenarios.CloseKeepsBuffered | native/src/conduit_ffi.c:326-334 | after close a send fails but the buffered value is still received, then none |
| Scenarios.TrySendClosed | native/src/conduit_ffi.c:370-374 | try_send on a closed channel answers code 2, and a second close changes nothing |
| Scenarios.UnbufferedTrySend | native/src/conduit_ffi.c:376-382 | try_send on a zero-capacity buffered channel would block |
| Scenarios.SelectFirstReady | native/src/conduit_ffi.c:581-618 | with only the second channel holding a value, select_poll picks index 1 |
| Scenarios.OverwrittenOfferLost | native/src/conduit_ffi.c:231-257 | with the deposit as written, senders of `a` then `b` and a receiver claiming `b`: the first sender reports success although `a` was neither received nor released, and the second, woken by close, releases `b`, which the receiver owns |
| Scenarios.ClaimedValueReleasedTwice | native/src/conduit_ffi.c:231-257 | with the deposit as written over a claimed `a`: the first sender, woken by close, reports failure and releases `a`, which the receiver owns |

## Left out

- Threads, the mutex and the condition variables: each critical section is one atomic step, and each wait loop is the precondition that enables the step after it. Liveness (that a waiter is eventually woken) is not modelled. select_poll (lines 588 and 607) and select_wait's all-closed scan (lines 660 and 664) lock each channel separately, but `SelectPoll` and `AllClosed` treat each whole scan as one atomic step. So "the smallest ready index" and "every channel closed" hold only when no other thread changes a channel during the scan.
- The host runtime's object calls (`lean_dec`, boxing, constructor allocation, the external-class registration at lines 41-90, error construction at 96-98). `lean_dec` becomes adding the value to the ghost multiset `released`. Results are Dafny values, not boxed objects.
- Allocation and initialisation failures in the constructors (lines 110-131 and 164-194): foreign resource acquisition, modelled as always succeeding.
- `conduit_channel_foreach` (lines 72-76): it does nothing.
- Freeing the buffer and the record, and destroying the mutex and condition variables, in the finalizer (lines 55 and 65-68).
- `conduit_select_wait`'s sleep-and-timeout loop (lines 640-685), which runs against wall-clock time. Only one round is modelled, by `SelectWaitRound`.
- `size_t` width: indices and counts are unbounded naturals. With `count <= capacity` and indices below `capacity`, the source's `(i + 1) % capacity` cannot wrap for any capacity that can be allocated.
- An unbuffered channel's `NULL` buffer is a buffer of no slots.
- Channels in one select call share one payload type `T`. The source's array mixes channels of any element types.
- Channels.Channel.Finalize: accepts any valid state, including a slot that holds an offered or claimed value, as the source's code does. The books are stated to close only when no claim is outstanding. For a claimed value it states the double release instead. The host runtime finalizes a channel only once no thread refers to it, so neither slot state arises there; that guarantee is outside the model.
- Channels.Channel.SendComplete: keeps the books, and ties success to `v` being delivered, only when the slot holds the completing sender's own value `v`. Under `SendDeposit` that is the sender that deposited and is waiting. The model does not track which thread calls `SendComplete`, so that link is not proved.
- Channels.Channel.Drain: walks the indices in local variables and stores `head` and `count` once the loop ends, rather than on every iteration as the source does. No other thread observes the channel while it is being finalized, so the final state is the same.

## Findings

| source | as written | input that shows it | evidently intended | confidence | as-written member | corrected member |
|---|---|---|---|---|---|---|
| native/src/conduit_ffi.c:231-235 | an unbuffered send stores its value in the handoff slot after checking only that the channel is open, even when another sender's value is still offered there | open unbuffered channel: sender 1 deposits `a` and waits, sender 2 deposits `b` over it, a receiver claims `b`, and its signal wakes sender 1 first; sender 1 returns true, so `a` is neither received nor released; sender 2 waits until close, then releases `b`, which the receiver owns | a sender waits until the slot is idle (or the channel is closed) before depositing, so every offered value is received or released exactly once | not executed | Scenarios.OverwrittenOfferLost | Channels.Channel.SendDeposit |
| native/src/conduit_ffi.c:231-235 | the same unchecked deposit, made after a receiver has claimed the slot's value but before its sender has completed, lowers `pending_taken` | open unbuffered channel: sender 1 deposits `a`, a receiver claims `a`, sender 2 deposits `b` before sender 1 runs again, then the channel is closed; sender 1 sees `a` as not taken, returns false and releases `a`, which the receiver owns | the claim stays recorded until its sender completes, so a sender whose value was received reports success and does not release it | not executed | Scenarios.ClaimedValueReleasedTwice | Channels.Channel.SendDeposit |
