/** The handoff slot of an unbuffered channel: the value a blocked sender has deposited and
    the two flags `ready` (a deposited value awaits a receiver) and `taken` (a receiver has
    claimed it). One handoff runs Idle -> Offered -> Claimed -> Idle. */
module Rendezvous {
  import opened Wrappers

  datatype Handoff<T> = Handoff(value: Option<T>, ready: bool, taken: bool)

  /** No sender has a value in the slot. */
  predicate Idle<T>(h: Handoff<T>)
  {
    h.value.None? && !h.ready && !h.taken
  }

  /** A sender's value waits for a receiver. */
  predicate Offered<T>(h: Handoff<T>)
  {
    h.value.Some? && h.ready && !h.taken
  }

  /** A receiver has claimed the value; the sender has not yet seen it. The slot still points
      at the value, which now belongs to the receiver. */
  predicate Claimed<T>(h: Handoff<T>)
  {
    h.value.Some? && !h.ready && h.taken
  }

  /** The three phases are the only states the slot takes. */
  predicate WellFormed<T>(h: Handoff<T>)
  {
    Idle(h) || Offered(h) || Claimed(h)
  }

  /** The values the slot owns: the offered value until a receiver claims it. */
  function Held<T>(h: Handoff<T>): multiset<T>
  {
    if h.ready && h.value.Some? then multiset{h.value.value} else multiset{}
  }

  /** A receiver may take the value: ready and not yet taken. */
  predicate Claimable<T>(h: Handoff<T>)
  {
    h.ready && !h.taken
  }

  /** A sender stores `v` and raises `ready` (conduit_ffi.c, lines 233-235). */
  function Deposit<T>(h: Handoff<T>, v: T): (h': Handoff<T>)
    ensures Offered(h') && Claimable(h')
    ensures Held(h') == multiset{v}
  {
    Handoff(Some(v), true, false)
  }

  /** A receiver takes the offered value: `taken` is raised and `ready` lowered, so the value
      cannot be claimed a second time (lines 304-308 and 422-425). */
  function Claim<T>(h: Handoff<T>): (h': Handoff<T>)
    requires Claimable(h)
    ensures !Claimable(h')
    ensures WellFormed(h) ==> Claimed(h') && h'.value == h.value
    ensures Held(h') == multiset{}
  {
    Handoff(h.value, false, true)
  }

  /** The sender ends the handoff: it succeeded iff `taken`, and the slot is emptied whatever
      the outcome (lines 245-248). */
  function Complete<T>(h: Handoff<T>): (r: (Handoff<T>, bool))
    ensures Idle(r.0) && Held(r.0) == multiset{}
    ensures r.1 <==> h.taken
  {
    (Handoff(None, false, false), h.taken)
  }

  /** A deposit into an idle slot adds exactly the deposited value to what the slot owns, and
      one full cycle Deposit, Claim, Complete hands the value out once, reports success, and
      returns the slot to its idle state. */
  lemma HandoffCycle<T>(h: Handoff<T>, v: T)
    requires Idle(h)
    ensures Held(Deposit(h, v)) == Held(h) + multiset{v}
    ensures var offered := Deposit(h, v);
            var claimed := Claim(offered);
            claimed.value == Some(v) && !Claimable(claimed) &&
            Complete(claimed) == (h, true)
  {
  }

  /** The deposit as written (lines 231-235) only checks that the channel is open. If another
      sender's value `h.value` is still offered, it is overwritten: the slot then owns only `v`
      and no longer offers the earlier value to any receiver. Whatever else the channel is
      answerable for (`others`), its books no longer balance at this step. The earlier sender
      still holds its value; whether it is then lost or released depends on which sender a
      claim wakes first. */
  lemma OverwrittenOfferIsLost<T>(others: multiset<T>, h: Handoff<T>, v: T)
    requires Offered(h)
    ensures h.value.value in Held(h)
    ensures Held(Deposit(h, v)) == multiset{v}
    ensures others + Held(Deposit(h, v)) != others + Held(h) + multiset{v}
  {
    assert |others + Held(Deposit(h, v))| == |others| + 1;
    assert |others + Held(h) + multiset{v}| == |others| + 2;
  }
}
