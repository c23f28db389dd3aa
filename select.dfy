/** Readiness polling over a list of (channel, is_send) pairs: conduit_select_poll and one
    round of conduit_select_wait. Neither changes any channel. */
module Select {
  import opened Wrappers
  import opened Channels

  /** The pair at index `i` is ready in the sense of select_poll. */
  predicate ReadyAt<T>(cases: seq<(Channel<T>, bool)>, i: nat)
    requires i < |cases|
    reads cases[i].0
  {
    cases[i].0.Ready(cases[i].1)
  }

  /** conduit_select_poll (lines 573-619): the index of the first ready pair in array order,
      or none when no pair is ready. */
  method SelectPoll<T>(cases: seq<(Channel<T>, bool)>) returns (r: Option<nat>)
    ensures r.Some? ==> r.value < |cases| && ReadyAt(cases, r.value)
    ensures r.Some? ==> forall j :: 0 <= j < r.value ==> !ReadyAt(cases, j)
    ensures r.None? <==> forall j :: 0 <= j < |cases| ==> !ReadyAt(cases, j)
  {
    for i := 0 to |cases|
      invariant forall j :: 0 <= j < i ==> !ReadyAt(cases, j)
    {
      var ch, isSend := cases[i].0, cases[i].1;
      var ready := false;
      if isSend {
        if !ch.closed {
          if ch.capacity > 0 && ch.count < ch.capacity {
            ready := true;
          }
        }
      } else {
        if ch.count > 0 || (ch.pending.ready && !ch.pending.taken) || ch.closed {
          ready := true;
        }
      }
      assert ready == ReadyAt(cases, i);
      if ready {
        return Some(i);
      }
    }
    return None;
  }

  /** The all-closed scan of conduit_select_wait (lines 653-667): true iff every monitored
      channel is closed; the scan stops at the first open one. */
  method AllClosed<T>(cases: seq<(Channel<T>, bool)>) returns (b: bool)
    ensures b <==> forall j :: 0 <= j < |cases| ==> cases[j].0.closed
  {
    b := true;
    var i := 0;
    while i < |cases|
      invariant 0 <= i <= |cases|
      invariant b <==> forall j :: 0 <= j < i ==> cases[j].0.closed
    {
      if !cases[i].0.closed {
        b := false;
      }
      i := i + 1;
      if !b {
        break;
      }
    }
  }

  /** What one round of conduit_select_wait's loop decides. */
  datatype WaitRound = Found(index: nat) | GiveUp | Sleep

  /** One round of conduit_select_wait (lines 640-672): poll; if nothing is ready, give up
      when every channel is closed, and otherwise sleep and poll again. Giving up can only
      happen when every pair is a send: a receive on a closed channel is always ready. */
  method SelectWaitRound<T>(cases: seq<(Channel<T>, bool)>) returns (w: WaitRound)
    ensures w.Found? ==> w.index < |cases| && ReadyAt(cases, w.index) &&
                         forall j :: 0 <= j < w.index ==> !ReadyAt(cases, j)
    ensures !w.Found? <==> forall j :: 0 <= j < |cases| ==> !ReadyAt(cases, j)
    ensures w.GiveUp? <==> !w.Found? && forall j :: 0 <= j < |cases| ==> cases[j].0.closed
    ensures w.GiveUp? ==> forall j :: 0 <= j < |cases| ==> cases[j].1
  {
    var r := SelectPoll(cases);
    if r.Some? {
      return Found(r.value);
    }
    var done := AllClosed(cases);
    if done {
      forall j | 0 <= j < |cases|
        ensures cases[j].1
      {
        assert !ReadyAt(cases, j);
      }
      return GiveUp;
    }
    return Sleep;
  }
}
