/** `CancellationToken`, one call at a time: what registering, unregistering and cancelling do to
    its fields, and which callbacks they run. */
module Cancellation {
  type Callback = nat

  /** `list.remove`: the first occurrence goes. */
  function Without(callbacks: seq<Callback>, c: Callback): seq<Callback> {
    if callbacks == [] then []
    else if callbacks[0] == c then callbacks[1..]
    else [callbacks[0]] + Without(callbacks[1..], c)
  }

  lemma {:induction false} WithoutCounts(callbacks: seq<Callback>, c: Callback)
    ensures multiset(Without(callbacks, c)) == multiset(callbacks) - multiset{c}
    ensures c !in callbacks ==> Without(callbacks, c) == callbacks
  {
    if callbacks != [] {
      assert callbacks == [callbacks[0]] + callbacks[1..];
      WithoutCounts(callbacks[1..], c);
    }
  }

  class CancellationToken {
    var event: bool
    var callbacks: seq<Callback>
    ghost var ran: seq<Callback>               // callbacks run so far, in order
    ghost var registered: multiset<Callback>
    ghost var dropped: multiset<Callback>      // unregistered before they were run

    /** Every registration is accounted for once: still listed, run, or dropped; and once the token
        is cancelled none is still listed. */
    ghost predicate Valid()
      reads this
    {
      && registered == multiset(callbacks) + multiset(ran) + dropped
      && (event ==> callbacks == [])
    }

    constructor ()
      ensures Valid() && !event && callbacks == [] && ran == [] && registered == multiset{} && dropped == multiset{}
    {
      event, callbacks := false, [];
      ran, registered, dropped := [], multiset{}, multiset{};
    }

    method Register(c: Callback)
      requires Valid()
      modifies this
      ensures Valid() && event == old(event) && dropped == old(dropped)
      ensures registered == old(registered) + multiset{c}
      ensures callbacks == if event then [] else old(callbacks) + [c]
      ensures ran == if event then old(ran) + [c] else old(ran)
    {
      var callNow := false;
      if event {
        callNow := true;
      } else {
        callbacks := callbacks + [c];
      }
      registered := registered + multiset{c};
      if callNow {
        ran := ran + [c];
      }
    }

    method Unregister(c: Callback)
      requires Valid()
      modifies this
      ensures Valid() && event == old(event) && ran == old(ran) && registered == old(registered)
      ensures callbacks == Without(old(callbacks), c)
      ensures dropped == if c in old(callbacks) then old(dropped) + multiset{c} else old(dropped)
    {
      WithoutCounts(callbacks, c);
      if c in callbacks {
        dropped := dropped + multiset{c};
        callbacks := Without(callbacks, c);
      }
    }

    /** Runs the callbacks listed, each once and in the order of registering. */
    method Cancel() returns (won: bool)
      requires Valid()
      modifies this
      ensures Valid() && event && callbacks == [] && (won <==> !old(event))
      ensures ran == old(ran) + old(callbacks)
      ensures registered == old(registered) && dropped == old(dropped)
      ensures registered == multiset(ran) + dropped
    {
      if event {
        assert old(ran) + [] == old(ran);
        return false;
      }
      event := true;
      var listed := callbacks;
      callbacks := [];
      var k := 0;
      while k < |listed|
        invariant 0 <= k <= |listed| && event && callbacks == [] && ran == old(ran) + listed[..k]
        invariant registered == old(registered) && dropped == old(dropped)
      {
        ran := ran + [listed[k]];
        k := k + 1;
      }
      assert listed[..k] == listed;
      won := true;
    }
  }
}
