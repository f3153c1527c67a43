/** The append-only mirror both screens keep: a child-added callback decodes the
    snapshot and, when decoding succeeds, appends the record at the end of an
    in-memory array; when it fails, the array is left as it is. */
module Sync {
  import opened Wrappers
  import opened Firebase

  /** What one callback appends: the decoded record, or nothing. */
  function Keep<T>(decoded: Option<T>): seq<T>
  {
    match decoded
    case Some(x) => [x]
    case None => []
  }

  /** The mirror after the observer has been handed `events`, one callback at a time,
      starting from the empty array each screen starts with. */
  function Replay<T>(decode: Child -> Option<T>, events: seq<Child>): seq<T>
  {
    if events == [] then []
    else Replay(decode, events[..|events| - 1]) + Keep(decode(events[|events| - 1]))
  }

  /** One more callback appends what it decodes, and nothing else. */
  lemma ReplayStep<T>(decode: Child -> Option<T>, events: seq<Child>, e: Child)
    ensures Replay(decode, events + [e]) == Replay(decode, events) + Keep(decode(e))
  {
    assert (events + [e])[..|events|] == events;
  }

  /** Reference definition, independent of the callback order: the records of the
      events that decode, in delivery order. */
  function Accepted<T>(decode: Child -> Option<T>, events: seq<Child>): seq<T>
  {
    if events == [] then []
    else Keep(decode(events[0])) + Accepted(decode, events[1..])
  }

  lemma {:induction false} AcceptedAppend<T>(decode: Child -> Option<T>, xs: seq<Child>, ys: seq<Child>)
    ensures Accepted(decode, xs + ys) == Accepted(decode, xs) + Accepted(decode, ys)
  {
    if xs == [] {
      assert xs + ys == ys;
    } else {
      assert (xs + ys)[0] == xs[0];
      assert (xs + ys)[1..] == xs[1..] + ys;
      AcceptedAppend(decode, xs[1..], ys);
    }
  }

  /** Handling the callbacks one after another builds exactly the decoded events in
      delivery order: nothing is reordered, dropped (other than by decoding) or
      duplicated. */
  lemma {:induction false} ReplayIsAccepted<T>(decode: Child -> Option<T>, events: seq<Child>)
    ensures Replay(decode, events) == Accepted(decode, events)
  {
    if events != [] {
      var init, last := events[..|events| - 1], events[|events| - 1];
      ReplayIsAccepted(decode, init);
      assert events == init + [last];
      AcceptedAppend(decode, init, [last]);
      assert Accepted(decode, [last]) == Keep(decode(last)) + Accepted(decode, [last][1..]);
    }
  }

  /** The mirror is append-only: later events never change what earlier ones put in it. */
  lemma ReplayAppend<T>(decode: Child -> Option<T>, xs: seq<Child>, ys: seq<Child>)
    ensures Replay(decode, xs + ys) == Replay(decode, xs) + Replay(decode, ys)
  {
    ReplayIsAccepted(decode, xs + ys);
    ReplayIsAccepted(decode, xs);
    ReplayIsAccepted(decode, ys);
    AcceptedAppend(decode, xs, ys);
  }

  lemma {:induction false} AcceptedAllDecoded<T>(decode: Child -> Option<T>, events: seq<Child>)
    requires forall i :: 0 <= i < |events| ==> decode(events[i]).Some?
    ensures |Accepted(decode, events)| == |events|
    ensures forall i :: 0 <= i < |events| ==> Accepted(decode, events)[i] == decode(events[i]).value
  {
    if events != [] {
      AcceptedAllDecoded(decode, events[1..]);
    }
  }

  /** N events that all decode give a mirror of length N whose i-th record is the
      i-th event's. */
  lemma ReplayAllDecoded<T>(decode: Child -> Option<T>, events: seq<Child>)
    requires forall i :: 0 <= i < |events| ==> decode(events[i]).Some?
    ensures |Replay(decode, events)| == |events|
    ensures forall i :: 0 <= i < |events| ==> Replay(decode, events)[i] == decode(events[i]).value
  {
    ReplayIsAccepted(decode, events);
    AcceptedAllDecoded(decode, events);
  }

  /** Events none of which decode leave the mirror empty. */
  lemma {:induction false} ReplayNoneDecoded<T>(decode: Child -> Option<T>, events: seq<Child>)
    requires forall i :: 0 <= i < |events| ==> decode(events[i]).None?
    ensures Replay(decode, events) == []
  {
    if events != [] {
      ReplayNoneDecoded(decode, events[..|events| - 1]);
    }
  }

  /** The mirror never holds more records than events were delivered. */
  lemma {:induction false} ReplayLength<T>(decode: Child -> Option<T>, events: seq<Child>)
    ensures |Replay(decode, events)| <= |events|
  {
    if events != [] {
      ReplayLength(decode, events[..|events| - 1]);
    }
  }

  /** How many of `events` decode: a count, defined independently of the mirror. */
  function DecodedCount<T>(decode: Child -> Option<T>, events: seq<Child>): nat
  {
    if events == [] then 0
    else (if decode(events[0]).Some? then 1 else 0) + DecodedCount(decode, events[1..])
  }

  /** The mirror holds one record per event that decodes. */
  lemma {:induction false} ReplayCount<T>(decode: Child -> Option<T>, events: seq<Child>)
    ensures |Replay(decode, events)| == DecodedCount(decode, events)
  {
    ReplayIsAccepted(decode, events);
    AcceptedCount(decode, events);
  }

  lemma {:induction false} AcceptedCount<T>(decode: Child -> Option<T>, events: seq<Child>)
    ensures |Accepted(decode, events)| == DecodedCount(decode, events)
  {
    if events != [] {
      AcceptedCount(decode, events[1..]);
    }
  }

  /** A query limited to the last `n` children starts the mirror with the records of
      those of the last `n` (all, if fewer) that decode, in stored order: at most `n`
      records, and exactly the tail of what the whole location decodes to. When every
      stored child decodes, these are the last `n` children's records, one each. */
  lemma ReplayLastDecoded<T>(decode: Child -> Option<T>, stored: seq<Child>, n: nat)
    ensures var k := if |stored| <= n then |stored| else n;
            var initial := Replay(decode, LimitToLast(stored, n));
            && |initial| <= k
            && initial == Accepted(decode, stored[|stored| - k..])
            && Accepted(decode, stored) == Accepted(decode, stored[..|stored| - k]) + initial
    ensures (forall i :: 0 <= i < |stored| ==> decode(stored[i]).Some?) ==>
            var k := if |stored| <= n then |stored| else n;
            var initial := Replay(decode, LimitToLast(stored, n));
            && |initial| == k
            && forall i :: 0 <= i < k ==> Some(initial[i]) == decode(stored[|stored| - k + i])
  {
    var batch := LimitToLast(stored, n);
    var offset := |stored| - |batch|;
    ReplayIsAccepted(decode, batch);
    ReplayLength(decode, batch);
    AcceptedAppend(decode, stored[..offset], batch);
    if forall i :: 0 <= i < |stored| ==> decode(stored[i]).Some? {
      ReplayLastAllDecoded(decode, stored, n);
    }
  }

  lemma ReplayLastAllDecoded<T>(decode: Child -> Option<T>, stored: seq<Child>, n: nat)
    requires forall i :: 0 <= i < |stored| ==> decode(stored[i]).Some?
    ensures var k := if |stored| <= n then |stored| else n;
            var initial := Replay(decode, LimitToLast(stored, n));
            && |initial| == k
            && forall i :: 0 <= i < k ==> Some(initial[i]) == decode(stored[|stored| - k + i])
  {
    var batch := LimitToLast(stored, n);
    var offset := |stored| - |batch|;
    forall i | 0 <= i < |batch|
      ensures decode(batch[i]).Some?
    {
      assert batch[i] == stored[offset + i];
    }
    ReplayAllDecoded(decode, batch);
  }
}
