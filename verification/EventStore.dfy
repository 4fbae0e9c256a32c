/** The objects behind live delivery: subscribers, the appending store, and the sending loop (internal/store). */
module EventStore {
  import opened Delivery

  class Subscriber {
    var queue: seq<Item>
    var signal: bool
    var closed: bool

    constructor (history: seq<Item>)
      ensures queue == history && !signal && !closed
    {
      queue, signal, closed := history, false, false;
    }

    method Enqueue(item: Item)
      modifies this
      ensures closed == old(closed)
      ensures closed ==> queue == old(queue) && signal == old(signal)
      ensures !closed ==> queue == old(queue) + [item] && signal
    {
      if closed {
        return;
      }
      queue := queue + [item];
      signal := true;
    }

    method PopFirst() returns (item: Item, ok: bool)
      modifies this
      ensures ok <==> old(queue) != []
      ensures ok ==> item == old(queue)[0] && queue == old(queue)[1..]
      ensures !ok ==> queue == []
      ensures signal == old(signal) && closed == old(closed)
    {
      if |queue| == 0 {
        return Item(0, ""), false;
      }
      item, ok := queue[0], true;
      queue := queue[1..];
    }

    method CloseQueue()
      modifies this
      ensures closed && queue == old(queue) && signal == old(signal)
    {
      closed := true;
    }
  }

  /** One session's log and its subscribers. */
  class SessionStore {
    var log: Log
    var subscribers: seq<Subscriber>

    ghost predicate Distinct()
      reads this
    {
      forall i, j :: 0 <= i < j < |subscribers| ==> subscribers[i] != subscribers[j]
    }

    constructor ()
      ensures log == [] && subscribers == []
    {
      log, subscribers := [], [];
    }

    /** The next sequence is one above the largest; after the commit every open subscriber has the event at the end of its queue. */
    method Append(payload: string) returns (item: Item)
      requires Distinct()
      modifies this`log, set s | s in subscribers
      ensures item == Item(|old(log)| + 1, payload) && log == old(log) + [payload]
      ensures forall s :: s in subscribers ==>
                && s.closed == old(s.closed)
                && s.queue == (if s.closed then old(s.queue) else old(s.queue) + [item])
                && s.signal == (old(s.signal) || !s.closed)
    {
      item := Item(|log| + 1, payload);
      log := log + [payload];
      for i := 0 to |subscribers|
        invariant log == old(log) + [payload]
        invariant forall k :: 0 <= k < |subscribers| ==>
                    && subscribers[k].closed == old(subscribers[k].closed)
                    && subscribers[k].queue ==
                       (if k < i && !subscribers[k].closed then old(subscribers[k].queue) + [item] else old(subscribers[k].queue))
                    && subscribers[k].signal == (old(subscribers[k].signal) || (k < i && !subscribers[k].closed))
      {
        subscribers[i].Enqueue(item);
      }
    }

    /** History and registration are one step: nothing can be appended between them. */
    method Subscribe(after: nat) returns (s: Subscriber)
      requires Distinct() && forall k :: 0 <= k < |subscribers| ==> allocated(subscribers[k])
      modifies this`subscribers
      ensures fresh(s) && Distinct() && subscribers == old(subscribers) + [s]
      ensures s.queue == Stretch(log, after, |log|) && !s.closed && !s.signal
    {
      s := new Subscriber(Stretch(log, after, |log|));
      subscribers := subscribers + [s];
    }

    /** The subscription ends: no later event reaches its queue, and the others stay. Ending it again changes nothing. */
    method Unsubscribe(s: Subscriber)
      requires Distinct()
      modifies this`subscribers, s
      ensures Distinct() && s.closed && s.queue == old(s.queue) && s.signal == old(s.signal)
      ensures forall t :: t in subscribers <==> t in old(subscribers) && t != s
      ensures s !in old(subscribers) ==> subscribers == old(subscribers)
    {
      for i := 0 to |subscribers|
        invariant s !in subscribers[..i]
      {
        if subscribers[i] == s {
          subscribers := subscribers[..i] + subscribers[i + 1..];
          break;
        }
      }
      s.CloseQueue();
    }
  }

  /** Items that a receiver at `last` takes from a list, one after the other. */
  function Newer(items: seq<Item>, last: nat): seq<Item> {
    if items == [] then []
    else if items[0].sequence <= last then Newer(items[1..], last)
    else [items[0]] + Newer(items[1..], items[0].sequence)
  }

  function LastOf(items: seq<Item>, last: nat): nat {
    if items == [] then last
    else LastOf(items[1..], if items[0].sequence <= last then last else items[0].sequence)
  }

  /** From a contiguous stretch that starts no later than `last`, exactly what follows `last` is taken. */
  lemma {:induction false} NewerOfStretch(log: Log, from: nat, upTo: nat, last: nat)
    requires from <= upTo <= |log| && from <= last
    ensures Newer(Stretch(log, from, upTo), last) == Stretch(log, last, upTo)
    ensures LastOf(Stretch(log, from, upTo), last) == if last <= upTo then upTo else last
    decreases upTo - from
  {
    if from < upTo {
      StretchTail(log, from, upTo);
      if from + 1 <= last {
        NewerOfStretch(log, from + 1, upTo, last);
      } else {
        NewerOfStretch(log, from + 1, upTo, from + 1);
        var all := Stretch(log, from, upTo);
        assert all == [all[0]] + all[1..];
      }
    }
  }

  /** The sending loop: the channel's contents and the last sequence sent. */
  class Sender {
    var lastSequence: nat
    var sent: seq<Item>

    constructor (after: nat)
      ensures lastSequence == after && sent == []
    {
      lastSequence, sent := after, [];
    }

    method Emit(item: Item)
      modifies this
      ensures lastSequence == LastOf([item], old(lastSequence)) && sent == old(sent) + Newer([item], old(lastSequence))
    {
      assert [item][1..] == [];
      if item.sequence > lastSequence {
        sent := sent + [item];
        lastSequence := item.sequence;
      }
    }

    /** A batch read from the log. */
    method EmitAll(items: seq<Item>)
      modifies this
      ensures lastSequence == LastOf(items, old(lastSequence)) && sent == old(sent) + Newer(items, old(lastSequence))
    {
      var rest := items;
      while rest != []
        invariant LastOf(rest, lastSequence) == LastOf(items, old(lastSequence))
        invariant sent + Newer(rest, lastSequence) == old(sent) + Newer(items, old(lastSequence))
        decreases |rest|
      {
        assert [rest[0]][1..] == [];
        Emit(rest[0]);
        rest := rest[1..];
      }
    }

    /** Empty the queue. */
    method Drain(s: Subscriber)
      modifies this, s
      ensures s.queue == [] && s.closed == old(s.closed) && s.signal == old(s.signal)
      ensures lastSequence == LastOf(old(s.queue), old(lastSequence)) && sent == old(sent) + Newer(old(s.queue), old(lastSequence))
    {
      var more := true;
      while more
        invariant LastOf(s.queue, lastSequence) == LastOf(old(s.queue), old(lastSequence))
        invariant sent + Newer(s.queue, lastSequence) == old(sent) + Newer(old(s.queue), old(lastSequence))
        invariant !more ==> s.queue == []
        invariant s.closed == old(s.closed) && s.signal == old(s.signal)
        decreases |s.queue|, more
      {
        var item, ok := s.PopFirst();
        more := ok;
        if ok {
          assert [item][1..] == [];
          Emit(item);
        }
      }
    }
  }
}
