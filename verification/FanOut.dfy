/** How the chunks of one chat run reach its subscribers. */
module FanOut {
  import opened Text

  /** The fields of a chunk that matter here: its text delta, and the rest. */
  datatype StreamChunk = StreamChunk(delta: string, rest: string)

  /** What is put on a subscriber's queue. */
  datatype Item = Chunk(chunk: StreamChunk) | Sentinel

  const MAXSIZE := 512

  /** One subscriber: what waits in its queue and what it has taken out, and beside them, what was
      broadcast since it attached and which of those items it kept. */
  datatype Subscriber = Subscriber(queue: seq<Item>, taken: seq<Item>, offered: seq<Item>, positions: seq<nat>)

  const ATTACHED := Subscriber([], [], [], [])

  /** put_nowait, whose QueueFull the caller swallows. */
  function Put(s: Subscriber, x: Item): Subscriber {
    var s1 := s.(offered := s.offered + [x]);
    if |s.queue| >= MAXSIZE then s1 else s1.(queue := s.queue + [x], positions := s.positions + [|s.offered|])
  }

  function Get(s: Subscriber): Subscriber {
    if s.queue == [] then s else s.(queue := s.queue[1..], taken := s.taken + [s.queue[0]])
  }

  /** All the subscriber got or will get of what was offered so far. */
  function Kept(s: Subscriber): seq<Item> { s.taken + s.queue }

  /** The kept items are the offered ones at strictly increasing positions. */
  ghost predicate InOrder(s: Subscriber) {
    && |s.queue| <= MAXSIZE && |s.positions| == |Kept(s)|
    && (forall i, j :: 0 <= i < j < |s.positions| ==> s.positions[i] < s.positions[j])
    && (forall i :: 0 <= i < |s.positions| ==> s.positions[i] < |s.offered| && Kept(s)[i] == s.offered[s.positions[i]])
  }

  datatype Act = Offer(item: Item) | Take

  function Acted(s: Subscriber, a: Act): Subscriber {
    match a case Offer(x) => Put(s, x) case Take => Get(s)
  }

  /** A subscriber after any interleaving of broadcasts and its own reads. */
  function After(acts: seq<Act>): Subscriber {
    if acts == [] then ATTACHED else Acted(After(acts[..|acts| - 1]), acts[|acts| - 1])
  }

  function Offered(acts: seq<Act>): seq<Item> {
    if acts == [] then []
    else
      var a := acts[|acts| - 1];
      Offered(acts[..|acts| - 1]) + (if a.Offer? then [a.item] else [])
  }

  /** Some item was offered while the queue was full. */
  ghost predicate FullAtPut(acts: seq<Act>) {
    exists i :: 0 <= i < |acts| && acts[i].Offer? && |After(acts[..i]).queue| >= MAXSIZE
  }

  lemma ActKeepsOrder(s: Subscriber, a: Act)
    requires InOrder(s)
    ensures InOrder(Acted(s, a))
    ensures a.Take? ==> Kept(Acted(s, a)) == Kept(s)
  {
    var s' := Acted(s, a);
    if a.Take? {
      assert Kept(s') == Kept(s);
    } else if |s.queue| < MAXSIZE {
      assert Kept(s') == Kept(s) + [a.item];
    }
  }

  /** Every subscriber gets an in-order, duplicate-free selection of what was broadcast. */
  lemma {:induction false} AlwaysInOrder(acts: seq<Act>)
    ensures InOrder(After(acts)) && After(acts).offered == Offered(acts)
  {
    if acts != [] {
      AlwaysInOrder(acts[..|acts| - 1]);
      ActKeepsOrder(After(acts[..|acts| - 1]), acts[|acts| - 1]);
    }
  }

  lemma FullSnoc(acts: seq<Act>, a: Act)
    ensures FullAtPut(acts + [a]) <==> FullAtPut(acts) || (a.Offer? && |After(acts).queue| >= MAXSIZE)
  {
    var all := acts + [a];
    assert all[..|acts|] == acts && all[|acts|] == a;
    forall i | 0 <= i < |acts| ensures all[..i] == acts[..i] && all[i] == acts[i] {}
    if FullAtPut(acts) {
      var i :| 0 <= i < |acts| && acts[i].Offer? && |After(acts[..i]).queue| >= MAXSIZE;
      assert all[..i] == acts[..i];
    }
  }

  /** It gets everything exactly when its queue was never full at a put. */
  lemma {:induction false} CompleteExactly(acts: seq<Act>)
    ensures Kept(After(acts)) == Offered(acts) <==> !FullAtPut(acts)
    ensures |Kept(After(acts))| <= |Offered(acts)|
    ensures |Kept(After(acts))| == |Offered(acts)| ==> Kept(After(acts)) == Offered(acts)
  {
    if acts != [] {
      var rest, a := acts[..|acts| - 1], acts[|acts| - 1];
      assert acts == rest + [a];
      CompleteExactly(rest);
      AlwaysInOrder(rest);
      ActKeepsOrder(After(rest), a);
      FullSnoc(rest, a);
      if a.Offer? {
        var k := Kept(After(rest));
        if |After(rest).queue| < MAXSIZE {
          assert Kept(After(acts)) == k + [a.item];
        } else {
          assert Kept(After(acts)) == k;
        }
      }
    }
  }

  predicate NoMarker(items: seq<Item>) { forall i :: 0 <= i < |items| ==> items[i].Chunk? }

  /** The end marker reaches a subscriber exactly when its queue has room at that moment; a
      subscriber that is 512 chunks behind is never told that the run ended. */
  lemma EndMarkerExactly(acts: seq<Act>)
    requires NoMarker(Offered(acts))
    ensures var ended := acts + [Offer(Sentinel)];
            Sentinel in Kept(After(ended)) <==> |After(acts).queue| < MAXSIZE
  {
    AlwaysInOrder(acts);
    var s := After(acts);
    assert (acts + [Offer(Sentinel)])[..|acts|] == acts;
    forall i | 0 <= i < |Kept(s)| ensures Kept(s)[i].Chunk? { assert Kept(s)[i] == s.offered[s.positions[i]]; }
    if |s.queue| < MAXSIZE {
      var k := Kept(Put(s, Sentinel));
      assert k[|k| - 1] == Sentinel;
    }
  }

  function Offers(items: seq<Item>): seq<Act> { seq(|items|, i requires 0 <= i < |items| => Offer(items[i])) }

  lemma {:induction false} Unread(items: seq<Item>)
    ensures Offered(Offers(items)) == items
    ensures |After(Offers(items)).queue| == if |items| < MAXSIZE then |items| else MAXSIZE
  {
    if items != [] {
      var n := |items| - 1;
      Unread(items[..n]);
      assert Offers(items)[..n] == Offers(items[..n]);
      assert items == items[..n] + [items[n]];
    }
  }

  /** So it is for a subscriber that reads nothing while 512 chunks or more are broadcast. */
  lemma SlowNeverTold(items: seq<Item>)
    requires NoMarker(items) && |items| >= MAXSIZE
    ensures Sentinel !in Kept(After(Offers(items) + [Offer(Sentinel)]))
  {
    Unread(items);
    EndMarkerExactly(Offers(items));
  }

  // ---- the objects ----

  /** An asyncio.Queue; `ghost` fields record what the class above calls a subscriber. */
  class Queue {
    var items: seq<Item>
    ghost var taken: seq<Item>
    ghost var offered: seq<Item>
    ghost var positions: seq<nat>

    constructor ()
      ensures View() == ATTACHED
    {
      items, taken, offered, positions := [], [], [], [];
    }

    ghost function View(): Subscriber
      reads this
    {
      Subscriber(items, taken, offered, positions)
    }

    /** put_nowait; false stands for QueueFull. */
    method PutNowait(x: Item) returns (ok: bool)
      modifies this
      ensures View() == Put(old(View()), x)
      ensures ok <==> |old(items)| < MAXSIZE
    {
      ok := |items| < MAXSIZE;
      if ok {
        items := items + [x];
        positions := positions + [|offered|];
      }
      offered := offered + [x];
    }

    /** get, once an item is there. */
    method Take() returns (x: Item)
      requires items != []
      modifies this
      ensures View() == Get(old(View())) && x == old(items)[0]
    {
      x := items[0];
      taken := taken + [x];
      items := items[1..];
    }
  }

  /** The text of the broadcast chunks, in order. */
  function Deltas(items: seq<Item>): seq<string> {
    if items == [] then []
    else
      var x := items[|items| - 1];
      Deltas(items[..|items| - 1]) + (if x.Chunk? then [x.chunk.delta] else [])
  }

  lemma DeltasSnoc(items: seq<Item>, x: Item)
    ensures Concat(Deltas(items + [x])) == Concat(Deltas(items)) + (if x.Chunk? then x.chunk.delta else "")
  {
    assert (items + [x])[..|items|] == items;
    if x.Chunk? { ConcatSnoc(Deltas(items), x.chunk.delta); } else { assert Deltas(items) + [] == Deltas(items); }
  }

  class ChatRun {
    var subscribers: seq<Queue>
    var assistantParts: seq<string>
    ghost var sent: seq<Item>

    constructor ()
      ensures Valid() && subscribers == [] && sent == []
    {
      subscribers, assistantParts, sent := [], [], [];
    }

    ghost predicate Valid()
      reads this
    {
      && (forall i, j :: 0 <= i < j < |subscribers| ==> subscribers[i] != subscribers[j])
      && Concat(assistantParts) == Concat(Deltas(sent))
    }

    /** subscribe, up to its first read */
    method Subscribe() returns (q: Queue)
      requires Valid()
      modifies this`subscribers
      ensures Valid() && fresh(q) && q.View() == ATTACHED && subscribers == old(subscribers) + [q]
    {
      q := new Queue();
      subscribers := subscribers + [q];
    }

    /** The `finally` of subscribe. */
    method Unsubscribe(q: Queue)
      requires Valid()
      modifies this`subscribers
      ensures Valid() && q !in subscribers
      ensures forall p :: p != q ==> (p in subscribers <==> p in old(subscribers))
    {
      ghost var was := subscribers;
      for i := 0 to |subscribers|
        invariant subscribers == was && q !in subscribers[..i]
      {
        if subscribers[i] == q {
          subscribers := subscribers[..i] + subscribers[i + 1..];
          assert was == was[..i] + [q] + was[i + 1..];
          return;
        }
      }
    }

    /** _broadcast_sentinel, and _broadcast outside the stream loop, where chunks carry no text:
        the item is offered to every subscriber once. */
    method Broadcast(x: Item)
      requires Valid() && (x.Chunk? ==> x.chunk.delta == "")
      modifies this`sent, subscribers
      ensures Valid() && sent == old(sent) + [x]
      ensures forall q :: q in subscribers ==> q.View() == Put(old(q.View()), x)
    {
      DeltasSnoc(sent, x);
      sent := sent + [x];
      OfferAll(x);
    }

    method OfferAll(x: Item)
      requires forall i, j :: 0 <= i < j < |subscribers| ==> subscribers[i] != subscribers[j]
      modifies subscribers
      ensures forall q :: q in subscribers ==> q.View() == Put(old(q.View()), x)
    {
      for i := 0 to |subscribers|
        invariant forall j :: 0 <= j < i ==> subscribers[j].View() == Put(old(subscribers[j].View()), x)
        invariant forall j :: i <= j < |subscribers| ==> subscribers[j].View() == old(subscribers[j].View())
      {
        var ok := subscribers[i].PutNowait(x);
      }
    }

    /** One chunk of the stream: its delta joins the reply, then it is broadcast. */
    method OnChunk(c: StreamChunk)
      requires Valid()
      modifies this`assistantParts, this`sent, subscribers
      ensures Valid() && sent == old(sent) + [Chunk(c)]
      ensures forall q :: q in subscribers ==> q.View() == Put(old(q.View()), Chunk(c))
    {
      if c.delta != "" {
        ConcatSnoc(assistantParts, c.delta);
        assistantParts := assistantParts + [c.delta];
      }
      DeltasSnoc(sent, Chunk(c));
      sent := sent + [Chunk(c)];
      OfferAll(Chunk(c));
    }

    /** The stored reply is the text of the broadcast deltas, whatever the subscribers did. */
    method Reply() returns (text: string)
      requires Valid()
      ensures text == Concat(Deltas(sent))
    {
      text := Concat(assistantParts);
    }
  }
}
