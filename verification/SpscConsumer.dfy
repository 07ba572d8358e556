/** Every access of the consumer keeps the invariant. */
module SpscConsumer {
  import opened Wrappers
  import opened Totals
  import opened Spsc

  // ---------------------------------------------------------------- the consumer looks for an element

  lemma InvView(s: State)
    requires Inv(s)
    ensures 0 <= s.k < |s.ring| && s.ring[0] == s.frontBlock && s.ring[s.k] == s.tailBlock
    ensures s.frontBlock == s.tailBlock <==> s.k == 0
    ensures forall j :: 0 <= j < |s.ring| ==> s.ring[j] in s.blocks && s.ring[j] in s.next
    ensures forall j :: 0 <= j < |s.ring| ==> View(s.blocks, s.ring)[j] == s.blocks[s.ring[j]]
    ensures IndicesOk(View(s.blocks, s.ring))
    ensures ConsumerOk(s.cons, View(s.blocks, s.ring), s.ring, s.k, s.queue)
    ensures ProducerOk(s.prod, View(s.blocks, s.ring), s.ring, s.k, s.blocks, s.next, s.tailBlock)
    ensures FlowOk(View(s.blocks, s.ring), s.k, s.prod)
  {
    hide DataOk, QueueOk, ConsumerOk, ProducerOk, CapacityOk, FlowOk, IndexOk;
  }

  lemma ConsumerMoves(s: State, c: Consumer)
    requires Inv(s) && !s.cons.StoreFront? && !c.StoreFront?
    requires IndicesOk(View(s.blocks, s.ring)) && s.k < |s.ring|
    requires ConsumerOk(c, View(s.blocks, s.ring), s.ring, s.k, s.queue)
    ensures Inv(s.(cons := c))
  {
    hide DataOk, FlowOk, QueueOk, ConsumerOk, ProducerOk, CapacityOk, IndexOk;
    var v := View(s.blocks, s.ring);
    assert v[0 := v[0]] == v;
    AlikeCore(v, s.k, s.prod, s.cons, s.prod, c, s.queue, 0, v[0]);
  }

  /** What the producer knows does not depend on the consumer's shadow copies. */
  lemma ProducerShadow(s: State, j: nat, b: Block)
    requires s.k < |s.ring| && j < |s.ring| && (forall i :: 0 <= i < |s.ring| ==> s.ring[i] in s.blocks)
    requires IndicesOk(View(s.blocks, s.ring)) && IndexOk(b)
    requires var c := s.blocks[s.ring[j]]; Alike(c, b) && b.localFront == c.localFront
    requires ProducerOk(s.prod, View(s.blocks, s.ring), s.ring, s.k, s.blocks, s.next, s.tailBlock)
    ensures IndicesOk(View(s.blocks, s.ring)[j := b])
    ensures ProducerOk(s.prod, View(s.blocks, s.ring)[j := b], s.ring, s.k, s.blocks[s.ring[j] := b], s.next, s.tailBlock)
  {
    hide Dist, IndexOk, Held;
    var v := View(s.blocks, s.ring);
    assert v[j] == s.blocks[s.ring[j]];
    assert IndexOk(v[j]) && InRange(v[j]) && InRange(b) by {
      IndexInRange(b);
      IndexInRange(v[j]);
    }
    AlikeHeld(v[j], b);
  }

  lemma IndexInRange(b: Block)
    ensures IndexOk(b) ==> InRange(b)
  {
  }

  lemma CapacityShadow(v: seq<Block>, largest: nat, capacity: nat, p: Producer, blocks: map<Id, Block>, id: Id,
                       j: nat, b: Block)
    requires IndicesOk(v) && CapacityOk(v, largest, capacity, p, blocks) && j < |v| && IndexOk(b)
    requires |b.data| == |v[j].data| && id in blocks && |blocks[id].data| == |b.data|
    ensures IndicesOk(v[j := b]) && CapacityOk(v[j := b], largest, capacity, p, blocks[id := b])
  {
    hide IndexOk;
    RoomsAlike(v, j, b);
  }

  /** The consumer copies the tail of the buffer at j, the front one or the next. */
  lemma ShadowTailKeeps(s: State, j: nat, c: Consumer)
    requires Inv(s) && !s.cons.StoreFront? && !c.StoreFront? && j < |s.ring| && s.ring[j] in s.blocks
    requires
      var b := s.blocks[s.ring[j]].(localTail := s.blocks[s.ring[j]].tail);
      var v := View(s.blocks, s.ring);
      s.k < |s.ring| && IndicesOk(v[j := b]) && ConsumerOk(c, v[j := b], s.ring, s.k, s.queue)
    ensures
      var b := s.blocks[s.ring[j]].(localTail := s.blocks[s.ring[j]].tail);
      Inv(s.(blocks := s.blocks[s.ring[j] := b], cons := c))
  {
    hide DataOk, FlowOk, QueueOk, ConsumerOk, ProducerOk, CapacityOk, Held, Dist;
    var b := s.blocks[s.ring[j]].(localTail := s.blocks[s.ring[j]].tail);
    var v := View(s.blocks, s.ring);
    ViewUpdate(s.blocks, s.ring, j, b);
    assert v[j := b][j] == b;
    assert IndexOk(b);
    AlikeCore(v, s.k, s.prod, s.cons, s.prod, c, s.queue, j, b);
    ProducerShadow(s, j, b);
    CapacityShadow(v, s.largest, s.capacity, s.prod, s.blocks, s.ring[j], j, b);
    assert s.blocks[s.ring[j] := b].Keys == s.blocks.Keys;
  }

  lemma StartKeeps(s: State)
    requires Inv(s) && CanConsume(s) && s.cons.Start?
    ensures Inv(Consume(s))
  {
    hide Inv, ProducerOk, FlowOk;
    InvView(s);
    ConsumerMoves(s, Consume(s).cons);
  }

  /** A front buffer found empty while it is the tail buffer means that the whole queue is empty. */
  lemma FrontEmpty(s: State)
    requires Inv(s) && s.k == 0 && !s.cons.StoreFront?
    requires var b := View(s.blocks, s.ring)[0]; InRange(b) && b.front == b.tail
    ensures s.queue == []
  {
    hide DataOk, FlowOk, ConsumerOk, ProducerOk, CapacityOk;
    var v := View(s.blocks, s.ring);
    assert v[..1] == [v[0]] && v[..1][..0] == [];
    assert Flat(v[..1]) == Held(v[0]);
  }

  lemma LoadTailKeeps(s: State)
    requires Inv(s) && CanConsume(s) && s.cons.LoadTail?
    ensures Inv(Consume(s))
  {
    hide Inv, ProducerOk, FlowOk;
    InvView(s);
    if s.k == 0 && s.blocks[s.frontBlock].front == s.blocks[s.frontBlock].tail {
      FrontEmpty(s);
    }
    ShadowTailKeeps(s, 0, Consume(s).cons);
  }

  lemma LoadTailBlockKeeps(s: State)
    requires Inv(s) && CanConsume(s) && s.cons.LoadTailBlock?
    ensures Inv(Consume(s))
  {
    hide Inv, ProducerOk, FlowOk;
    InvView(s);
    ConsumerMoves(s, Consume(s).cons);
  }

  lemma RecheckKeeps(s: State)
    requires Inv(s) && CanConsume(s) && s.cons.Recheck?
    ensures Inv(Consume(s))
  {
    hide Inv, ProducerOk, FlowOk;
    InvView(s);
    ShadowTailKeeps(s, 0, Consume(s).cons);
  }

  lemma NextIs(s: State)
    requires Inv(s) && |s.ring| > 1
    ensures s.frontBlock in s.next && s.next[s.frontBlock] == s.ring[1]
  {
    hide CoreOk, RestOk;
    assert Linked(s.ring, s.next, 0);
  }

  lemma LoadNextKeeps(s: State)
    requires Inv(s) && CanConsume(s) && s.cons.LoadNext?
    ensures Inv(Consume(s))
  {
    hide Inv, ProducerOk, FlowOk;
    InvView(s);
    NextIs(s);
    ConsumerMoves(s, Consume(s).cons);
  }

  lemma LoadNextTailKeeps(s: State)
    requires Inv(s) && CanConsume(s) && s.cons.LoadNextTail?
    ensures Inv(Consume(s))
  {
    hide Inv, ProducerOk;
    InvView(s);
    if s.cons.m.Peek? {
      ConsumerMoves(s, Consume(s).cons);
    } else {
      ShadowTailKeeps(s, 1, Consume(s).cons);
    }
  }

  lemma PeekKeeps(s: State)
    requires Inv(s) && CanConsume(s) && s.cons.Take? && s.cons.m.Peek?
    ensures Inv(Consume(s))
  {
    hide Inv, ProducerOk, FlowOk;
    InvView(s);
    ConsumerMoves(s, Consume(s).cons);
  }

  // ---------------------------------------------------------------- the consumer takes an element

  /** What the consumer is about to take is the first element of the queue. */
  lemma TakeFinds(s: State)
    requires Inv(s) && s.cons.Take?
    ensures
      var Take(m, id, i) := s.cons;
      && id in s.blocks && i < |s.blocks[id].data|
      && s.queue != [] && s.blocks[id].data[i] == Some(s.queue[0])
  {
    hide DataOk, FlowOk, ProducerOk, CapacityOk;
    var v := View(s.blocks, s.ring);
    var w := v[..s.k + 1];
    FlatCons(w);
    if !(FrontAt(v, s.ring, 0, s.cons.b, s.cons.i) && Seen(v[0])) {
      FlatCons(w[1..]);
      assert Held(v[0]) == [];
    }
  }

  lemma TakeData(v: seq<Block>, k: nat, prod: Producer, cons: Consumer, cons': Consumer, b: Block)
    requires v != [] && IndicesOk(v) && DataOk(v, k, prod, cons) && !cons.StoreFront? && cons'.StoreFront?
    requires Count(v[0]) > 0 && b == v[0].(data := v[0].data[v[0].front := None])
    ensures IndicesOk(v[0 := b]) && DataOk(v[0 := b], k, prod, cons')
  {
    hide Dist, SlotsOk;
    var v' := v[0 := b];
    forall j | 0 <= j < |v'| ensures IndexOk(v'[j]) && SlotsOk(v'[j], Skip(cons', j), Extra(prod, k, j)) {
      assert SlotsOk(v[j], Skip(cons, j), Extra(prod, k, j));
      if j == 0 {
        TakeSlots(v[0], Extra(prod, k, 0));
      }
    }
  }

  lemma TakeQueue(v: seq<Block>, k: nat, cons: Consumer, cons': Consumer, queue: seq<Item>, b: Block)
    requires k < |v| && IndicesOk(v) && QueueOk(v, k, cons, queue) && !cons.StoreFront? && cons'.StoreFront?
    requires Count(v[0]) > 0 && b == v[0].(data := v[0].data[v[0].front := None]) && IndicesOk(v[0 := b])
    ensures QueueOk(v[0 := b], k, cons', queue)
  {
    hide Dist, Held;
    TakeHeld(v[0]);
    assert v[0 := b][..k + 1] == v[..k + 1][0 := b];
    FlatFirst(v[..k + 1], b);
  }

  lemma TakeFlow(v: seq<Block>, k: nat, prod: Producer, b: Block)
    requires v != [] && IndicesOk(v) && FlowOk(v, k, prod) && IndicesOk(v[0 := b])
    ensures FlowOk(v[0 := b], k, prod)
  {
    hide Dist, IndexOk;
  }

  /** The producer does not depend on what the consumer does to the front buffer. */
  lemma ProducerAfterFront(p: Producer, v: seq<Block>, ring: seq<Id>, k: nat, blocks: map<Id, Block>, next: map<Id, Id>,
                           tailBlock: Id, b: Block)
    requires IndicesOk(v) && |ring| == |v| && k < |v| && IndicesOk(v[0 := b])
    requires ProducerOk(p, v, ring, k, blocks, next, tailBlock)
    requires b.localFront == v[0].localFront && b.tail == v[0].tail && |b.data| == |v[0].data|
    requires p.StoreTail? ==> b.data[b.tail] == v[0].data[v[0].tail]
    ensures ProducerOk(p, v[0 := b], ring, k, blocks[ring[0] := b], next, tailBlock)
  {
    hide Dist, IndexOk, Held;
    assert v[0 := b][0] == b;
    assert InRange(b) && InRange(v[0]) by {
      IndexInRange(b);
      IndexInRange(v[0]);
      assert IndexOk(v[0]) && IndexOk(v[0 := b][0]);
    }
  }

  lemma TakeKeeps(s: State)
    requires Inv(s) && CanConsume(s) && s.cons.Take? && !s.cons.m.Peek?
    ensures Inv(Consume(s))
  {
    hide DataOk, FlowOk, QueueOk, ProducerOk, CapacityOk, Dist, Held, IndexOk;
    var v, id, i := View(s.blocks, s.ring), s.cons.b, s.cons.i;
    var s' := Consume(s);
    var b := s'.blocks[id];
    TakeFinds(s);
    assert id == s.ring[0] && v[0] == s.blocks[id];
    assert InRange(v[0]) by {
      IndexInRange(v[0]);
    }
    ViewUpdate(s.blocks, s.ring, 0, b);
    TakeData(v, s.k, s.prod, s.cons, s'.cons, b);
    TakeQueue(v, s.k, s.cons, s'.cons, s.queue, b);
    TakeFlow(v, s.k, s.prod, b);
    CountApart(v[0]);
    ProducerAfterFront(s.prod, v, s.ring, s.k, s.blocks, s.next, s.tailBlock, b);
    assert v[0 := b][0] == b;
    CapacityShadow(v, s.largest, s.capacity, s.prod, s.blocks, id, 0, b);
    assert s'.blocks.Keys == s.blocks.Keys;
    assert Count(b) == Count(v[0]);
  }

  lemma CountApart(b: Block)
    requires InRange(b)
    ensures Count(b) > 0 <==> b.front != b.tail
  {
  }

  // ---------------------------------------------------------------- the consumer moves on

  lemma PopIndex(b: Block)
    requires IndexOk(b) && Seen(b)
    ensures IndexOk(b.(front := Succ(b.front, |b.data|)))
  {
  }

  lemma PopData(v: seq<Block>, k: nat, prod: Producer, cons: Consumer, cons': Consumer, b: Block)
    requires v != [] && IndicesOk(v) && DataOk(v, k, prod, cons) && cons.StoreFront? && !cons'.StoreFront?
    requires Count(v[0]) > 0 && b == v[0].(front := Succ(v[0].front, |v[0].data|)) && IndicesOk(v[0 := b])
    requires prod.StoreTail? && k == 0 ==> Roomy(v[0])
    ensures DataOk(v[0 := b], k, prod, cons')
  {
    hide Dist, SlotsOk, IndexOk, Succ;
    var v' := v[0 := b];
    forall j | 0 <= j < |v'| ensures InRange(v'[j]) && SlotsOk(v'[j], Skip(cons', j), Extra(prod, k, j)) {
      assert IndexOk(v'[j]);
      IndexInRange(v'[j]);
      assert IndexOk(v[j]) && InRange(v[j]) by {
        IndexInRange(v[j]);
      }
      assert SlotsOk(v[j], Skip(cons, j), Extra(prod, k, j));
      if j == 0 {
        RoomyMeans(v[0]);
        PopSlots(v[0], Extra(prod, k, 0));
      }
    }
  }

  lemma RoomyMeans(b: Block)
    requires IndexOk(b)
    ensures Count(b) < |b.data| && (Roomy(b) ==> Count(b) + 1 < |b.data|)
  {
  }

  lemma PopQueue(v: seq<Block>, k: nat, cons: Consumer, cons': Consumer, queue: seq<Item>, b: Block)
    requires k < |v| && IndicesOk(v) && QueueOk(v, k, cons, queue) && cons.StoreFront? && !cons'.StoreFront?
    requires Count(v[0]) > 0 && b == v[0].(front := Succ(v[0].front, |v[0].data|)) && IndicesOk(v[0 := b]) && queue != []
    ensures QueueOk(v[0 := b], k, cons', queue[1..])
  {
    hide Dist, Held, Succ;
    PopHeld(v[0]);
    assert v[0 := b][..k + 1] == v[..k + 1][0 := b];
    FlatFirst(v[..k + 1], b);
  }

  lemma StoreFrontKeeps(s: State)
    requires Inv(s) && CanConsume(s) && s.cons.StoreFront?
    ensures Inv(Consume(s))
  {
    hide DataOk, FlowOk, QueueOk, ProducerOk, CapacityOk, Dist, Held, IndexOk, Succ;
    var v, id := View(s.blocks, s.ring), s.cons.b;
    var s' := Consume(s);
    var b := s'.blocks[id];
    assert id == s.ring[0] && v[0] == s.blocks[id];
    PopIndex(v[0]);
    ViewUpdate(s.blocks, s.ring, 0, b);
    if s.prod.StoreTail? {
      StoreTailRoomy(s);
    }
    PopData(v, s.k, s.prod, s.cons, s'.cons, b);
    PopQueue(v, s.k, s.cons, s'.cons, s.queue, b);
    TakeFlow(v, s.k, s.prod, b);
    ProducerAfterFront(s.prod, v, s.ring, s.k, s.blocks, s.next, s.tailBlock, b);
    CapacityShadow(v, s.largest, s.capacity, s.prod, s.blocks, id, 0, b);
    assert s'.blocks.Keys == s.blocks.Keys;
  }

  lemma StoreTailRoomy(s: State)
    requires Inv(s) && s.prod.StoreTail?
    ensures 0 <= s.k < |View(s.blocks, s.ring)| && InRange(View(s.blocks, s.ring)[s.k]) && Roomy(View(s.blocks, s.ring)[s.k])
  {
    hide DataOk, FlowOk, QueueOk, ConsumerOk, CapacityOk, Dist;
  }

  lemma RotatedRing(s: State)
    requires RingOk(s.ring, s.k, s.blocks.Keys, s.next, s.frontBlock, s.tailBlock) && s.k > 0
    ensures RingOk(s.ring[1..] + [s.ring[0]], s.k - 1, s.blocks.Keys, s.next, s.ring[1], s.tailBlock)
    ensures View(s.blocks, s.ring[1..] + [s.ring[0]]) == View(s.blocks, s.ring)[1..] + [View(s.blocks, s.ring)[0]]
  {
    var ring', n := s.ring[1..] + [s.ring[0]], |s.ring|;
    forall j | 0 <= j < n ensures Linked(ring', s.next, j) {
      assert Linked(s.ring, s.next, Succ(j, n));
    }
  }

  lemma RotatedData(v: seq<Block>, k: nat, prod: Producer, cons: Consumer, cons': Consumer)
    requires 0 < k < |v| && IndicesOk(v) && DataOk(v, k, prod, cons) && !cons.StoreFront? && !cons'.StoreFront?
    requires prod.StoreNextTail? ==> k + 1 < |v|
    ensures IndicesOk(v[1..] + [v[0]]) && DataOk(v[1..] + [v[0]], k - 1, prod, cons')
  {
    hide Dist, SlotsOk;
    var v' := v[1..] + [v[0]];
    forall j | 0 <= j < |v'| ensures IndexOk(v'[j]) && SlotsOk(v'[j], Skip(cons', j), Extra(prod, k - 1, j)) {
      var i := Succ(j, |v|);
      assert SlotsOk(v[i], Skip(cons, i), Extra(prod, k, i));
    }
  }

  lemma RotatedFlow(v: seq<Block>, k: nat, prod: Producer)
    requires 0 < k < |v| && IndicesOk(v) && FlowOk(v, k, prod) && Count(v[0]) == 0 && IndicesOk(v[1..] + [v[0]])
    requires prod.StoreTailBlock? ==> k + 1 < |v|
    ensures FlowOk(v[1..] + [v[0]], k - 1, prod)
  {
    hide Dist;
    var v' := v[1..] + [v[0]];
    forall j | 1 <= j < |v'| && j <= k - 1 ensures Count(v'[j]) > 0 && (j < k - 1 ==> Full(v'[j])) {
      assert v'[j] == v[j + 1];
    }
    forall j | k - 1 < j < |v'| && !(prod.StoreTailBlock? && j == k) ensures Count(v'[j]) == 0 {
      assert v'[j] == if j == |v| - 1 then v[0] else v[j + 1];
    }
  }

  lemma RotatedQueue(v: seq<Block>, k: nat, cons: Consumer, cons': Consumer, queue: seq<Item>)
    requires 0 < k < |v| && IndicesOk(v) && QueueOk(v, k, cons, queue) && !cons.StoreFront? && !cons'.StoreFront?
    requires Count(v[0]) == 0 && IndicesOk(v[1..] + [v[0]])
    ensures QueueOk(v[1..] + [v[0]], k - 1, cons', queue)
  {
    hide Dist, SameItems;
    var w := v[..k + 1];
    FlatCons(w);
    assert Held(v[0]) == [] && Flat(w) == Flat(w[1..]);
    assert (v[1..] + [v[0]])[..k] == w[1..];
  }

  lemma RotatedProducer(p: Producer, v: seq<Block>, ring: seq<Id>, k: nat, blocks: map<Id, Block>, next: map<Id, Id>,
                        tailBlock: Id)
    requires IndicesOk(v) && |ring| == |v| && 0 < k < |v| && IndicesOk(v[1..] + [v[0]])
    requires ProducerOk(p, v, ring, k, blocks, next, tailBlock)
    ensures ProducerOk(p, v[1..] + [v[0]], ring[1..] + [ring[0]], k - 1, blocks, next, tailBlock)
  {
    hide Dist, IndexOk, Held;
    var v', ring' := v[1..] + [v[0]], ring[1..] + [ring[0]];
    assert v'[k - 1] == v[k] && (k + 1 < |v| ==> v'[k] == v[k + 1] && ring'[k] == ring[k + 1]);
    assert p.LinkNew? ==> p.nb !in ring';
  }

  lemma RotatedCapacity(v: seq<Block>, largest: nat, capacity: nat, p: Producer, blocks: map<Id, Block>)
    requires |v| > 1 && IndicesOk(v) && CapacityOk(v, largest, capacity, p, blocks) && IndicesOk(v[1..] + [v[0]])
    ensures CapacityOk(v[1..] + [v[0]], largest, capacity, p, blocks)
  {
    hide IndexOk;
    var v' := v[1..] + [v[0]];
    assert Rooms(v') == Rooms(v)[1..] + [Rooms(v)[0]];
    TotalRotate(Rooms(v));
    forall j | 0 <= j < |v'| ensures Total(Rooms(v')) - Rooms(v')[j] >= capacity {
      assert Rooms(v')[j] == Rooms(v)[Succ(j, |v|)];
    }
  }

  lemma AdvanceKeeps(s: State)
    requires Inv(s) && CanConsume(s) && s.cons.Advance?
    ensures Inv(Consume(s))
  {
    hide DataOk, FlowOk, QueueOk, ProducerOk, CapacityOk, Dist, Held, RingOk;
    InvView(s);
    var v := View(s.blocks, s.ring);
    RotatedRing(s);
    PlaceInRing(s);
    RotatedData(v, s.k, s.prod, s.cons, Consume(s).cons);
    RotatedFlow(v, s.k, s.prod);
    RotatedQueue(v, s.k, s.cons, Consume(s).cons, s.queue);
    RotatedProducer(s.prod, v, s.ring, s.k, s.blocks, s.next, s.tailBlock);
    RotatedCapacity(v, s.largest, s.capacity, s.prod, s.blocks);
  }

  lemma PlaceInRing(s: State)
    requires Inv(s)
    ensures s.prod.StoreNextTail? || s.prod.StoreTailBlock? ==> s.k + 1 < |s.ring|
  {
    hide DataOk, FlowOk, QueueOk, ConsumerOk, CapacityOk, Dist, Held, IndexOk, RingOk;
  }

  lemma ConsumeKeeps(s: State)
    requires Inv(s) && CanConsume(s)
    ensures Inv(Consume(s))
  {
    hide Inv, Consume;
    match s.cons
    case Start(_) => StartKeeps(s);
    case LoadTail(_) => LoadTailKeeps(s);
    case LoadTailBlock(_, _) => LoadTailBlockKeeps(s);
    case Recheck(_) => RecheckKeeps(s);
    case LoadNext(_) => LoadNextKeeps(s);
    case LoadNextTail(_, _) => LoadNextTailKeeps(s);
    case Advance(_, _, _) => AdvanceKeeps(s);
    case Take(m, _, _) => if m.Peek? { PeekKeeps(s); } else { TakeKeeps(s); }
    case StoreFront(_, _, _, _) => StoreFrontKeeps(s);
  }
}
