/** Every access of the producer keeps the invariant. */
module SpscProducer {
  import opened Wrappers
  import opened Totals
  import opened Spsc
  import opened SpscConsumer

  // ---------------------------------------------------------------- the producer looks for room

  lemma ProducerMoves(s: State, p: Producer)
    requires Inv(s) && s.k < |s.ring| && IndicesOk(View(s.blocks, s.ring))
    requires !s.prod.StoreTail? && !s.prod.StoreNextTail? && !s.prod.StoreTailBlock?
    requires !p.StoreTail? && !p.StoreNextTail? && !p.StoreTailBlock? && !p.LinkNew?
    requires ProducerOk(p, View(s.blocks, s.ring), s.ring, s.k, s.blocks, s.next, s.tailBlock)
    ensures Inv(s.(prod := p))
  {
    hide DataOk, FlowOk, QueueOk, ConsumerOk, ProducerOk, IndexOk;
    var v := View(s.blocks, s.ring);
    assert v[0 := v[0]] == v;
    AlikeCore(v, s.k, s.prod, s.cons, p, s.cons, s.queue, 0, v[0]);
  }

  /** What the consumer knows does not depend on the producer's shadow copies. */
  lemma ConsumerShadow(c: Consumer, v: seq<Block>, ring: seq<Id>, k: nat, queue: seq<Item>, j: nat, b: Block)
    requires IndicesOk(v) && |ring| == |v| && k < |v| && j < |v| && IndexOk(b) && Alike(v[j], b)
    requires b.localTail == v[j].localTail && ConsumerOk(c, v, ring, k, queue)
    ensures IndicesOk(v[j := b]) && ConsumerOk(c, v[j := b], ring, k, queue)
  {
    hide Dist, IndexOk;
    assert InRange(b) && InRange(v[j]) by {
      IndexInRange(b);
      IndexInRange(v[j]);
    }
    AlikeHeld(v[j], b);
  }

  /** The producer copies the front of the buffer at j, the tail one or the next. */
  lemma ShadowFrontKeeps(s: State, j: nat, p: Producer)
    requires Inv(s) && j < |s.ring| && s.ring[j] in s.blocks
    requires !s.prod.StoreTail? && !s.prod.StoreNextTail? && !s.prod.StoreTailBlock?
    requires !p.StoreTail? && !p.StoreNextTail? && !p.StoreTailBlock? && !p.LinkNew?
    requires
      var b := s.blocks[s.ring[j]].(localFront := s.blocks[s.ring[j]].front);
      var v := View(s.blocks, s.ring);
      && s.k < |s.ring| && IndicesOk(v[j := b])
      && ProducerOk(p, v[j := b], s.ring, s.k, s.blocks[s.ring[j] := b], s.next, s.tailBlock)
    ensures
      var b := s.blocks[s.ring[j]].(localFront := s.blocks[s.ring[j]].front);
      Inv(s.(blocks := s.blocks[s.ring[j] := b], prod := p))
  {
    hide DataOk, FlowOk, QueueOk, ConsumerOk, ProducerOk, CapacityOk, Held, Dist;
    var b := s.blocks[s.ring[j]].(localFront := s.blocks[s.ring[j]].front);
    var v := View(s.blocks, s.ring);
    ViewUpdate(s.blocks, s.ring, j, b);
    assert v[j := b][j] == b;
    assert IndexOk(b);
    AlikeCore(v, s.k, s.prod, s.cons, p, s.cons, s.queue, j, b);
    ConsumerShadow(s.cons, v, s.ring, s.k, s.queue, j, b);
    CapacityShadow(v, s.largest, s.capacity, s.prod, s.blocks, s.ring[j], j, b);
    CapacityMoves(v[j := b], s.largest, s.capacity, s.prod, p, s.blocks[s.ring[j] := b]);
    assert s.blocks[s.ring[j] := b].Keys == s.blocks.Keys;
  }

  lemma CapacityMoves(v: seq<Block>, largest: nat, capacity: nat, p: Producer, p': Producer, blocks: map<Id, Block>)
    requires IndicesOk(v) && CapacityOk(v, largest, capacity, p, blocks) && !p'.LinkNew?
    ensures CapacityOk(v, largest, capacity, p', blocks)
  {
  }

  lemma BeginKeeps(s: State, luck: Option<Id>)
    requires Inv(s) && CanProduce(s, luck) && s.prod.Begin?
    ensures Inv(Produce(s, luck))
  {
    hide Inv, ConsumerOk, FlowOk;
    InvView(s);
    NotFull(s.blocks[s.tailBlock]);
    ProducerMoves(s, Produce(s, luck).prod);
  }

  /** The producer's test finds the buffer full exactly when, by its copy of front, it has no room. */
  lemma NotFull(b: Block)
    requires IndexOk(b)
    ensures Succ(b.tail, |b.data|) != b.localFront <==> Roomy(b)
    ensures Succ(b.tail, |b.data|) == b.front <==> Full(b)
    ensures Roomy(b.(localFront := b.front)) <==> !Full(b)
  {
  }

  lemma {:induction false} SingleCount(s: State)
    requires Inv(s) && |s.ring| == 1
    ensures |View(s.blocks, s.ring)| == 1 && InRange(View(s.blocks, s.ring)[0])
    ensures Count(View(s.blocks, s.ring)[0]) == |s.queue|
  {
    hide DataOk, FlowOk, ConsumerOk, ProducerOk, CapacityOk, Dist;
    var v := View(s.blocks, s.ring);
    assert v[..1] == [v[0]] && v[..1][..0] == [];
    assert Flat(v[..1]) == Held(v[0]);
  }

  lemma LoadFrontKeeps(s: State, luck: Option<Id>)
    requires Inv(s) && CanProduce(s, luck) && s.prod.LoadFront?
    ensures Inv(Produce(s, luck))
  {
    hide Inv, ConsumerOk, FlowOk;
    InvView(s);
    NotFull(s.blocks[s.tailBlock]);
    if |s.ring| == 1 {
      SingleCount(s);
    }
    ShadowFrontKeeps(s, s.k, Produce(s, luck).prod);
  }

  /** The block after the tail block is not the front block exactly when there is one ahead to use. */
  lemma AheadIs(s: State)
    requires Inv(s)
    ensures s.tailBlock in s.next
    ensures s.next[s.tailBlock] != s.frontBlock <==> s.k + 1 < |s.ring|
    ensures s.k + 1 < |s.ring| ==> s.next[s.tailBlock] == s.ring[s.k + 1]
  {
    hide CoreOk, RestOk;
    assert Linked(s.ring, s.next, s.k);
  }

  lemma LoadFrontBlockKeeps(s: State, luck: Option<Id>)
    requires Inv(s) && CanProduce(s, luck) && s.prod.LoadFrontBlock?
    ensures Inv(Produce(s, luck))
  {
    hide Inv, ConsumerOk, FlowOk;
    InvView(s);
    AheadIs(s);
    ProducerMoves(s, Produce(s, luck).prod);
  }

  lemma LoadNextFrontKeeps(s: State, luck: Option<Id>)
    requires Inv(s) && CanProduce(s, luck) && s.prod.LoadNextFront?
    ensures Inv(Produce(s, luck))
  {
    hide Inv, ConsumerOk;
    InvView(s);
    AheadIs(s);
    ShadowFrontKeeps(s, s.k + 1, Produce(s, luck).prod);
  }

  // ---------------------------------------------------------------- the producer writes

  lemma WriteData(v: seq<Block>, k: nat, prod: Producer, prod': Producer, cons: Consumer, j: nat, x: Item, b: Block)
    requires IndicesOk(v) && DataOk(v, k, prod, cons) && j < |v| && Roomy(v[j])
    requires b == v[j].(data := v[j].data[v[j].tail := Some(x)])
    requires forall i :: 0 <= i < |v| ==> Extra(prod, k, i) == 0 && Extra(prod', k, i) == if i == j then 1 else 0
    requires cons.StoreFront? ==> Count(v[0]) > 0
    ensures IndicesOk(v[j := b]) && DataOk(v[j := b], k, prod', cons) && v[j].data[v[j].tail] == None
  {
    hide Dist, SlotsOk;
    var v' := v[j := b];
    RoomyMeans(v[j]);
    forall i | 0 <= i < |v| ensures IndexOk(v'[i]) && SlotsOk(v'[i], Skip(cons, i), Extra(prod', k, i)) {
      assert SlotsOk(v[i], Skip(cons, i), Extra(prod, k, i));
      if i == j {
        WriteSlots(v[j], x, Skip(cons, j));
      }
    }
    assert SlotsOk(v[j], Skip(cons, j), 0);
    WriteSlots(v[j], x, Skip(cons, j));
  }

  /** The consumer does not depend on the slot being written. */
  lemma ConsumerAfterWrite(c: Consumer, v: seq<Block>, ring: seq<Id>, k: nat, queue: seq<Item>, j: nat, b: Block)
    requires IndicesOk(v) && |ring| == |v| && k < |v| && j < |v| && IndicesOk(v[j := b])
    requires b.front == v[j].front && b.tail == v[j].tail && b.localTail == v[j].localTail && |b.data| == |v[j].data|
    requires ConsumerOk(c, v, ring, k, queue)
    ensures ConsumerOk(c, v[j := b], ring, k, queue)
  {
    hide Dist;
  }

  lemma WriteFlow(v: seq<Block>, k: nat, prod: Producer, prod': Producer, j: nat, b: Block)
    requires IndicesOk(v) && FlowOk(v, k, prod) && j < |v| && IndicesOk(v[j := b])
    requires b.front == v[j].front && b.tail == v[j].tail && |b.data| == |v[j].data|
    requires !prod.StoreTailBlock? && !prod'.StoreTailBlock?
    ensures FlowOk(v[j := b], k, prod')
  {
    hide Dist;
  }

  /** An element is constructed in the empty slot at the tail of buffer j. */
  lemma WriteSlotKeeps(s: State, j: nat, x: Item, p: Producer)
    requires Inv(s) && j < |s.ring| && s.ring[j] in s.blocks && InRange(s.blocks[s.ring[j]])
    requires (s.prod == Write(x) && j == s.k && p == StoreTail(x))
             || (s.prod == WriteNext(x, s.ring[j]) && j == s.k + 1 && p == StoreNextTail(x, s.ring[j]))
    ensures
      var b := s.blocks[s.ring[j]];
      && b.data[b.tail] == None
      && Inv(s.(blocks := s.blocks[s.ring[j] := b.(data := b.data[b.tail := Some(x)])], prod := p))
  {
    hide DataOk, FlowOk, QueueOk, ConsumerOk, CapacityOk, Held, Dist, IndexOk;
    var v := View(s.blocks, s.ring);
    var b := v[j].(data := v[j].data[v[j].tail := Some(x)]);
    assert v[j] == s.blocks[s.ring[j]];
    StoreFrontCounts(s);
    ViewUpdate(s.blocks, s.ring, j, b);
    WriteData(v, s.k, s.prod, p, s.cons, j, x, b);
    WriteHeld(v[j], x);
    assert IndexOk(v[j := b][j]);
    AlikeQueue(v, s.k, s.cons, s.queue, j, b);
    WriteFlow(v, s.k, s.prod, p, j, b);
    ConsumerAfterWrite(s.cons, v, s.ring, s.k, s.queue, j, b);
    CapacityShadow(v, s.largest, s.capacity, s.prod, s.blocks, s.ring[j], j, b);
    CapacityMoves(v[j := b], s.largest, s.capacity, s.prod, p, s.blocks[s.ring[j] := b]);
    assert s.blocks[s.ring[j] := b].Keys == s.blocks.Keys;
  }

  lemma StoreFrontCounts(s: State)
    requires Inv(s)
    ensures |View(s.blocks, s.ring)| > 0 && InRange(View(s.blocks, s.ring)[0])
    ensures s.cons.StoreFront? ==> Count(View(s.blocks, s.ring)[0]) > 0
  {
    hide DataOk, FlowOk, QueueOk, ProducerOk, CapacityOk, Dist;
  }

  lemma WriteKeeps(s: State, luck: Option<Id>)
    requires Inv(s) && CanProduce(s, luck) && (s.prod.Write? || s.prod.WriteNext?)
    ensures Inv(Produce(s, luck))
  {
    hide Inv, ConsumerOk, FlowOk, Dist;
    InvView(s);
    WriteSlotKeeps(s, if s.prod.Write? then s.k else s.k + 1, s.prod.x, Produce(s, luck).prod);
  }

  // ---------------------------------------------------------------- the producer publishes

  lemma PushIndex(b: Block)
    requires IndexOk(b) && Roomy(b)
    ensures IndexOk(b.(tail := Succ(b.tail, |b.data|))) && Count(b.(tail := Succ(b.tail, |b.data|))) == Count(b) + 1
  {
  }

  lemma PushData(v: seq<Block>, k: nat, prod: Producer, prod': Producer, cons: Consumer, j: nat, b: Block)
    requires IndicesOk(v) && DataOk(v, k, prod, cons) && j < |v| && Roomy(v[j])
    requires b == v[j].(tail := Succ(v[j].tail, |v[j].data|)) && IndicesOk(v[j := b])
    requires forall i :: 0 <= i < |v| ==> Extra(prod', k, i) == 0 && Extra(prod, k, i) == if i == j then 1 else 0
    ensures DataOk(v[j := b], k, prod', cons)
  {
    hide Dist, SlotsOk, Succ;
    var v' := v[j := b];
    RoomyMeans(v[j]);
    forall i | 0 <= i < |v| ensures IndexOk(v'[i]) && SlotsOk(v'[i], Skip(cons, i), Extra(prod', k, i)) {
      assert SlotsOk(v[i], Skip(cons, i), Extra(prod, k, i));
      if i == j {
        PushSlots(v[j], Skip(cons, j));
      }
    }
  }

  /** The consumer does not depend on elements being added. */
  lemma ConsumerAfterPush(c: Consumer, v: seq<Block>, ring: seq<Id>, k: nat, queue: seq<Item>, queue': seq<Item>,
                          j: nat, b: Block)
    requires IndicesOk(v) && |ring| == |v| && k < |v| && j < |v| && IndexOk(b) && (j == 0 ==> k == 0)
    requires b.front == v[j].front && b.localTail == v[j].localTail && |b.data| == |v[j].data| && Count(b) == Count(v[j]) + 1
    requires queue <= queue' && ConsumerOk(c, v, ring, k, queue)
    ensures IndicesOk(v[j := b]) && ConsumerOk(c, v[j := b], ring, k, queue')
  {
    hide Dist;
  }

  lemma PushFlow(v: seq<Block>, k: nat, prod: Producer, prod': Producer, j: nat, b: Block)
    requires k < |v| && IndicesOk(v) && FlowOk(v, k, prod) && j < |v| && IndexOk(b) && Count(b) == Count(v[j]) + 1
    requires !prod.StoreTailBlock? && ((j == k && !prod'.StoreTailBlock?) || (j == k + 1 && prod'.StoreTailBlock?))
    ensures IndicesOk(v[j := b]) && FlowOk(v[j := b], k, prod')
  {
    hide Dist;
  }

  lemma PushQueue(v: seq<Block>, k: nat, cons: Consumer, queue: seq<Item>, x: Item, b: Block)
    requires k < |v| && IndicesOk(v) && QueueOk(v, k, cons, queue) && (cons.StoreFront? ==> queue != [])
    requires IndexOk(b) && Held(b) == Held(v[k]) + [Some(x)]
    ensures IndicesOk(v[k := b]) && QueueOk(v[k := b], k, cons, queue + [x])
  {
    hide Dist, Held;
    var w, w' := v[..k + 1], v[k := b][..k + 1];
    assert w'[..k] == w[..k] && w'[k] == b;
    assert Flat(w') == Flat(w) + [Some(x)];
  }

  lemma StoreTailKeeps(s: State, luck: Option<Id>)
    requires Inv(s) && CanProduce(s, luck) && s.prod.StoreTail?
    ensures Inv(Produce(s, luck))
  {
    hide DataOk, FlowOk, QueueOk, ConsumerOk, CapacityOk, Held, Dist, Succ;
    var v, k := View(s.blocks, s.ring), s.k;
    var s' := Produce(s, luck);
    assert v[k] == s.blocks[s.tailBlock];
    var b := v[k].(tail := Succ(v[k].tail, |v[k].data|));
    ViewUpdate(s.blocks, s.ring, k, b);
    PushIndex(v[k]);
    RoomyMeans(v[k]);
    PushHeld(v[k], s.prod.x);
    PushData(v, k, s.prod, s'.prod, s.cons, k, b);
    PushFlow(v, k, s.prod, s'.prod, k, b);
    StoreFrontTakes(s);
    PushQueue(v, k, s.cons, s.queue, s.prod.x, b);
    ConsumerAfterPush(s.cons, v, s.ring, k, s.queue, s'.queue, k, b);
    CapacityShadow(v, s.largest, s.capacity, s.prod, s.blocks, s.ring[k], k, b);
    CapacityMoves(v[k := b], s.largest, s.capacity, s.prod, s'.prod, s'.blocks);
    assert s'.blocks.Keys == s.blocks.Keys;
  }

  lemma StoreFrontTakes(s: State)
    requires Inv(s)
    ensures s.cons.StoreFront? ==> s.queue != [] && s.queue[0] == s.cons.v
  {
    hide DataOk, FlowOk, QueueOk, ProducerOk, CapacityOk, Dist;
  }

  lemma StoreNextTailKeeps(s: State, luck: Option<Id>)
    requires Inv(s) && CanProduce(s, luck) && s.prod.StoreNextTail?
    ensures Inv(Produce(s, luck))
  {
    hide DataOk, QueueOk, ConsumerOk, CapacityOk, Held, Dist, Succ;
    var v, k := View(s.blocks, s.ring), s.k;
    var s' := Produce(s, luck);
    var b := v[k + 1].(tail := Succ(v[k + 1].tail, |v[k + 1].data|));
    assert v[k + 1] == s.blocks[s.prod.nb] && Count(v[k + 1]) == 0;
    ViewUpdate(s.blocks, s.ring, k + 1, b);
    PushIndex(v[k + 1]);
    RoomyMeans(v[k + 1]);
    PushHeld(v[k + 1], s.prod.x);
    PushData(v, k, s.prod, s'.prod, s.cons, k + 1, b);
    PushFlow(v, k, s.prod, s'.prod, k + 1, b);
    BeyondTail(v, k, s.cons, s.queue, k + 1, b);
    ConsumerAfterPush(s.cons, v, s.ring, k, s.queue, s.queue, k + 1, b);
    CapacityShadow(v, s.largest, s.capacity, s.prod, s.blocks, s.prod.nb, k + 1, b);
    CapacityMoves(v[k + 1 := b], s.largest, s.capacity, s.prod, s'.prod, s'.blocks);
    assert s'.blocks.Keys == s.blocks.Keys;
    assert Held(b) == [Some(s.prod.x)];
  }

  lemma BeyondTail(v: seq<Block>, k: nat, cons: Consumer, queue: seq<Item>, j: nat, b: Block)
    requires k < j < |v| && IndicesOk(v) && QueueOk(v, k, cons, queue) && IndicesOk(v[j := b])
    ensures QueueOk(v[j := b], k, cons, queue)
  {
    hide SameItems, IndexOk;
    assert v[j := b][..k + 1] == v[..k + 1];
  }

  lemma NextBlockQueue(v: seq<Block>, k: nat, cons: Consumer, queue: seq<Item>, x: Item)
    requires k + 1 < |v| && IndicesOk(v) && QueueOk(v, k, cons, queue) && (cons.StoreFront? ==> queue != [])
    requires Held(v[k + 1]) == [Some(x)]
    ensures QueueOk(v, k + 1, cons, queue + [x])
  {
    hide Dist, Held;
    assert v[..k + 2][..k + 1] == v[..k + 1];
  }

  lemma StoreTailBlockKeeps(s: State, luck: Option<Id>)
    requires Inv(s) && CanProduce(s, luck) && s.prod.StoreTailBlock?
    ensures Inv(Produce(s, luck))
  {
    hide QueueOk, CapacityOk, Held, Dist;
    var v, k := View(s.blocks, s.ring), s.k;
    var s' := Produce(s, luck);
    StoreFrontTakes(s);
    NextBlockQueue(v, k, s.cons, s.queue, s.prod.x);
    NextBlockData(v, k, s.prod, s'.prod, s.cons);
    NextBlockFlow(v, k, s.prod, s'.prod);
    NextBlockConsumer(s.cons, v, s.ring, k, s.queue, s'.queue);
    CapacityMoves(v, s.largest, s.capacity, s.prod, s'.prod, s.blocks);
  }

  lemma NextBlockData(v: seq<Block>, k: nat, prod: Producer, prod': Producer, cons: Consumer)
    requires IndicesOk(v) && DataOk(v, k, prod, cons) && prod.StoreTailBlock? && prod'.Enqueued?
    ensures DataOk(v, k + 1, prod', cons)
  {
    hide Dist, SlotsOk;
    forall j | 0 <= j < |v| ensures SlotsOk(v[j], Skip(cons, j), Extra(prod', k + 1, j)) {
      assert SlotsOk(v[j], Skip(cons, j), Extra(prod, k, j));
    }
  }

  lemma NextBlockFlow(v: seq<Block>, k: nat, prod: Producer, prod': Producer)
    requires k + 1 < |v| && IndicesOk(v) && FlowOk(v, k, prod) && prod.StoreTailBlock? && prod'.Enqueued?
    requires (k > 0 ==> Full(v[k])) && |Held(v[k + 1])| == 1
    ensures FlowOk(v, k + 1, prod')
  {
    hide Dist;
  }

  lemma NextBlockConsumer(c: Consumer, v: seq<Block>, ring: seq<Id>, k: nat, queue: seq<Item>, queue': seq<Item>)
    requires IndicesOk(v) && |ring| == |v| && k + 1 < |v| && ConsumerOk(c, v, ring, k, queue) && queue <= queue'
    ensures ConsumerOk(c, v, ring, k + 1, queue')
  {
    hide Dist;
  }

  // ---------------------------------------------------------------- the producer adds a block

  lemma ViewElsewhere(blocks: map<Id, Block>, ring: seq<Id>, id: Id, b: Block)
    requires (forall j :: 0 <= j < |ring| ==> ring[j] in blocks) && id !in ring
    ensures forall j :: 0 <= j < |ring| ==> ring[j] in blocks[id := b]
    ensures View(blocks[id := b], ring) == View(blocks, ring)
  {
  }

  lemma AllocateKeeps(s: State, luck: Option<Id>)
    requires Inv(s) && CanProduce(s, luck) && s.prod.Allocate?
    ensures Inv(Produce(s, luck))
  {
    hide DataOk, FlowOk, QueueOk, ConsumerOk, Dist, Held, IndexOk;
    if luck.None? {
      ProducerMoves(s, Enqueued(false));
    } else {
      var s', v := Produce(s, luck), View(s.blocks, s.ring);
      assert luck.value !in s.ring;
      ViewElsewhere(s.blocks, s.ring, luck.value, s'.blocks[luck.value]);
      forall j | 0 <= j < |s.ring| ensures Linked(s.ring, s'.next, j) {
        assert Linked(s.ring, s.next, j);
      }
      assert v[0 := v[0]] == v;
      AlikeCore(v, s.k, s.prod, s.cons, s'.prod, s.cons, s.queue, 0, v[0]);
      assert |s'.blocks[luck.value].data| == NewSize(s.largest);
    }
  }

  function Inserted<T>(xs: seq<T>, k: nat, x: T): (ys: seq<T>)
    requires k < |xs|
    ensures |ys| == |xs| + 1 && ys[k + 1] == x && ys[..k + 1] == xs[..k + 1]
    ensures forall j :: 0 <= j < |ys| && j != k + 1 ==> ys[j] == if j <= k then xs[j] else xs[j - 1]
  {
    xs[..k + 1] + [x] + xs[k + 1..]
  }

  lemma InsertedRing(s: State, nb: Id)
    requires RingOk(s.ring, s.k, s.blocks.Keys, s.next, s.frontBlock, s.tailBlock)
    requires nb !in s.ring && nb in s.blocks && nb in s.next && s.next[nb] == s.next[s.tailBlock]
    ensures RingOk(Inserted(s.ring, s.k, nb), s.k, s.blocks.Keys, s.next[s.tailBlock := nb], s.frontBlock, s.tailBlock)
  {
    hide Inserted;
    var ring', next' := Inserted(s.ring, s.k, nb), s.next[s.tailBlock := nb];
    assert Linked(s.ring, s.next, s.k);
    forall j | 0 <= j < |ring'|
      ensures ring'[j] in s.blocks.Keys && ring'[j] in next' && (j != s.k + 1 ==> ring'[j] in s.ring)
    {
      InsertedAt(s.ring, s.k, nb, j);
    }
    forall i, j | 0 <= i < j < |ring'| ensures ring'[i] != ring'[j] {
      InsertedAt(s.ring, s.k, nb, i);
      InsertedAt(s.ring, s.k, nb, j);
    }
    forall j | 0 <= j < |ring'| ensures Linked(ring', next', j) {
      InsertedLink(s, nb, j);
    }
    InsertedAt(s.ring, s.k, nb, 0);
    InsertedAt(s.ring, s.k, nb, s.k);
  }

  lemma InsertedAt(xs: seq<Id>, k: nat, x: Id, j: nat)
    requires k < |xs| && j <= |xs|
    ensures Inserted(xs, k, x)[j] == if j <= k then xs[j] else if j == k + 1 then x else xs[j - 1]
  {
  }

  lemma InsertedLink(s: State, nb: Id, j: nat)
    requires RingOk(s.ring, s.k, s.blocks.Keys, s.next, s.frontBlock, s.tailBlock) && j <= |s.ring|
    requires nb !in s.ring && nb in s.blocks && nb in s.next && s.next[nb] == s.next[s.tailBlock]
    ensures Linked(Inserted(s.ring, s.k, nb), s.next[s.tailBlock := nb], j)
  {
    hide Inserted;
    var n := |s.ring|;
    InsertedAt(s.ring, s.k, nb, j);
    InsertedAt(s.ring, s.k, nb, Succ(j, n + 1));
    assert Linked(s.ring, s.next, s.k);
    if j < s.k {
      assert Linked(s.ring, s.next, j);
    } else if j > s.k + 1 {
      assert Linked(s.ring, s.next, j - 1);
    }
  }

  lemma InsertedView(s: State, nb: Id)
    requires s.k < |s.ring| && nb in s.blocks && forall j :: 0 <= j < |s.ring| ==> s.ring[j] in s.blocks
    ensures forall j :: 0 <= j <= |s.ring| ==> Inserted(s.ring, s.k, nb)[j] in s.blocks
    ensures View(s.blocks, Inserted(s.ring, s.k, nb)) == Inserted(View(s.blocks, s.ring), s.k, s.blocks[nb])
  {
    forall j | 0 <= j <= |s.ring| ensures Inserted(s.ring, s.k, nb)[j] in s.blocks {
      InsertedAt(s.ring, s.k, nb, j);
    }
  }

  lemma FreshIs(b: Block, x: Item)
    requires FreshBlock(b, x)
    ensures IndexOk(b) && Held(b) == [Some(x)] && SlotsOk(b, 0, 0)
  {
  }

  lemma InsertedData(v: seq<Block>, k: nat, prod: Producer, prod': Producer, cons: Consumer, b: Block)
    requires k < |v| && IndicesOk(v) && DataOk(v, k, prod, cons) && prod.LinkNew? && prod'.StoreTailBlock?
    requires IndexOk(b) && SlotsOk(b, 0, 0)
    ensures IndicesOk(Inserted(v, k, b)) && DataOk(Inserted(v, k, b), k, prod', cons)
  {
    hide Dist, SlotsOk, Inserted;
    var v' := Inserted(v, k, b);
    forall j | 0 <= j < |v'| ensures IndexOk(v'[j]) && SlotsOk(v'[j], Skip(cons, j), Extra(prod', k, j)) {
      if j != k + 1 {
        var i := if j <= k then j else j - 1;
        assert SlotsOk(v[i], Skip(cons, i), Extra(prod, k, i));
      }
    }
  }

  lemma InsertedFlow(v: seq<Block>, k: nat, prod: Producer, prod': Producer, b: Block)
    requires k < |v| && IndicesOk(v) && FlowOk(v, k, prod) && prod.LinkNew? && prod'.StoreTailBlock?
    requires IndicesOk(Inserted(v, k, b))
    ensures FlowOk(Inserted(v, k, b), k, prod')
  {
    hide Dist, Inserted;
    var v' := Inserted(v, k, b);
    forall j | k < j < |v'| && j != k + 1 ensures Count(v'[j]) == 0 {
      assert v'[j] == v[j - 1];
    }
  }

  lemma InsertedConsumer(c: Consumer, v: seq<Block>, ring: seq<Id>, k: nat, queue: seq<Item>, b: Block, nb: Id)
    requires IndicesOk(v) && |ring| == |v| && k < |v| && ConsumerOk(c, v, ring, k, queue) && IndicesOk(Inserted(v, k, b))
    ensures ConsumerOk(c, Inserted(v, k, b), Inserted(ring, k, nb), k, queue)
  {
    hide Dist, Inserted;
  }

  lemma InsertedRooms(v: seq<Block>, k: nat, b: Block)
    requires k < |v| && IndicesOk(v) && IndexOk(b) && IndicesOk(Inserted(v, k, b))
    ensures |b.data| >= 1 && Rooms(Inserted(v, k, b)) == Inserted<nat>(Rooms(v), k, |b.data| - 1)
  {
    hide IndexOk;
    SizeAtLeastTwo(b);
  }

  lemma InsertedCapacity(v: seq<Block>, k: nat, largest: nat, capacity: nat, p: Producer, p': Producer,
                         blocks: map<Id, Block>)
    requires k < |v| && IndicesOk(v) && CapacityOk(v, largest, capacity, p, blocks) && p.LinkNew? && p.nb in blocks
    requires IndexOk(blocks[p.nb]) && IndicesOk(Inserted(v, k, blocks[p.nb])) && !p'.LinkNew?
    ensures CapacityOk(Inserted(v, k, blocks[p.nb]), largest, capacity, p', blocks)
  {
    hide IndexOk, Rooms, Inserted;
    var b := blocks[p.nb];
    SizeAtLeastTwo(b);
    RoomsAre(v);
    InsertedRooms(v, k, b);
    InsertedTotal(Rooms(v), k, |b.data| - 1, capacity);
  }

  lemma InsertedTotal(rooms: seq<nat>, k: nat, room: nat, capacity: nat)
    requires k < |rooms|
    requires if |rooms| == 1 then rooms[0] >= capacity && room >= rooms[0]
             else forall j :: 0 <= j < |rooms| ==> Total(rooms) - rooms[j] >= capacity
    ensures forall j :: 0 <= j <= |rooms| ==> Total(Inserted<nat>(rooms, k, room)) - Inserted<nat>(rooms, k, room)[j] >= capacity
  {
    TotalInsert(rooms, k + 1, room);
    TotalParts(rooms);
    var more := Inserted(rooms, k, room);
    forall j | 0 <= j < |more| ensures Total(more) - more[j] >= capacity {
      InsertedAt(rooms, k, room, j);
      assert |rooms| > 1 ==> Total(rooms) - rooms[0] >= capacity;
    }
  }

  lemma RoomsAre(v: seq<Block>)
    requires IndicesOk(v)
    ensures |Rooms(v)| == |v| && forall j :: 0 <= j < |v| ==> Rooms(v)[j] == |v[j].data| - 1
  {
  }

  lemma SizeAtLeastTwo(b: Block)
    requires IndexOk(b)
    ensures |b.data| >= 2
  {
  }

  lemma LinkNewKeeps(s: State, luck: Option<Id>)
    requires Inv(s) && CanProduce(s, luck) && s.prod.LinkNew?
    ensures Inv(Produce(s, luck))
  {
    hide DataOk, FlowOk, QueueOk, ConsumerOk, CapacityOk, FreshBlock, Held, Dist, IndexOk, Inserted, RingOk;
    InvView(s);
    var v, nb := View(s.blocks, s.ring), s.prod.nb;
    var s' := Produce(s, luck);
    assert s'.ring == Inserted(s.ring, s.k, nb) by {
      InsertedIs(s.ring, s.k, nb);
    }
    FreshIs(s.blocks[nb], s.prod.x);
    InsertedRing(s, nb);
    InsertedView(s, nb);
    InsertedData(v, s.k, s.prod, s'.prod, s.cons, s.blocks[nb]);
    InsertedFlow(v, s.k, s.prod, s'.prod, s.blocks[nb]);
    InsertedConsumer(s.cons, v, s.ring, s.k, s.queue, s.blocks[nb], nb);
    InsertedCapacity(v, s.k, s.largest, s.capacity, s.prod, s'.prod, s.blocks);
    InsertedQueue(v, s.k, s.cons, s.queue, s.blocks[nb]);
  }

  lemma InsertedIs<T>(xs: seq<T>, k: nat, x: T)
    requires k < |xs|
    ensures Inserted(xs, k, x) == xs[..k + 1] + [x] + xs[k + 1..]
  {
  }

  lemma InsertedQueue(v: seq<Block>, k: nat, cons: Consumer, queue: seq<Item>, b: Block)
    requires k < |v| && IndicesOk(v) && QueueOk(v, k, cons, queue) && IndicesOk(Inserted(v, k, b))
    ensures QueueOk(Inserted(v, k, b), k, cons, queue)
  {
    hide SameItems, IndexOk, Inserted;
  }

  lemma ProduceKeeps(s: State, luck: Option<Id>)
    requires Inv(s) && CanProduce(s, luck)
    ensures Inv(Produce(s, luck))
  {
    hide Inv, Produce;
    match s.prod
    case Begin(_, _) => BeginKeeps(s, luck);
    case LoadFront(_, _) => LoadFrontKeeps(s, luck);
    case LoadFrontBlock(_, _, _) => LoadFrontBlockKeeps(s, luck);
    case LoadNextFront(_) => LoadNextFrontKeeps(s, luck);
    case WriteNext(_, _) => WriteKeeps(s, luck);
    case StoreNextTail(_, _) => StoreNextTailKeeps(s, luck);
    case StoreTailBlock(_, _) => StoreTailBlockKeeps(s, luck);
    case Allocate(_) => AllocateKeeps(s, luck);
    case LinkNew(_, _) => LinkNewKeeps(s, luck);
    case Write(_) => WriteKeeps(s, luck);
    case StoreTail(_) => StoreTailKeeps(s, luck);
  }
}
