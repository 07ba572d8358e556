/**
  ReaderWriterQueue: one producer and one consumer on a circular list of ring buffers
  (source/utils/readerwriterqueue.h:201-524).

  Every step is one access to a variable the other thread also uses, together with accesses to the thread's own. A
  mask by a block's size less one is a remainder by its size. `ring`, `k` and `queue` are auxiliary: the blocks in
  list order from frontBlock on, the position of tailBlock among them, and the abstract FIFO queue.
*/
module Spsc {
  import opened Wrappers
  import opened Totals
  import opened Words
  import Circular

  type Item = int
  type Id = nat

  /** A ring buffer; a slot is None when no element is constructed in it. */
  datatype Block = Block(front: nat, tail: nat, localTail: nat, localFront: nat, data: seq<Option<Item>>)

  datatype Mode = Dequeue | Peek | Pop

  datatype Consumer =
    | Idle
    | Start(m: Mode)
    | LoadTail(m: Mode)
    | LoadTailBlock(m: Mode, wasEmpty: bool)
    | Recheck(m: Mode)
    | LoadNext(m: Mode)
    | LoadNextTail(m: Mode, nb: Id)
    | Advance(m: Mode, nb: Id, i: nat)
    | Take(m: Mode, b: Id, i: nat)
    | StoreFront(m: Mode, b: Id, i: nat, v: Item)
    | Returned(m: Mode, result: Option<Item>)

  datatype Producer =
    | Resting
    | Begin(x: Item, alloc: bool)
    | LoadFront(x: Item, alloc: bool)
    | LoadFrontBlock(x: Item, alloc: bool, seen: nat)
    | LoadNextFront(x: Item)
    | WriteNext(x: Item, nb: Id)
    | StoreNextTail(x: Item, nb: Id)
    | StoreTailBlock(x: Item, nb: Id)
    | Allocate(x: Item)
    | LinkNew(x: Item, nb: Id)
    | Write(x: Item)
    | StoreTail(x: Item)
    | Enqueued(ok: bool)

  datatype State = State(
    blocks: map<Id, Block>,
    next: map<Id, Id>,
    frontBlock: Id,
    tailBlock: Id,
    largest: nat,           // largestBlockSize
    prod: Producer,
    cons: Consumer,
    capacity: nat,          // the maxSize the queue was made for
    ring: seq<Id>,
    k: nat,
    queue: seq<Item>)

  /** MAX_BLOCK_SIZE, at least 2; twice as much fits a word. */
  type BlockLimit = n: nat | 2 <= n < HALF witness 2

  const MAX_BLOCK_SIZE: BlockLimit

  // ---------------------------------------------------------------- ring buffers

  function Succ(i: nat, n: nat): nat {
    if i + 1 == n then 0 else i + 1
  }

  /** How far position b is after position a in a buffer of n slots. */
  function Dist(a: nat, b: nat, n: nat): nat
    requires a < n && b < n
  {
    if a <= b then b - a else b - a + n
  }

  function At(f: nat, i: nat, n: nat): (p: nat)
    requires f < n && i < n
    ensures p < n
  {
    if f + i < n then f + i else f + i - n
  }

  /** The code's masked expressions, as remainders. */
  lemma MasksAreRemainders(a: nat, b: nat, n: nat)
    requires a < n && b < n
    ensures Succ(a, n) == (a + 1) % n
    ensures Dist(a, b, n) == (b - a) % n
    ensures At(a, b, n) == (a + b) % n
  {
    Remainder(a + 1, Succ(a, n), n);
    Remainder(b - a, Dist(a, b, n), n);
    Remainder(a + b, At(a, b, n), n);
  }

  lemma Remainder(x: int, p: nat, n: nat)
    requires p < n && (x == p || x == p + n || x == p - n)
    ensures x % n == p
  {
    Circular.Reflexive(p, n);
    Circular.OneTurn(p, n);
    Circular.OneTurn(p + n, n);
    Circular.Symmetric(p + n, p, n);
    Circular.RemainderIs(x, p, n);
  }

  predicate InRange(b: Block) {
    b.front < |b.data| && b.tail < |b.data| && b.localTail < |b.data| && b.localFront < |b.data|
  }

  function Count(b: Block): nat
    requires InRange(b)
  {
    Dist(b.front, b.tail, |b.data|)
  }

  /** The elements of a block from front to tail. */
  function Held(b: Block): (h: seq<Option<Item>>)
    requires InRange(b)
    ensures |h| == Count(b)
  {
    seq(Count(b), i requires 0 <= i < Count(b) => b.data[At(b.front, i, |b.data|)])
  }

  predicate Full(b: Block)
    requires InRange(b)
  {
    Count(b) == |b.data| - 1
  }

  // ---------------------------------------------------------------- consumer steps

  predicate CanConsume(s: State) {
    && s.frontBlock in s.blocks && s.frontBlock in s.next && !s.cons.Idle? && !s.cons.Returned?
    && match s.cons
    case LoadNextTail(_, nb) => nb in s.blocks
    case Take(_, b, i) => b in s.blocks && i < |s.blocks[b].data| && s.blocks[b].data[i].Some?
    case StoreFront(_, b, _, _) => b in s.blocks && s.queue != []
    case Advance(_, _, _) => s.k > 0 && |s.ring| > 0
    case _ => true
  }

  function Consume(s: State): State
    requires CanConsume(s)
  {
    var fb := s.frontBlock;
    var b := s.blocks[fb];
    match s.cons
    case Start(m) => s.(cons := if b.front != b.localTail then Take(m, fb, b.front) else LoadTail(m))
    case LoadTail(m) =>
      s.(blocks := s.blocks[fb := b.(localTail := b.tail)],
         cons := if b.front != b.tail then Take(m, fb, b.front) else LoadTailBlock(m, s.queue == []))
    case LoadTailBlock(m, _) => s.(cons := if fb != s.tailBlock then Recheck(m) else Returned(m, None))
    case Recheck(m) =>
      s.(blocks := s.blocks[fb := b.(localTail := b.tail)],
         cons := if b.front != b.tail then Take(m, fb, b.front) else LoadNext(m))
    case LoadNext(m) => s.(cons := LoadNextTail(m, s.next[fb]))
    case LoadNextTail(m, nb) =>
      var n := s.blocks[nb];
      if m.Peek? then s.(cons := Take(m, nb, n.front))
      else s.(blocks := s.blocks[nb := n.(localTail := n.tail)], cons := Advance(m, nb, n.front))
    case Advance(m, nb, i) =>
      s.(frontBlock := nb, cons := Take(m, nb, i), ring := s.ring[1..] + [s.ring[0]], k := s.k - 1)
    case Take(m, id, i) =>
      var c := s.blocks[id];
      if m.Peek? then s.(cons := Returned(m, c.data[i]))
      else s.(blocks := s.blocks[id := c.(data := c.data[i := None])], cons := StoreFront(m, id, i, c.data[i].value))
    case StoreFront(m, id, i, v) =>
      var c := s.blocks[id];
      s.(blocks := s.blocks[id := c.(front := Succ(i, |c.data|))], cons := Returned(m, Some(v)), queue := s.queue[1..])
  }

  // ---------------------------------------------------------------- producer steps

  function NewSize(largest: nat): nat {
    if largest >= MAX_BLOCK_SIZE then largest else largest * 2
  }

  function NewBlock(size: nat, x: Item): Block
    requires size >= 2
  {
    Block(0, 1, 1, 0, seq(size, i => if i == 0 then Some(x) else None))
  }

  predicate CanProduce(s: State, luck: Option<Id>) {
    && s.tailBlock in s.blocks && s.tailBlock in s.next && !s.prod.Resting? && !s.prod.Enqueued?
    && match s.prod
    case LoadNextFront(_) => s.next[s.tailBlock] in s.blocks
    case WriteNext(_, nb) => nb in s.blocks && s.blocks[nb].tail < |s.blocks[nb].data|
    case StoreNextTail(_, nb) => nb in s.blocks
    case Allocate(_) => s.largest >= 2 && (luck.Some? ==> luck.value !in s.blocks)
    case LinkNew(_, _) => s.k < |s.ring|
    case Write(_) => s.blocks[s.tailBlock].tail < |s.blocks[s.tailBlock].data|
    case _ => true
  }

  function Produce(s: State, luck: Option<Id>): State
    requires CanProduce(s, luck)
  {
    var tb := s.tailBlock;
    var b := s.blocks[tb];
    match s.prod
    case Begin(x, alloc) => s.(prod := if Succ(b.tail, |b.data|) != b.localFront then Write(x) else LoadFront(x, alloc))
    case LoadFront(x, alloc) =>
      s.(blocks := s.blocks[tb := b.(localFront := b.front)],
         prod := if Succ(b.tail, |b.data|) != b.front then Write(x) else LoadFrontBlock(x, alloc, |s.queue|))
    case LoadFrontBlock(x, alloc, _) =>
      s.(prod := if s.next[tb] != s.frontBlock then LoadNextFront(x) else if alloc then Allocate(x) else Enqueued(false))
    case LoadNextFront(x) =>
      var nb := s.next[tb];
      s.(blocks := s.blocks[nb := s.blocks[nb].(localFront := s.blocks[nb].front)], prod := WriteNext(x, nb))
    case WriteNext(x, nb) =>
      var n := s.blocks[nb];
      s.(blocks := s.blocks[nb := n.(data := n.data[n.tail := Some(x)])], prod := StoreNextTail(x, nb))
    case StoreNextTail(x, nb) =>
      var n := s.blocks[nb];
      s.(blocks := s.blocks[nb := n.(tail := Succ(n.tail, |n.data|))], prod := StoreTailBlock(x, nb))
    case StoreTailBlock(x, nb) => s.(tailBlock := nb, k := s.k + 1, queue := s.queue + [x], prod := Enqueued(true))
    case Allocate(x) =>
      if luck.None? then s.(prod := Enqueued(false))
      else
        var size, id := NewSize(s.largest), luck.value;
        s.(blocks := s.blocks[id := NewBlock(size, x)], next := s.next[id := s.next[tb]], largest := size,
           prod := LinkNew(x, id))
    case LinkNew(x, nb) =>
      s.(next := s.next[tb := nb], ring := s.ring[..s.k + 1] + [nb] + s.ring[s.k + 1..], prod := StoreTailBlock(x, nb))
    case Write(x) => s.(blocks := s.blocks[tb := b.(data := b.data[b.tail := Some(x)])], prod := StoreTail(x))
    case StoreTail(x) =>
      s.(blocks := s.blocks[tb := b.(tail := Succ(b.tail, |b.data|))], queue := s.queue + [x], prod := Enqueued(true))
  }

  ghost predicate Next(s: State, s': State) {
    || (exists m :: (s.cons.Idle? || s.cons.Returned?) && s' == s.(cons := Start(m)))
    || (CanConsume(s) && s' == Consume(s))
    || (exists x, alloc :: (s.prod.Resting? || s.prod.Enqueued?) && s' == s.(prod := Begin(x, alloc)))
    || (exists luck :: CanProduce(s, luck) && s' == Produce(s, luck))
  }

  ghost predicate NextAt(run: seq<State>, i: nat)
    requires i + 1 < |run|
  {
    Next(run[i], run[i + 1])
  }

  ghost predicate Run(run: seq<State>) {
    |run| > 0 && Init(run[0]) && forall i :: 0 <= i < |run| - 1 ==> NextAt(run, i)
  }

  // ---------------------------------------------------------------- invariant

  /** The blocks are linked in a circle, from frontBlock to tailBlock and on. */
  ghost predicate RingOk(ring: seq<Id>, k: nat, keys: set<Id>, next: map<Id, Id>, frontBlock: Id, tailBlock: Id) {
    && k < |ring| && ring[0] == frontBlock && ring[k] == tailBlock
    && (forall j :: 0 <= j < |ring| ==> ring[j] in keys && ring[j] in next)
    && (forall i, j :: 0 <= i < j < |ring| ==> ring[i] != ring[j])
    && (forall j :: 0 <= j < |ring| ==> Linked(ring, next, j))
  }

  ghost predicate Linked(ring: seq<Id>, next: map<Id, Id>, j: nat)
    requires j < |ring|
  {
    ring[j] in next && next[ring[j]] == ring[Succ(j, |ring|)]
  }

  function View(blocks: map<Id, Block>, ring: seq<Id>): seq<Block>
    requires forall j :: 0 <= j < |ring| ==> ring[j] in blocks
  {
    seq(|ring|, j requires 0 <= j < |ring| => blocks[ring[j]])
  }

  /** The shadow copies lag behind what they copy, and a buffer never holds more than its size less one. */
  ghost predicate IndexOk(b: Block) {
    && |b.data| >= 2 && InRange(b)
    && Dist(b.front, b.localTail, |b.data|) <= Count(b)
    && Dist(b.localFront, b.front, |b.data|) + Count(b) < |b.data|
  }

  ghost predicate IndicesOk(v: seq<Block>) {
    forall j :: 0 <= j < |v| ==> IndexOk(v[j])
  }

  /** An element is constructed exactly in the slots from front to tail, but for one being taken and one being put. */
  ghost predicate SlotsOk(b: Block, skip: nat, extra: nat)
    requires InRange(b)
  {
    forall p :: 0 <= p < |b.data| ==> (b.data[p].Some? <==> skip <= Dist(b.front, p, |b.data|) < Count(b) + extra)
  }

  function Skip(c: Consumer, j: nat): nat {
    if c.StoreFront? && j == 0 then 1 else 0
  }

  function Extra(p: Producer, k: nat, j: nat): nat {
    if (p.StoreTail? && j == k) || (p.StoreNextTail? && j == k + 1) then 1 else 0
  }

  ghost predicate DataOk(v: seq<Block>, k: nat, prod: Producer, cons: Consumer)
    requires IndicesOk(v)
  {
    forall j :: 0 <= j < |v| ==> SlotsOk(v[j], Skip(cons, j), Extra(prod, k, j))
  }

  /** Blocks after the front up to the tail have elements, all before the tail are full, all after it are empty. */
  ghost predicate FlowOk(v: seq<Block>, k: nat, prod: Producer)
    requires IndicesOk(v)
  {
    && (forall j :: 1 <= j < |v| && j <= k ==> Count(v[j]) > 0)
    && (forall j :: 1 <= j < |v| && j < k ==> Full(v[j]))
    && (forall j :: k < j < |v| && !(prod.StoreTailBlock? && j == k + 1) ==> Count(v[j]) == 0)
  }

  function Flat(v: seq<Block>): seq<Option<Item>>
    requires forall j :: 0 <= j < |v| ==> InRange(v[j])
  {
    if v == [] then [] else Flat(v[..|v| - 1]) + Held(v[|v| - 1])
  }

  /** The elements read block by block from front to tail are the abstract queue. */
  ghost predicate QueueOk(v: seq<Block>, k: nat, cons: Consumer, queue: seq<Item>)
    requires IndicesOk(v) && k < |v|
  {
    SameItems(Flat(v[..k + 1]), cons.StoreFront?, queue)
  }

  /** h holds the queue; when its first element is being taken, that slot is empty already. */
  ghost predicate SameItems(h: seq<Option<Item>>, taking: bool, queue: seq<Item>) {
    |h| == |queue| && forall i :: 0 <= i < |h| ==> h[i] == if i == 0 && taking then None else Some(queue[i])
  }

  ghost predicate FrontAt(v: seq<Block>, ring: seq<Id>, j: nat, b: Id, i: nat)
    requires IndicesOk(v) && |ring| == |v|
  {
    j < |v| && b == ring[j] && i == v[j].front && Count(v[j]) > 0
  }

  /** The consumer's copy of the tail tells that the buffer has an element. */
  predicate Seen(b: Block) {
    b.front != b.localTail
  }

  ghost predicate ConsumerOk(c: Consumer, v: seq<Block>, ring: seq<Id>, k: nat, queue: seq<Item>)
    requires IndicesOk(v) && |ring| == |v| && k < |v|
  {
    match c
    case LoadTailBlock(_, wasEmpty) => k == 0 ==> wasEmpty
    case Recheck(_) => k > 0
    case LoadNext(_) => k > 0 && Count(v[0]) == 0
    case LoadNextTail(_, nb) => k > 0 && Count(v[0]) == 0 && nb == ring[1]
    case Advance(m, nb, i) => k > 0 && Count(v[0]) == 0 && FrontAt(v, ring, 1, nb, i) && m != Peek && Seen(v[1])
    case Take(m, b, i) =>
      || (FrontAt(v, ring, 0, b, i) && Seen(v[0]))
      || (m == Peek && k > 0 && Count(v[0]) == 0 && FrontAt(v, ring, 1, b, i))
    case StoreFront(m, b, i, x) => FrontAt(v, ring, 0, b, i) && queue != [] && queue[0] == x && m != Peek && Seen(v[0])
    case _ => true
  }

  /** Room for one more element, as far as the producer knows. */
  ghost predicate Roomy(b: Block)
    requires InRange(b)
  {
    Dist(b.localFront, b.tail, |b.data|) + 1 < |b.data|
  }

  ghost predicate ProducerOk(p: Producer, v: seq<Block>, ring: seq<Id>, k: nat, blocks: map<Id, Block>, next: map<Id, Id>,
                             tailBlock: Id)
    requires IndicesOk(v) && |ring| == |v| && k < |v|
  {
    match p
    case LoadFrontBlock(_, _, seen) => (k > 0 ==> Full(v[k])) && (|v| == 1 ==> seen >= |v[0].data| - 1)
    case LoadNextFront(_) => (k > 0 ==> Full(v[k])) && k + 1 < |v|
    case WriteNext(_, nb) => (k > 0 ==> Full(v[k])) && k + 1 < |v| && nb == ring[k + 1] && Roomy(v[k + 1])
    case StoreNextTail(x, nb) =>
      && (k > 0 ==> Full(v[k])) && k + 1 < |v| && nb == ring[k + 1]
      && Roomy(v[k + 1]) && v[k + 1].data[v[k + 1].tail] == Some(x)
    case StoreTailBlock(x, nb) =>
      (k > 0 ==> Full(v[k])) && k + 1 < |v| && nb == ring[k + 1] && Held(v[k + 1]) == [Some(x)]
    case Allocate(_) => k > 0 ==> Full(v[k])
    case LinkNew(x, nb) =>
      (k > 0 ==> Full(v[k])) && nb !in ring && nb in blocks && FreshBlock(blocks[nb], x)
      && nb in next && tailBlock in next && next[nb] == next[tailBlock]
    case Write(_) => Roomy(v[k])
    case StoreTail(x) => Roomy(v[k]) && v[k].data[v[k].tail] == Some(x)
    case _ => true
  }

  ghost predicate FreshBlock(b: Block, x: Item) {
    |b.data| >= 2 && b == NewBlock(|b.data|, x)
  }

  function Rooms(v: seq<Block>): seq<nat>
    requires IndicesOk(v)
  {
    seq(|v|, j requires 0 <= j < |v| => |v[j].data| - 1)
  }

  /** Any block can be left out and the others still hold `capacity` elements; a single block holds them alone. */
  ghost predicate CapacityOk(v: seq<Block>, largest: nat, capacity: nat, p: Producer, blocks: map<Id, Block>)
    requires IndicesOk(v)
  {
    && largest >= 2
    && (|v| == 1 ==> |v[0].data| - 1 >= capacity && largest >= |v[0].data|)
    && (|v| > 1 ==> forall j :: 0 <= j < |v| ==> Total(Rooms(v)) - Rooms(v)[j] >= capacity)
    && (p.LinkNew? && p.nb in blocks ==> largest == |blocks[p.nb].data|)
  }

  /** Everything the invariant says about the buffers as such. */
  ghost predicate CoreOk(v: seq<Block>, k: nat, prod: Producer, cons: Consumer, queue: seq<Item>) {
    k < |v| && IndicesOk(v) && DataOk(v, k, prod, cons) && FlowOk(v, k, prod) && QueueOk(v, k, cons, queue)
  }

  ghost predicate RestOk(s: State, v: seq<Block>) {
    && s.k < |v| == |s.ring| && IndicesOk(v)
    && ConsumerOk(s.cons, v, s.ring, s.k, s.queue)
    && ProducerOk(s.prod, v, s.ring, s.k, s.blocks, s.next, s.tailBlock)
    && CapacityOk(v, s.largest, s.capacity, s.prod, s.blocks)
  }

  ghost predicate Inv(s: State) {
    && RingOk(s.ring, s.k, s.blocks.Keys, s.next, s.frontBlock, s.tailBlock)
    && CoreOk(View(s.blocks, s.ring), s.k, s.prod, s.cons, s.queue)
    && RestOk(s, View(s.blocks, s.ring))
  }

  /** A new queue: all blocks empty, the first one both front and tail. */
  ghost predicate Init(s: State) {
    && RingOk(s.ring, 0, s.blocks.Keys, s.next, s.frontBlock, s.tailBlock) && s.k == 0
    && (forall j :: 0 <= j < |s.ring| ==> Empty(s.blocks[s.ring[j]]))
    && CapacityOk(View(s.blocks, s.ring), s.largest, s.capacity, s.prod, s.blocks)
    && s.prod == Resting && s.cons == Idle && s.queue == []
  }

  ghost predicate Empty(b: Block) {
    |b.data| >= 2 && b == Block(0, 0, 0, 0, seq(|b.data|, i => None))
  }

  // ---------------------------------------------------------------- one ring buffer

  lemma PushHeld(b: Block, x: Item)
    requires InRange(b) && Count(b) + 1 < |b.data| && b.data[b.tail] == Some(x)
    ensures InRange(b.(tail := Succ(b.tail, |b.data|)))
    ensures Held(b.(tail := Succ(b.tail, |b.data|))) == Held(b) + [Some(x)]
  {
  }

  lemma PopHeld(b: Block)
    requires InRange(b) && Count(b) > 0
    ensures InRange(b.(front := Succ(b.front, |b.data|)))
    ensures Held(b.(front := Succ(b.front, |b.data|))) == Held(b)[1..]
  {
  }

  lemma TakeHeld(b: Block)
    requires InRange(b) && Count(b) > 0
    ensures Held(b.(data := b.data[b.front := None])) == Held(b)[0 := None]
  {
  }

  lemma WriteHeld(b: Block, x: Item)
    requires InRange(b)
    ensures Held(b.(data := b.data[b.tail := Some(x)])) == Held(b)
  {
  }

  lemma WriteSlots(b: Block, x: Item, skip: nat)
    requires InRange(b) && SlotsOk(b, skip, 0) && Count(b) + 1 < |b.data| && skip <= Count(b)
    ensures b.data[b.tail] == None
    ensures SlotsOk(b.(data := b.data[b.tail := Some(x)]), skip, 1)
  {
  }

  lemma PushSlots(b: Block, skip: nat)
    requires InRange(b) && SlotsOk(b, skip, 1) && Count(b) + 1 < |b.data|
    ensures InRange(b.(tail := Succ(b.tail, |b.data|))) && SlotsOk(b.(tail := Succ(b.tail, |b.data|)), skip, 0)
  {
  }

  lemma TakeSlots(b: Block, extra: nat)
    requires InRange(b) && SlotsOk(b, 0, extra) && Count(b) > 0
    ensures SlotsOk(b.(data := b.data[b.front := None]), 1, extra)
  {
  }

  lemma PopSlots(b: Block, extra: nat)
    requires InRange(b) && SlotsOk(b, 1, extra) && Count(b) > 0 && Count(b) + extra < |b.data|
    ensures InRange(b.(front := Succ(b.front, |b.data|))) && SlotsOk(b.(front := Succ(b.front, |b.data|)), 0, extra)
  {
    var n := |b.data|;
    var b' := b.(front := Succ(b.front, n));
    forall p | 0 <= p < n ensures b'.data[p].Some? <==> 0 <= Dist(b'.front, p, n) < Count(b') + extra {
      assert b.data[p].Some? <==> 1 <= Dist(b.front, p, n) < Count(b) + extra;
    }
  }

  // ---------------------------------------------------------------- the ring as a sequence of buffers

  lemma ViewUpdate(blocks: map<Id, Block>, ring: seq<Id>, j: nat, b: Block)
    requires forall i :: 0 <= i < |ring| ==> ring[i] in blocks
    requires forall i, h :: 0 <= i < h < |ring| ==> ring[i] != ring[h]
    requires j < |ring|
    ensures forall i :: 0 <= i < |ring| ==> ring[i] in blocks[ring[j] := b]
    ensures View(blocks[ring[j] := b], ring) == View(blocks, ring)[j := b]
  {
  }

  lemma {:induction false} FlatCons(v: seq<Block>)
    requires v != [] && forall j :: 0 <= j < |v| ==> InRange(v[j])
    ensures Flat(v) == Held(v[0]) + Flat(v[1..])
  {
    hide Held, InRange;
    var n := |v| - 1;
    if n == 0 {
      assert v[..0] == [] && v[1..] == [];
    } else {
      var w, middle := v[1..], v[1..n];
      assert v[..n][1..] == middle && w[..n - 1] == middle && w[n - 1] == v[n];
      FlatCons(v[..n]);
      Regroup(Held(v[0]), Flat(middle), Held(v[n]));
    }
  }

  lemma Regroup<T>(a: seq<T>, b: seq<T>, c: seq<T>)
    ensures (a + b) + c == a + (b + c)
  {
  }

  lemma {:induction false} FlatUpdate(v: seq<Block>, j: nat, b: Block)
    requires j < |v| && InRange(b) && (forall i :: 0 <= i < |v| ==> InRange(v[i])) && Held(b) == Held(v[j])
    ensures Flat(v[j := b]) == Flat(v)
  {
    var n := |v| - 1;
    if j == n {
      assert v[j := b][..n] == v[..n];
    } else {
      assert v[j := b][..n] == v[..n][j := b];
      FlatUpdate(v[..n], j, b);
    }
  }

  lemma FlatFirst(v: seq<Block>, b: Block)
    requires v != [] && InRange(b) && forall i :: 0 <= i < |v| ==> InRange(v[i])
    ensures Flat(v) == Held(v[0]) + Flat(v[1..])
    ensures Flat(v[0 := b]) == Held(b) + Flat(v[1..])
  {
    FlatCons(v);
    FlatCons(v[0 := b]);
    assert v[0 := b][1..] == v[1..];
  }

  // ---------------------------------------------------------------- what a change of one buffer leaves alone

  /** Two buffers with the same elements in the same slots. */
  predicate Alike(b: Block, b': Block) {
    b'.front == b.front && b'.tail == b.tail && b'.data == b.data
  }

  lemma AlikeHeld(b: Block, b': Block)
    requires InRange(b) && InRange(b') && Alike(b, b')
    ensures Held(b') == Held(b) && Count(b') == Count(b)
  {
  }

  lemma AlikeQueue(v: seq<Block>, k: nat, cons: Consumer, queue: seq<Item>, j: nat, b: Block)
    requires IndicesOk(v) && k < |v| && QueueOk(v, k, cons, queue) && j < |v| && IndexOk(b) && Held(b) == Held(v[j])
    ensures IndicesOk(v[j := b]) && QueueOk(v[j := b], k, cons, queue)
  {
    hide Held, SameItems;
    if j <= k {
      assert v[j := b][..k + 1] == v[..k + 1][j := b];
      FlatUpdate(v[..k + 1], j, b);
    } else {
      assert v[j := b][..k + 1] == v[..k + 1];
    }
  }

  lemma AlikeData(v: seq<Block>, k: nat, prod: Producer, cons: Consumer, prod': Producer, cons': Consumer, j: nat, b: Block)
    requires IndicesOk(v) && DataOk(v, k, prod, cons) && j < |v| && IndexOk(b) && Alike(v[j], b)
    requires cons'.StoreFront? == cons.StoreFront? && prod'.StoreTail? == prod.StoreTail?
    requires prod'.StoreNextTail? == prod.StoreNextTail?
    ensures IndicesOk(v[j := b]) && DataOk(v[j := b], k, prod', cons')
  {
    hide Dist;
    var v' := v[j := b];
    forall i | 0 <= i < |v| ensures SlotsOk(v'[i], Skip(cons', i), Extra(prod', k, i)) {
      assert SlotsOk(v[i], Skip(cons, i), Extra(prod, k, i));
    }
  }

  lemma AlikeFlow(v: seq<Block>, k: nat, prod: Producer, prod': Producer, j: nat, b: Block)
    requires IndicesOk(v) && FlowOk(v, k, prod) && j < |v| && IndexOk(b) && Alike(v[j], b)
    requires prod'.StoreTailBlock? == prod.StoreTailBlock?
    ensures IndicesOk(v[j := b]) && FlowOk(v[j := b], k, prod')
  {
    hide Dist;
  }

  lemma AlikeCore(v: seq<Block>, k: nat, prod: Producer, cons: Consumer, prod': Producer, cons': Consumer,
                  queue: seq<Item>, j: nat, b: Block)
    requires CoreOk(v, k, prod, cons, queue) && j < |v| && IndexOk(b) && Alike(v[j], b)
    requires cons'.StoreFront? == cons.StoreFront? && prod'.StoreTail? == prod.StoreTail?
    requires prod'.StoreNextTail? == prod.StoreNextTail? && prod'.StoreTailBlock? == prod.StoreTailBlock?
    ensures CoreOk(v[j := b], k, prod', cons', queue)
  {
    hide DataOk, FlowOk, Held, Dist, SameItems;
    AlikeHeld(v[j], b);
    AlikeQueue(v, k, cons, queue, j, b);
    AlikeData(v, k, prod, cons, prod', cons', j, b);
    AlikeFlow(v, k, prod, prod', j, b);
  }

  lemma RoomsAlike(v: seq<Block>, j: nat, b: Block)
    requires IndicesOk(v) && j < |v| && IndexOk(b) && |b.data| == |v[j].data|
    ensures Rooms(v[j := b]) == Rooms(v)
  {
  }
}
