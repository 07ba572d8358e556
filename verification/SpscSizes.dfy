/** The size, the constructor, and a refusal below capacity. */
module SpscSizes {
  import opened Wrappers
  import opened Totals
  import opened Quotients
  import opened Words
  import PowersOfTwo
  import opened Spsc
  import opened SpscConsumer
  import opened SpscRuns
  import opened SpscCalls

  // ---------------------------------------------------------------- size_approx

  lemma {:induction false} FlatBeyond(v: seq<Block>, k: nat)
    requires k < |v| && IndicesOk(v) && forall j :: k < j < |v| ==> Count(v[j]) == 0
    ensures Flat(v) == Flat(v[..k + 1])
  {
    hide Held, Dist;
    if |v| == k + 1 {
      assert v[..k + 1] == v;
    } else {
      FlatBeyond(v[..|v| - 1], k);
      assert v[..|v| - 1][..k + 1] == v[..k + 1];
    }
  }

  predicate Quiet(s: State) {
    (s.cons.Idle? || s.cons.Returned?) && (s.prod.Resting? || s.prod.Enqueued?)
  }

  /** size_approx, a walk once around the list: exact while neither thread is in an operation. */
  method SizeApprox(s: State) returns (result: nat)
    requires Inv(s) && Quiet(s)
    ensures result == |s.queue|
  {
    hide Inv, ConsumerOk, ProducerOk, Dist, Held, Flat, IndexOk, FlowOk, RingOk;
    InvView(s);
    ghost var v := View(s.blocks, s.ring);
    ghost var j := 1;
    BlockInRange(v, 0);
    result := Count(s.blocks[s.frontBlock]);
    var block := s.next[s.frontBlock];
    RingWalk(s, 0);
    FlatGrows(v, 0);
    while block != s.frontBlock
      invariant 1 <= j <= |v| && block == s.ring[if j == |v| then 0 else j]
      invariant forall i :: 0 <= i < |v| ==> InRange(v[i])
      invariant result == |Flat(v[..j])|
      decreases |v| - j
    {
      BlockInRange(v, j);
      FlatGrows(v, j);
      result := result + Count(s.blocks[block]);
      RingWalk(s, j);
      block := s.next[block];
      j := j + 1;
    }
    RingStarts(s, j);
    assert v[..j] == v;
    QuietFlat(s);
  }

  lemma BlockInRange(v: seq<Block>, j: nat)
    requires IndicesOk(v) && j < |v|
    ensures InRange(v[j]) && forall i :: 0 <= i < |v| ==> InRange(v[i])
  {
  }

  lemma FlatGrows(v: seq<Block>, j: nat)
    requires j < |v| && forall i :: 0 <= i < |v| ==> InRange(v[i])
    ensures |Flat(v[..j + 1])| == |Flat(v[..j])| + Count(v[j])
    ensures |Flat(v[..0])| == 0
  {
    hide Dist;
    assert v[..j + 1][..j] == v[..j] && v[..j + 1][j] == v[j];
  }

  lemma QuietFlat(s: State)
    requires Inv(s) && Quiet(s)
    ensures IndicesOk(View(s.blocks, s.ring)) && |Flat(View(s.blocks, s.ring))| == |s.queue|
  {
    hide Inv, ConsumerOk, ProducerOk, Dist, Held;
    InvView(s);
    FlatBeyond(View(s.blocks, s.ring), s.k);
    QueueIs(s);
  }

  lemma RingWalk(s: State, j: nat)
    requires Inv(s) && j < |s.ring|
    ensures s.ring[j] in s.next && s.next[s.ring[j]] == s.ring[Succ(j, |s.ring|)]
  {
    hide CoreOk, RestOk;
    assert Linked(s.ring, s.next, j);
  }

  lemma RingStarts(s: State, j: nat)
    requires Inv(s) && 1 <= j <= |s.ring| && s.ring[if j == |s.ring| then 0 else j] == s.frontBlock
    ensures j == |s.ring|
  {
    hide CoreOk, RestOk;
  }

  // ---------------------------------------------------------------- the constructor

  function EmptyBlock(size: nat): Block
  {
    Block(0, 0, 0, 0, seq(size, i => None))
  }

  lemma {:induction false} TotalSame(xs: seq<nat>, x: nat)
    requires forall i :: 0 <= i < |xs| ==> xs[i] == x
    ensures Total(xs) == |xs| * x
  {
    if xs != [] {
      TotalSame(xs[..|xs| - 1], x);
    }
  }

  /** The number of blocks is one more than maxSize elements need in blocks that waste one slot each. */
  lemma BlockCountSuffices(maxSize: nat, size: nat)
    requires maxSize > 0 && size > 1
    ensures
      var count := (maxSize + size * 2 - 3) / (size - 1);
      count > 1 && (count - 2) * (size - 1) < maxSize <= (count - 1) * (size - 1)
  {
    var room, need := size - 1, maxSize - 1;
    assert maxSize + size * 2 - 3 == need + 2 * room;
    Quotient(need, room);
    TwoMore(need, room);
  }

  lemma Quotient(a: nat, b: nat)
    requires b > 0
    ensures (a / b) * b <= a < (a / b + 1) * b
  {
    assert a == (a / b) * b + a % b;
  }

  lemma TwoMore(a: nat, b: nat)
    requires b > 0
    ensures (a + 2 * b) / b == a / b + 2
  {
    var q := a / b;
    assert a + 2 * b == (q + 2) * b + a % b;
    QuotientIs(a + 2 * b, q + 2, b);
  }

  /** n blocks of the given size, linked in a circle. */
  ghost predicate Made(blocks: map<Id, Block>, next: map<Id, Id>, n: nat, size: nat) {
    && (forall j: nat :: j < n <==> j in blocks) && (forall j: nat :: j < n <==> j in next)
    && (forall j: nat :: j < n ==> blocks[j] == EmptyBlock(size) && next[j] == Succ(j, n))
  }

  method MakeBlocks(count: nat, size: nat) returns (blocks: map<Id, Block>, next: map<Id, Id>)
    requires count > 0
    ensures Made(blocks, next, count, size)
  {
    blocks, next := map[0 := EmptyBlock(size)], map[0 := 0];
    var last, i: nat := 0, 1;
    while i != count
      invariant 1 <= i <= count && last == i - 1 && Made(blocks, next, i, size)
    {
      blocks := blocks[i := EmptyBlock(size)];
      next := next[last := i];
      last := i;
      next := next[i := 0];
      i := i + 1;
    }
  }

  /** What the constructor makes when the size it computes wraps around to 0: one block with no slot at all. */
  ghost predicate Hollow(s: State) {
    && s.blocks == map[0 := EmptyBlock(0)] && s.next == map[0 := 0] && s.frontBlock == s.tailBlock == 0
    && s.prod == Resting && s.cons == Idle && s.queue == []
  }

  /**
    The constructor, for a queue of maxSize elements: one block, or as many largest ones as are needed and one more. It
    makes such a queue if and only if maxSize is below 2^63; from there on the size of the one block wraps around. That
    an allocation fails is left out.
  */
  method Make(maxSize: bv64) returns (s: State)
    requires maxSize != 0
    ensures s.capacity == PowersOfTwo.Number(maxSize)
    ensures Init(s) <==> maxSize < PowersOfTwo.HIGHEST
    ensures maxSize >= PowersOfTwo.HIGHEST ==> Hollow(s)
  {
    hide Init, Made, PowersOfTwo.CeilOf, PowersOfTwo.Number, PowersOfTwo.Representable, PowersOfTwo.Inc;
    var elements := PowersOfTwo.Number(maxSize);
    var size := PowersOfTwo.CeilToPow2(PowersOfTwo.Inc(maxSize));
    var largest, count: nat := PowersOfTwo.Number(size), 1;
    SizeIs(maxSize);
    if largest > MAX_BLOCK_SIZE * 2 {
      WrapOnce(elements + MAX_BLOCK_SIZE * 2 - 3);
      BlockCountSuffices(elements, MAX_BLOCK_SIZE);
      count := Wrap(elements + MAX_BLOCK_SIZE * 2 - 3) / (MAX_BLOCK_SIZE - 1);
      largest := MAX_BLOCK_SIZE;
    }
    var blocks, next := MakeBlocks(count, largest);
    s := State(blocks, next, 0, 0, largest, Resting, Idle, elements, seq(count, j => j), 0, []);
    if largest > 0 {
      MadeIsInit(s, count);
    } else {
      MadeHollow(s);
    }
  }

  /** The size computed for maxSize elements, as a number: the least power of two above, or 0. */
  lemma SizeIs(maxSize: bv64)
    requires maxSize != 0
    ensures
      var elements, size := PowersOfTwo.Number(maxSize), PowersOfTwo.Number(PowersOfTwo.CeilOf(PowersOfTwo.Inc(maxSize)));
      && elements > 0
      && if maxSize < PowersOfTwo.HIGHEST then size > elements && size <= HALF && size == PowersOfTwo.Ceiling(elements + 1)
         else size == 0
  {
    hide PowersOfTwo.CeilOf, PowersOfTwo.Number, PowersOfTwo.Representable, PowersOfTwo.Inc, PowersOfTwo.IsPower;
    PowersOfTwo.BelowIsNot(maxSize);
    var x := PowersOfTwo.Inc(maxSize);
    if maxSize < PowersOfTwo.HIGHEST {
      PowersOfTwo.NumberInc(maxSize);
      PowersOfTwo.CeilIsCeiling(x);
      CeilAtMostHighest(x);
      PowersOfTwo.NumberOrder(PowersOfTwo.CeilOf(x), PowersOfTwo.HIGHEST);
      PowersOfTwo.HighestNumber();
    } else {
      PowersOfTwo.NoneAbove(maxSize);
      PowersOfTwo.CeilWraps(x);
    }
  }

  lemma CeilAtMostHighest(x: bv64)
    requires PowersOfTwo.Representable(x)
    ensures PowersOfTwo.CeilOf(x) <= PowersOfTwo.HIGHEST
  {
    hide PowersOfTwo.CeilOf;
    PowersOfTwo.CeilIsLeast(x, PowersOfTwo.HIGHEST);
  }

  lemma MadeHollow(s: State)
    requires Made(s.blocks, s.next, 1, 0) && s.frontBlock == s.tailBlock == 0 && s.ring == [0]
    requires s.prod == Resting && s.cons == Idle && s.queue == []
    ensures Hollow(s) && !Init(s)
  {
    assert s.blocks.Keys == {0} && s.next.Keys == {0};
    assert !Empty(s.blocks[s.ring[0]]);
  }

  /** The first element put into such a queue is written outside its block. */
  lemma HollowOverruns(s: State, x: Item, alloc: bool)
    requires Hollow(s)
    ensures
      var s1 := s.(prod := Begin(x, alloc));
      && CanProduce(s1, None) && Next(s, s1) && Next(s1, Produce(s1, None)) && Produce(s1, None).prod == Write(x)
      && forall luck :: !CanProduce(Produce(s1, None), luck)
  {
    var s1 := s.(prod := Begin(x, alloc));
    assert CanProduce(s1, None);
  }

  lemma MadeIsInit(s: State, n: nat)
    requires n > 0 && Made(s.blocks, s.next, n, s.largest) && s.largest >= 2 && s.ring == seq(n, j => j)
    requires s.k == 0 && s.frontBlock == s.tailBlock == 0 && s.prod == Resting && s.cons == Idle && s.queue == []
    requires if n == 1 then s.largest - 1 >= s.capacity else (n - 1) * (s.largest - 1) >= s.capacity
    ensures Init(s)
  {
    MadeIsLinked(s, n);
    MadeCapacity(s, n);
  }

  lemma MadeIsLinked(s: State, n: nat)
    requires n > 0 && Made(s.blocks, s.next, n, s.largest) && s.largest >= 2 && s.ring == seq(n, j => j)
    requires s.k == 0 && s.frontBlock == s.tailBlock == 0
    ensures RingOk(s.ring, 0, s.blocks.Keys, s.next, s.frontBlock, s.tailBlock)
    ensures forall j :: 0 <= j < n ==> Empty(s.blocks[s.ring[j]]) && |s.blocks[s.ring[j]].data| == s.largest
    ensures IndicesOk(View(s.blocks, s.ring))
  {
    forall j | 0 <= j < n ensures Linked(s.ring, s.next, j) {
    }
    forall j | 0 <= j < n ensures IndexOk(s.blocks[s.ring[j]]) && Empty(s.blocks[s.ring[j]]) {
      assert s.blocks[s.ring[j]] == EmptyBlock(s.largest);
    }
  }

  lemma MadeCapacity(s: State, n: nat)
    requires n > 0 && |s.ring| == n && s.largest >= 2 && s.prod == Resting
    requires forall j :: 0 <= j < n ==> s.ring[j] in s.blocks && |s.blocks[s.ring[j]].data| == s.largest
    requires IndicesOk(View(s.blocks, s.ring))
    requires if n == 1 then s.largest - 1 >= s.capacity else (n - 1) * (s.largest - 1) >= s.capacity
    ensures CapacityOk(View(s.blocks, s.ring), s.largest, s.capacity, s.prod, s.blocks)
  {
    hide IndexOk;
    var v, room := View(s.blocks, s.ring), s.largest - 1;
    TotalSame(Rooms(v), room);
    assert n * room - room == (n - 1) * room;
  }

  // ---------------------------------------------------------------- a refusal below capacity

  /** A queue made for one element: a single block of two slots. */
  function Small(b: Block, prod: Producer, cons: Consumer, queue: seq<Item>): State {
    State(map[0 := b], map[0 := 0], 0, 0, 2, prod, cons, 1, [0], 0, queue)
  }

  lemma SmallInit()
    ensures Init(Small(Block(0, 0, 0, 0, [None, None]), Resting, Idle, []))
  {
    hide Init, Made;
    var s := Small(EmptyBlock(2), Resting, Idle, []);
    assert EmptyBlock(2).data == [None, None];
    assert Made(s.blocks, s.next, 1, 2) by {
      SmallMade(s);
    }
    assert s.ring == seq(1, j => j);
    MadeIsInit(s, 1);
  }

  lemma SmallMade(s: State)
    requires s.blocks == map[0 := EmptyBlock(2)] && s.next == map[0 := 0]
    ensures Made(s.blocks, s.next, 1, 2)
  {
  }

  lemma SmallProduces(b: Block, prod: Producer, cons: Consumer, queue: seq<Item>, b': Block, prod': Producer,
                      queue': seq<Item>)
    requires CanProduce(Small(b, prod, cons, queue), None)
    requires var s' := Produce(Small(b, prod, cons, queue), None);
             s'.blocks == map[0 := b][0 := b'] && s'.prod == prod' && s'.queue == queue' && s'.next == map[0 := 0]
             && s'.tailBlock == 0 && s'.largest == 2 && s'.ring == [0] && s'.k == 0
    ensures Next(Small(b, prod, cons, queue), Small(b', prod', cons, queue'))
  {
    hide CanConsume, Consume, CanProduce;
    var s := Small(b, prod, cons, queue);
    ProduceLeavesConsumer(s, None);
    assert map[0 := b][0 := b'] == map[0 := b'];
    assert Produce(s, None) == Small(b', prod', cons, queue') by {
      ProduceLeavesRest(s);
    }
  }

  lemma ProduceLeavesRest(s: State)
    requires CanProduce(s, None)
    ensures Produce(s, None).capacity == s.capacity && Produce(s, None).frontBlock == s.frontBlock
  {
  }

  lemma SmallConsumes(b: Block, prod: Producer, cons: Consumer, queue: seq<Item>, b': Block, cons': Consumer,
                      queue': seq<Item>)
    requires CanConsume(Small(b, prod, cons, queue))
    requires var s' := Consume(Small(b, prod, cons, queue));
             s'.blocks == map[0 := b][0 := b'] && s'.cons == cons' && s'.queue == queue'
             && s'.frontBlock == 0 && s'.ring == [0] && s'.k == 0
    ensures Next(Small(b, prod, cons, queue), Small(b', prod, cons', queue'))
  {
    hide CanConsume, CanProduce, Produce;
    var s := Small(b, prod, cons, queue);
    ConsumeLeavesProducer(s);
    assert map[0 := b][0 := b'] == map[0 := b'];
    assert Consume(s) == Small(b', prod, cons', queue') by {
      ConsumeLeavesRest(s);
    }
  }

  lemma SmallCalls(b: Block, prod: Producer, cons: Consumer, queue: seq<Item>, x: Item, m: Mode)
    ensures prod.Resting? || prod.Enqueued? ==>
              Next(Small(b, prod, cons, queue), Small(b, Begin(x, false), cons, queue))
    ensures cons.Idle? || cons.Returned? ==> Next(Small(b, prod, cons, queue), Small(b, prod, Start(m), queue))
  {
    hide CanConsume, Consume, CanProduce, Produce;
    var s := Small(b, prod, cons, queue);
    assert s.(prod := Begin(x, false)) == Small(b, Begin(x, false), cons, queue);
    assert s.(cons := Start(m)) == Small(b, prod, Start(m), queue);
  }

  /** An enqueue of x finds room */
  lemma OpenSmall(x: Item) returns (run: seq<State>)
    ensures |run| == 3 && run[0] == Small(Block(0, 0, 0, 0, [None, None]), Resting, Idle, [])
    ensures run[2] == Small(Block(0, 0, 0, 0, [None, None]), Write(x), Idle, [])
    ensures forall i :: 0 <= i < 2 ==> NextAt(run, i)
  {
    hide Next, CanConsume, Consume;
    var empty := Block(0, 0, 0, 0, [None, None]);
    run := [Small(empty, Resting, Idle, []), Small(empty, Begin(x, false), Idle, []), Small(empty, Write(x), Idle, [])];
    SmallCalls(empty, Resting, Idle, [], x, Pop);
    SmallProduces(empty, Begin(x, false), Idle, [], empty, Write(x), []);
  }

  /** and puts it in. */
  lemma FillSmall(x: Item) returns (run: seq<State>)
    ensures |run| == 3 && run[0] == Small(Block(0, 0, 0, 0, [None, None]), Write(x), Idle, [])
    ensures run[2] == Small(Block(0, 1, 0, 0, [Some(x), None]), Enqueued(true), Idle, [x])
    ensures forall i :: 0 <= i < 2 ==> NextAt(run, i)
  {
    hide Next, CanConsume, Consume;
    var empty, written, full :=
      Block(0, 0, 0, 0, [None, None]), Block(0, 0, 0, 0, [Some(x), None]), Block(0, 1, 0, 0, [Some(x), None]);
    assert empty.data[0 := Some(x)] == [Some(x), None];
    run := [Small(empty, Write(x), Idle, []), Small(written, StoreTail(x), Idle, []),
            Small(full, Enqueued(true), Idle, [x])];
    SmallProduces(empty, Write(x), Idle, [], written, StoreTail(x), []);
    SmallProduces(written, StoreTail(x), Idle, [], full, Enqueued(true), [x]);
  }

  /** The next enqueue finds the block full. */
  lemma FindSmallFull(x: Item, y: Item) returns (run: seq<State>)
    ensures |run| == 4 && run[0] == Small(Block(0, 1, 0, 0, [Some(x), None]), Enqueued(true), Idle, [x])
    ensures run[3] == Small(Block(0, 1, 0, 0, [Some(x), None]), LoadFrontBlock(y, false, 1), Idle, [x])
    ensures forall i :: 0 <= i < 3 ==> NextAt(run, i)
  {
    hide Next, CanConsume, Consume;
    var full := Block(0, 1, 0, 0, [Some(x), None]);
    run := [Small(full, Enqueued(true), Idle, [x]), Small(full, Begin(y, false), Idle, [x]),
            Small(full, LoadFront(y, false), Idle, [x]), Small(full, LoadFrontBlock(y, false, 1), Idle, [x])];
    SmallCalls(full, Enqueued(true), Idle, [x], y, Pop);
    SmallProduces(full, Begin(y, false), Idle, [x], full, LoadFront(y, false), [x]);
    SmallProduces(full, LoadFront(y, false), Idle, [x], full, LoadFrontBlock(y, false, 1), [x]);
  }

  /** The consumer finds the element before the enqueue goes on, */
  lemma FindSmall(x: Item, y: Item) returns (run: seq<State>)
    ensures |run| == 4 && run[0] == Small(Block(0, 1, 0, 0, [Some(x), None]), LoadFrontBlock(y, false, 1), Idle, [x])
    ensures run[3] == Small(Block(0, 1, 1, 0, [Some(x), None]), LoadFrontBlock(y, false, 1), Take(Pop, 0, 0), [x])
    ensures forall i :: 0 <= i < 3 ==> NextAt(run, i)
  {
    hide Next, CanProduce, Produce;
    var p := LoadFrontBlock(y, false, 1);
    var full, seen := Block(0, 1, 0, 0, [Some(x), None]), Block(0, 1, 1, 0, [Some(x), None]);
    run := [Small(full, p, Idle, [x]), Small(full, p, Start(Pop), [x]), Small(full, p, LoadTail(Pop), [x]),
            Small(seen, p, Take(Pop, 0, 0), [x])];
    SmallCalls(full, p, Idle, [x], y, Pop);
    SmallConsumes(full, p, Start(Pop), [x], full, LoadTail(Pop), [x]);
    SmallConsumes(full, p, LoadTail(Pop), [x], seen, Take(Pop, 0, 0), [x]);
  }

  /** and takes it; */
  lemma DrainSmall(x: Item, y: Item) returns (run: seq<State>)
    ensures |run| == 3
    ensures run[0] == Small(Block(0, 1, 1, 0, [Some(x), None]), LoadFrontBlock(y, false, 1), Take(Pop, 0, 0), [x])
    ensures run[2] == Small(Block(1, 1, 1, 0, [None, None]), LoadFrontBlock(y, false, 1), Returned(Pop, Some(x)), [])
    ensures forall i :: 0 <= i < 2 ==> NextAt(run, i)
  {
    hide Next, CanProduce, Produce;
    var p := LoadFrontBlock(y, false, 1);
    var seen, taken, drained :=
      Block(0, 1, 1, 0, [Some(x), None]), Block(0, 1, 1, 0, [None, None]), Block(1, 1, 1, 0, [None, None]);
    assert seen.data[0 := None] == [None, None];
    run := [Small(seen, p, Take(Pop, 0, 0), [x]), Small(taken, p, StoreFront(Pop, 0, 0, x), [x]),
            Small(drained, p, Returned(Pop, Some(x)), [])];
    SmallConsumes(seen, p, Take(Pop, 0, 0), [x], taken, StoreFront(Pop, 0, 0, x), [x]);
    SmallConsumes(taken, p, StoreFront(Pop, 0, 0, x), [x], drained, Returned(Pop, Some(x)), []);
  }

  /** the enqueue fails all the same. */
  lemma RefuseSmall(x: Item, y: Item) returns (run: seq<State>)
    ensures |run| == 2
    ensures run[0] == Small(Block(1, 1, 1, 0, [None, None]), LoadFrontBlock(y, false, 1), Returned(Pop, Some(x)), [])
    ensures run[1].prod == Enqueued(false) && NextAt(run, 0)
  {
    hide Next, CanConsume, Consume;
    var drained, c := Block(1, 1, 1, 0, [None, None]), Returned(Pop, Some(x));
    run := [Small(drained, LoadFrontBlock(y, false, 1), c, []), Small(drained, Enqueued(false), c, [])];
    SmallProduces(drained, LoadFrontBlock(y, false, 1), c, [], drained, Enqueued(false), []);
  }

  /** A run in which a queue made for one element refuses one while it is empty. */
  lemma RefusedWhileEmpty(x: Item, y: Item) returns (run: seq<State>)
    ensures Run(run) && |run| == 14 && run[12].prod.LoadFrontBlock? && run[13].prod == Enqueued(false)
    ensures run[12].queue == [] && run[12].capacity == 1
  {
    hide Next, Init;
    SmallInit();
    var start := OpenSmall(x);
    var first := FillSmall(x);
    var second := FindSmallFull(x, y);
    var third := FindSmall(x, y);
    var fourth := DrainSmall(x, y);
    var fifth := RefuseSmall(x, y);
    run := start + first[1..] + second[1..] + third[1..] + fourth[1..] + fifth[1..];
    forall i | 0 <= i < |run| - 1 ensures NextAt(run, i) {
      if i < 2 {
        assert NextAt(start, i);
      } else if i < 4 {
        assert NextAt(first, i - 2);
      } else if i < 7 {
        assert NextAt(second, i - 4);
      } else if i < 10 {
        assert NextAt(third, i - 7);
      } else if i < 12 {
        assert NextAt(fourth, i - 10);
      } else {
        assert NextAt(fifth, i - 12);
      }
    }
  }
}
