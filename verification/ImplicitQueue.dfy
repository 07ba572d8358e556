/**
  One implicit producer with any number of consumers: the ticket protocol, the block index and the blocks of memory
  together (source/utils/concurrentqueue.h:2396-2780).

  Every step is one atomic access, or one access to memory that only the acting thread may touch. enqueue is
  enqueue_bulk of one item, dequeue is dequeue_bulk of at most one. `history`, `filled`, `delivered`, `done` and
  `role` are auxiliary. A block of memory without a role belongs to the rest of the program, which may write anything
  into it at any time: that covers all other producers and the free list, as `ConcurrentQueue` proves.
*/
module ImplicitQueue {
  import opened Wrappers
  import opened Words
  import opened Blocks
  import T = Tickets
  import X = BlockIndex

  type Item = int
  type Thread = T.Thread
  type BlockId = X.BlockId

  /** MAX_SUBQUEUE_SIZE in blocks, rounded up; None when no limit is set. */
  const MAX_BLOCKS: Option<nat>

  /** Where the producer is. n is the number of the block it is allocating, k of one it is giving back. */
  datatype Producer =
    | Ready
    | LoadHead(n: nat)
    | TestSlot(n: nat)
    | StoreKey(n: nat)
    | StoreTail(n: nat)
    | Requisition(n: nat)
    | ResetCount(n: nat, id: BlockId)
    | StoreValue(n: nat, id: BlockId)
    | RewindTail(n: nat)
    | DropValue(n: nat)
    | UndoValue(k: nat)
    | UndoTail(k: nat)
    | UndoFree(j: nat)
    | Write(i: nat)
    | StoreIndex

  /** Where a consumer that has claimed indices is. g is the header it loaded, p a slot in it, i the next index. */
  datatype Consumer =
    | NoClaim
    | LoadHeader
    | LoadTail(g: nat)
    | LoadKey(g: nat, tail: nat)
    | LoadValue(g: nat, p: nat, i: nat)
    | Read(g: nat, p: nat, i: nat, id: BlockId, start: nat)
    | SetEmpty(g: nat, p: nat, i: nat, id: BlockId, start: nat)
    | StoreNull(g: nat, p: nat, i: nat, id: BlockId)
    | AddFree(g: nat, p: nat, i: nat, id: BlockId)
    | NextBlock(g: nat, p: nat, i: nat)
    | Fault

  /** What a block of memory that belongs to this producer is for. */
  datatype Role = Live(n: nat) | Retiring(n: nat, t: Thread) | Taken | Undone(j: nat) | Freed(t: Thread)

  datatype State = State(
    q: T.State,                         // the four counters, and each consumer's position in the ticket protocol
    ix: X.Index,                        // the block index
    mem: map<(BlockId, nat), Item>,     // constructed elements
    count: map<BlockId, nat>,           // elementsCompletelyDequeued
    prod: Producer,
    todo: seq<Item>,                    // the items being enqueued
    chain: seq<BlockId>,                // firstAllocatedBlock and its successors by `next`
    tailBlock: Option<BlockId>,
    con: map<Thread, Consumer>,
    history: seq<Item>,                 // all items published
    filled: seq<Item>,                  // those, and the ones constructed but not published yet
    delivered: map<nat, Item>,          // what each index was dequeued as
    done: set<nat>,                     // indices counted in elementsCompletelyDequeued
    role: map<BlockId, Role>)

  // ---------------------------------------------------------------- producer steps

  function First(s: State): nat {
    BlocksFor(s.q.sh.tail)
  }

  function Last(s: State): nat {
    BlocksFor(s.q.sh.tail + |s.todo|)
  }

  /** The room check at lines 2405 and 2566, for block n. */
  predicate Full(head: nat, n: nat) {
    || !CircularLess(Wrap(head), Wrap(Base(n) + BLOCK_SIZE))
    || (MAX_BLOCKS.Some?
        && (MAX_BLOCKS.value == 0 || Base(MAX_BLOCKS.value) - BLOCK_SIZE < Wrap(Wrap(Base(n)) - Wrap(head))))
  }

  /** Index b is less than half the index range, and no more than the limit on a queue, ahead of the head. */
  predicate Within(b: int, head: nat) {
    b < head + HALF && (MAX_BLOCKS.Some? ==> b <= head + Base(MAX_BLOCKS.value))
  }

  /** Blocks first, then elements, then the index. */
  function AfterBlocks(s: State): Producer {
    if |s.todo| > 0 then Write(s.q.sh.tail) else StoreIndex
  }

  function AfterBlock(s: State, n: nat): Producer {
    if n < Last(s) then LoadHead(n) else AfterBlocks(s)
  }

  /** The blocks allocated so far are taken out of the index one by one, then all put on the free list. */
  function GiveUp(s: State): Producer {
    if s.chain == [] then Ready else UndoValue(First(s))
  }

  /** The block element i goes to: the old tail block while it lasts, then the new ones. */
  function BlockFor(s: State, i: nat): Option<BlockId> {
    var n := BlockOf(i);
    if n < First(s) then s.tailBlock
    else if n - First(s) < |s.chain| then Some(s.chain[n - First(s)])
    else None
  }

  function EndBlock(s: State): Option<BlockId> {
    if s.chain == [] then s.tailBlock else Some(s.chain[|s.chain| - 1])
  }

  /** What the producer's next access depends on besides memory: success of an allocation. */
  datatype Luck = NoMemory | NewBlock(id: BlockId) | NewIndex(garbage: seq<Option<BlockId>>)

  ghost function Call(s: State, items: seq<Item>): State {
    var s1 := s.(todo := items, chain := []);
    s1.(prod := AfterBlock(s1, First(s1)))
  }

  /** The producer's next access is to the block index: it follows blockIndex, which must not be null. */
  predicate UsesIndex(prod: Producer) {
    prod.TestSlot? || prod.StoreKey? || prod.StoreTail? || prod.StoreValue? || prod.RewindTail? || prod.DropValue?
    || prod.UndoValue? || prod.UndoTail?
  }

  ghost predicate CanProduce(s: State, luck: Luck) {
    && (UsesIndex(s.prod) ==> X.Shape(s.ix))
    && match s.prod
    case TestSlot(_) => luck.NewIndex? ==> |luck.garbage| == s.ix.Cur().cap
    case Requisition(_) => luck.NewBlock? ==> luck.id !in s.role
    case StoreValue(_, _) => s.ix.next > 0
    case RewindTail(_) => s.ix.next > 0
    case UndoTail(_) => s.ix.next > 0
    case UndoValue(k) => UndoKey(s).Some? && First(s) <= k < First(s) + |s.chain|
    case UndoFree(j) => j < |s.chain|
    case Write(i) => s.q.sh.tail <= i < s.q.sh.tail + |s.todo| && BlockFor(s, i).Some?
    case _ => true
  }

  /** The key in the tail slot, where the producer's own lookup starts. */
  ghost function UndoKey(s: State): Option<nat>
    requires X.Shape(s.ix)
  {
    assert X.HeaderShape(s.ix, s.ix.Cur());
    s.ix.entries[s.ix.Cur().slots[s.ix.Cur().tail]].key
  }

  ghost function UndoEntry(s: State, k: nat): X.EntryId
    requires X.Shape(s.ix) && UndoKey(s).Some?
    ensures UndoEntry(s, k) < |s.ix.entries|
  {
    assert X.HeaderShape(s.ix, s.ix.Cur());
    s.ix.Cur().slots[X.LookUp(s.ix.Cur(), s.ix.Cur().tail, UndoKey(s).value, k)]
  }

  ghost function TailEntry(s: State): X.EntryId
    requires X.Shape(s.ix)
    ensures TailEntry(s) < |s.ix.entries|
  {
    assert X.HeaderShape(s.ix, s.ix.Cur());
    s.ix.Cur().slots[s.ix.Cur().tail]
  }

  ghost function NewEntry(s: State): X.EntryId
    requires X.Shape(s.ix)
    ensures NewEntry(s) < |s.ix.entries|
  {
    assert X.HeaderShape(s.ix, s.ix.Cur());
    s.ix.Cur().slots[X.NewTail(s.ix.Cur())]
  }

  ghost function Produce(s: State, luck: Luck): State
    requires CanProduce(s, luck)
  {
    match s.prod
    case Ready => s
    case LoadHead(n) => s.(prod := if Full(s.q.sh.head, n) then GiveUp(s) else TestSlot(n))
    case TestSlot(n) =>
      if X.SlotFree(s.ix.entries[NewEntry(s)]) then s.(prod := StoreKey(n))
      else if luck.NewIndex? then s.(ix := X.Grow(s.ix, luck.garbage), prod := StoreKey(n))
      else s.(prod := GiveUp(s))
    case StoreKey(n) => s.(ix := X.StoreKey(s.ix), prod := StoreTail(n))
    case StoreTail(n) => s.(ix := X.StoreTail(s.ix), prod := Requisition(n))
    case Requisition(n) =>
      if luck.NewBlock? then s.(prod := ResetCount(n, luck.id), role := s.role[luck.id := Taken])
      else s.(prod := RewindTail(n))
    case ResetCount(n, id) => s.(count := s.count[id := 0], prod := StoreValue(n, id))
    case StoreValue(n, id) =>
      s.(ix := X.StoreValue(s.ix, TailEntry(s), id), chain := s.chain + [id], role := s.role[id := Live(n)],
         prod := AfterBlock(s, n + 1))
    case RewindTail(n) => s.(ix := X.Rewind(s.ix), prod := DropValue(n))
    case DropValue(n) => s.(ix := X.DropValue(s.ix, NewEntry(s)), prod := GiveUp(s))
    case UndoValue(k) =>
      var id := s.chain[k - First(s)];
      s.(ix := X.ClearValue(s.ix, UndoEntry(s, k), k), role := s.role[id := Undone(k - First(s))], prod := UndoTail(k))
    case UndoTail(k) =>
      s.(ix := X.Rewind(s.ix), prod := if k + 1 < First(s) + |s.chain| then UndoValue(k + 1) else UndoFree(0))
    case UndoFree(j) =>
      s.(role := s.role - {s.chain[j]}, prod := if j + 1 < |s.chain| then UndoFree(j + 1) else Ready)
    case Write(i) =>
      var item := s.todo[i - s.q.sh.tail];
      s.(mem := s.mem[(BlockFor(s, i).value, Offset(i)) := item], filled := s.filled + [item],
         prod := if i + 1 < s.q.sh.tail + |s.todo| then Write(i + 1) else StoreIndex)
    case StoreIndex =>
      s.(q := T.Publish(s.q, |s.todo|), history := s.filled, tailBlock := EndBlock(s), prod := Ready)
  }

  // ---------------------------------------------------------------- consumer steps

  /** A step of the ticket protocol; the one that moves headIndex starts the delivery. */
  ghost function Ticket(s: State, t: Thread): State
    requires t in s.q.pc
  {
    s.(q := T.Step(s.q, t), con := if s.q.pc[t].AddHead? then s.con[t := LoadHeader] else s.con)
  }

  ghost predicate CanConsume(s: State, t: Thread) {
    && X.Shape(s.ix)
    && t in s.con && t in s.q.pc && s.q.pc[t].Claimed?
    && match s.con[t]
    case NoClaim => false
    case Fault => false
    case LoadHeader => true
    case LoadTail(g) => g < |s.ix.headers|
    case LoadKey(g, tail) => g < |s.ix.headers| && tail < s.ix.headers[g].cap
    case LoadValue(g, p, i) => g < |s.ix.headers| && p < s.ix.headers[g].cap
    case Read(g, p, i, id, start) => g < |s.ix.headers|
    case SetEmpty(g, p, i, id, start) => g < |s.ix.headers| && start < i
    case StoreNull(g, p, i, id) => g < |s.ix.headers| && p < s.ix.headers[g].cap && i > 0
    case AddFree(g, p, i, id) => true
    case NextBlock(g, p, i) => g < |s.ix.headers|
  }

  function End(s: State, t: Thread): nat
    requires t in s.q.pc && s.q.pc[t].Claimed?
  {
    s.q.pc[t].first + s.q.pc[t].got
  }

  ghost function Consume(s: State, t: Thread): State
    requires CanConsume(s, t)
  {
    match s.con[t]
    case LoadHeader => s.(con := s.con[t := LoadTail(|s.ix.headers| - 1)])
    case LoadTail(g) => s.(con := s.con[t := LoadKey(g, s.ix.headers[g].tail)])
    case LoadKey(g, tail) =>
      assert X.HeaderShape(s.ix, s.ix.headers[g]);
      var h, first := s.ix.headers[g], s.q.pc[t].first;
      var k := s.ix.entries[h.slots[tail]].key;
      s.(con := s.con[t := if k.Some? then LoadValue(g, X.LookUp(h, tail, k.value, BlockOf(first)), first) else Fault])
    case LoadValue(g, p, i) =>
      assert X.HeaderShape(s.ix, s.ix.headers[g]);
      var v := s.ix.entries[s.ix.headers[g].slots[p]].value;
      s.(con := s.con[t := if v.Some? then Read(g, p, i, v.value, i) else Fault])
    case Read(g, p, i, id, start) =>
      if (id, Offset(i)) !in s.mem then s.(con := s.con[t := Fault])
      else
        s.(delivered := s.delivered[i := s.mem[(id, Offset(i))]], mem := s.mem - {(id, Offset(i))},
           con := s.con[t :=
             if i + 1 < End(s, t) && BlockOf(i + 1) == BlockOf(start) then Read(g, p, i + 1, id, start)
             else SetEmpty(g, p, i + 1, id, start)])
    case SetEmpty(g, p, i, id, start) =>
      var before := if id in s.count then s.count[id] else 0;
      var s1 := s.(count := s.count[id := before + (i - start)], done := s.done + T.Range(start, i));
      if before + (i - start) == BLOCK_SIZE then
        s1.(con := s.con[t := StoreNull(g, p, i, id)], role := s.role[id := Retiring(BlockOf(start), t)])
      else s1.(con := s.con[t := NextBlock(g, p, i)])
    case StoreNull(g, p, i, id) =>
      assert X.HeaderShape(s.ix, s.ix.headers[g]);
      s.(ix := X.ClearValue(s.ix, s.ix.headers[g].slots[p], BlockOf(i - 1)), role := s.role[id := Freed(t)],
         con := s.con[t := AddFree(g, p, i, id)])
    case AddFree(g, p, i, id) => s.(role := s.role - {id}, con := s.con[t := NextBlock(g, p, i)])
    case NextBlock(g, p, i) =>
      assert X.HeaderShape(s.ix, s.ix.headers[g]);
      if i < End(s, t) then s.(con := s.con[t := LoadValue(g, (p + 1) % s.ix.headers[g].cap, i)])
      else s.(con := s.con[t := NoClaim], q := T.Step(s.q, t))
  }

  // ---------------------------------------------------------------- runs

  ghost predicate Init(s: State) {
    && T.Init(s.q) && (X.InitIndex(s.ix) || s.ix == X.NO_INDEX)
    && s.prod == Ready && s.chain == [] && s.tailBlock == None
    && s.con.Keys == s.q.pc.Keys && (forall t :: t in s.con ==> s.con[t] == NoClaim)
    && s.history == [] && s.filled == [] && s.delivered == map[] && s.done == {} && s.role == map[]
  }

  /** The rest of the program writes into blocks that are not this producer's. */
  ghost predicate Elsewhere(s: State, s': State) {
    && s' == s.(mem := s'.mem, count := s'.count)
    && (forall id, o: nat :: id in s.role ==> ((id, o) in s'.mem <==> (id, o) in s.mem))
    && (forall id, o: nat :: id in s.role && (id, o) in s.mem && (id, o) in s'.mem ==> s'.mem[(id, o)] == s.mem[(id, o)])
    && (forall id :: id in s.role ==> (id in s'.count <==> id in s.count))
    && (forall id :: id in s.role && id in s.count && id in s'.count ==> s'.count[id] == s.count[id])
  }

  ghost predicate Next(s: State, s': State) {
    || (exists items :: s.prod == Ready && s' == Call(s, items))
    || (exists luck :: s.prod != Ready && CanProduce(s, luck) && s' == Produce(s, luck))
    || (exists t, max: nat :: t in s.q.pc && s.q.pc[t] == T.Idle && max > 0 && s' == s.(q := T.Call(s.q, t, max)))
    || (exists t :: t in s.q.pc && !s.q.pc[t].Claimed? && s' == Ticket(s, t))
    || (exists t :: CanConsume(s, t) && s' == Consume(s, t))
    || Elsewhere(s, s')
  }

  ghost predicate NextAt(run: seq<State>, i: nat)
    requires i + 1 < |run|
  {
    Next(run[i], run[i + 1])
  }

  ghost predicate Run(run: seq<State>) {
    && |run| > 0 && Init(run[0])
    && (forall i :: 0 <= i < |run| - 1 ==> NextAt(run, i))
    && (forall i :: 0 <= i < |run| ==> T.Timely(run[i].q))
  }

  // ---------------------------------------------------------------- invariant

  /** Published items are never forgotten or reordered; what was dequeued at an index is what was enqueued there. */
  ghost predicate HistoryOk(tail: nat, head: nat, history: seq<Item>, delivered: map<nat, Item>, done: set<nat>) {
    && |history| == tail
    && (forall i :: i in delivered ==> i < head && i < |history| && delivered[i] == history[i])
    && (forall i :: i in done ==> i in delivered)
  }

  /** An element that was not dequeued is in the memory of a block that the index still has. */
  ghost predicate StoredOk(live: map<nat, BlockId>, mem: map<(BlockId, nat), Item>, filled: seq<Item>,
                           delivered: map<nat, Item>, done: set<nat>) {
    && (forall i :: 0 <= i < |filled| && i !in done ==> BlockOf(i) in live)
    && (forall i :: 0 <= i < |filled| && i !in delivered ==> Stored(live, mem, filled, i))
  }

  ghost predicate Stored(live: map<nat, BlockId>, mem: map<(BlockId, nat), Item>, filled: seq<Item>, i: nat)
    requires i < |filled|
  {
    && BlockOf(i) in live
    && (live[BlockOf(i)], Offset(i)) in mem && mem[(live[BlockOf(i)], Offset(i))] == filled[i]
  }

  /** The indices of block n that are dequeued completely. */
  ghost function DoneIn(done: set<nat>, n: nat): set<nat> {
    set i | i in done && BlockOf(i) == n
  }

  /** The counter of a live block counts its completed dequeues, and reaches BLOCK_SIZE when the block is retired. */
  ghost predicate BlockOk(n: nat, id: BlockId, count: map<BlockId, nat>, done: set<nat>, role: map<BlockId, Role>) {
    && id in role && id in count && count[id] == |DoneIn(done, n)| <= BLOCK_SIZE
    && (role[id] == Live(n) || (role[id].Retiring? && role[id].n == n))
    && (role[id].Retiring? <==> count[id] == BLOCK_SIZE)
  }

  ghost predicate BlocksOk(live: map<nat, BlockId>, count: map<BlockId, nat>, done: set<nat>, role: map<BlockId, Role>) {
    forall n :: n in live ==> BlockOk(n, live[n], count, done, role)
  }

  /** Every block of memory with a role is really put to that use. */
  ghost predicate RoleOk(id: BlockId, role: Role, live: map<nat, BlockId>, prod: Producer, chain: seq<BlockId>,
                         con: map<Thread, Consumer>) {
    match role
    case Live(n) => n in live && live[n] == id
    case Retiring(n, t) => n in live && live[n] == id && t in con && con[t].StoreNull? && con[t].id == id
    case Taken => (prod.ResetCount? || prod.StoreValue?) && prod.id == id
    case Undone(j) => j < |chain| && chain[j] == id && (prod.UndoValue? || prod.UndoTail? || (prod.UndoFree? && prod.j <= j))
    case Freed(t) => t in con && con[t].AddFree? && con[t].id == id
  }

  ghost predicate RolesOk(role: map<BlockId, Role>, live: map<nat, BlockId>, prod: Producer, chain: seq<BlockId>,
                          con: map<Thread, Consumer>) {
    forall id :: id in role ==> RoleOk(id, role[id], live, prod, chain, con)
  }

  /** The first index a consumer has not taken, and the first it has not counted as completed. */
  function Cursor(c: Consumer, first: nat): nat {
    match c
    case LoadValue(_, _, i) => i
    case Read(_, _, i, _, _) => i
    case SetEmpty(_, _, i, _, _) => i
    case StoreNull(_, _, i, _) => i
    case AddFree(_, _, i, _) => i
    case NextBlock(_, _, i) => i
    case _ => first
  }

  function Pending(c: Consumer, first: nat): nat {
    match c
    case Read(_, _, _, _, start) => start
    case SetEmpty(_, _, _, _, start) => start
    case _ => Cursor(c, first)
  }

  /** The header a consumer works with has the entries of all its blocks. */
  ghost predicate HeaderFits(ix: X.Index, g: nat, a: nat, end: nat)
    requires X.Shape(ix)
  {
    g < |ix.headers| && forall k: nat :: a <= k < end ==> X.Has(ix, ix.headers[g], BlockOf(k))
  }

  ghost predicate ClaimOk(c: Consumer, first: nat, end: nat, delivered: map<nat, Item>, done: set<nat>) {
    && first <= Pending(c, first) <= Cursor(c, first) <= end
    && (forall k :: Cursor(c, first) <= k < end ==> k !in delivered)
    && (forall k :: Pending(c, first) <= k < end ==> k !in done)
    && (forall k :: first <= k < Cursor(c, first) ==> k in delivered)
  }

  ghost predicate PlaceOk(c: Consumer, t: Thread, first: nat, end: nat, ix: X.Index, role: map<BlockId, Role>)
    requires X.Shape(ix)
  {
    match c
    case NoClaim => false
    case Fault => false
    case LoadHeader => true
    case LoadTail(g) => HeaderFits(ix, g, first, end)
    case LoadKey(g, tail) =>
      && HeaderFits(ix, g, first, end) && KeyIn(ix, g, tail)
    case LoadValue(g, p, i) =>
      && HeaderFits(ix, g, i, end) && i < end && SlotOf(ix, g, p, i)
    case Read(g, p, i, id, start) =>
      && HeaderFits(ix, g, start, end) && i < end && BlockOf(i) == BlockOf(start) && SlotOf(ix, g, p, start)
      && BlockOf(start) in ix.live && ix.live[BlockOf(start)] == id
    case SetEmpty(g, p, i, id, start) =>
      && HeaderFits(ix, g, start, end) && start < i && BlockOf(i - 1) == BlockOf(start) && SlotOf(ix, g, p, start)
      && BlockOf(start) in ix.live && ix.live[BlockOf(start)] == id
      && (i < end ==> BlockOf(i) == BlockOf(start) + 1)
    case StoreNull(g, p, i, id) =>
      && HeaderFits(ix, g, i, end) && i > 0 && SlotOf(ix, g, p, i - 1)
      && X.Has(ix, ix.headers[g], BlockOf(i - 1))
      && id in role && role[id] == Retiring(BlockOf(i - 1), t)
      && (i < end ==> BlockOf(i) == BlockOf(i - 1) + 1)
    case AddFree(g, p, i, id) =>
      && HeaderFits(ix, g, i, end) && i > 0 && SlotOf(ix, g, p, i - 1)
      && id in role && role[id] == Freed(t)
      && (i < end ==> BlockOf(i) == BlockOf(i - 1) + 1)
    case NextBlock(g, p, i) =>
      && HeaderFits(ix, g, i, end) && i > 0 && SlotOf(ix, g, p, i - 1)
      && (i < end ==> BlockOf(i) == BlockOf(i - 1) + 1)
  }

  ghost predicate KeyIn(ix: X.Index, g: nat, tail: nat)
    requires X.Shape(ix)
  {
    g < |ix.headers| && tail < ix.headers[g].cap && tail < |ix.headers[g].slots|
    && ix.headers[g].slots[tail] < |ix.entries| && ix.entries[ix.headers[g].slots[tail]].key.Some?
  }

  ghost predicate SlotOf(ix: X.Index, g: nat, p: nat, i: nat)
    requires X.Shape(ix)
  {
    g < |ix.headers| && ix.headers[g].cap > 0 && p == X.Slot(ix.headers[g], BlockOf(i))
  }

  ghost predicate ConsumerOk(c: Consumer, t: Thread, pc: T.Pc, ix: X.Index, delivered: map<nat, Item>, done: set<nat>,
                             role: map<BlockId, Role>)
    requires X.Shape(ix)
  {
    if pc.Claimed? then
      && ClaimOk(c, pc.first, pc.first + pc.got, delivered, done)
      && PlaceOk(c, t, pc.first, pc.first + pc.got, ix, role)
    else c == NoClaim
  }

  ghost predicate ConsumersOk(con: map<Thread, Consumer>, pcs: map<Thread, T.Pc>, ix: X.Index, delivered: map<nat, Item>,
                              done: set<nat>, role: map<BlockId, Role>)
    requires X.Shape(ix)
  {
    && con.Keys == pcs.Keys
    && forall t :: t in con ==> ConsumerOk(con[t], t, pcs[t], ix, delivered, done, role)
  }

  /** Every claimed index is dequeued completely or pending at some consumer. */
  ghost predicate Covered(i: nat, con: map<Thread, Consumer>, pcs: map<Thread, T.Pc>, done: set<nat>) {
    i in done || exists t :: Holds(t, i, con, pcs)
  }

  ghost predicate Holds(t: Thread, i: nat, con: map<Thread, Consumer>, pcs: map<Thread, T.Pc>) {
    t in con && t in pcs && pcs[t].Claimed? && Pending(con[t], pcs[t].first) <= i < pcs[t].first + pcs[t].got
  }

  ghost predicate CoverOk(head: nat, con: map<Thread, Consumer>, pcs: map<Thread, T.Pc>, done: set<nat>) {
    forall i :: 0 <= i < head ==> Covered(i, con, pcs, done)
  }

  // ---------------------------------------------------------------- invariant of the producer

  /** Blocks f .. f + |chain| from position a on are the new blocks, in the index. */
  ghost predicate ChainLive(live: map<nat, BlockId>, chain: seq<BlockId>, f: nat, a: nat) {
    forall j :: a <= j < |chain| ==> InChain(live, chain, f, j)
  }

  ghost predicate InChain(live: map<nat, BlockId>, chain: seq<BlockId>, f: nat, j: nat)
    requires j < |chain|
  {
    f + j in live && live[f + j] == chain[j]
  }

  ghost predicate ChainUndone(role: map<BlockId, Role>, chain: seq<BlockId>, a: nat, b: nat) {
    forall j :: a <= j < b && j < |chain| ==> chain[j] in role && role[chain[j]] == Undone(j)
  }

  ghost predicate LiveBelow(live: map<nat, BlockId>, n: nat) {
    forall m :: m in live ==> m < n
  }

  /** The index while block n is being inserted: n is the next block, or just inserted, with or without a value. */
  ghost predicate Inserting(ix: X.Index, chain: seq<BlockId>, f: nat, l: nat, n: nat, next: nat, raw: Option<nat>) {
    f <= n < l && |chain| == n - f && ix.next == next && ix.raw == raw && ChainLive(ix.live, chain, f, 0) && LiveBelow(ix.live, n)
  }

  ghost predicate Undoing(ix: X.Index, chain: seq<BlockId>, role: map<BlockId, Role>, f: nat, k: nat, a: nat) {
    && f <= k < f + |chain| && ix.raw == None && ix.next == f + |chain| - (k - f)
    && ChainLive(ix.live, chain, f, a) && ChainUndone(role, chain, 0, a)
    && (forall m :: m in ix.live ==> m < f || f + a <= m < f + |chain|)
  }

  ghost predicate Allocated(ix: X.Index, chain: seq<BlockId>, f: nat, l: nat) {
    f <= l && |chain| == l - f && ix.next == l && ix.raw == None && ChainLive(ix.live, chain, f, 0) && LiveBelow(ix.live, l)
  }

  ghost predicate NextSlotFree(ix: X.Index)
    requires X.Shape(ix)
  {
    var p := X.NewTail(ix.Cur());
    p < |ix.Cur().slots| && ix.Cur().slots[p] < |ix.entries| && X.SlotFree(ix.entries[ix.Cur().slots[p]])
  }

  ghost predicate ProducingOk(prod: Producer, tail: nat, size: nat, ix: X.Index, chain: seq<BlockId>,
                              count: map<BlockId, nat>, role: map<BlockId, Role>)
    requires X.Shape(ix)
  {
    var f, l := BlocksFor(tail), BlocksFor(tail + size);
    match prod
    case Ready => ix.next == f && ix.raw == None && LiveBelow(ix.live, f)
    case LoadHead(n) => Inserting(ix, chain, f, l, n, n, None)
    case TestSlot(n) => Inserting(ix, chain, f, l, n, n, None)
    case StoreKey(n) => Inserting(ix, chain, f, l, n, n, None) && NextSlotFree(ix)
    case StoreTail(n) => Inserting(ix, chain, f, l, n, n, Some(n))
    case Requisition(n) => Inserting(ix, chain, f, l, n, n + 1, Some(n))
    case ResetCount(n, id) => Inserting(ix, chain, f, l, n, n + 1, Some(n)) && id in role && role[id] == Taken
    case StoreValue(n, id) =>
      && Inserting(ix, chain, f, l, n, n + 1, Some(n)) && id in role && role[id] == Taken
      && id in count && count[id] == 0
    case RewindTail(n) => Inserting(ix, chain, f, l, n, n + 1, Some(n))
    case DropValue(n) => Inserting(ix, chain, f, l, n, n, Some(n))
    case UndoValue(k) => k >= f && Undoing(ix, chain, role, f, k, k - f)
    case UndoTail(k) => k >= f && Undoing(ix, chain, role, f, k, k - f + 1)
    case UndoFree(j) =>
      j < |chain| && ix.next == f && ix.raw == None && LiveBelow(ix.live, f) && ChainUndone(role, chain, j, |chain|)
    case Write(i) => tail <= i < tail + size && Allocated(ix, chain, f, l)
    case StoreIndex => Allocated(ix, chain, f, l)
  }

  /** While the last block is not full, the index has it and tailBlock points to it. */
  ghost predicate TailOk(tail: nat, live: map<nat, BlockId>, tailBlock: Option<BlockId>) {
    var f := BlocksFor(tail);
    tail < Base(f) ==> f > 0 && f - 1 in live && tailBlock == Some(live[f - 1])
  }

  ghost predicate FilledOk(prod: Producer, tail: nat, todo: seq<Item>, history: seq<Item>, filled: seq<Item>) {
    match prod
    case Write(i) => tail <= i < tail + |todo| && filled == history + todo[..i - tail]
    case StoreIndex => filled == history + todo
    case _ => filled == history
  }

  /** The blocks a call may fill stay within reach of the head. */
  ghost predicate RoomOk(prod: Producer, tail: nat, head: nat, chain: seq<BlockId>) {
    && Within(Base(BlocksFor(tail)), head)
    && ((prod.Write? || prod.StoreIndex? || prod.LoadHead?) ==> Within(Base(BlocksFor(tail) + |chain|), head))
    && (Allocating(prod) ==> Within(Base(BlocksFor(tail) + |chain| + 1), head))
  }

  predicate Allocating(prod: Producer) {
    prod.TestSlot? || prod.StoreKey? || prod.StoreTail? || prod.Requisition? || prod.ResetCount? || prod.StoreValue?
  }

  ghost predicate ProducerOk(s: State)
    requires X.Shape(s.ix)
  {
    && s.ix.lo <= BlocksFor(s.q.sh.tail) <= s.ix.next
    && ProducingOk(s.prod, s.q.sh.tail, |s.todo|, s.ix, s.chain, s.count, s.role)
    && TailOk(s.q.sh.tail, s.ix.live, s.tailBlock)
    && FilledOk(s.prod, s.q.sh.tail, s.todo, s.history, s.filled)
    && RoomOk(s.prod, s.q.sh.tail, s.q.sh.head, s.chain)
  }

  ghost predicate Inv(s: State) {
    && T.Inv(s.q) && X.Inv(s.ix)
    && HistoryOk(s.q.sh.tail, s.q.sh.head, s.history, s.delivered, s.done)
    && StoredOk(s.ix.live, s.mem, s.filled, s.delivered, s.done)
    && BlocksOk(s.ix.live, s.count, s.done, s.role)
    && RolesOk(s.role, s.ix.live, s.prod, s.chain, s.con)
    && ProducerOk(s)
    && ConsumersOk(s.con, s.q.pc, s.ix, s.delivered, s.done, s.role)
    && CoverOk(s.q.sh.head, s.con, s.q.pc, s.done)
  }
}
