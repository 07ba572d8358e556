/**
  Both queues are wait-free: however the other threads interleave, a call ends after a bounded number of its own accesses
  (source/utils/concurrentqueue.h:2532-2780, source/utils/readerwriterqueue.h:201-524). Taking a block from the pool or
  the free list is one access here.
*/
module WaitFree {
  import opened Blocks
  import opened Wrappers
  import T = Tickets
  import X = BlockIndex
  import Q = ImplicitQueue
  import ImplicitCalls
  import ImplicitConsumers
  import ImplicitOrder
  import ImplicitProducers
  import ImplicitRuns
  import R = Spsc
  import SpscCalls
  import SpscRuns

  // ---------------------------------------------------------------- enqueue

  /**
    How many accesses the producer needs at most to the end of its call, which needs the blocks f .. l, has allocated
    `chain` of them, and enqueues size items from tail on.
  */
  function Accesses(p: Q.Producer, f: int, l: int, chain: int, tail: int, size: int): int {
    match p
    case Ready => 0
    case LoadHead(n) => 10 * (l - n) + 3 * chain + size + 3
    case TestSlot(n) => 10 * (l - n) + 3 * chain + size + 2
    case StoreKey(n) => 10 * (l - n) + 3 * chain + size + 1
    case StoreTail(n) => 10 * (l - n) + 3 * chain + size
    case Requisition(n) => 10 * (l - n) + 3 * chain + size - 1
    case ResetCount(n, _) => 10 * (l - n) + 3 * chain + size - 2
    case StoreValue(n, _) => 10 * (l - n) + 3 * chain + size - 3
    case RewindTail(_) => 3 * chain + 2
    case DropValue(_) => 3 * chain + 1
    case UndoValue(k) => 2 * (f + chain - k) + chain
    case UndoTail(k) => 2 * (f + chain - k) + chain - 1
    case UndoFree(j) => chain - j
    case Write(i) => tail + size - i + 1
    case StoreIndex => 1
  }

  function Left(s: Q.State): int {
    Accesses(s.prod, Q.First(s), Q.Last(s), |s.chain|, s.q.sh.tail, |s.todo|)
  }

  /** The producer is at a block, a position of its chain or an item that its call has. */
  ghost predicate Within(p: Q.Producer, f: nat, l: nat, chain: nat, tail: nat, size: nat) {
    match p
    case LoadHead(n) => n < l
    case TestSlot(n) => n < l
    case StoreKey(n) => n < l
    case StoreTail(n) => n < l
    case Requisition(n) => n < l
    case ResetCount(n, _) => n < l
    case StoreValue(n, _) => n < l
    case UndoValue(k) => f <= k < f + chain
    case UndoTail(k) => f <= k < f + chain
    case UndoFree(j) => j < chain
    case Write(i) => tail <= i < tail + size
    case _ => true
  }

  ghost predicate InPlace(s: Q.State) {
    Within(s.prod, Q.First(s), Q.Last(s), |s.chain|, s.q.sh.tail, |s.todo|)
  }

  lemma InvInPlace(s: Q.State)
    requires Q.Inv(s)
    ensures InPlace(s)
  {
    hide Q.Inv, X.Shape, X.Inv, BlocksFor, Q.ChainLive, Q.LiveBelow, Q.NextSlotFree, Q.ChainUndone, Q.TailOk, Q.RoomOk, Q.FilledOk;
    ImplicitProducers.InvProducer(s);
  }

  lemma AlwaysInPlace(run: seq<Q.State>, i: nat)
    requires Q.Run(run) && i < |run|
    ensures InPlace(run[i])
  {
    hide Q.Inv, Q.Run, Within, BlocksFor;
    ImplicitRuns.RunHasInv(run, i);
    InvInPlace(ImplicitRuns.Indexed(run[i]));
  }

  /** What the producer is doing, but for its place. */
  ghost predicate SameCall(s: Q.State, s': Q.State) {
    s'.prod == s.prod && s'.todo == s.todo && s'.chain == s.chain && s'.q.sh.tail == s.q.sh.tail
  }

  lemma GiveUpLeft(s: Q.State)
    ensures
      var f, l, c, tail, size := Q.First(s), Q.Last(s), |s.chain|, s.q.sh.tail, |s.todo|;
      0 <= Accesses(Q.GiveUp(s), f, l, c, tail, size) <= 3 * c
  {
    hide BlocksFor;
  }

  lemma AfterBlockLeft(s: Q.State, n: nat)
    ensures
      var f, l, c, tail, size := Q.First(s), Q.Last(s), |s.chain|, s.q.sh.tail, |s.todo|;
      0 <= Accesses(Q.AfterBlock(s, n), f, l, c, tail, size) <= (if n < l then 10 * (l - n) else 0) + 3 * c + size + 3
  {
    hide BlocksFor;
  }

  lemma AllocateNears(s: Q.State, luck: Q.Luck)
    requires Q.CanProduce(s, luck) && InPlace(s) && (s.prod.LoadHead? || s.prod.TestSlot? || s.prod.Requisition?)
    ensures var s' := Q.Produce(s, luck); 0 <= Left(s') < Left(s)
  {
    hide X.Shape, Q.Full, BlocksFor, X.SlotFree, X.Grow, Q.GiveUp, Q.NewEntry;
    GiveUpLeft(s);
  }

  lemma InsertNears(s: Q.State, luck: Q.Luck)
    requires Q.CanProduce(s, luck) && InPlace(s) && (s.prod.StoreKey? || s.prod.StoreTail? || s.prod.ResetCount?)
    ensures var s' := Q.Produce(s, luck); 0 <= Left(s') < Left(s)
  {
    hide X.Shape, BlocksFor, X.StoreKey, X.StoreTail;
  }

  lemma StoreNears(s: Q.State, luck: Q.Luck)
    requires Q.CanProduce(s, luck) && InPlace(s) && s.prod.StoreValue?
    ensures var s' := Q.Produce(s, luck); 0 <= Left(s') < Left(s)
  {
    hide X.Shape, BlocksFor, X.StoreValue, Q.AfterBlock, Q.TailEntry;
    var s' := Q.Produce(s, luck);
    ImplicitCalls.AfterBlockIs(s, s', s.prod.n + 1);
    AfterBlockLeft(s', s.prod.n + 1);
  }

  lemma RevertNears(s: Q.State, luck: Q.Luck)
    requires Q.CanProduce(s, luck) && InPlace(s)
    requires s.prod.RewindTail? || s.prod.DropValue? || s.prod.UndoValue? || s.prod.UndoTail? || s.prod.UndoFree?
    ensures var s' := Q.Produce(s, luck); 0 <= Left(s') < Left(s)
  {
    hide X.Shape, BlocksFor, X.Rewind, X.DropValue, X.ClearValue, Q.NewEntry, Q.UndoEntry, Q.UndoKey, Q.GiveUp;
    GiveUpLeft(s);
  }

  lemma WriteNears(s: Q.State, luck: Q.Luck)
    requires Q.CanProduce(s, luck) && InPlace(s) && (s.prod.Write? || s.prod.StoreIndex?)
    ensures var s' := Q.Produce(s, luck); 0 <= Left(s') < Left(s)
  {
    hide X.Shape, BlocksFor, Q.BlockFor, Q.EndBlock, Offset;
  }

  lemma ProduceNears(s: Q.State, luck: Q.Luck)
    requires Q.CanProduce(s, luck) && InPlace(s) && s.prod != Q.Ready
    ensures var s' := Q.Produce(s, luck); 0 <= Left(s') < Left(s)
  {
    hide Q.CanProduce, Q.Produce, InPlace, Left;
    match s.prod
    case LoadHead(_) => AllocateNears(s, luck);
    case TestSlot(_) => AllocateNears(s, luck);
    case Requisition(_) => AllocateNears(s, luck);
    case StoreKey(_) => InsertNears(s, luck);
    case StoreTail(_) => InsertNears(s, luck);
    case ResetCount(_, _) => InsertNears(s, luck);
    case StoreValue(_, _) => StoreNears(s, luck);
    case Write(_) => WriteNears(s, luck);
    case StoreIndex => WriteNears(s, luck);
    case _ => RevertNears(s, luck);
  }

  // ---------------------------------------------------------------- who moves whom

  /** A step of consumer t moves nobody else. */
  ghost predicate OnlyConsumer(s: Q.State, s': Q.State, t: Q.Thread) {
    && SameCall(s, s') && t in s.con && t in s'.con && t in s.q.pc && t in s'.q.pc
    && s'.con == s.con[t := s'.con[t]] && s'.q.pc == s.q.pc[t := s'.q.pc[t]]
  }

  ghost predicate SamePlace(s: Q.State, s': Q.State, t: Q.Thread) {
    t in s.con && t in s.q.pc && t in s'.con && t in s'.q.pc && s'.con[t] == s.con[t] && s'.q.pc[t] == s.q.pc[t]
  }

  lemma TicketKeepsTail(q: T.State, t: T.Thread)
    requires t in q.pc
    ensures T.Step(q, t).sh.tail == q.sh.tail && T.Step(q, t).pc == q.pc[t := T.Step(q, t).pc[t]]
  {
    hide T.Granted, T.Room, T.Range;
  }

  lemma ReadIsOwn(s: Q.State, t: Q.Thread)
    requires Q.CanConsume(s, t) && s.con[t].Read?
    ensures OnlyConsumer(s, Q.Consume(s, t), t)
  {
    hide X.Shape, BlockOf, Offset, T.Range, X.HeaderShape, T.Step;
    TicketKeepsTail(s.q, t);
  }

  lemma CountIsOwn(s: Q.State, t: Q.Thread)
    requires Q.CanConsume(s, t) && s.con[t].SetEmpty?
    ensures OnlyConsumer(s, Q.Consume(s, t), t)
  {
    hide X.Shape, BlockOf, Offset, T.Range, X.HeaderShape, T.Step;
    TicketKeepsTail(s.q, t);
  }

  lemma LeaveIsOwn(s: Q.State, t: Q.Thread)
    requires Q.CanConsume(s, t) && (s.con[t].AddFree? || s.con[t].NextBlock?)
    ensures OnlyConsumer(s, Q.Consume(s, t), t)
  {
    hide X.Shape, BlockOf, Offset, T.Range, X.HeaderShape, T.Step;
    TicketKeepsTail(s.q, t);
  }

  lemma LookUpIsOwn(s: Q.State, t: Q.Thread)
    requires Q.CanConsume(s, t)
    requires s.con[t].LoadHeader? || s.con[t].LoadTail? || s.con[t].LoadKey? || s.con[t].LoadValue? || s.con[t].StoreNull?
    ensures OnlyConsumer(s, Q.Consume(s, t), t)
  {
    hide X.Shape, BlockOf, X.LookUp, X.HeaderShape, X.ClearValue;
  }

  lemma ConsumeIsOwn(s: Q.State, t: Q.Thread)
    requires Q.CanConsume(s, t)
    ensures OnlyConsumer(s, Q.Consume(s, t), t)
  {
    hide Q.CanConsume, Q.Consume, OnlyConsumer;
    ImplicitCalls.ConsumerPlaces(s, t);
    if s.con[t].Read? {
      ReadIsOwn(s, t);
    } else if s.con[t].SetEmpty? {
      CountIsOwn(s, t);
    } else if s.con[t].AddFree? || s.con[t].NextBlock? {
      LeaveIsOwn(s, t);
    } else {
      LookUpIsOwn(s, t);
    }
  }

  /** The other steps: a call of dequeue, an access of the ticket protocol, or one of the rest of the program. */
  lemma RestIsOwn(s: Q.State, s': Q.State)
    requires
      || (exists t, max: nat :: t in s.q.pc && s.q.pc[t] == T.Idle && max > 0 && s' == s.(q := T.Call(s.q, t, max)))
      || (exists t :: t in s.q.pc && !s.q.pc[t].Claimed? && s' == Q.Ticket(s, t))
      || Q.Elsewhere(s, s')
    ensures SameCall(s, s')
    ensures forall u :: u in s.con && u in s.q.pc && s.q.pc[u] != T.Idle ==>
              SamePlace(s, s', u) || (!s.q.pc[u].Claimed? && s' == Q.Ticket(s, u))
  {
    hide T.Step;
    if t :| t in s.q.pc && !s.q.pc[t].Claimed? && s' == Q.Ticket(s, t) {
      TicketKeepsTail(s.q, t);
    }
  }

  /** A step that is not the producer's leaves its call where it is. */
  lemma OthersLeaveProducer(s: Q.State, s': Q.State)
    requires Q.Next(s, s') && s.prod != Q.Ready
    ensures SameCall(s, s') || exists luck :: Q.CanProduce(s, luck) && s' == Q.Produce(s, luck)
  {
    hide Q.CanProduce, Q.Produce, Q.CanConsume, Q.Consume, Q.Ticket, Q.Elsewhere, Q.Call, T.Call;
    if t :| Q.CanConsume(s, t) && s' == Q.Consume(s, t) {
      ConsumeIsOwn(s, t);
    } else if luck :| Q.CanProduce(s, luck) && s' == Q.Produce(s, luck) {
    } else {
      RestIsOwn(s, s');
    }
  }

  lemma NextNears(s: Q.State, s': Q.State)
    requires Q.Next(s, s') && s.prod != Q.Ready && InPlace(s)
    ensures (0 <= Left(s) ==> 0 <= Left(s') <= Left(s)) && (s'.prod != s.prod ==> Left(s') < Left(s))
  {
    hide Q.Next, Q.CanProduce, Q.Produce, InPlace, Left;
    OthersLeaveProducer(s, s');
    if luck :| Q.CanProduce(s, luck) && s' == Q.Produce(s, luck) {
      ProduceNears(s, luck);
    } else {
      SameLeft(s, s');
    }
  }

  lemma SameLeft(s: Q.State, s': Q.State)
    requires SameCall(s, s')
    ensures Left(s') == Left(s)
  {
    hide BlocksFor, Accesses;
  }

  // ---------------------------------------------------------------- the bound for an enqueue

  /** How many accesses the producer makes from run[i] to run[j]. */
  function ProducerMoves(run: seq<Q.State>, i: nat, j: nat): nat
    requires i <= j < |run|
    decreases j
  {
    if i == j then 0 else ProducerMoves(run, i, j - 1) + if run[j].prod == run[j - 1].prod then 0 else 1
  }

  lemma CallLeft(s: Q.State, items: seq<Q.Item>)
    ensures
      var s' := Q.Call(s, items);
      0 <= Left(s') <= 10 * (BlocksFor(s.q.sh.tail + |items|) - BlocksFor(s.q.sh.tail)) + |items| + 3
  {
    hide BlocksFor;
    BlocksForOrder(s.q.sh.tail, s.q.sh.tail + |items|);
    AfterBlockLeft(s.(todo := items, chain := []), Q.First(s));
  }

  lemma {:induction false} EnqueueSoFar(run: seq<Q.State>, i: nat, j: nat, items: seq<Q.Item>)
    requires Q.Run(run) && ImplicitCalls.Calls(run, i, items) && ImplicitCalls.OneCall(run, i, j)
    ensures 0 <= Left(run[j]) && ProducerMoves(run, i + 1, j) + Left(run[j]) <= Left(run[i + 1])
  {
    hide Q.Run, Q.Next, Left, Q.Call, InPlace;
    if j == i + 1 {
      CallLeft(run[i], items);
    } else {
      EnqueueSoFar(run, i, j - 1, items);
      ImplicitOrder.RunSteps(run, j - 1);
      AlwaysInPlace(run, j - 1);
      NextNears(run[j - 1], run[j]);
    }
  }

  /**
    An enqueue ends after at most ten accesses of its own for each block it needs, one for each item and three more,
    whatever the consumers do and whether it succeeds or has to give its blocks back.
  */
  lemma EnqueueIsWaitFree(run: seq<Q.State>, i: nat, j: nat, items: seq<Q.Item>)
    requires Q.Run(run) && ImplicitCalls.Calls(run, i, items) && ImplicitCalls.OneCall(run, i, j)
    ensures ProducerMoves(run, i + 1, j)
            <= 10 * (BlocksFor(run[i].q.sh.tail + |items|) - BlocksFor(run[i].q.sh.tail)) + |items| + 3
  {
    hide Q.Run, Left, Q.Call, BlocksFor;
    EnqueueSoFar(run, i, j, items);
    CallLeft(run[i], items);
  }

  // ---------------------------------------------------------------- dequeue

  /** How many accesses a consumer with a claim of got indices up to end needs at most to its return. */
  function ClaimAccesses(c: Q.Consumer, end: int, got: int): int {
    match c
    case LoadHeader => 6 * got + 3
    case LoadTail(_) => 6 * got + 2
    case LoadKey(_, _) => 6 * got + 1
    case LoadValue(_, _, i) => 6 * (end - i)
    case Read(_, _, i, _, _) => 6 * (end - i) - 1
    case SetEmpty(_, _, i, _, _) => 6 * (end - i) + 4
    case StoreNull(_, _, i, _) => 6 * (end - i) + 3
    case AddFree(_, _, i, _) => 6 * (end - i) + 2
    case NextBlock(_, _, i) => 6 * (end - i) + 1
    case _ => 0
  }

  /** And one that is still in the ticket protocol. */
  function DequeueAccesses(pc: T.Pc, c: Q.Consumer): int {
    match pc
    case Idle => 0
    case LoadTail(max) => 6 * max + 10
    case LoadOver(max, _) => 6 * max + 9
    case LoadCount(max, _, _, _) => 6 * max + 8
    case AddCount(want, _, _) => 6 * want + 7
    case ReloadTail(want, _, _, _) => 6 * want + 6
    case AddOver(_, got, _) => 6 * got + 5
    case AddHead(_, got) => 6 * got + 4
    case Claimed(first, got) => ClaimAccesses(c, first + got, got)
  }

  /** The consumer has an index of its claim in hand, or has just finished with one. */
  ghost predicate InClaim(c: Q.Consumer, end: nat) {
    match c
    case LoadValue(_, _, i) => i < end
    case Read(_, _, i, _, _) => i < end
    case SetEmpty(_, _, i, _, _) => i <= end
    case StoreNull(_, _, i, _) => i <= end
    case AddFree(_, _, i, _) => i <= end
    case NextBlock(_, _, i) => i <= end
    case _ => true
  }

  ghost predicate Sound(s: Q.State, t: Q.Thread) {
    && t in s.con && t in s.q.pc
    && (s.q.pc[t].Claimed? ==> InClaim(s.con[t], s.q.pc[t].first + s.q.pc[t].got))
  }

  function DequeueLeft(s: Q.State, t: Q.Thread): int
    requires t in s.con && t in s.q.pc
  {
    DequeueAccesses(s.q.pc[t], s.con[t])
  }

  lemma ClaimIsSound(c: Q.Consumer, t: Q.Thread, pc: T.Pc, ix: X.Index, delivered: map<nat, Q.Item>, done: set<nat>,
                     role: map<Q.BlockId, Q.Role>)
    requires X.Shape(ix) && Q.ConsumerOk(c, t, pc, ix, delivered, done, role) && pc.Claimed?
    ensures InClaim(c, pc.first + pc.got)
  {
    hide X.Shape, X.Has, BlockOf, Q.HeaderFits, Q.SlotOf, Q.KeyIn;
  }

  lemma AlwaysSound(run: seq<Q.State>, i: nat, t: Q.Thread)
    requires Q.Run(run) && i < |run| && t in run[i].con
    ensures Sound(run[i], t)
  {
    hide Q.Inv, Q.Run, X.Shape, Q.ConsumerOk, InClaim;
    ImplicitRuns.RunHasInv(run, i);
    var s := ImplicitRuns.Indexed(run[i]);
    ImplicitConsumers.InvParts(s, t);
    if s.q.pc[t].Claimed? {
      ClaimIsSound(s.con[t], t, s.q.pc[t], s.ix, s.delivered, s.done, s.role);
    }
  }

  /** An access of the ticket protocol brings a dequeue nearer its end. */
  lemma TicketNears(s: Q.State, t: Q.Thread)
    requires t in s.con && t in s.q.pc && !s.q.pc[t].Claimed? && s.q.pc[t] != T.Idle
    ensures var s' := Q.Ticket(s, t); t in s'.con && t in s'.q.pc && 0 <= DequeueLeft(s', t) < DequeueLeft(s, t)
  {
    hide T.Room, T.Range;
  }

  lemma LookUpNears(s: Q.State, t: Q.Thread)
    requires Q.CanConsume(s, t) && Sound(s, t)
    requires s.con[t].LoadHeader? || s.con[t].LoadTail? || s.con[t].LoadKey? || s.con[t].LoadValue? || s.con[t].StoreNull?
    ensures var s' := Q.Consume(s, t); t in s'.con && t in s'.q.pc && 0 <= DequeueLeft(s', t) < DequeueLeft(s, t)
  {
    hide X.Shape, BlockOf, X.LookUp, X.HeaderShape, X.ClearValue;
  }

  lemma ReadNears(s: Q.State, t: Q.Thread)
    requires Q.CanConsume(s, t) && Sound(s, t) && s.con[t].Read?
    ensures var s' := Q.Consume(s, t); t in s'.con && t in s'.q.pc && 0 <= DequeueLeft(s', t) < DequeueLeft(s, t)
  {
    hide X.Shape, BlockOf, Offset, T.Range, X.HeaderShape, T.Step;
  }

  lemma CountNears(s: Q.State, t: Q.Thread)
    requires Q.CanConsume(s, t) && Sound(s, t) && s.con[t].SetEmpty?
    ensures var s' := Q.Consume(s, t); t in s'.con && t in s'.q.pc && 0 <= DequeueLeft(s', t) < DequeueLeft(s, t)
  {
    hide X.Shape, BlockOf, Offset, T.Range, X.HeaderShape, T.Step;
  }

  lemma LeaveNears(s: Q.State, t: Q.Thread)
    requires Q.CanConsume(s, t) && Sound(s, t) && s.con[t].AddFree?
    ensures var s' := Q.Consume(s, t); t in s'.con && t in s'.q.pc && 0 <= DequeueLeft(s', t) < DequeueLeft(s, t)
  {
    hide X.Shape, BlockOf, Offset, T.Range, X.HeaderShape, T.Step;
  }

  lemma NextBlockNears(s: Q.State, t: Q.Thread)
    requires Q.CanConsume(s, t) && Sound(s, t) && s.con[t].NextBlock?
    ensures var s' := Q.Consume(s, t); t in s'.con && t in s'.q.pc && 0 <= DequeueLeft(s', t) < DequeueLeft(s, t)
  {
    hide X.Shape, BlockOf, Offset, T.Range, X.HeaderShape, T.Room, T.Granted;
  }

  /** So does every access of a consumer with a claim, to its last. */
  lemma ConsumeNears(s: Q.State, t: Q.Thread)
    requires Q.CanConsume(s, t) && Sound(s, t)
    ensures var s' := Q.Consume(s, t); t in s'.con && t in s'.q.pc && 0 <= DequeueLeft(s', t) < DequeueLeft(s, t)
  {
    hide Q.CanConsume, Q.Consume, Sound, DequeueLeft;
    ImplicitCalls.ConsumerPlaces(s, t);
    if s.con[t].Read? {
      ReadNears(s, t);
    } else if s.con[t].SetEmpty? {
      CountNears(s, t);
    } else if s.con[t].AddFree? {
      LeaveNears(s, t);
    } else if s.con[t].NextBlock? {
      NextBlockNears(s, t);
    } else {
      LookUpNears(s, t);
    }
  }

  ghost predicate SameConsumers(s: Q.State, s': Q.State) {
    s'.con == s.con && s'.q.pc == s.q.pc
  }

  lemma AllocateIsOwn(s: Q.State, luck: Q.Luck)
    requires Q.CanProduce(s, luck)
    requires s.prod.LoadHead? || s.prod.TestSlot? || s.prod.StoreKey? || s.prod.StoreTail?
    ensures SameConsumers(s, Q.Produce(s, luck))
  {
    hide X.Shape, BlocksFor, X.StoreKey, X.StoreTail, X.StoreValue, X.Rewind, X.DropValue, X.ClearValue, X.Grow, X.SlotFree,
      Q.NewEntry, Q.UndoEntry, Q.UndoKey, Q.TailEntry, Q.GiveUp, Q.AfterBlock, Q.BlockFor, Q.EndBlock, Q.Full, Offset;
  }

  lemma InsertIsOwn(s: Q.State, luck: Q.Luck)
    requires Q.CanProduce(s, luck)
    requires s.prod.Requisition? || s.prod.ResetCount? || s.prod.StoreValue?
    ensures SameConsumers(s, Q.Produce(s, luck))
  {
    hide X.Shape, BlocksFor, X.StoreKey, X.StoreTail, X.StoreValue, X.Rewind, X.DropValue, X.ClearValue, X.Grow, X.SlotFree,
      Q.NewEntry, Q.UndoEntry, Q.UndoKey, Q.TailEntry, Q.GiveUp, Q.AfterBlock, Q.BlockFor, Q.EndBlock, Q.Full, Offset;
  }

  lemma RevertIsOwn(s: Q.State, luck: Q.Luck)
    requires Q.CanProduce(s, luck)
    requires s.prod.RewindTail? || s.prod.DropValue? || s.prod.UndoValue? || s.prod.UndoTail? || s.prod.UndoFree?
    ensures SameConsumers(s, Q.Produce(s, luck))
  {
    hide X.Shape, BlocksFor, X.StoreKey, X.StoreTail, X.StoreValue, X.Rewind, X.DropValue, X.ClearValue, X.Grow, X.SlotFree,
      Q.NewEntry, Q.UndoEntry, Q.UndoKey, Q.TailEntry, Q.GiveUp, Q.AfterBlock, Q.BlockFor, Q.EndBlock, Q.Full, Offset;
  }

  lemma WriteIsOwn(s: Q.State, luck: Q.Luck)
    requires Q.CanProduce(s, luck)
    requires s.prod.Ready? || s.prod.Write? || s.prod.StoreIndex?
    ensures SameConsumers(s, Q.Produce(s, luck))
  {
    hide X.Shape, BlocksFor, X.StoreKey, X.StoreTail, X.StoreValue, X.Rewind, X.DropValue, X.ClearValue, X.Grow, X.SlotFree,
      Q.NewEntry, Q.UndoEntry, Q.UndoKey, Q.TailEntry, Q.GiveUp, Q.AfterBlock, Q.BlockFor, Q.EndBlock, Q.Full, Offset;
  }

  lemma ProduceIsOwn(s: Q.State, luck: Q.Luck)
    requires Q.CanProduce(s, luck)
    ensures SameConsumers(s, Q.Produce(s, luck))
  {
    hide Q.CanProduce, Q.Produce, SameConsumers;
    match s.prod
    case LoadHead(_) => AllocateIsOwn(s, luck);
    case TestSlot(_) => AllocateIsOwn(s, luck);
    case StoreKey(_) => AllocateIsOwn(s, luck);
    case StoreTail(_) => AllocateIsOwn(s, luck);
    case Requisition(_) => InsertIsOwn(s, luck);
    case ResetCount(_, _) => InsertIsOwn(s, luck);
    case StoreValue(_, _) => InsertIsOwn(s, luck);
    case Ready => WriteIsOwn(s, luck);
    case Write(_) => WriteIsOwn(s, luck);
    case StoreIndex => WriteIsOwn(s, luck);
    case _ => RevertIsOwn(s, luck);
  }

  /** While a dequeue of thread t is in progress, only its own steps move it. */
  lemma OthersLeaveConsumer(s: Q.State, s': Q.State, t: Q.Thread)
    requires Q.Next(s, s') && t in s.con && t in s.q.pc && s.q.pc[t] != T.Idle
    ensures
      || SamePlace(s, s', t) || (Q.CanConsume(s, t) && s' == Q.Consume(s, t))
      || (!s.q.pc[t].Claimed? && s' == Q.Ticket(s, t))
  {
    hide Q.CanProduce, Q.Produce, Q.CanConsume, Q.Consume, Q.Ticket, Q.Elsewhere, Q.Call, T.Call;
    if u :| Q.CanConsume(s, u) && s' == Q.Consume(s, u) {
      ConsumeIsOwn(s, u);
    } else if luck :| s.prod != Q.Ready && Q.CanProduce(s, luck) && s' == Q.Produce(s, luck) {
      ProduceIsOwn(s, luck);
    } else if items :| s.prod == Q.Ready && s' == Q.Call(s, items) {
      CallIsOwn(s, items);
    } else {
      RestIsOwn(s, s');
    }
  }

  lemma CallIsOwn(s: Q.State, items: seq<Q.Item>)
    ensures var s' := Q.Call(s, items); s'.con == s.con && s'.q.pc == s.q.pc
  {
    hide BlocksFor;
  }

  lemma DequeueNears(s: Q.State, s': Q.State, t: Q.Thread)
    requires Q.Next(s, s') && Sound(s, t) && s.q.pc[t] != T.Idle
    ensures t in s'.con && t in s'.q.pc
    ensures SamePlace(s, s', t) || 0 <= DequeueLeft(s', t) < DequeueLeft(s, t)
  {
    hide Q.Next, Q.CanConsume, Q.Consume, T.Step, InClaim;
    OthersLeaveConsumer(s, s', t);
    if SamePlace(s, s', t) {
    } else if Q.CanConsume(s, t) && s' == Q.Consume(s, t) {
      ConsumeNears(s, t);
    } else {
      TicketNears(s, t);
    }
  }

  // ---------------------------------------------------------------- the bound for a dequeue

  /** In the step from run[i] thread t calls a dequeue of at most max items; it does not return before run[j]. */
  ghost predicate Dequeues(run: seq<Q.State>, i: nat, j: nat, t: Q.Thread, max: nat) {
    && i < j < |run| && t in run[i].con && t in run[i].q.pc && run[i].q.pc[t] == T.Idle
    && run[i + 1] == run[i].(q := T.Call(run[i].q, t, max))
    && forall g :: i < g < j ==> t in run[g].con && t in run[g].q.pc && run[g].q.pc[t] != T.Idle
  }

  /** How many accesses thread t makes from run[i] to run[j]. */
  ghost function DequeueMoves(run: seq<Q.State>, i: nat, j: nat, t: Q.Thread): nat
    requires i <= j < |run|
    decreases j
  {
    if i == j then 0 else DequeueMoves(run, i, j - 1, t) + if SamePlace(run[j - 1], run[j], t) then 0 else 1
  }

  lemma {:induction false} DequeueSoFar(run: seq<Q.State>, i: nat, j: nat, t: Q.Thread, max: nat)
    requires Q.Run(run) && Dequeues(run, i, j, t, max)
    ensures t in run[j].con && t in run[j].q.pc
    ensures 0 <= DequeueLeft(run[j], t) && DequeueMoves(run, i + 1, j, t) + DequeueLeft(run[j], t) <= 6 * max + 10
  {
    hide Q.Run, Q.Next, Sound;
    if j > i + 1 {
      DequeueSoFar(run, i, j - 1, t, max);
      ImplicitOrder.RunSteps(run, j - 1);
      AlwaysSound(run, j - 1, t);
      DequeueNears(run[j - 1], run[j], t);
    }
  }

  /**
    A dequeue of at most max items ends after at most six accesses of its own for each and ten more, whatever the
    producer and the other consumers do: losing a race, retiring blocks and putting them on the free list included.
  */
  lemma DequeueIsWaitFree(run: seq<Q.State>, i: nat, j: nat, t: Q.Thread, max: nat)
    requires Q.Run(run) && Dequeues(run, i, j, t, max)
    ensures DequeueMoves(run, i + 1, j, t) <= 6 * max + 10
  {
    hide Q.Run, Dequeues, SamePlace, DequeueAccesses;
    DequeueSoFar(run, i, j, t, max);
  }

  // ---------------------------------------------------------------- the queue of one producer and one consumer

  /** How many accesses the consumer needs at most to the end of its call. */
  function TakerLeft(c: R.Consumer): nat {
    match c
    case Start(_) => 9
    case LoadTail(_) => 8
    case LoadTailBlock(_, _) => 7
    case Recheck(_) => 6
    case LoadNext(_) => 5
    case LoadNextTail(_, _) => 4
    case Advance(_, _, _) => 3
    case Take(_, _, _) => 2
    case StoreFront(_, _, _, _) => 1
    case _ => 0
  }

  /** And the producer. */
  function GiverLeft(p: R.Producer): nat {
    match p
    case Begin(_, _) => 7
    case LoadFront(_, _) => 6
    case LoadFrontBlock(_, _, _) => 5
    case LoadNextFront(_) => 4
    case WriteNext(_, _) => 3
    case StoreNextTail(_, _) => 2
    case StoreTailBlock(_, _) => 1
    case Allocate(_) => 3
    case LinkNew(_, _) => 2
    case Write(_) => 2
    case StoreTail(_) => 1
    case _ => 0
  }

  lemma TakerNears(s: R.State)
    requires R.CanConsume(s)
    ensures TakerLeft(R.Consume(s).cons) < TakerLeft(s.cons)
  {
  }

  lemma GiverNears(s: R.State, luck: Option<R.Id>)
    requires R.CanProduce(s, luck)
    ensures GiverLeft(R.Produce(s, luck).prod) < GiverLeft(s.prod)
  {
  }

  /** In a step each of the two threads is brought nearer its end or left where it is, while it is in a call. */
  lemma BothNear(s: R.State, s': R.State)
    requires R.Next(s, s')
    ensures SpscCalls.Consuming(s.cons) ==> s'.cons == s.cons || TakerLeft(s'.cons) < TakerLeft(s.cons)
    ensures SpscCalls.Producing(s.prod) ==> s'.prod == s.prod || GiverLeft(s'.prod) < GiverLeft(s.prod)
  {
    hide R.CanConsume, R.Consume, R.CanProduce, R.Produce, TakerLeft, GiverLeft;
    if R.CanConsume(s) && s' == R.Consume(s) {
      SpscRuns.ConsumeLeavesProducer(s);
      TakerNears(s);
    } else if luck :| R.CanProduce(s, luck) && s' == R.Produce(s, luck) {
      SpscRuns.ProduceLeavesConsumer(s, luck);
      GiverNears(s, luck);
    }
  }

  function TakerMoves(run: seq<R.State>, i: nat, j: nat): nat
    requires i <= j < |run|
    decreases j
  {
    if i == j then 0 else TakerMoves(run, i, j - 1) + if run[j].cons == run[j - 1].cons then 0 else 1
  }

  function GiverMoves(run: seq<R.State>, i: nat, j: nat): nat
    requires i <= j < |run|
    decreases j
  {
    if i == j then 0 else GiverMoves(run, i, j - 1) + if run[j].prod == run[j - 1].prod then 0 else 1
  }

  lemma {:induction false} TakeSoFar(run: seq<R.State>, i: nat, j: nat)
    requires R.Run(run) && i <= j < |run| && forall g :: i <= g < j ==> SpscCalls.Consuming(run[g].cons)
    ensures TakerMoves(run, i, j) + TakerLeft(run[j].cons) <= TakerLeft(run[i].cons)
  {
    hide R.Run, R.Next, TakerLeft;
    if i < j {
      TakeSoFar(run, i, j - 1);
      SpscRuns.RunSteps(run, j - 1);
      BothNear(run[j - 1], run[j]);
    }
  }

  lemma {:induction false} GiveSoFar(run: seq<R.State>, i: nat, j: nat)
    requires R.Run(run) && i <= j < |run| && forall g :: i <= g < j ==> SpscCalls.Producing(run[g].prod)
    ensures GiverMoves(run, i, j) + GiverLeft(run[j].prod) <= GiverLeft(run[i].prod)
  {
    hide R.Run, R.Next, GiverLeft;
    if i < j {
      GiveSoFar(run, i, j - 1);
      SpscRuns.RunSteps(run, j - 1);
      BothNear(run[j - 1], run[j]);
    }
  }

  /** A try_dequeue, peek or pop ends after at most nine accesses of its own, an enqueue or try_enqueue after seven. */
  lemma BothAreWaitFree(run: seq<R.State>, i: nat, j: nat)
    requires R.Run(run) && i <= j < |run|
    ensures run[i].cons.Start? && (forall g :: i <= g < j ==> SpscCalls.Consuming(run[g].cons)) ==> TakerMoves(run, i, j) <= 9
    ensures run[i].prod.Begin? && (forall g :: i <= g < j ==> SpscCalls.Producing(run[g].prod)) ==> GiverMoves(run, i, j) <= 7
  {
    hide R.Run, TakerMoves, GiverMoves;
    if run[i].cons.Start? && forall g :: i <= g < j ==> SpscCalls.Consuming(run[g].cons) {
      TakeSoFar(run, i, j);
    }
    if run[i].prod.Begin? && forall g :: i <= g < j ==> SpscCalls.Producing(run[g].prod) {
      GiveSoFar(run, i, j);
    }
  }
}
