/** What every run of the whole queue guarantees: it is a run of each part, and no two have the same block. */
module ConcurrentRuns {
  import opened Blocks
  import opened Footprint
  import F = FreeList
  import FreeListLaws
  import FreeListSteps
  import Q = ImplicitQueue
  import ImplicitCalls
  import ImplicitConsumers
  import ImplicitBlocks
  import ImplicitOrder
  import ImplicitRuns
  import T = Tickets
  import X = BlockIndex
  import opened ConcurrentQueue
  import opened ConcurrentMoves

  // ---------------------------------------------------------------- runs of the parts

  lemma {:induction false} QueuesStay(run: seq<State>, i: nat, j: nat)
    requires Run(run) && i <= j < |run|
    ensures |run[i].queues| <= |run[j].queues|
  {
    hide Run, Inv, Next, Timely;
    if i < j {
      QueuesStay(run, i, j - 1);
      RunSteps(run, j - 1);
      StepStays(run[j - 1], run[j]);
    }
  }

  lemma StepStays(s: State, s': State)
    requires OneStep(s, s')
    ensures |s.queues| <= |s'.queues|
  {
    hide Q.Next, Q.Elsewhere;
  }

  /** Producer p comes into being at run[k]. */
  ghost predicate Begins(run: seq<State>, k: nat, p: nat) {
    k < |run| && p < |run[k].queues| && (k > 0 ==> |run[k - 1].queues| <= p)
  }

  lemma {:induction false} BeginsSometime(run: seq<State>, i: nat, p: nat) returns (k: nat)
    requires Run(run) && i < |run| && p < |run[i].queues|
    ensures k <= i && Begins(run, k, p)
  {
    if i > 0 && p < |run[i - 1].queues| {
      k := BeginsSometime(run, i - 1, p);
    } else {
      k := i;
    }
  }

  lemma BeginsAfresh(s: State, m: Move, p: nat)
    requires CanDo(s, m) && |s.queues| <= p < |Do(s, m).queues|
    ensures Q.Init(At(Do(s, m), p))
  {
    hide Q.CanProduce, Q.CanConsume, Q.Produce, Q.Consume, Q.Ticket, Q.Call, F.Step, FreeListLaws.InTryGet, Q.Init, Taking;
    assert m.NewProducer? && p == |s.queues|;
    NewIsSound(m.q, s.mem, s.count);
    assert At(Do(s, m), p) == m.q.(mem := s.mem, count := s.count);
  }

  lemma BeginsInit(run: seq<State>, k: nat, p: nat)
    requires Run(run) && Begins(run, k, p)
    ensures Q.Init(At(run[k], p))
  {
    hide Do, CanDo, Timely, Q.Init;
    assert k > 0;
    assert NextAt(run, k - 1);
    var m :| CanDo(run[k - 1], m) && run[k] == Do(run[k - 1], m);
    BeginsAfresh(run[k - 1], m, p);
  }

  ghost predicate Lives(run: seq<State>, k: nat, p: nat) {
    k < |run| && forall j :: k <= j < |run| ==> p < |run[j].queues|
  }

  /** What happens to producer p and its consumers from run[k] on. */
  ghost function Life(run: seq<State>, k: nat, p: nat): (life: seq<Q.State>)
    requires Lives(run, k, p)
    ensures |life| == |run| - k && forall i :: 0 <= i < |life| ==> life[i] == At(run[k + i], p)
  {
    seq(|run| - k, i requires 0 <= i < |run| - k => At(run[k + i], p))
  }

  /** Seen from each of its producers, a run of the whole is a run of ImplicitQueue. */
  lemma QueueRuns(run: seq<State>, i: nat, p: nat) returns (k: nat)
    requires Run(run) && i < |run| && p < |run[i].queues|
    ensures k <= i && Begins(run, k, p) && Lives(run, k, p) && Q.Run(Life(run, k, p))
    ensures Life(run, k, p)[i - k] == At(run[i], p)
  {
    hide Run, Q.Next, Q.Init, Inv, Next, T.Timely;
    k := BeginsSometime(run, i, p);
    forall j | k <= j < |run| ensures p < |run[j].queues| {
      QueuesStay(run, k, j);
    }
    BeginsInit(run, k, p);
    var life := Life(run, k, p);
    forall j | 0 <= j < |life| - 1 ensures Q.NextAt(life, j) {
      RunSteps(run, k + j);
      OneNext(run[k + j], run[k + j + 1], p);
    }
    forall j | 0 <= j < |life| ensures T.Timely(life[j].q) {
      RunTimely(run, k + j);
    }
  }

  lemma OneNext(s: State, s': State, p: nat)
    requires OneStep(s, s') && p < |s.queues|
    ensures p < |s'.queues| && Q.Next(At(s, p), At(s', p))
  {
    hide Q.Next, Q.Elsewhere;
  }

  lemma RunTimely(run: seq<State>, i: nat)
    requires Run(run) && i < |run|
    ensures Timely(run[i])
  {
    hide Timely;
  }

  /** And seen from the free list it is one of FreeList. */
  lemma FreeListRuns(run: seq<State>)
    requires Run(run)
    ensures F.Run(Frees(run))
  {
    hide Do, CanDo, Timely, F.Next, Inv;
    forall i | 0 <= i < |run| - 1 ensures F.NextAt(Frees(run), i) {
      RunSteps(run, i);
      var m :| CanDo(run[i], m) && run[i + 1] == Do(run[i], m);
      FreeNext(run[i], m);
    }
  }

  function Frees(run: seq<State>): (frees: seq<F.State>)
    ensures |frees| == |run| && forall i :: 0 <= i < |run| ==> frees[i] == run[i].free
  {
    seq(|run|, i requires 0 <= i < |run| => run[i].free)
  }

  lemma IdleRests(f: F.State, t: Thread)
    requires t in f.pc && f.pc[t] == F.Idle
    ensures F.Next(f, f) && F.Next(f, F.CallTryGet(f, t))
  {
    assert F.Step(f, t) == f;
  }

  lemma StepIsNext(f: F.State, t: Thread)
    requires t in f.pc
    ensures F.Next(f, F.Step(f, t))
  {
    hide F.Step;
  }

  lemma AddIsNext(f: F.State, t: Thread, n: F.Node)
    requires t in f.pc && f.pc[t] == F.Idle && f.Place(n) == F.Out
    ensures F.Next(f, F.CallAdd(f, t, n))
  {
    hide F.Step;
  }

  lemma FreeNext(s: State, m: Move)
    requires Inv(s) && Timely(s) && CanDo(s, m)
    ensures F.Next(s.free, Do(s, m).free)
  {
    hide F.Next, Inv, Timely, Q.CanProduce, Q.CanConsume, Q.Produce, Q.Consume, Q.Ticket, Q.Call, F.Step, FreeListLaws.InTryGet, Q.Init,
      Taking, F.CallAdd, F.CallTryGet;
    match m
    case GiveBack(p) =>
      GiveBackKeeps(s, m);
      AddIsNext(s.free, s.owner[p], s.queues[p].chain[s.queues[p].prod.j]);
    case Release(_, _) => ReleaseNext(s, m);
    case SearchList(p) => StepIsNext(s.free, s.owner[p]);
    case AddToList(t) => StepIsNext(s.free, t);
    case _ => IdleRests(s.free, Actor(s, m));
  }

  lemma ReleaseNext(s: State, m: Move)
    requires Inv(s) && Timely(s) && CanDo(s, m) && m.Release?
    ensures F.Next(s.free, Do(s, m).free)
  {
    hide F.Next, Inv, Timely, Q.Consume, F.CallAdd, X.Shape;
    ReleaseKeeps(s, m);
    AddIsNext(s.free, m.t, s.queues[m.p].con[m.t].id);
  }

  function Actor(s: State, m: Move): Thread
    requires Shape(s) && !m.AddToList?
    requires !m.NewProducer? ==> m.p < |s.queues|
  {
    if m.NewProducer? || m.Dequeue? || m.Ticket? || m.Consume? || m.Release? then m.t else s.owner[m.p]
  }

  // ---------------------------------------------------------------- who has which block, in every run

  /**
    In every run each block issued so far is either in use by exactly one producer or in the hands of the free list,
    never both and never lost; a block not issued yet is nowhere.
  */
  lemma BlocksArePartitioned(run: seq<State>, i: nat, id: BlockId)
    requires Run(run) && i < |run|
    ensures Issued(run[i], id) <==> InUse(run[i], id) || run[i].free.Place(id) != F.Out
    ensures !(InUse(run[i], id) && run[i].free.Place(id) != F.Out)
    ensures forall p, r :: Holds(run[i], p, id) && Holds(run[i], r, id) ==> p == r
  {
    hide Run, F.Inv, QueuesOk, ThreadsOk, Issued;
    RunHasInv(run, i);
  }

  /** Producer p uses the block and nobody else does, the free list included. */
  ghost predicate OnlyUser(s: State, p: nat, id: BlockId) {
    (forall r :: Holds(s, r, id) <==> r == p) && s.free.Place(id) == F.Out && id !in s.free.list
  }

  /** Producer p gets a block in the step from s to s'. */
  predicate Obtains(s: State, s': State, p: nat) {
    && p < |s.queues| && s.queues[p].prod.Requisition?
    && p < |s'.queues| && s'.queues[p].prod.ResetCount?
  }

  lemma ObtainsUnused(s: State, m: Move, p: nat)
    requires Inv(s) && Timely(s) && CanDo(s, m) && Obtains(s, Do(s, m), p)
    ensures !InUse(s, Do(s, m).queues[p].prod.id) && Holds(Do(s, m), p, Do(s, m).queues[p].prod.id)
  {
    hide Inv, Timely, Do, CanDo, InUse, Holds;
    match m
    case DrawBlock(_) => DrawObtains(s, m, p);
    case CreateBlock(_, _) => CreateObtains(s, m, p);
    case SearchList(_) => SearchObtains(s, m, p);
    case _ => OthersObtainNothing(s, m, p);
  }

  lemma DrawObtains(s: State, m: Move, p: nat)
    requires Inv(s) && Timely(s) && CanDo(s, m) && m.DrawBlock? && Obtains(s, Do(s, m), p)
    ensures !InUse(s, Do(s, m).queues[p].prod.id) && Holds(Do(s, m), p, Do(s, m).queues[p].prod.id)
  {
    hide Inv, Timely, InUse, FreeListLaws.InTryGet, Q.Init;
    DrawBlockKeeps(s, m);
  }

  lemma CreateObtains(s: State, m: Move, p: nat)
    requires Inv(s) && Timely(s) && CanDo(s, m) && m.CreateBlock? && Obtains(s, Do(s, m), p)
    ensures !InUse(s, Do(s, m).queues[p].prod.id) && Holds(Do(s, m), p, Do(s, m).queues[p].prod.id)
  {
    hide Inv, Timely, InUse, FreeListLaws.InTryGet, Q.Init, Q.Produce;
    CreateBlockKeeps(s, m);
    NoMemoryGivesNone(At(s, m.p));
  }

  lemma SearchObtains(s: State, m: Move, p: nat)
    requires Inv(s) && Timely(s) && CanDo(s, m) && m.SearchList? && Obtains(s, Do(s, m), p)
    ensures !InUse(s, Do(s, m).queues[p].prod.id) && Holds(Do(s, m), p, Do(s, m).queues[p].prod.id)
  {
    hide Inv, Timely, InUse, FreeListLaws.InTryGet, Q.Init, F.Step;
    SearchListKeeps(s, m);
  }

  lemma NoMemoryGivesNone(q: Q.State)
    requires q.prod.Requisition?
    ensures Q.CanProduce(q, Q.NoMemory) && !Q.Produce(q, Q.NoMemory).prod.ResetCount?
  {
  }

  lemma OthersObtainNothing(s: State, m: Move, p: nat)
    requires Inv(s) && CanDo(s, m) && p < |s.queues| && s.queues[p].prod.Requisition?
    requires !m.DrawBlock? && !m.CreateBlock? && !m.SearchList?
    ensures p < |Do(s, m).queues| && Do(s, m).queues[p].prod == s.queues[p].prod
  {
    hide Inv, Q.CanProduce, Q.Produce, Q.CanConsume, Q.Consume, F.Step, FreeListLaws.InTryGet, F.CallAdd, F.CallTryGet, Q.Init, Q.Call,
      T.Step;
    if (m.Consume? || m.Release?) && m.p == p {
      ConsumerLeavesProducer(s, m);
    }
  }

  lemma ConsumerLeavesProducer(s: State, m: Move)
    requires Inv(s) && CanDo(s, m) && (m.Consume? || m.Release?)
    ensures Q.CanConsume(At(s, m.p), m.t) && Q.Consume(At(s, m.p), m.t).prod == s.queues[m.p].prod
  {
    hide Inv, Q.Consume, ImplicitRuns.Sound;
    InvParts(s, m.p);
    SoundConsume(At(s, m.p), m.t);
  }

  /**
    A block requisitioned from the pool, the free list or the allocator is in use by no producer before, so that no item
    of any producer is in it, and afterwards by the one that got it alone; it is on no free list then.
  */
  lemma RequisitionIsExclusive(run: seq<State>, i: nat, p: nat)
    requires Run(run) && i + 1 < |run| && Obtains(run[i], run[i + 1], p)
    ensures
      var id := run[i + 1].queues[p].prod.id;
      !InUse(run[i], id) && OnlyUser(run[i + 1], p, id)
  {
    hide Run, Inv, Timely, Do, CanDo, InUse, Holds;
    RunSteps(run, i);
    var m :| CanDo(run[i], m) && run[i + 1] == Do(run[i], m);
    ObtainsUnused(run[i], m, p);
    RunHasInv(run, i + 1);
    HeldAlone(run[i + 1], p, run[i + 1].queues[p].prod.id);
  }

  lemma HeldAlone(s: State, p: nat, id: BlockId)
    requires Inv(s) && Holds(s, p, id)
    ensures OnlyUser(s, p, id)
  {
    hide QueuesOk, ThreadsOk, Issued;
  }

  /** The unread item at index k of producer p is in block id, which p uses and nobody else, the free list included. */
  ghost predicate Safe(s: State, p: nat, k: nat, id: BlockId, item: Q.Item) {
    && p < |s.queues| && BlockOf(k) in s.queues[p].ix.live && s.queues[p].ix.live[BlockOf(k)] == id
    && OnlyUser(s, p, id) && (id, Offset(k)) in s.mem && s.mem[(id, Offset(k))] == item
  }

  lemma UnreadIsSafe(run: seq<State>, i: nat, p: nat, k: nat)
    requires Run(run) && i < |run| && p < |run[i].queues|
    requires k < |run[i].queues[p].history| && k !in run[i].queues[p].delivered
    ensures BlockOf(k) in run[i].queues[p].ix.live
    ensures Safe(run[i], p, k, run[i].queues[p].ix.live[BlockOf(k)], run[i].queues[p].history[k])
  {
    hide Run, Inv, Q.Run, Q.Inv, BlockOf, Offset, X.Shape, ImplicitRuns.Stranded;
    var b := QueueRuns(run, i, p);
    var life := Life(run, b, p);
    var q := life[i - b];
    ImplicitOrder.UnreadItemKeepsBlock(life, i - b, k) by {
      HistoryIsFilled(life, i - b);
    }
    HistoryIsFilled(life, i - b);
    RunHasInv(run, i);
    HeldAlone(run[i], p, q.ix.live[BlockOf(k)]);
  }

  lemma HistoryIsFilled(life: seq<Q.State>, i: nat)
    requires Q.Run(life) && i < |life|
    ensures life[i].history <= life[i].filled
  {
    hide Q.Run, Q.Inv, ImplicitRuns.Stranded;
    ImplicitRuns.RunHasInv(life, i);
    ImplicitConsumers.InvIndices(ImplicitRuns.Indexed(life[i]));
  }

  /**
    No block with an unread item is recycled or requisitioned: from when an item is published until it is dequeued it
    stays in the same block of memory, which all that time only its own producer uses.
  */
  lemma UnreadItemIsSafe(run: seq<State>, i: nat, j: nat, p: nat, k: nat)
    requires Run(run) && i <= j < |run| && p < |run[i].queues| <= |run[j].queues|
    requires k < |run[i].queues[p].history| && k !in run[j].queues[p].delivered
    ensures BlockOf(k) in run[i].queues[p].ix.live
    ensures forall h :: i <= h <= j ==>
              Safe(run[h], p, k, run[i].queues[p].ix.live[BlockOf(k)], run[i].queues[p].history[k])
  {
    hide Run, Inv, Q.Run, Q.Inv, BlockOf, Offset, X.Shape, Safe, ImplicitOrder.OnlyLeave;
    var b := QueueRuns(run, i, p);
    var life := Life(run, b, p);
    forall h | i <= h <= j
      ensures BlockOf(k) in run[i].queues[p].ix.live
      ensures Safe(run[h], p, k, run[i].queues[p].ix.live[BlockOf(k)], run[i].queues[p].history[k])
    {
      ImplicitOrder.DeliveryIsFinal(life, i - b, h - b);
      ImplicitOrder.DeliveryIsFinal(life, h - b, j - b);
      UnreadIsSafe(run, i, p, k);
      UnreadIsSafe(run, h, p, k);
      SameBlock(life, i - b, h - b, k);
    }
  }

  lemma SameBlock(life: seq<Q.State>, i: nat, j: nat, k: nat)
    requires Q.Run(life) && i <= j < |life| && k < |life[i].history| && BlockOf(k) in life[j].ix.live
    ensures BlockOf(k) in life[i].ix.live && life[i].ix.live[BlockOf(k)] == life[j].ix.live[BlockOf(k)]
  {
    hide Q.Run, BlockOf, BlocksFor;
    ImplicitOrder.BlocksLeaveForGood(life, i, j);
    ImplicitOrder.RunContents(life, i);
    BlocksForSplits(life[i].q.sh.tail, k);
  }

  /** Every step writes into the blocks of one producer at most: for all others it happens elsewhere. */
  lemma EveryStepIsLocal(run: seq<State>, i: nat)
    requires Run(run) && i + 1 < |run|
    ensures OneStep(run[i], run[i + 1])
  {
    hide Run, Inv, Timely, OneStep, Next;
    RunSteps(run, i);
  }

  // ---------------------------------------------------------------- nobody is stuck

  /** Move m takes the producer p of thread t on. */
  predicate TakesOn(m: Move, p: nat, t: Thread) {
    match m
    case Produce(r, _) => r == p
    case GiveBack(r) => r == p
    case LoadPoolIndex(r) => r == p
    case DrawBlock(r) => r == p
    case SearchList(r) => r == p
    case CreateBlock(r, _) => r == p
    case AddToList(u) => u == t
    case _ => false
  }

  ghost predicate GoesOn(s: State, p: nat)
    requires Shape(s) && p < |s.queues|
  {
    exists m :: CanDo(s, m) && TakesOn(m, p, s.owner[p])
  }

  /** A producer in the middle of an enqueue can always go on, unless it lacks an index and tests a slot of it. */
  lemma ProducerGoesOn(run: seq<State>, i: nat, p: nat)
    requires Run(run) && i < |run| && p < |run[i].queues| && run[i].queues[p].prod != Q.Ready
    ensures Shape(run[i]) && (run[i].queues[p].ix != X.NO_INDEX || !run[i].queues[p].prod.TestSlot? ==> GoesOn(run[i], p))
  {
    hide Run, Inv, Q.Run, Q.Inv, ImplicitRuns.Stranded, X.Shape, CanDo, FreeListLaws.InTryGet;
    RunHasInv(run, i);
    InvParts(run[i], p);
    var b := QueueRuns(run, i, p);
    var life := Life(run, b, p);
    ImplicitRuns.ProducerCanMove(life, i - b);
    ImplicitRuns.RunHasInv(life, i - b);
    ImplicitRuns.NoIndexIf(life[i - b]);
    if run[i].queues[p].ix != X.NO_INDEX || !run[i].queues[p].prod.TestSlot? {
      var m := NextMove(run[i], p);
    }
  }

  lemma NextMove(s: State, p: nat) returns (m: Move)
    requires Shape(s) && p < |s.queues| && SourceOk(s, p) && s.queues[p].prod != Q.Ready
    requires Q.CanProduce(At(s, p), Q.NoMemory)
    ensures CanDo(s, m) && TakesOn(m, p, s.owner[p])
  {
    hide Q.CanConsume, Q.Init, X.Shape;
    var t := s.owner[p];
    if s.free.pc[t] != F.Idle {
      m := if FreeListLaws.InTryGet(s.free.pc[t]) then SearchList(p) else AddToList(t);
    } else if s.queues[p].prod.Requisition? {
      m := match s.source[p]
           case Pool => LoadPoolIndex(p)
           case Draw => DrawBlock(p)
           case _ => CreateBlock(p, false);
    } else {
      m := if s.queues[p].prod.UndoFree? then GiveBack(p) else Produce(p, Q.NoMemory);
    }
  }

  /** Neither is a consumer: it can take its next step, or the thread one in the free list, its own or for its producer. */
  lemma ConsumerGoesOn(run: seq<State>, i: nat, p: nat, t: Thread)
    requires Run(run) && i < |run| && p < |run[i].queues| && t in run[i].queues[p].con
    requires t in run[i].queues[p].q.pc && run[i].queues[p].q.pc[t].Claimed?
    ensures run[i].queues[p].con[t] != Q.Fault
    ensures
      || CanDo(run[i], Consume(p, t)) || CanDo(run[i], Release(p, t)) || CanDo(run[i], AddToList(t))
      || exists r: nat :: CanDo(run[i], SearchList(r)) && run[i].owner[r] == t
  {
    hide Run, Inv, Q.Run, Q.CanConsume, Q.Consume, FreeListLaws.InTryGet, ImplicitRuns.Sound, F.Inv, BlocksOk;
    RunHasInv(run, i);
    InvParts(run[i], p);
    var b := QueueRuns(run, i, p);
    ImplicitRuns.ConsumerCanMove(Life(run, b, p), i - b, t);
    var s := run[i];
    if FreeListLaws.InTryGet(s.free.pc[t]) {
      var r :| 0 <= r < |s.queues| && Searches(s, r, t);
      assert SourceOk(s, r);
      assert CanDo(s, SearchList(r));
    }
  }

  // ---------------------------------------------------------------- at rest

  ghost predicate Quiet(s: State) {
    && (forall t :: t in s.free.pc ==> s.free.pc[t] == F.Idle)
    && (forall p :: 0 <= p < |s.queues| ==> ImplicitCalls.Quiet(s.queues[p]))
  }

  /** Block id holds the n-th block of producer p, which is one of those from the head to the tail. */
  predicate InQueue(s: State, p: nat, n: nat, id: BlockId) {
    && p < |s.queues| && n in s.queues[p].ix.live && s.queues[p].ix.live[n] == id
    && BlockOf(s.queues[p].q.sh.head) <= n < BlocksFor(s.queues[p].q.sh.tail)
  }

  /** With nothing in flight every block issued is on the free list, or between the head and the tail of one producer. */
  lemma NothingIsLost(run: seq<State>, i: nat, id: BlockId)
    requires Run(run) && i < |run| && Quiet(run[i])
    ensures Issued(run[i], id) <==> id in run[i].free.list || exists p, n :: InQueue(run[i], p, n, id)
    ensures id in run[i].free.list ==> forall p, n :: !InQueue(run[i], p, n, id)
    ensures forall p, n, r, u :: InQueue(run[i], p, n, id) && InQueue(run[i], r, u, id) ==> p == r
  {
    hide Run, Inv, InUse, Issued, InQueue;
    var s := run[i];
    BlocksArePartitioned(run, i, id);
    QuietFree(run, i, id);
    forall p, n | InQueue(s, p, n, id) ensures Holds(s, p, id) {
      QueuedIsHeld(run, i, p, n, id);
    }
    if InUse(s, id) {
      HeldIsQueued(run, i, id);
    }
    forall p, n | InQueue(s, p, n, id) ensures InUse(s, id) {
      HoldsIsUse(s, p, id);
    }
  }

  lemma HoldsIsUse(s: State, p: nat, id: BlockId)
    requires Holds(s, p, id)
    ensures InUse(s, id)
  {
  }

  lemma QuietFree(run: seq<State>, i: nat, id: BlockId)
    requires Run(run) && i < |run| && Quiet(run[i])
    ensures id in run[i].free.list <==> run[i].free.Place(id) != F.Out
  {
    hide Run, F.Run, F.Inv;
    FreeListRuns(run);
    FreeListSteps.RunHasInv(Frees(run), i);
    FreeListLaws.ChainFrom(run[i].free, 0) by {
      FreeListOk(run[i].free);
    }
    assert run[i].free.list[0..] == run[i].free.list;
    FreeListOk(run[i].free);
    FreeListLaws.NoNodeIsLost(Frees(run), i, run[i].free.list, id);
  }

  lemma FreeListOk(f: F.State)
    requires F.Inv(f)
    ensures F.ListOk(f)
  {
  }

  lemma QueuedIsHeld(run: seq<State>, i: nat, p: nat, n: nat, id: BlockId)
    requires Run(run) && i < |run| && InQueue(run[i], p, n, id)
    ensures Holds(run[i], p, id)
  {
    hide Run, Inv, Q.Run, Q.Inv, ImplicitRuns.Stranded, BlocksFor, BlockOf;
    var b := QueueRuns(run, i, p);
    var life := Life(run, b, p);
    ImplicitRuns.RunHasInv(life, i - b);
    ImplicitBlocks.InvBlocks(ImplicitRuns.Indexed(life[i - b]), n);
  }

  lemma HeldIsQueued(run: seq<State>, i: nat, id: BlockId)
    requires Run(run) && i < |run| && Quiet(run[i]) && InUse(run[i], id)
    ensures exists p, n :: InQueue(run[i], p, n, id)
  {
    hide Run, Inv, Q.Run, Q.Inv, ImplicitRuns.Stranded, BlocksFor, BlockOf;
    var s := run[i];
    var p :| 0 <= p < |s.queues| && Holds(s, p, id);
    var b := QueueRuns(run, i, p);
    var life := Life(run, b, p);
    var n := RoleBlock(life, i - b, id);
    ImplicitCalls.QuietOwnsExactly(life, i - b, n);
    assert InQueue(s, p, n, id);
  }

  lemma RoleBlock(life: seq<Q.State>, i: nat, id: BlockId) returns (n: nat)
    requires Q.Run(life) && i < |life| && ImplicitCalls.Quiet(life[i]) && id in life[i].role
    ensures n in life[i].ix.live && life[i].ix.live[n] == id
  {
    hide Q.Run, BlocksFor, BlockOf;
    ImplicitCalls.ReadyIsAtRest(life, i);
    ImplicitCalls.QuietOwnsExactly(life, i, 0);
    n := life[i].role[id].n;
  }
}
