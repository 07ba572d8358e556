/** Every move of the whole queue keeps its invariant. */
module ConcurrentMoves {
  import opened Footprint
  import F = FreeList
  import FreeListLaws
  import FreeListSteps
  import Q = ImplicitQueue
  import ImplicitRuns
  import T = Tickets
  import X = BlockIndex
  import opened ConcurrentQueue

  // ---------------------------------------------------------------- every move keeps the invariant

  /** Putting together what a move does to the parts of the state. */
  lemma PartsMake(s: State, s': State)
    requires Inv(s) && Timely(s) && Shape(s') && OneStep(s, s') && |s'.queues| == |s.queues|
    requires forall r :: 0 <= r < |s'.queues| ==> s'.queues[r].q.pc.Keys == s.queues[r].q.pc.Keys
    requires s'.free.pc.Keys == s.free.pc.Keys && F.Inv(s'.free) && BlocksOk(s') && ThreadsOk(s')
    ensures Inv(s')
  {
    hide F.Inv, BlocksOk, ThreadsOk, OneStep, Timely, ImplicitRuns.Sound;
    QueuesAfter(s, s');
  }

  lemma InvParts(s: State, p: nat)
    requires Inv(s) && p < |s.queues|
    ensures Shape(s) && F.Inv(s.free) && BlocksOk(s) && ThreadsOk(s)
    ensures ImplicitRuns.Sound(At(s, p)) && SourceOk(s, p) && s.queues[p].q.pc.Keys == s.free.pc.Keys
  {
    hide F.Inv, ImplicitRuns.Sound, BlocksOk;
  }

  /** A step of producer p that takes and gives no block and involves neither requisition_block nor the free list. */
  lemma PlainStep(s: State, s': State, p: nat, q: Q.State)
    requires Inv(s) && Timely(s) && Steps(s, s', p, q) && q.role.Keys == s.queues[p].role.Keys
    requires s'.free == s.free && s'.drawn == s.drawn && s'.made == s.made && s'.owner == s.owner && s'.source == s.source
    requires s.queues[p].prod.Requisition? ==> q.prod.Requisition?
    ensures Inv(s') && OneStep(s, s')
  {
    hide F.Inv, ImplicitRuns.Sound, Q.Next, Local, BlocksOk, OneStep, Timely, QueuesOk, FreeListLaws.InTryGet;
    InvParts(s, p);
    StepsAll(s, s', p, q);
    forall r, n ensures Holds(s', r, n) <==> Holds(s, r, n) {
    }
    BlocksKept(s, s');
    ThreadsSame(s, s');
    PartsMake(s, s');
  }

  lemma EnqueueKeeps(s: State, m: Move)
    requires Inv(s) && Timely(s) && CanDo(s, m) && m.Enqueue?
    ensures Inv(Do(s, m)) && OneStep(s, Do(s, m))
  {
    hide Inv, F.Inv, Q.Next, Timely, OneStep, Local, Q.Call;
    var q := Q.Call(At(s, m.p), m.items);
    CallIsNext(At(s, m.p), m.items);
    PlainStep(s, Do(s, m), m.p, q);
  }

  lemma CallIsNext(q: Q.State, items: seq<Q.Item>)
    requires q.prod == Q.Ready
    ensures Q.Next(q, Q.Call(q, items)) && Local(q, Q.Call(q, items))
    ensures var q' := Q.Call(q, items); q'.q == q.q && q'.role == q.role
  {
    hide Q.Elsewhere, Q.CanProduce, Q.CanConsume, Q.Produce, Q.Consume, Q.Ticket;
  }

  lemma ProduceKeeps(s: State, m: Move)
    requires Inv(s) && Timely(s) && CanDo(s, m) && m.Produce?
    ensures Inv(Do(s, m)) && OneStep(s, Do(s, m))
  {
    hide Inv, F.Inv, Q.Next, Timely, OneStep, Local, Q.CanProduce, Q.Produce, ImplicitRuns.Sound;
    InvParts(s, m.p);
    var q := Q.Produce(At(s, m.p), m.luck);
    SoundProduce(At(s, m.p), m.luck);
    ProduceIsNext(At(s, m.p), m.luck);
    PlainStep(s, Do(s, m), m.p, q);
  }

  lemma ProduceIsNext(q: Q.State, luck: Q.Luck)
    requires q.prod != Q.Ready && Q.CanProduce(q, luck)
    ensures Q.Next(q, Q.Produce(q, luck))
  {
    hide Q.Elsewhere, Q.CanProduce, Q.CanConsume, Q.Produce, Q.Consume, Q.Call, Q.Ticket;
  }

  lemma DequeueKeeps(s: State, m: Move)
    requires Inv(s) && Timely(s) && CanDo(s, m) && m.Dequeue?
    ensures Inv(Do(s, m)) && OneStep(s, Do(s, m))
  {
    hide Inv, F.Inv, Q.Next, Timely, OneStep, Local, ImplicitRuns.Sound;
    var q := At(s, m.p);
    var q' := q.(q := T.Call(q.q, m.t, m.max));
    DequeueIsNext(q, m.t, m.max);
    PlainStep(s, Do(s, m), m.p, q');
  }

  lemma DequeueIsNext(q: Q.State, t: Thread, max: nat)
    requires t in q.q.pc && q.q.pc[t] == T.Idle && max > 0
    ensures var q' := q.(q := T.Call(q.q, t, max)); Q.Next(q, q') && Local(q, q') && q'.q.pc.Keys == q.q.pc.Keys
  {
    hide Q.Elsewhere, Q.CanProduce, Q.CanConsume, Q.Produce, Q.Consume, Q.Call, Q.Ticket;
  }

  lemma TicketKeeps(s: State, m: Move)
    requires Inv(s) && Timely(s) && CanDo(s, m) && m.Ticket?
    ensures Inv(Do(s, m)) && OneStep(s, Do(s, m))
  {
    hide Inv, F.Inv, Q.Next, Timely, OneStep, Local, ImplicitRuns.Sound, Q.Ticket;
    TicketIsNext(At(s, m.p), m.t);
    PlainStep(s, Do(s, m), m.p, Q.Ticket(At(s, m.p), m.t));
  }

  lemma TicketIsNext(q: Q.State, t: Thread)
    requires t in q.q.pc && !q.q.pc[t].Claimed?
    ensures
      var q' := Q.Ticket(q, t);
      Q.Next(q, q') && Local(q, q') && q'.q.pc.Keys == q.q.pc.Keys && q'.role == q.role && q'.prod == q.prod
  {
    hide Q.Elsewhere, Q.CanProduce, Q.CanConsume, Q.Produce, Q.Consume, Q.Call, T.Step;
    TicketKeepsThreads(q.q, t);
  }

  lemma ConsumeKeeps(s: State, m: Move)
    requires Inv(s) && Timely(s) && CanDo(s, m) && m.Consume?
    ensures Inv(Do(s, m)) && OneStep(s, Do(s, m))
  {
    hide Inv, F.Inv, Q.Next, Timely, OneStep, Local, Q.CanConsume, Q.Consume, ImplicitRuns.Sound;
    InvParts(s, m.p);
    SoundConsume(At(s, m.p), m.t);
    ConsumeIsNext(At(s, m.p), m.t);
    PlainStep(s, Do(s, m), m.p, Q.Consume(At(s, m.p), m.t));
  }

  lemma ConsumeIsNext(q: Q.State, t: Thread)
    requires Q.CanConsume(q, t)
    ensures Q.Next(q, Q.Consume(q, t))
  {
    hide Q.Elsewhere, Q.CanProduce, Q.CanConsume, Q.Produce, Q.Consume, Q.Call, Q.Ticket;
  }

  // ---------------------------------------------------------------- taking a block

  /** Handing a block to a producer is its step of ImplicitQueue if it has no use for that block yet. */
  lemma TakingIsNext(q: Q.State, id: BlockId)
    requires q.prod.Requisition? && id !in q.role
    ensures Q.CanProduce(q, Q.NewBlock(id)) && Taking(q, id) == Q.Produce(q, Q.NewBlock(id))
    ensures Q.Next(q, Taking(q, id)) && Local(q, Taking(q, id))
  {
    ProduceIsNext(q, Q.NewBlock(id));
  }

  /** A block nobody uses, and that is not the free list's any more, is taken by producer p. */
  lemma TakeKeeps(s: State, s': State, p: nat, id: BlockId)
    requires Inv(s) && Timely(s) && p < |s.queues| && s.queues[p].prod.Requisition? && !InUse(s, id)
    requires s'.queues == s.queues[p := Taking(At(s, p), id)] && s'.mem == s.mem && s'.count == s.count
    requires s'.owner == s.owner && s'.source == s.source[p := Pool] && F.Inv(s'.free)
    requires s'.free.pc.Keys == s.free.pc.Keys && Outside(s', s.owner[p])
    requires forall t :: t in s.free.pc && t != s.owner[p] ==> s'.free.pc[t] == s.free.pc[t]
    requires Issued(s', id) && s'.free.Place(id) == F.Out
    requires forall n :: n != id ==> (Issued(s', n) <==> Issued(s, n))
    requires forall n :: n != id ==> (s'.free.Place(n) == F.Out <==> s.free.Place(n) == F.Out)
    ensures Inv(s') && OneStep(s, s')
  {
    hide F.Inv, ImplicitRuns.Sound, Q.Next, Local, BlocksOk, OneStep, Timely, QueuesOk, FreeListLaws.InTryGet, Issued, Inv;
    InvParts(s, p);
    assert !Holds(s, p, id);
    TakingIsNext(At(s, p), id);
    StepsAll(s, s', p, Taking(At(s, p), id));
    forall r, n ensures Holds(s', r, n) <==> Holds(s, r, n) || (r == p && n == id) {
    }
    BlocksTaken(s, s', p, id);
    assert SourceOk(s', p) by {
      OutsideIsNotIn(s', s.owner[p]);
    }
    ThreadsKept(s, s', p);
    TakeParts(s, s', p, id);
  }

  lemma OutsideIsNotIn(s: State, t: Thread)
    requires Outside(s, t)
    ensures !FreeListLaws.InTryGet(s.free.pc[t])
  {
  }

  lemma TakeParts(s: State, s': State, p: nat, id: BlockId)
    requires Inv(s) && Timely(s) && p < |s.queues| && s.queues[p].prod.Requisition? && Shape(s')
    requires s'.queues == s.queues[p := Taking(At(s, p), id)] && OneStep(s, s')
    requires s'.free.pc.Keys == s.free.pc.Keys && F.Inv(s'.free) && BlocksOk(s') && ThreadsOk(s')
    ensures Inv(s')
  {
    hide F.Inv, Inv, BlocksOk, ThreadsOk, OneStep, Timely;
    PartsMake(s, s');
  }

  /** A step inside requisition_block that yields no block, or of a thread inside add. */
  lemma RestKeeps(s: State, s': State)
    requires Inv(s) && Timely(s) && Shape(s') && s'.queues == s.queues && s'.mem == s.mem && s'.count == s.count
    requires F.Inv(s'.free) && s'.free.pc.Keys == s.free.pc.Keys && ThreadsOk(s')
    requires forall n :: Issued(s', n) <==> Issued(s, n)
    requires forall n :: s'.free.Place(n) == F.Out <==> s.free.Place(n) == F.Out
    ensures Inv(s') && OneStep(s, s')
  {
    hide F.Inv, ImplicitRuns.Sound, BlocksOk, OneStep, Timely, QueuesOk, FreeListLaws.InTryGet, Issued, ThreadsOk;
    RestsAll(s, s');
    forall r, n ensures Holds(s', r, n) <==> Holds(s, r, n) {
    }
    BlocksKept(s, s');
    PartsMake(s, s');
  }

  /** A thread that belongs to no producer in requisition_block, or to p there, gets no nearer to the others. */
  lemma SourceMoves(s: State, s': State, p: nat)
    requires Inv(s) && p < |s.queues| && s.queues[p].prod.Requisition? && s'.queues == s.queues && s'.owner == s.owner
    requires Shape(s') && s'.source == s.source[p := s'.source[p]] && s'.free.pc.Keys == s.free.pc.Keys
    requires forall t :: t in s.free.pc && t != s.owner[p] ==> s'.free.pc[t] == s.free.pc[t]
    requires s.owner[p] in s'.free.pc ==> (s'.source[p] == List <==> FreeListLaws.InTryGet(s'.free.pc[s.owner[p]]))
    ensures ThreadsOk(s')
  {
    hide F.Inv, ImplicitRuns.Sound, BlocksOk, QueuesOk, FreeListLaws.InTryGet, Inv;
    InvParts(s, p);
    ThreadsKept(s, s', p);
  }

  /** No block beyond those issued is anywhere. */
  lemma UnissuedIsNowhere(s: State, id: BlockId)
    requires Inv(s) && !Issued(s, id)
    ensures !InUse(s, id) && s.free.Place(id) == F.Out
  {
    hide F.Inv, QueuesOk, ThreadsOk, Issued;
  }

  lemma SearchKeeps(s: State, s': State, p: nat)
    requires Inv(s) && Timely(s) && p < |s.queues| && s.queues[p].prod.Requisition? && Outside(s, s.owner[p])
    requires s' == Search(s, p).(drawn := s'.drawn) && s.drawn >= POOL && s'.drawn >= POOL
    ensures Inv(s') && OneStep(s, s')
  {
    hide F.Inv, ImplicitRuns.Sound, BlocksOk, OneStep, Timely, QueuesOk, ThreadsOk, Inv;
    InvParts(s, p);
    FreeListSteps.CallTryGetKeepsInv(s.free, s.owner[p]);
    SourceMoves(s, s', p);
    RestKeeps(s, s');
  }

  lemma LoadPoolIndexKeeps(s: State, m: Move)
    requires Inv(s) && Timely(s) && CanDo(s, m) && m.LoadPoolIndex?
    ensures Inv(Do(s, m)) && OneStep(s, Do(s, m))
  {
    hide F.Inv, ImplicitRuns.Sound, BlocksOk, OneStep, Timely, QueuesOk, ThreadsOk, Inv;
    var s' := Do(s, m);
    InvParts(s, m.p);
    if s.drawn < POOL {
      OutsideIsNotIn(s, s.owner[m.p]);
      SourceMoves(s, s', m.p);
      RestKeeps(s, s');
    } else {
      SearchKeeps(s, s', m.p);
    }
  }

  lemma DrawBlockKeeps(s: State, m: Move)
    requires Inv(s) && Timely(s) && CanDo(s, m) && m.DrawBlock?
    ensures Inv(Do(s, m)) && OneStep(s, Do(s, m))
    ensures s.drawn < POOL ==> !InUse(s, s.drawn)
  {
    hide F.Inv, ImplicitRuns.Sound, BlocksOk, OneStep, Timely, QueuesOk, ThreadsOk, Inv, InUse;
    var s' := Do(s, m);
    InvParts(s, m.p);
    if s.drawn < POOL {
      UnissuedIsNowhere(s, s.drawn);
      TakeKeeps(s, s', m.p, s.drawn);
    } else {
      SearchKeeps(s, s', m.p);
    }
  }

  lemma CreateBlockKeeps(s: State, m: Move)
    requires Inv(s) && Timely(s) && CanDo(s, m) && m.CreateBlock?
    ensures Inv(Do(s, m)) && OneStep(s, Do(s, m))
    ensures m.success ==> !InUse(s, POOL + s.made)
  {
    hide F.Inv, ImplicitRuns.Sound, BlocksOk, OneStep, Timely, QueuesOk, ThreadsOk, Inv, InUse, Q.Next;
    var s' := Do(s, m);
    InvParts(s, m.p);
    if m.success {
      UnissuedIsNowhere(s, POOL + s.made);
      TakeKeeps(s, s', m.p, POOL + s.made);
    } else {
      NoBlockKeeps(s, s', m.p);
    }
    if m.success {
      UnissuedIsNowhere(s, POOL + s.made);
    }
  }

  lemma NoBlockKeeps(s: State, s': State, p: nat)
    requires Inv(s) && Timely(s) && p < |s.queues| && s.queues[p].prod.Requisition? && Outside(s, s.owner[p])
    requires Q.CanProduce(At(s, p), Q.NoMemory)
    requires s' == Put(s, p, Q.Produce(At(s, p), Q.NoMemory)).(source := s.source[p := Pool])
    ensures Inv(s') && OneStep(s, s')
  {
    hide F.Inv, ImplicitRuns.Sound, Q.Next, Local, BlocksOk, OneStep, Timely, QueuesOk, FreeListLaws.InTryGet, Inv, Q.CanProduce, Q.Produce;
    InvParts(s, p);
    var q := Q.Produce(At(s, p), Q.NoMemory);
    SoundProduce(At(s, p), Q.NoMemory);
    ProduceIsNext(At(s, p), Q.NoMemory);
    StepsAll(s, s', p, q);
    forall r, n ensures Holds(s', r, n) <==> Holds(s, r, n) {
    }
    BlocksKept(s, s');
    OutsideIsNotIn(s, s.owner[p]);
    ThreadsKept(s, s', p);
    PartsMake(s, s');
  }

  lemma SearchListKeeps(s: State, m: Move)
    requires Inv(s) && Timely(s) && CanDo(s, m) && m.SearchList?
    ensures Inv(Do(s, m)) && OneStep(s, Do(s, m))
    ensures s.free.pc[s.owner[m.p]].DropTwo? ==> !InUse(s, s.free.pc[s.owner[m.p]].head)
  {
    hide F.Inv, ImplicitRuns.Sound, BlocksOk, OneStep, Timely, QueuesOk, ThreadsOk, Inv, InUse, F.Step, FreeListLaws.InTryGet;
    var s', t := Do(s, m), s.owner[m.p];
    InvParts(s, m.p);
    FreeListSteps.StepKeepsInv(s.free, t);
    FreeListLaws.StepStaysInCall(s.free, t);
    forall n ensures s'.free.Place(n) == F.Out <==> s.free.Place(n) == F.Out || s.free.pc[t] == F.DropTwo(n) {
      StepOuts(s.free, t, n);
    }
    if s.free.pc[t].DropTwo? {
      SearchHoldsNode(s.free, t);
      ListedIsIssued(s, s.free.pc[t].head);
      TakeKeeps(s, s', m.p, s.free.pc[t].head);
    } else {
      if Outside(s', t) {
        OutsideIsNotIn(s', t);
      }
      SourceMoves(s, s', m.p);
      RestKeeps(s, s');
    }
  }

  lemma ListedIsIssued(s: State, id: BlockId)
    requires Inv(s) && s.free.Place(id) != F.Out
    ensures Issued(s, id) && !InUse(s, id)
  {
    hide F.Inv, QueuesOk, ThreadsOk, Issued;
  }

  lemma AddToListKeeps(s: State, m: Move)
    requires Inv(s) && Timely(s) && CanDo(s, m) && m.AddToList?
    ensures Inv(Do(s, m)) && OneStep(s, Do(s, m))
  {
    hide F.Inv, ImplicitRuns.Sound, BlocksOk, OneStep, Timely, QueuesOk, F.Step, FreeListLaws.InTryGet;
    var s', t := Do(s, m), m.t;
    FreeListSteps.StepKeepsInv(s.free, t);
    FreeListLaws.StepStaysInCall(s.free, t);
    forall n ensures s'.free.Place(n) == F.Out <==> s.free.Place(n) == F.Out {
      StepOuts(s.free, t, n);
      DropIsTryGet(s.free.pc[t]);
    }
    ThreadsSame(s, s');
    RestKeeps(s, s');
  }

  lemma DropIsTryGet(p: F.Pc)
    ensures p.DropTwo? ==> FreeListLaws.InTryGet(p)
  {
  }

  // ---------------------------------------------------------------- giving a block back

  /** A step by which producer p, or a consumer of it, calls add for a block it has no more use for. */
  lemma GiveKeeps(s: State, s': State, p: nat, q: Q.State, t: Thread, id: BlockId)
    requires Inv(s) && Timely(s) && Steps(s, s', p, q) && Holds(s, p, id) && Outside(s, t)
    requires q.role.Keys == s.queues[p].role.Keys - {id}
    requires s'.free == F.CallAdd(s.free, t, id) && s'.drawn == s.drawn && s'.made == s.made
    requires s'.owner == s.owner && s'.source == s.source
    requires s.queues[p].prod.Requisition? ==> q.prod.Requisition?
    ensures Inv(s') && OneStep(s, s')
    ensures s.free.Place(id) == F.Out
  {
    hide F.Inv, ImplicitRuns.Sound, Q.Next, Local, OneStep, Timely, QueuesOk, Inv, Issued;
    InvParts(s, p);
    FreeListSteps.CallAddKeepsInv(s.free, t, id);
    StepsAll(s, s', p, q);
    GiveBlocks(s, s', p, q, t, id);
    GiveThreads(s, s', t, id);
    hide BlocksOk, ThreadsOk;
    PartsMake(s, s');
  }

  lemma GiveBlocks(s: State, s': State, p: nat, q: Q.State, t: Thread, id: BlockId)
    requires BlocksOk(s) && Holds(s, p, id) && s'.queues == s.queues[p := q]
    requires q.role.Keys == s.queues[p].role.Keys - {id}
    requires s'.free == F.CallAdd(s.free, t, id) && s'.drawn == s.drawn && s'.made == s.made
    ensures BlocksOk(s')
  {
    hide BlocksOk;
    forall r, n ensures Holds(s', r, n) <==> Holds(s, r, n) && !(r == p && n == id) {
    }
    BlocksGiven(s, s', p, id);
  }

  lemma GiveThreads(s: State, s': State, t: Thread, id: BlockId)
    requires Shape(s) && ThreadsOk(s) && Outside(s, t) && s'.free == F.CallAdd(s.free, t, id)
    requires Shape(s') && s'.owner == s.owner && s'.source == s.source
    requires forall r :: 0 <= r < |s.queues| && s.queues[r].prod.Requisition? ==> s'.queues[r].prod.Requisition?
    ensures ThreadsOk(s')
  {
    hide ThreadsOk;
    assert forall u :: u in s.free.pc ==> FreeListLaws.InTryGet(s'.free.pc[u]) == FreeListLaws.InTryGet(s.free.pc[u]);
    ThreadsSame(s, s');
  }

  lemma GiveBackKeeps(s: State, m: Move)
    requires Inv(s) && Timely(s) && CanDo(s, m) && m.GiveBack?
    ensures Inv(Do(s, m)) && OneStep(s, Do(s, m))
    ensures
      var j := s.queues[m.p].prod.j;
      j < |s.queues[m.p].chain| && Holds(s, m.p, s.queues[m.p].chain[j]) && s.free.Place(s.queues[m.p].chain[j]) == F.Out
  {
    hide Inv, F.Inv, Q.Next, Timely, OneStep, Local, Q.Produce, ImplicitRuns.Sound, BlocksOk, X.Shape;
    InvParts(s, m.p);
    SoundProduce(At(s, m.p), Q.NoMemory);
    ProduceIsNext(At(s, m.p), Q.NoMemory);
    GiveKeeps(s, Do(s, m), m.p, Q.Produce(At(s, m.p), Q.NoMemory), s.owner[m.p], s.queues[m.p].chain[s.queues[m.p].prod.j]);
  }

  lemma ReleaseKeeps(s: State, m: Move)
    requires Inv(s) && Timely(s) && CanDo(s, m) && m.Release?
    ensures Inv(Do(s, m)) && OneStep(s, Do(s, m))
    ensures Holds(s, m.p, s.queues[m.p].con[m.t].id) && s.free.Place(s.queues[m.p].con[m.t].id) == F.Out
  {
    hide Inv, F.Inv, Q.Next, Timely, OneStep, Local, Q.CanConsume, Q.Consume, ImplicitRuns.Sound, BlocksOk;
    InvParts(s, m.p);
    SoundConsume(At(s, m.p), m.t);
    ConsumeIsNext(At(s, m.p), m.t);
    ReleaseThreads(s, m);
    GiveKeeps(s, Do(s, m), m.p, Q.Consume(At(s, m.p), m.t), m.t, s.queues[m.p].con[m.t].id);
  }

  lemma ReleaseThreads(s: State, m: Move)
    requires CanDo(s, m) && m.Release? && ConsumesWell(At(s, m.p), m.t, Q.Consume(At(s, m.p), m.t))
    ensures
      var q, id := Q.Consume(At(s, m.p), m.t), s.queues[m.p].con[m.t].id;
      && id in s.queues[m.p].role && q.role.Keys == s.queues[m.p].role.Keys - {id} && q.prod == s.queues[m.p].prod
      && q.q.pc.Keys == s.queues[m.p].q.pc.Keys && Local(At(s, m.p), q)
  {
    hide Q.Consume, Q.CanConsume, Local;
  }

  // ---------------------------------------------------------------- a new producer

  lemma NewProducerKeeps(s: State, m: Move)
    requires Inv(s) && Timely(s) && CanDo(s, m) && m.NewProducer?
    ensures Inv(Do(s, m)) && OneStep(s, Do(s, m))
  {
    hide F.Inv, ImplicitRuns.Sound, BlocksOk, OneStep, Timely, FreeListLaws.InTryGet, Q.Init;
    var s', n := Do(s, m), |s.queues|;
    RestsAll(s, s');
    NewIsEmpty(m.q);
    forall r, id ensures Holds(s', r, id) <==> Holds(s, r, id) {
    }
    BlocksKept(s, s');
    forall r | 0 <= r < |s'.queues| ensures ImplicitRuns.Sound(At(s', r)) {
      if r < n {
        assert At(s', r) == At(s, r);
      } else {
        NewIsSound(m.q, s.mem, s.count);
        assert At(s', n) == m.q.(mem := s.mem, count := s.count);
      }
    }
    OutsideIsNotIn(s, m.t);
    NewThreads(s, s', m.t);
  }

  lemma NewIsEmpty(q: Q.State)
    requires Q.Init(q)
    ensures q.role == map[]
  {
  }

  lemma NewIsSound(q: Q.State, mem: map<(BlockId, nat), Q.Item>, count: map<BlockId, nat>)
    requires Q.Init(q)
    ensures Q.Init(q.(mem := mem, count := count)) && ImplicitRuns.Sound(q.(mem := mem, count := count))
  {
    hide ImplicitRuns.Sound;
    ImplicitRuns.InitIsSound(q.(mem := mem, count := count));
  }

  lemma NewThreads(s: State, s': State, t: Thread)
    requires Shape(s) && Shape(s') && ThreadsOk(s) && t in s.free.pc && !FreeListLaws.InTryGet(s.free.pc[t]) && t !in s.owner
    requires s'.free == s.free && s'.owner == s.owner + [t] && s'.source == s.source + [Pool]
    requires |s'.queues| == |s.queues| + 1 && forall r :: 0 <= r < |s.queues| ==> s'.queues[r] == s.queues[r]
    ensures ThreadsOk(s')
  {
    hide FreeListLaws.InTryGet;
    forall r | 0 <= r < |s'.queues| ensures SourceOk(s', r) {
      assert r < |s.queues| ==> SourceOk(s, r);
    }
    forall u | u in s'.free.pc && FreeListLaws.InTryGet(s'.free.pc[u]) ensures exists r :: 0 <= r < |s'.queues| && Searches(s', r, u) {
      var r :| 0 <= r < |s.queues| && Searches(s, r, u);
      assert Searches(s', r, u);
    }
  }

  // ---------------------------------------------------------------- every run

  /** Every step of the whole keeps the invariant, and is a step of ImplicitQueue for every producer. */
  lemma NextKeeps(s: State, m: Move)
    requires Inv(s) && Timely(s) && CanDo(s, m)
    ensures Inv(Do(s, m)) && OneStep(s, Do(s, m))
  {
    hide Inv, Timely, OneStep, Do, CanDo;
    match m
    case NewProducer(_, _) => NewProducerKeeps(s, m);
    case Enqueue(_, _) => EnqueueKeeps(s, m);
    case Produce(_, _) => ProduceKeeps(s, m);
    case GiveBack(_) => GiveBackKeeps(s, m);
    case LoadPoolIndex(_) => LoadPoolIndexKeeps(s, m);
    case DrawBlock(_) => DrawBlockKeeps(s, m);
    case SearchList(_) => SearchListKeeps(s, m);
    case CreateBlock(_, _) => CreateBlockKeeps(s, m);
    case Dequeue(_, _, _) => DequeueKeeps(s, m);
    case Ticket(_, _) => TicketKeeps(s, m);
    case Consume(_, _) => ConsumeKeeps(s, m);
    case Release(_, _) => ReleaseKeeps(s, m);
    case AddToList(_) => AddToListKeeps(s, m);
  }

  lemma InitHasInv(s: State)
    requires Init(s)
    ensures Inv(s)
  {
    hide F.Inv;
    FreeListSteps.InitHasInv(s.free);
    assert forall id :: s.free.Place(id) == F.Out;
  }

  lemma {:induction false} RunHasInv(run: seq<State>, i: nat)
    requires Run(run) && i < |run|
    ensures Inv(run[i])
  {
    hide Inv, Init, Timely, Do, CanDo, OneStep;
    if i == 0 {
      InitHasInv(run[0]);
    } else {
      RunHasInv(run, i - 1);
      assert NextAt(run, i - 1);
      var m :| CanDo(run[i - 1], m) && run[i] == Do(run[i - 1], m);
      NextKeeps(run[i - 1], m);
    }
  }

  lemma RunSteps(run: seq<State>, i: nat)
    requires Run(run) && i + 1 < |run|
    ensures Inv(run[i]) && Timely(run[i]) && Next(run[i], run[i + 1]) && OneStep(run[i], run[i + 1])
  {
    hide Inv, Timely, Do, CanDo, OneStep, Init;
    RunHasInv(run, i);
    assert NextAt(run, i);
    var m :| CanDo(run[i], m) && run[i + 1] == Do(run[i], m);
    NextKeeps(run[i], m);
  }
}
