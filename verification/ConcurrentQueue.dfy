/**
  The queue as a whole: any number of implicit producers with their consumers, one pool of blocks and one free list, on
  one memory (source/utils/concurrentqueue.h:2396-2780, 2946-3004).

  A step is a step of one producer, of one consumer or of the free list. A thread inside the free list makes steps
  there until its call returns; requisition_block and add_block_to_free_list are such calls. Producers come into being
  one by one, each for a thread that has none yet. Block numbers below POOL are the blocks of the initial pool, the
  others those created later.
*/
module ConcurrentQueue {
  import opened Wrappers
  import opened Footprint
  import F = FreeList
  import FreeListLaws
  import FreeListSteps
  import Q = ImplicitQueue
  import ImplicitRuns
  import T = Tickets

  type Thread = F.Thread

  /** initialBlockPoolSize */
  const POOL: nat

  /** What requisition_block tries next: read or draw from the pool's counter, search the free list, or create a block. */
  datatype Source = Pool | Draw | List | Create

  datatype State = State(
    free: F.State,
    drawn: nat,                           // initialBlockPoolIndex
    made: nat,                            // blocks created
    queues: seq<Q.State>,                 // the producers, but for the memory, which they share
    owner: seq<Thread>,                   // the thread each producer belongs to
    source: seq<Source>,
    mem: map<(BlockId, nat), Q.Item>,
    count: map<BlockId, nat>)

  predicate Shape(s: State) {
    |s.queues| == |s.owner| == |s.source|
  }

  /** Producer p and its consumers, with the memory. */
  function At(s: State, p: nat): Q.State
    requires p < |s.queues|
  {
    s.queues[p].(mem := s.mem, count := s.count)
  }

  function Put(s: State, p: nat, q: Q.State): State
    requires p < |s.queues|
  {
    s.(queues := s.queues[p := q], mem := q.mem, count := q.count)
  }

  predicate Holds(s: State, p: nat, id: BlockId) {
    p < |s.queues| && id in s.queues[p].role
  }

  // ---------------------------------------------------------------- steps

  datatype Move =
    | NewProducer(t: Thread, q: Q.State)
    | Enqueue(p: nat, items: seq<Q.Item>)
    | Produce(p: nat, luck: Q.Luck)
    | GiveBack(p: nat)
    | LoadPoolIndex(p: nat)
    | DrawBlock(p: nat)
    | SearchList(p: nat)
    | CreateBlock(p: nat, success: bool)
    | Dequeue(p: nat, t: Thread, max: nat)
    | Ticket(p: nat, t: Thread)
    | Consume(p: nat, t: Thread)
    | Release(p: nat, t: Thread)
    | AddToList(t: Thread)

  predicate Outside(s: State, t: Thread) {
    t in s.free.pc && s.free.pc[t] == F.Idle
  }

  predicate Requisitions(s: State, p: nat, source: Source) {
    Shape(s) && p < |s.queues| && s.queues[p].prod.Requisition? && s.source[p] == source
  }

  ghost predicate CanDo(s: State, m: Move) {
    && Shape(s)
    && match m
    case NewProducer(t, q) => Outside(s, t) && t !in s.owner && Q.Init(q) && q.q.pc.Keys == s.free.pc.Keys
    case Enqueue(p, _) => p < |s.queues| && Outside(s, s.owner[p]) && s.queues[p].prod == Q.Ready
    case Produce(p, luck) =>
      && p < |s.queues| && Outside(s, s.owner[p]) && Q.CanProduce(At(s, p), luck)
      && !s.queues[p].prod.Ready? && !s.queues[p].prod.Requisition? && !s.queues[p].prod.UndoFree?
    case GiveBack(p) =>
      p < |s.queues| && Outside(s, s.owner[p]) && s.queues[p].prod.UndoFree? && Q.CanProduce(At(s, p), Q.NoMemory)
    case LoadPoolIndex(p) => Requisitions(s, p, Pool) && Outside(s, s.owner[p])
    case DrawBlock(p) => Requisitions(s, p, Draw) && Outside(s, s.owner[p])
    case SearchList(p) => Requisitions(s, p, List) && s.owner[p] in s.free.pc && FreeListLaws.InTryGet(s.free.pc[s.owner[p]])
    case CreateBlock(p, _) => Requisitions(s, p, Create) && Outside(s, s.owner[p])
    case Dequeue(p, t, max) =>
      p < |s.queues| && Outside(s, t) && t in s.queues[p].q.pc && s.queues[p].q.pc[t] == T.Idle && max > 0
    case Ticket(p, t) => p < |s.queues| && Outside(s, t) && t in s.queues[p].q.pc && !s.queues[p].q.pc[t].Claimed?
    case Consume(p, t) => p < |s.queues| && Outside(s, t) && Q.CanConsume(At(s, p), t) && !s.queues[p].con[t].AddFree?
    case Release(p, t) => p < |s.queues| && Outside(s, t) && Q.CanConsume(At(s, p), t) && s.queues[p].con[t].AddFree?
    case AddToList(t) => t in s.free.pc && s.free.pc[t] != F.Idle && !FreeListLaws.InTryGet(s.free.pc[t])
  }

  /** requisition_block hands block id to producer p. */
  function Taking(q: Q.State, id: BlockId): Q.State
    requires q.prod.Requisition?
  {
    q.(prod := Q.ResetCount(q.prod.n, id), role := q.role[id := Q.Taken])
  }

  function Take(s: State, p: nat, id: BlockId): State
    requires Shape(s) && p < |s.queues| && s.queues[p].prod.Requisition?
  {
    Put(s, p, Taking(At(s, p), id)).(source := s.source[p := Pool])
  }

  function Search(s: State, p: nat): State
    requires Shape(s) && p < |s.queues|
  {
    s.(source := s.source[p := List], free := F.CallTryGet(s.free, s.owner[p]))
  }

  ghost function Do(s: State, m: Move): State
    requires CanDo(s, m)
  {
    match m
    case NewProducer(t, q) => s.(queues := s.queues + [q], owner := s.owner + [t], source := s.source + [Pool])
    case Enqueue(p, items) => Put(s, p, Q.Call(At(s, p), items))
    case Produce(p, luck) => Put(s, p, Q.Produce(At(s, p), luck))
    case GiveBack(p) =>
      Put(s, p, Q.Produce(At(s, p), Q.NoMemory))
      .(free := F.CallAdd(s.free, s.owner[p], s.queues[p].chain[s.queues[p].prod.j]))
    case LoadPoolIndex(p) => if s.drawn < POOL then s.(source := s.source[p := Draw]) else Search(s, p)
    case DrawBlock(p) =>
      var s1 := s.(drawn := s.drawn + 1);
      if s.drawn < POOL then Take(s1, p, s.drawn) else Search(s1, p)
    case SearchList(p) =>
      var t := s.owner[p];
      var s1 := s.(free := F.Step(s.free, t));
      if s.free.pc[t].DropTwo? then Take(s1, p, s.free.pc[t].head)
      else if Outside(s1, t) then s1.(source := s.source[p := Create])
      else s1
    case CreateBlock(p, success) =>
      if success then Take(s.(made := s.made + 1), p, POOL + s.made)
      else Put(s, p, Q.Produce(At(s, p), Q.NoMemory)).(source := s.source[p := Pool])
    case Dequeue(p, t, max) => Put(s, p, At(s, p).(q := T.Call(s.queues[p].q, t, max)))
    case Ticket(p, t) => Put(s, p, Q.Ticket(At(s, p), t))
    case Consume(p, t) => Put(s, p, Q.Consume(At(s, p), t))
    case Release(p, t) =>
      Put(s, p, Q.Consume(At(s, p), t)).(free := F.CallAdd(s.free, t, s.queues[p].con[t].id))
    case AddToList(t) => s.(free := F.Step(s.free, t))
  }

  ghost predicate Init(s: State) {
    F.Init(s.free) && s.drawn == s.made == 0 && s.queues == [] && s.owner == [] && s.source == []
  }

  ghost predicate Next(s: State, s': State) {
    exists m :: CanDo(s, m) && s' == Do(s, m)
  }

  ghost predicate Timely(s: State) {
    forall p :: 0 <= p < |s.queues| ==> T.Timely(s.queues[p].q)
  }

  ghost predicate NextAt(run: seq<State>, i: nat)
    requires i + 1 < |run|
  {
    Next(run[i], run[i + 1])
  }

  ghost predicate Run(run: seq<State>) {
    && |run| > 0 && Init(run[0])
    && (forall i :: 0 <= i < |run| - 1 ==> NextAt(run, i))
    && (forall i :: 0 <= i < |run| ==> Timely(run[i]))
  }

  // ---------------------------------------------------------------- invariant

  /** The block was handed out by the initial pool, or created. */
  predicate Issued(s: State, id: BlockId) {
    if id < POOL then id < s.drawn else id - POOL < s.made
  }

  predicate InUse(s: State, id: BlockId) {
    exists p :: 0 <= p < |s.queues| && Holds(s, p, id)
  }

  /** Every block issued is used by exactly one producer or is in the free list's hands; no other block is anywhere. */
  ghost predicate BlocksOk(s: State) {
    && (forall p, id :: 0 <= p < |s.queues| && Holds(s, p, id) ==> Issued(s, id) && s.free.Place(id) == F.Out)
    && (forall p, r, id :: 0 <= p < r < |s.queues| && Holds(s, p, id) ==> !Holds(s, r, id))
    && (forall id :: s.free.Place(id) != F.Out ==> Issued(s, id))
    && (forall id :: Issued(s, id) && s.free.Place(id) == F.Out ==> InUse(s, id))
  }

  ghost predicate QueuesOk(s: State) {
    && (forall p :: 0 <= p < |s.queues| ==> ImplicitRuns.Sound(At(s, p)))
    && (forall p :: 0 <= p < |s.queues| ==> s.queues[p].q.pc.Keys == s.free.pc.Keys)
  }

  ghost predicate SourceOk(s: State, p: nat)
    requires Shape(s) && p < |s.queues|
  {
    && s.owner[p] in s.free.pc
    && (s.source[p] != Pool ==> s.queues[p].prod.Requisition?)
    && (s.source[p] == List <==> FreeListLaws.InTryGet(s.free.pc[s.owner[p]]))
  }

  predicate Searches(s: State, p: nat, t: Thread) {
    Shape(s) && p < |s.queues| && s.owner[p] == t && s.source[p] == List
  }

  /** Only producers in requisition_block search the free list. */
  ghost predicate ThreadsOk(s: State)
    requires Shape(s)
  {
    && (forall p, r :: 0 <= p < r < |s.queues| ==> s.owner[p] != s.owner[r])
    && (forall p :: 0 <= p < |s.queues| ==> SourceOk(s, p))
    && (forall t :: t in s.free.pc && FreeListLaws.InTryGet(s.free.pc[t]) ==> exists p :: 0 <= p < |s.queues| && Searches(s, p, t))
  }

  ghost predicate Inv(s: State) {
    Shape(s) && F.Inv(s.free) && QueuesOk(s) && BlocksOk(s) && ThreadsOk(s)
  }

  // ---------------------------------------------------------------- the free list moves

  /** The only step that gives a node into the clients' hands is the one that returns it. */
  lemma StepOuts(f: F.State, t: Thread, n: F.Node)
    requires F.Inv(f) && t in f.pc
    ensures F.Step(f, t).Place(n) == F.Out <==> f.Place(n) == F.Out || f.pc[t] == F.DropTwo(n)
  {
    hide F.Act;
    if F.Target(f.pc[t]) == Some(n) {
      FreeListSteps.ViewHolds(f, t, n);
      ActOuts(t, n, F.Look(f, t, n));
    }
  }

  lemma ActOuts(t: Thread, n: F.Node, v: F.View)
    requires F.Target(v.pc) == Some(n) && FreeListSteps.ViewOk(v, n, t)
    ensures F.Act(t, n, v).place == F.Out <==> v.place == F.Out || v.pc == F.DropTwo(n)
  {
  }

  lemma SearchHoldsNode(f: F.State, t: Thread)
    requires F.Inv(f) && t in f.pc && f.pc[t].DropTwo?
    ensures f.Place(f.pc[t].head) == F.Popped(t)
  {
    assert F.ThreadOk(f, t);
  }

  // ---------------------------------------------------------------- who has which block

  lemma BlocksKept(s: State, s': State)
    requires BlocksOk(s) && forall r, n :: Holds(s', r, n) <==> Holds(s, r, n)
    requires |s.queues| <= |s'.queues|
    requires forall n :: Issued(s', n) <==> Issued(s, n)
    requires forall n :: s'.free.Place(n) == F.Out <==> s.free.Place(n) == F.Out
    ensures BlocksOk(s')
  {
    forall n | Issued(s', n) && s'.free.Place(n) == F.Out ensures InUse(s', n) {
      assert InUse(s, n);
      var p :| 0 <= p < |s.queues| && Holds(s, p, n);
      assert Holds(s', p, n);
    }
  }

  lemma BlocksTaken(s: State, s': State, p: nat, id: BlockId)
    requires BlocksOk(s) && p < |s.queues| == |s'.queues|
    requires forall r, n :: Holds(s', r, n) <==> Holds(s, r, n) || (r == p && n == id)
    requires !InUse(s, id) && Issued(s', id) && s'.free.Place(id) == F.Out
    requires forall n :: n != id ==> (Issued(s', n) <==> Issued(s, n))
    requires forall n :: n != id ==> (s'.free.Place(n) == F.Out <==> s.free.Place(n) == F.Out)
    ensures BlocksOk(s')
  {
    assert Holds(s', p, id);
    forall n | Issued(s', n) && s'.free.Place(n) == F.Out ensures InUse(s', n) {
      if n != id {
        assert InUse(s, n);
        var r :| 0 <= r < |s.queues| && Holds(s, r, n);
        assert Holds(s', r, n);
      }
    }
    forall r, u, n | 0 <= r < u < |s'.queues| && Holds(s', r, n) ensures !Holds(s', u, n) {
      if n == id {
        assert !Holds(s, r, id) && !Holds(s, u, id);
      }
    }
  }

  lemma BlocksGiven(s: State, s': State, p: nat, id: BlockId)
    requires BlocksOk(s) && p < |s.queues| == |s'.queues| && Holds(s, p, id)
    requires forall r, n :: Holds(s', r, n) <==> Holds(s, r, n) && !(r == p && n == id)
    requires s'.free.Place(id) != F.Out
    requires forall n :: Issued(s', n) <==> Issued(s, n)
    requires forall n :: n != id ==> (s'.free.Place(n) == F.Out <==> s.free.Place(n) == F.Out)
    ensures BlocksOk(s')
  {
    forall n | Issued(s', n) && s'.free.Place(n) == F.Out ensures InUse(s', n) {
      assert InUse(s, n);
      var r :| 0 <= r < |s.queues| && Holds(s, r, n);
      assert Holds(s', r, n);
    }
    forall r, n | 0 <= r < |s'.queues| && Holds(s', r, n) ensures n != id {
      assert Holds(s, r, n);
    }
  }

  // ---------------------------------------------------------------- one producer moves

  /** From s to s' producer p makes a step of its own, to q. */
  ghost predicate Steps(s: State, s': State, p: nat, q: Q.State) {
    && p < |s.queues| && Q.Next(At(s, p), q) && Local(At(s, p), q) && q.q.pc.Keys == s.queues[p].q.pc.Keys
    && s'.queues == s.queues[p := q] && s'.mem == q.mem && s'.count == q.count
  }

  /** What producer p does in its own blocks happens elsewhere for producer r. */
  lemma OthersSeeNothing(s: State, s': State, p: nat, q: Q.State, r: nat)
    requires Steps(s, s', p, q) && BlocksOk(s) && r < |s.queues| && r != p
    ensures Q.Elsewhere(At(s, r), At(s', r))
  {
    hide Q.Next;
    forall id | id in s.queues[r].role ensures id !in s.queues[p].role {
      assert Holds(s, r, id);
      assert r < p ==> !Holds(s, p, id);
      assert p < r && id in s.queues[p].role ==> Holds(s, p, id);
    }
    LocalIsElsewhere(At(s, p), q, At(s, r));
    assert At(s', r) == At(s, r).(mem := q.mem, count := q.count);
  }

  lemma LocalIsElsewhere(sp: Q.State, q: Q.State, r: Q.State)
    requires Local(sp, q) && r.mem == sp.mem && r.count == sp.count && forall id :: id in r.role ==> id !in sp.role
    ensures Q.Elsewhere(r, r.(mem := q.mem, count := q.count))
  {
  }

  lemma ElsewhereIsNext(r: Q.State, r': Q.State)
    requires Q.Elsewhere(r, r')
    ensures Q.Next(r, r')
  {
    hide Q.Elsewhere, Q.CanProduce, Q.CanConsume, Q.Produce, Q.Consume, Q.Call, Q.Ticket;
  }

  /** One producer or one of its consumers makes a step; for all others that happens elsewhere. */
  ghost predicate OneSteps(s: State, s': State, p: nat) {
    && |s.queues| <= |s'.queues|
    && forall r :: 0 <= r < |s.queues| ==>
        Q.Next(At(s, r), At(s', r)) && (r != p ==> Q.Elsewhere(At(s, r), At(s', r)))
  }

  ghost predicate OneStep(s: State, s': State) {
    exists p :: OneSteps(s, s', p)
  }

  lemma StepsAll(s: State, s': State, p: nat, q: Q.State)
    requires Steps(s, s', p, q) && BlocksOk(s)
    ensures OneStep(s, s')
  {
    hide Q.Next, Q.Elsewhere, Local, BlocksOk;
    forall r | 0 <= r < |s.queues|
      ensures Q.Next(At(s, r), At(s', r)) && (r != p ==> Q.Elsewhere(At(s, r), At(s', r)))
    {
      if r == p {
        assert At(s', p) == q;
      } else {
        OthersSeeNothing(s, s', p, q, r);
        ElsewhereIsNext(At(s, r), At(s', r));
      }
    }
    assert OneSteps(s, s', p);
  }

  lemma RestsAll(s: State, s': State)
    requires |s.queues| <= |s'.queues| && s'.mem == s.mem && s'.count == s.count
    requires forall r :: 0 <= r < |s.queues| ==> s'.queues[r] == s.queues[r]
    ensures OneStep(s, s')
  {
    hide Q.Next, Q.Elsewhere;
    forall r | 0 <= r < |s.queues| ensures Q.Next(At(s, r), At(s', r)) && Q.Elsewhere(At(s, r), At(s', r)) {
      assert At(s', r) == At(s, r);
      NothingHappens(At(s, r));
      ElsewhereIsNext(At(s, r), At(s', r));
    }
    assert OneSteps(s, s', 0);
  }

  lemma NothingHappens(r: Q.State)
    ensures Q.Elsewhere(r, r)
  {
  }

  lemma QueuesAfter(s: State, s': State)
    requires QueuesOk(s) && Timely(s) && OneStep(s, s') && |s'.queues| == |s.queues|
    requires forall r :: 0 <= r < |s'.queues| ==> s'.queues[r].q.pc.Keys == s'.free.pc.Keys
    ensures QueuesOk(s')
  {
    hide Q.Next, ImplicitRuns.Sound, T.Timely, Q.Elsewhere;
    forall r | 0 <= r < |s'.queues| ensures ImplicitRuns.Sound(At(s', r)) {
      assert T.Timely(At(s, r).q) && Q.Next(At(s, r), At(s', r));
      ImplicitRuns.NextIsSound(At(s, r), At(s', r));
    }
  }

  lemma ThreadsKept(s: State, s': State, p: nat)
    requires Shape(s) && Shape(s') && ThreadsOk(s) && s'.owner == s.owner && p < |s.queues|
    requires s'.free.pc.Keys == s.free.pc.Keys
    requires forall t :: t in s.free.pc && t != s.owner[p] ==> FreeListLaws.InTryGet(s'.free.pc[t]) == FreeListLaws.InTryGet(s.free.pc[t])
    requires forall r :: 0 <= r < |s.queues| && r != p ==> s'.source[r] == s.source[r] && s'.queues[r].prod == s.queues[r].prod
    requires SourceOk(s', p)
    ensures ThreadsOk(s')
  {
    hide FreeListLaws.InTryGet;
    forall r | 0 <= r < |s'.queues| ensures SourceOk(s', r) {
      assert SourceOk(s, r);
    }
    forall t | t in s'.free.pc && FreeListLaws.InTryGet(s'.free.pc[t]) ensures exists r :: 0 <= r < |s'.queues| && Searches(s', r, t) {
      if t == s.owner[p] {
        assert Searches(s', p, t);
      } else {
        var r :| 0 <= r < |s.queues| && Searches(s, r, t);
        assert Searches(s', r, t);
      }
    }
  }

  /** Nobody enters or leaves the free list's try_get, or a producer's requisition_block. */
  lemma ThreadsSame(s: State, s': State)
    requires Shape(s) && Shape(s') && ThreadsOk(s) && s'.owner == s.owner && s'.source == s.source
    requires s'.free.pc.Keys == s.free.pc.Keys
    requires forall t :: t in s.free.pc ==> FreeListLaws.InTryGet(s'.free.pc[t]) == FreeListLaws.InTryGet(s.free.pc[t])
    requires forall r :: 0 <= r < |s.queues| && s.queues[r].prod.Requisition? ==> s'.queues[r].prod.Requisition?
    ensures ThreadsOk(s')
  {
    hide FreeListLaws.InTryGet;
    forall r | 0 <= r < |s'.queues| ensures SourceOk(s', r) {
      assert SourceOk(s, r);
    }
    forall t | t in s'.free.pc && FreeListLaws.InTryGet(s'.free.pc[t]) ensures exists r :: 0 <= r < |s'.queues| && Searches(s', r, t) {
      var r :| 0 <= r < |s.queues| && Searches(s, r, t);
      assert Searches(s', r, t);
    }
  }
}
