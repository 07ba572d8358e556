/** What calls of enqueue and dequeue come to in the whole queue. */
module ConcurrentCalls {
  import opened Wrappers
  import opened Footprint
  import Words
  import F = FreeList
  import FreeListLaws
  import Q = ImplicitQueue
  import ImplicitCalls
  import ImplicitConsumers
  import ImplicitRuns
  import T = Tickets
  import TicketLaws
  import X = BlockIndex
  import opened ConcurrentQueue
  import opened ConcurrentMoves
  import opened ConcurrentRuns

  // ---------------------------------------------------------------- what an enqueue comes to

  /** From run[i] to run[j] producer p carries out one call, to enqueue these items. */
  ghost predicate Calls(run: seq<State>, i: nat, j: nat, p: nat, items: seq<Q.Item>) {
    && i + 1 < j < |run| && CanDo(run[i], Enqueue(p, items)) && run[i + 1] == Do(run[i], Enqueue(p, items))
    && (forall k :: i < k <= j ==> p < |run[k].queues|)
    && (forall k :: i < k < j ==> run[k].queues[p].prod != Q.Ready) && run[j].queues[p].prod == Q.Ready
  }

  /** A step of producer p makes its call fail: no room, a full index that cannot grow, or a block that cannot be created. */
  ghost predicate Fails(s: State, s': State, p: nat) {
    && p < |s.queues| && p < |s'.queues| && ImplicitCalls.Refuses(At(s, p), At(s', p))
    && (s.queues[p].prod.Requisition? ==>
          s.drawn >= POOL && CanDo(s, CreateBlock(p, false)) && s' == Do(s, CreateBlock(p, false)))
  }

  ghost predicate FailsAt(run: seq<State>, k: nat, p: nat)
    requires k + 1 < |run|
  {
    Fails(run[k], run[k + 1], p)
  }

  ghost predicate FailsIn(run: seq<State>, i: nat, j: nat, p: nat)
    requires j < |run|
  {
    exists k :: i < k < j && FailsAt(run, k, p)
  }

  /** The three sources of blocks are tried in turn: a producer that gets none was refused by the last one. */
  lemma RefusedByAll(s: State, m: Move, p: nat)
    requires Inv(s) && Timely(s) && CanDo(s, m) && p < |s.queues| && s.queues[p].prod.Requisition?
    requires p < |Do(s, m).queues| && ImplicitCalls.Refuses(At(s, p), At(Do(s, m), p))
    ensures m == CreateBlock(p, false)
  {
    hide Inv, Timely, Do, CanDo, X.Shape;
    match m
    case DrawBlock(_) => DrawRefusesNone(s, m, p);
    case CreateBlock(_, _) => CreateRefuses(s, m, p);
    case SearchList(_) => SearchRefusesNone(s, m, p);
    case _ => OthersObtainNothing(s, m, p);
  }

  lemma TakingIsNoRefusal(q: Q.State, id: BlockId)
    requires q.prod.Requisition? && id !in q.role
    ensures !ImplicitCalls.NoNewBlock(q, Taking(q, id))
  {
    TakingIsNext(q, id);
  }

  lemma NotUsedNotHeld(s: State, p: nat, id: BlockId)
    requires p < |s.queues| && !InUse(s, id)
    ensures id !in At(s, p).role
  {
    assert !Holds(s, p, id);
  }

  lemma DrawRefusesNone(s: State, m: Move, p: nat)
    requires Inv(s) && Timely(s) && CanDo(s, m) && m.DrawBlock? && p < |s.queues| && s.queues[p].prod.Requisition?
    ensures p < |Do(s, m).queues| && !ImplicitCalls.Refuses(At(s, p), At(Do(s, m), p))
  {
    hide Inv, Timely, InUse, FreeListLaws.InTryGet, Q.Init, ImplicitCalls.NoNewBlock, ImplicitCalls.NoNewIndex, X.Shape, Taking;
    DrawBlockKeeps(s, m);
    if m.p == p && s.drawn < POOL {
      NotUsedNotHeld(s, p, s.drawn);
      TakingIsNoRefusal(At(s, p), s.drawn);
      assert At(Do(s, m), p) == Taking(At(s, p), s.drawn);
    }
  }

  lemma CreateRefuses(s: State, m: Move, p: nat)
    requires Inv(s) && Timely(s) && CanDo(s, m) && m.CreateBlock? && p < |s.queues| && s.queues[p].prod.Requisition?
    requires p < |Do(s, m).queues| && ImplicitCalls.Refuses(At(s, p), At(Do(s, m), p))
    ensures m == CreateBlock(p, false)
  {
    hide Inv, Timely, InUse, FreeListLaws.InTryGet, Q.Init, ImplicitCalls.NoNewBlock, ImplicitCalls.NoNewIndex, X.Shape, Taking, Q.Produce;
    CreateBlockKeeps(s, m);
    if m.p == p && m.success {
      NotUsedNotHeld(s, p, POOL + s.made);
      TakingIsNoRefusal(At(s, p), POOL + s.made);
    }
  }

  lemma SearchRefusesNone(s: State, m: Move, p: nat)
    requires Inv(s) && Timely(s) && CanDo(s, m) && m.SearchList? && p < |s.queues| && s.queues[p].prod.Requisition?
    ensures p < |Do(s, m).queues| && !ImplicitCalls.Refuses(At(s, p), At(Do(s, m), p))
  {
    hide Inv, Timely, InUse, FreeListLaws.InTryGet, Q.Init, ImplicitCalls.NoNewBlock, ImplicitCalls.NoNewIndex, X.Shape, Taking, F.Step;
    SearchListKeeps(s, m);
    var pc := s.free.pc[s.owner[m.p]];
    if m.p == p && pc.DropTwo? {
      NotUsedNotHeld(s, p, pc.head);
      TakingIsNoRefusal(At(s, p), pc.head);
      assert At(Do(s, m), p) == Taking(At(s, p), pc.head);
    }
  }

  /** With nothing left in the pool a producer searches the free list and then has a block created. */
  ghost predicate PoolFirst(s: State) {
    Shape(s) && forall p :: 0 <= p < |s.queues| && (s.source[p] == List || s.source[p] == Create) ==> s.drawn >= POOL
  }

  lemma PoolStaysFirst(s: State, m: Move)
    requires CanDo(s, m) && PoolFirst(s)
    ensures PoolFirst(Do(s, m))
  {
    hide Q.CanProduce, Q.CanConsume, Q.Produce, Q.Consume, Q.Ticket, Q.Call, F.Step, FreeListLaws.InTryGet, Q.Init, Taking, F.CallAdd,
      F.CallTryGet, X.Shape;
  }

  lemma {:induction false} RunPoolFirst(run: seq<State>, i: nat)
    requires Run(run) && i < |run|
    ensures PoolFirst(run[i])
  {
    hide Do, CanDo, Timely, PoolFirst;
    if i == 0 {
      InitPoolFirst(run[0]);
    } else {
      RunPoolFirst(run, i - 1);
      assert NextAt(run, i - 1);
      var m :| CanDo(run[i - 1], m) && run[i] == Do(run[i - 1], m);
      PoolStaysFirst(run[i - 1], m);
    }
  }

  lemma InitPoolFirst(s: State)
    requires Init(s)
    ensures PoolFirst(s)
  {
  }

  lemma RefusalIsFailure(run: seq<State>, k: nat, p: nat)
    requires Run(run) && k + 1 < |run| && p < |run[k].queues| && p < |run[k + 1].queues|
    ensures FailsAt(run, k, p) <==> ImplicitCalls.Refuses(At(run[k], p), At(run[k + 1], p))
  {
    hide Run, Inv, Timely, Do, CanDo, ImplicitCalls.Refuses, PoolFirst;
    if ImplicitCalls.Refuses(At(run[k], p), At(run[k + 1], p)) && run[k].queues[p].prod.Requisition? {
      RunSteps(run, k);
      var m :| CanDo(run[k], m) && run[k + 1] == Do(run[k], m);
      RefusedByAll(run[k], m, p);
      RunPoolFirst(run, k);
      PoolIsDrawn(run[k], p);
    }
  }

  lemma PoolIsDrawn(s: State, p: nat)
    requires CanDo(s, CreateBlock(p, false)) && PoolFirst(s)
    ensures s.drawn >= POOL
  {
  }

  /**
    An enqueue by any producer appends exactly the items of the call, all of them, unless a step of it finds no room, an
    index that is full and cannot grow, or no block in pool, list and memory; then the queue is as before.
  */
  lemma EnqueueIsAllOrNothing(run: seq<State>, i: nat, j: nat, p: nat, items: seq<Q.Item>)
    requires Run(run) && Calls(run, i, j, p, items)
    ensures p < |run[i].queues|
    ensures run[j].queues[p].history
            == if FailsIn(run, i, j, p) then run[i].queues[p].history else run[i].queues[p].history + items
  {
    hide Run, Q.Run, Inv, ImplicitCalls.Refuses, Q.Call, FailsAt, Do;
    var b := QueueRuns(run, i, p);
    var life := Life(run, b, p);
    EnqueueStarts(run[i], p, items);
    assert ImplicitCalls.Calls(life, i - b, items);
    assert ImplicitCalls.OneCall(life, i - b, j - b);
    ImplicitCalls.EnqueueIsAllOrNothing(life, i - b, j - b, items);
    FailuresAre(run, b, i, j, p);
  }

  lemma EnqueueStarts(s: State, p: nat, items: seq<Q.Item>)
    requires CanDo(s, Enqueue(p, items))
    ensures p < |s.queues| == |Do(s, Enqueue(p, items)).queues| && s.queues[p].prod == Q.Ready
    ensures At(Do(s, Enqueue(p, items)), p) == Q.Call(At(s, p), items)
  {
    hide Q.Call;
  }

  lemma FailuresAre(run: seq<State>, b: nat, i: nat, j: nat, p: nat)
    requires Run(run) && Lives(run, b, p) && b <= i < j < |run|
    ensures FailsIn(run, i, j, p) <==> ImplicitCalls.RefusedIn(Life(run, b, p), i - b, j - b)
  {
    hide Run, FailsAt, ImplicitCalls.Refuses;
    var life := Life(run, b, p);
    forall k: nat | i < k < j ensures FailsAt(run, k, p) <==> ImplicitCalls.RefusesAt(life, k - b) {
      RefusalIsFailure(run, k, p);
    }
    if ImplicitCalls.RefusedIn(life, i - b, j - b) {
      var k :| i - b < k < j - b && ImplicitCalls.RefusesAt(life, k);
      assert FailsAt(run, k + b, p);
    }
  }

  /** How producer p comes to search the free list, and to stop without a block. */
  ghost predicate SourceMovesTo(s: State, s': State, p: nat)
    requires Shape(s) && p < |s.queues|
  {
    var t := s.owner[p];
    && p < |s'.source| && p < |s'.owner| && s'.owner[p] == t
    && (s'.source[p] == List ==> s.source[p] == List || (Outside(s, t) && s'.free == F.CallTryGet(s.free, t)))
    && (s'.source[p] == Create ==>
          s.source[p] == Create
          || (s.source[p] == List && t in s.free.pc && FreeListLaws.InTryGet(s.free.pc[t]) && !s.free.pc[t].DropTwo?
              && s'.free == F.Step(s.free, t) && Outside(s', t)))
  }

  lemma SourceSteps(s: State, m: Move, p: nat)
    requires CanDo(s, m) && p < |s.queues|
    ensures SourceMovesTo(s, Do(s, m), p)
  {
    hide CanDo, Do;
    if m.LoadPoolIndex? || m.DrawBlock? || m.SearchList? || m.CreateBlock? {
      SourceChanges(s, m, p);
    } else {
      SourceStays(s, m, p);
    }
  }

  lemma SourceChanges(s: State, m: Move, p: nat)
    requires CanDo(s, m) && p < |s.queues| && (m.LoadPoolIndex? || m.DrawBlock? || m.SearchList? || m.CreateBlock?)
    ensures SourceMovesTo(s, Do(s, m), p)
  {
    hide Q.Produce, F.Step, FreeListLaws.InTryGet, Taking, F.CallTryGet, X.Shape;
  }

  lemma SourceStays(s: State, m: Move, p: nat)
    requires CanDo(s, m) && p < |s.queues| && !(m.LoadPoolIndex? || m.DrawBlock? || m.SearchList? || m.CreateBlock?)
    ensures SourceMovesTo(s, Do(s, m), p)
  {
    hide Q.CanProduce, Q.CanConsume, Q.Produce, Q.Consume, Q.Ticket, Q.Call, F.Step, FreeListLaws.InTryGet, Q.Init, F.CallAdd, X.Shape;
  }

  /** Since run[c] thread t has been in one call of try_get. */
  ghost predicate Searching(run: seq<State>, c: nat, k: nat, t: Thread) {
    && c < k < |run| && t in run[c].free.pc && run[c].free.pc[t] == F.Idle && run[c + 1].free == F.CallTryGet(run[c].free, t)
    && forall g :: c < g <= k ==> t in run[g].free.pc && run[g].free.pc[t] != F.Idle
  }

  ghost predicate ListWasEmpty(run: seq<State>, g: nat, k: nat) {
    exists h :: g < h < k && h < |run| && run[h].free.head == None
  }

  lemma {:induction false} SearchHistory(run: seq<State>, g: nat, k: nat, p: nat)
    requires Run(run) && g <= k < |run| && p < |run[g].source| && run[g].source[p] == Pool
    ensures p < |run[k].source| == |run[k].owner|
    ensures run[k].source[p] == List ==> exists c :: g <= c && Searching(run, c, k, run[k].owner[p])
    ensures run[k].source[p] == Create ==> ListWasEmpty(run, g, k)
  {
    hide Run, Inv, Timely, Do, CanDo, F.Step, F.Run, Searching, ListWasEmpty, FreeListLaws.InTryGet;
    RunHasInv(run, k);
    if g == k {
      ShapeOf(run[k]);
    } else {
      SearchHistory(run, g, k - 1, p);
      RunSteps(run, k - 1);
      var s, s' := run[k - 1], run[k];
      ShapeOf(s);
      ShapeOf(s');
      var m :| CanDo(s, m) && s' == Do(s, m);
      SourceSteps(s, m, p);
      var t := s.owner[p];
      if s'.source[p] == List {
        InTryGetNow(s', p);
        if s.source[p] == List {
          var c :| g <= c && Searching(run, c, k - 1, t);
          SearchingOn(run, c, k, t);
        } else {
          SearchBegins(run, k, t);
        }
      } else if s'.source[p] == Create {
        if s.source[p] == Create {
          EmptyLater(run, g, g, k - 1, k);
        } else {
          var c :| g <= c && Searching(run, c, k - 1, t);
          SearchEnds(run, c, k - 1, t);
          EmptyLater(run, c, g, k, k);
        }
      }
    }
  }

  lemma SearchingOn(run: seq<State>, c: nat, k: nat, t: Thread)
    requires 0 < k < |run| && Searching(run, c, k - 1, t) && t in run[k].free.pc && run[k].free.pc[t] != F.Idle
    ensures Searching(run, c, k, t)
  {
  }

  lemma SearchBegins(run: seq<State>, k: nat, t: Thread)
    requires 0 < k < |run| && Outside(run[k - 1], t) && run[k].free == F.CallTryGet(run[k - 1].free, t)
    ensures Searching(run, k - 1, k, t)
  {
  }

  lemma EmptyLater(run: seq<State>, g: nat, g': nat, k: nat, k': nat)
    requires ListWasEmpty(run, g, k) && g' <= g && k <= k'
    ensures ListWasEmpty(run, g', k')
  {
    var h :| g < h < k && h < |run| && run[h].free.head == None;
    assert g' < h < k';
  }

  lemma ShapeOf(s: State)
    requires Inv(s)
    ensures Shape(s)
  {
  }

  lemma InTryGetNow(s: State, p: nat)
    requires Inv(s) && p < |s.source| && s.source[p] == List
    ensures Shape(s) && s.owner[p] in s.free.pc && s.free.pc[s.owner[p]] != F.Idle
  {
    hide F.Inv, QueuesOk, BlocksOk;
    assert SourceOk(s, p);
  }

  lemma SearchEnds(run: seq<State>, c: nat, k: nat, t: Thread)
    requires Run(run) && Searching(run, c, k, t) && t in run[k].free.pc && !run[k].free.pc[t].DropTwo?
    requires k + 1 < |run| && run[k + 1].free == F.Step(run[k].free, t) && Outside(run[k + 1], t)
    ensures ListWasEmpty(run, c, k + 1)
  {
    hide Run, F.Run, F.Step;
    FreeListRuns(run);
    var frees := Frees(run);
    FreeListLaws.NullIsSeen(frees, c, k, t);
    FreeListLaws.StepSeesNull(frees[k], t);
    if frees[k].head == None {
      assert c < k < k + 1 && run[k].free.head == None;
    } else {
      var h :| c < h < k && h < |frees| && frees[h].head == None;
      assert c < h < k + 1 && run[h].free.head == None;
    }
  }

  /**
    Memory is asked for a block only when there is none to be had otherwise: the pool is used up, and since the producer
    began to look for a block the free list was empty at some moment.
  */
  lemma CreationIsLast(run: seq<State>, g: nat, k: nat, p: nat)
    requires Run(run) && g < k < |run| && p < |run[g].source| && run[g].source[p] == Pool
    requires p < |run[k].source| && run[k].source[p] == Create
    ensures run[k].drawn >= POOL && ListWasEmpty(run, g, k)
  {
    hide Run, Inv, PoolFirst, ListWasEmpty;
    SearchHistory(run, g, k, p);
    RunPoolFirst(run, k);
    PoolUsed(run[k], p);
  }

  lemma PoolUsed(s: State, p: nat)
    requires PoolFirst(s) && p < |s.source| && s.source[p] == Create
    ensures s.drawn >= POOL
  {
  }

  // ---------------------------------------------------------------- what a dequeue comes to

  /** n moves of thread t at producer p, one after the other. */
  ghost predicate Undisturbed(run: seq<State>, i: nat, n: nat, p: nat, t: Thread) {
    i + n < |run| && forall k :: i <= k < i + n ==> TicketAt(run, k, p, t)
  }

  ghost predicate TicketAt(run: seq<State>, k: nat, p: nat, t: Thread) {
    k + 1 < |run| && CanDo(run[k], Ticket(p, t)) && run[k + 1] == Do(run[k], Ticket(p, t))
  }

  lemma {:induction false} TicketsAdd(run: seq<State>, i: nat, n: nat, p: nat, t: Thread)
    requires Undisturbed(run, i, n, p, t) && p < |run[i].queues| && t in run[i].queues[p].q.pc
    ensures p < |run[i + n].queues| && run[i + n].queues[p].q == TicketLaws.Steps(run[i].queues[p].q, t, n)
  {
    hide CanDo, Do, T.Step;
    if n > 0 {
      assert TicketAt(run, i + n - 1, p, t);
      TicketsAdd(run, i, n - 1, p, t);
      TicketSteps(run[i + n - 1], p, t);
      TicketLaws.StepsAdd(run[i].queues[p].q, t, n - 1, 1);
      OneTicket(TicketLaws.Steps(run[i].queues[p].q, t, n - 1), t);
    }
  }

  lemma TicketSteps(s: State, p: nat, t: Thread)
    requires CanDo(s, Ticket(p, t))
    ensures p < |s.queues| == |Do(s, Ticket(p, t)).queues| && t in s.queues[p].q.pc
    ensures Do(s, Ticket(p, t)).queues[p].q == T.Step(s.queues[p].q, t)
  {
    hide T.Step;
  }

  lemma OneTicket(q: T.State, t: Thread)
    requires t in q.pc
    ensures TicketLaws.Steps(q, t, 1) == T.Step(q, t)
  {
    hide T.Act;
    assert TicketLaws.Steps(q, t, 1) == TicketLaws.Steps(T.Step(q, t), t, 0);
  }

  /**
    A dequeue of at most max items from producer p that nobody disturbs claims as many as there are, up to max, and then
    delivers exactly those it claimed (ImplicitOrder.ClaimIsDelivered); from an empty queue it returns at once.
  */
  lemma QuietDequeue(run: seq<State>, i: nat, p: nat, t: Thread, max: nat)
    requires Run(run) && i + 1 < |run| && CanDo(run[i], Dequeue(p, t, max)) && run[i + 1] == Do(run[i], Dequeue(p, t, max))
    requires forall u :: u in run[i].queues[p].q.pc ==> run[i].queues[p].q.pc[u].Idle?
    ensures
      var sh := run[i].queues[p].q.sh;
      && sh.head <= sh.tail
      && if sh.head == sh.tail then
           Undisturbed(run, i + 1, 3, p, t) ==> p < |run[i + 4].queues| && run[i + 4].queues[p].q == run[i].queues[p].q
         else
           Undisturbed(run, i + 1, 6, p, t) ==>
             && p < |run[i + 7].queues|
             && run[i + 7].queues[p].q.pc
                == run[i].queues[p].q.pc[t := T.Claimed(sh.head, T.Min(max, sh.tail - sh.head))]
  {
    hide Run, Q.Run, T.Run, Inv, TicketLaws.Steps, Undisturbed, Do, CanDo;
    DequeueStarts(run[i], p, t, max);
    var b := QueueRuns(run, i, p);
    var life := Life(run, b, p);
    ImplicitRuns.TailNearHead(life, i - b);
    QuietSteps(life, i - b, t, max);
    if Undisturbed(run, i + 1, 3, p, t) {
      TicketsAdd(run, i + 1, 3, p, t);
    }
    if Undisturbed(run, i + 1, 6, p, t) {
      TicketsAdd(run, i + 1, 6, p, t);
    }
  }

  lemma DequeueStarts(s: State, p: nat, t: Thread, max: nat)
    requires CanDo(s, Dequeue(p, t, max))
    ensures p < |s.queues| == |Do(s, Dequeue(p, t, max)).queues| && t in s.queues[p].q.pc && max > 0
    ensures Do(s, Dequeue(p, t, max)).queues[p].q == T.Call(s.queues[p].q, t, max) && s.queues[p].q.pc[t] == T.Idle
  {
  }

  lemma QuietSteps(life: seq<Q.State>, i: nat, t: Thread, max: nat)
    requires Q.Run(life) && i < |life| && t in life[i].q.pc && max > 0
    requires forall u :: u in life[i].q.pc ==> life[i].q.pc[u].Idle?
    requires life[i].q.sh.head <= life[i].q.sh.tail < life[i].q.sh.head + Words.HALF
    ensures
      var q := life[i].q;
      if q.sh.tail == q.sh.head then TicketLaws.Steps(T.Call(q, t, max), t, 3) == q
      else TicketLaws.Steps(T.Call(q, t, max), t, 6).pc == q.pc[t := T.Claimed(q.sh.head, T.Min(max, q.sh.tail - q.sh.head))]
  {
    hide Q.Run, TicketLaws.Steps, T.Inv, Q.Inv, T.Call, ImplicitRuns.Indexed, ImplicitRuns.Stranded;
    var q := life[i].q;
    assert T.Inv(q) by {
      ImplicitRuns.RunHasInv(life, i);
      ImplicitCalls.IndexedFields(life[i]);
      ImplicitConsumers.InvIndex(ImplicitRuns.Indexed(life[i]));
    }
    TicketLaws.QuietFrom(q, t, max);
  }
}
