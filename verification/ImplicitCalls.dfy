/** What a call of enqueue comes to, and what is left when nothing is in flight. */
module ImplicitCalls {
  import opened Wrappers
  import opened Blocks
  import T = Tickets
  import X = BlockIndex
  import opened ImplicitQueue
  import opened ImplicitConsumers
  import opened ImplicitBlocks
  import opened ImplicitProducers
  import opened ImplicitRuns
  import opened ImplicitOrder

  // ---------------------------------------------------------------- enqueue is all or nothing

  /** From run[i] to run[j] the producer carries out at most one call. */
  ghost predicate OneCall(run: seq<State>, i: nat, j: nat) {
    && i < j < |run| && run[i].prod.Ready?
    && forall k :: i < k < j ==> !run[k].prod.Ready?
  }

  /** What a user of the queue, and the queue itself at its next call, can see of the producer. */
  ghost predicate SameQueue(s: State, s': State) {
    && s'.history == s.history && s'.q.sh.tail == s.q.sh.tail && s'.tailBlock == s.tailBlock
    && OnlyLeave(First(s), s.ix.live, s'.ix.live)
  }

  lemma {:induction false} NothingYet(run: seq<State>, i: nat, j: nat)
    requires Run(run) && OneCall(run, i, j)
    ensures j - 1 > i ==> SameQueue(run[i], run[j - 1]) && run[j - 1].todo == run[i + 1].todo
  {
    hide Inv, Run, Next, BlocksFor;
    if j > i + 1 {
      NothingYet(run, i, j - 1);
      IndexedSteps(run, j - 2);
      StepHasEffect(Indexed(run[j - 2]), Indexed(run[j - 1]));
    }
  }

  /** The producer between calls: the index ends with the last block, and every block it owns is one of the index's. */
  ghost predicate AtRest(s: State) {
    && s.ix.next == First(s) && s.ix.raw == None && s.filled == s.history
    && (forall n :: n in s.ix.live ==> n < First(s))
    && (forall id :: id in s.role && !s.role[id].Freed? ==>
          (s.role[id].Live? || s.role[id].Retiring?) && s.role[id].n in s.ix.live && s.ix.live[s.role[id].n] == id)
  }

  lemma ReadyIsAtRest(run: seq<State>, i: nat)
    requires Run(run) && i < |run| && run[i].prod.Ready?
    ensures AtRest(run[i])
  {
    hide Inv, Run, X.Shape, TailOk, BlocksFor, RoomOk;
    RunHasInv(run, i);
    var s := Indexed(run[i]);
    InvProducer(s);
    forall id | id in s.role && !s.role[id].Freed?
      ensures (s.role[id].Live? || s.role[id].Retiring?) && s.role[id].n in s.ix.live && s.ix.live[s.role[id].n] == id
    {
      InvRole(s, id);
    }
  }

  // ---------------------------------------------------------------- when an enqueue fails

  /** In the step from run[i] the producer is called to enqueue these items. */
  ghost predicate Calls(run: seq<State>, i: nat, items: seq<Item>) {
    i + 1 < |run| && run[i].prod == Ready && run[i + 1] == Call(run[i], items)
  }

  /** However the step is explained, no larger index, or no block of memory, was to be had in it. */
  ghost predicate NoNewIndex(s: State, s': State) {
    forall luck :: CanProduce(s, luck) && s' == Produce(s, luck) ==> !luck.NewIndex?
  }

  ghost predicate NoNewBlock(s: State, s': State) {
    forall luck :: CanProduce(s, luck) && s' == Produce(s, luck) ==> !luck.NewBlock?
  }

  /** The producer takes a step that makes its call fail: no room, a full index that cannot grow, or no block. */
  ghost predicate Refuses(s: State, s': State) {
    && s'.prod != s.prod
    && (|| (s.prod.LoadHead? && Full(s.q.sh.head, s.prod.n))
        || (s.prod.TestSlot? && X.Shape(s.ix) && !X.SlotFree(s.ix.entries[NewEntry(s)]) && NoNewIndex(s, s'))
        || (s.prod.Requisition? && NoNewBlock(s, s')))
  }

  ghost predicate RefusesAt(run: seq<State>, k: nat)
    requires k + 1 < |run|
  {
    Refuses(run[k], run[k + 1])
  }

  ghost predicate RefusedIn(run: seq<State>, i: nat, j: nat)
    requires j < |run|
  {
    exists k :: i < k < j && RefusesAt(run, k)
  }

  predicate Advancing(p: Producer) {
    p.LoadHead? || p.TestSlot? || p.StoreKey? || p.StoreTail? || p.Requisition? || p.ResetCount? || p.StoreValue?
    || p.Write? || p.StoreIndex?
  }

  predicate Reverting(p: Producer) {
    p.RewindTail? || p.DropValue? || p.UndoValue? || p.UndoTail? || p.UndoFree?
  }

  lemma CallAdvances(s: State, items: seq<Item>)
    ensures Advancing(Call(s, items).prod) && Call(s, items).todo == items
  {
  }

  lemma NextPlaces(s: State, n: nat)
    ensures Advancing(AfterBlock(s, n)) && (GiveUp(s) == Ready || Reverting(GiveUp(s)))
  {
  }

  /** A producer goes on with its call until it publishes, or a step makes the call fail. */
  lemma ProduceAdvances(s: State, luck: Luck)
    requires CanProduce(s, luck) && Advancing(s.prod)
    ensures
      var s' := Produce(s, luck);
      if Refuses(s, s') then s'.prod == Ready || Reverting(s'.prod)
      else if s.prod.StoreIndex? then s'.prod == Ready && s'.history == s.filled
      else Advancing(s'.prod)
  {
    hide X.Shape, Full, CanProduce, Produce, Refuses;
    if s.prod.LoadHead? {
      LoadHeadGoes(s, luck);
    } else if s.prod.TestSlot? {
      TestSlotGoes(s, luck);
    } else if s.prod.Requisition? {
      RequisitionGoes(s, luck);
    } else {
      OthersGo(s, luck);
    }
  }

  lemma LoadHeadGoes(s: State, luck: Luck)
    requires CanProduce(s, luck) && s.prod.LoadHead?
    ensures
      var s' := Produce(s, luck);
      if Refuses(s, s') then s'.prod == Ready || Reverting(s'.prod) else Advancing(s'.prod)
  {
    hide X.Shape, Full, First;
    NextPlaces(s, 0);
  }

  lemma TestSlotGoes(s: State, luck: Luck)
    requires CanProduce(s, luck) && s.prod.TestSlot?
    ensures
      var s' := Produce(s, luck);
      if Refuses(s, s') then s'.prod == Ready || Reverting(s'.prod) else Advancing(s'.prod)
  {
    hide X.Shape, X.SlotFree, X.Grow, First, GiveUp;
    NextPlaces(s, 0);
    var s' := Produce(s, luck);
    if s'.prod == GiveUp(s) {
      forall l | CanProduce(s, l) && s' == Produce(s, l) ensures !l.NewIndex? {
      }
    }
  }

  lemma RequisitionGoes(s: State, luck: Luck)
    requires CanProduce(s, luck) && s.prod.Requisition?
    ensures
      var s' := Produce(s, luck);
      if Refuses(s, s') then s'.prod == Ready || Reverting(s'.prod) else Advancing(s'.prod)
  {
    hide X.Shape;
    var s' := Produce(s, luck);
    if luck.NewBlock? {
      assert !NoNewBlock(s, s');
    }
  }

  lemma OthersGo(s: State, luck: Luck)
    requires CanProduce(s, luck)
    requires s.prod.StoreKey? || s.prod.StoreTail? || s.prod.ResetCount? || s.prod.StoreValue? || s.prod.Write?
             || s.prod.StoreIndex?
    ensures
      var s' := Produce(s, luck);
      && !Refuses(s, s')
      && if s.prod.StoreIndex? then s'.prod == Ready && s'.history == s.filled else Advancing(s'.prod)
  {
    hide X.Shape, X.StoreKey, X.StoreTail, X.StoreValue, TailEntry, BlockFor, AfterBlock, T.Publish, EndBlock, NoNewBlock,
      NoNewIndex, Full;
    if s.prod.StoreValue? {
      NextPlaces(Produce(s, luck), s.prod.n + 1);
      AfterBlockIs(s, Produce(s, luck), s.prod.n + 1);
    }
  }

  lemma AfterBlockIs(s: State, s': State, n: nat)
    requires s'.q == s.q && s'.todo == s.todo
    ensures AfterBlock(s', n) == AfterBlock(s, n)
  {
  }

  /** Once a call has failed it is reverted to the end. */
  lemma ProduceReverts(s: State, luck: Luck)
    requires CanProduce(s, luck) && Reverting(s.prod)
    ensures
      var s' := Produce(s, luck);
      !Refuses(s, s') && (s'.prod == Ready || Reverting(s'.prod))
  {
    hide X.Shape, X.Rewind, X.DropValue, X.ClearValue, NewEntry, UndoEntry, UndoKey, First, NoNewBlock, NoNewIndex, Full;
    if s.prod.DropValue? {
      GiveUpIs(s);
    }
  }

  lemma GiveUpIs(s: State)
    ensures GiveUp(s) == Ready || Reverting(GiveUp(s))
  {
  }

  lemma ConsumerLeavesProducer(s: State, t: Thread)
    requires CanConsume(s, t)
    ensures Consume(s, t).prod == s.prod
  {
    hide CanConsume, Consume;
    ConsumerPlaces(s, t);
    if s.con[t].Read? || s.con[t].SetEmpty? || s.con[t].AddFree? || s.con[t].NextBlock? {
      WorkLeavesProducer(s, t);
    } else {
      LookUpLeavesProducer(s, t);
    }
  }

  lemma ConsumerPlaces(s: State, t: Thread)
    requires CanConsume(s, t)
    ensures t in s.con && !s.con[t].NoClaim? && !s.con[t].Fault?
  {
    hide X.Shape;
  }

  lemma WorkLeavesProducer(s: State, t: Thread)
    requires CanConsume(s, t) && (s.con[t].Read? || s.con[t].SetEmpty? || s.con[t].AddFree? || s.con[t].NextBlock?)
    ensures Consume(s, t).prod == s.prod
  {
    hide X.Shape, BlockOf, Offset, T.Range, X.HeaderShape, T.Step;
  }

  lemma LookUpLeavesProducer(s: State, t: Thread)
    requires CanConsume(s, t)
    requires s.con[t].LoadHeader? || s.con[t].LoadTail? || s.con[t].LoadKey? || s.con[t].LoadValue? || s.con[t].StoreNull?
    ensures Consume(s, t).prod == s.prod
  {
    hide X.Shape, BlockOf, X.LookUp, X.HeaderShape, X.ClearValue;
  }

  /** While it is in a call, only the producer's own steps move it. */
  lemma CallGoesOn(s: State, s': State)
    requires Next(s, s') && s.prod != Ready && (Advancing(s.prod) || Reverting(s.prod))
    ensures
      if Refuses(s, s') then s'.prod == Ready || Reverting(s'.prod)
      else if Reverting(s.prod) then s'.prod == Ready || Reverting(s'.prod)
      else if s'.prod == Ready then s.prod.StoreIndex? && s'.history == s.filled
      else Advancing(s'.prod)
  {
    hide CanProduce, Produce, CanConsume, Consume, Elsewhere, Ticket, Call, T.Call, Advancing, Reverting, Refuses;
    if luck :| s.prod != Ready && CanProduce(s, luck) && s' == Produce(s, luck) {
      if Reverting(s.prod) {
        ProduceReverts(s, luck);
      } else {
        ProduceAdvances(s, luck);
        AdvancingIsNotReady(s'.prod);
      }
    } else {
      if t :| CanConsume(s, t) && s' == Consume(s, t) {
        ConsumerLeavesProducer(s, t);
      } else {
        RestLeavesProducer(s, s');
      }
      RefusalMoves(s, s');
    }
  }

  lemma AdvancingIsNotReady(p: Producer)
    ensures Advancing(p) || Reverting(p) ==> p != Ready
    ensures !(Advancing(p) && Reverting(p))
  {
  }

  lemma RefusalMoves(s: State, s': State)
    requires s'.prod == s.prod
    ensures !Refuses(s, s')
  {
  }

  lemma RestLeavesProducer(s: State, s': State)
    requires
      || (exists t, max: nat :: t in s.q.pc && s.q.pc[t] == T.Idle && max > 0 && s' == s.(q := T.Call(s.q, t, max)))
      || (exists t :: t in s.q.pc && !s.q.pc[t].Claimed? && s' == Ticket(s, t))
      || Elsewhere(s, s')
    ensures s'.prod == s.prod
  {
    hide T.Step;
  }

  /** Through a call the producer advances until a step makes the call fail, and reverts from then on. */
  lemma {:induction false} CallSoFar(run: seq<State>, i: nat, k: nat, items: seq<Item>)
    requires Run(run) && Calls(run, i, items) && i < k < |run| && forall g :: i < g <= k ==> run[g].prod != Ready
    ensures if RefusedIn(run, i, k) then Reverting(run[k].prod) else Advancing(run[k].prod)
  {
    hide Run, Next, Refuses, Advancing, Reverting;
    if k == i + 1 {
      CallAdvances(run[i], items);
      assert !RefusedIn(run, i, k);
    } else {
      CallSoFar(run, i, k - 1, items);
      AdvancingIsNotReady(run[k - 1].prod);
      RunSteps(run, k - 1);
      CallGoesOn(run[k - 1], run[k]);
      RefusedOneMore(run, i, k);
    }
  }

  lemma RefusedOneMore(run: seq<State>, i: nat, k: nat)
    requires 0 < i + 1 < k < |run|
    ensures RefusedIn(run, i, k) <==> RefusedIn(run, i, k - 1) || Refuses(run[k - 1], run[k])
  {
    hide Refuses;
    assert RefusesAt(run, k - 1) <==> Refuses(run[k - 1], run[k]);
  }

  /**
    An enqueue of any number of items appends exactly these, all of them, unless a step of it finds no room, a full
    index that cannot grow, or no block; then it leaves the queue, its tail block, the blocks in the index and the end of
    the index as they were. A block is missing afterwards only if consumers retired it meanwhile.
  */
  lemma EnqueueIsAllOrNothing(run: seq<State>, i: nat, j: nat, items: seq<Item>)
    requires Run(run) && Calls(run, i, items) && OneCall(run, i, j) && run[j].prod.Ready?
    ensures AtRest(run[i]) && AtRest(run[j])
    ensures if RefusedIn(run, i, j) then SameQueue(run[i], run[j]) else run[j].history == run[i].history + items
    ensures forall k: nat :: k < run[i].q.sh.tail && k !in run[j].done && BlockOf(k) in run[i].ix.live ==>
              BlockOf(k) in run[j].ix.live && run[j].ix.live[BlockOf(k)] == run[i].ix.live[BlockOf(k)]
  {
    hide Inv, Run, Next, BlocksFor, BlockOf, AtRest, Call, RefusedIn;
    ReadyIsAtRest(run, i);
    ReadyIsAtRest(run, j);
    CallEnds(run, i, j, items);
    BlocksLeaveForGood(run, i, j);
    DeliveryIsFinal(run, i, j);
    RunHasInv(run, j);
    InvIndices(Indexed(run[i])) by {
      RunHasInv(run, i);
    }
    InvIndices(Indexed(run[j]));
    forall k: nat | k < run[i].q.sh.tail && k !in run[j].done && BlockOf(k) in run[i].ix.live
      ensures BlockOf(k) in run[j].ix.live && run[j].ix.live[BlockOf(k)] == run[i].ix.live[BlockOf(k)]
    {
      BlocksForSplits(run[i].q.sh.tail, k);
    }
  }

  lemma CallEnds(run: seq<State>, i: nat, j: nat, items: seq<Item>)
    requires Run(run) && Calls(run, i, items) && OneCall(run, i, j) && run[j].prod.Ready?
    ensures if RefusedIn(run, i, j) then SameQueue(run[i], run[j]) else run[j].history == run[i].history + items
  {
    hide Inv, Run, Next, BlocksFor, Refuses, Advancing, Reverting, RefusedIn, Call;
    CallAdvances(run[i], items);
    AdvancingIsNotReady(run[i + 1].prod);
    var s, s' := run[j - 1], run[j];
    CallSoFar(run, i, j - 1, items);
    AdvancingIsNotReady(s.prod);
    RefusedOneMore(run, i, j);
    RunSteps(run, j - 1);
    CallGoesOn(s, s');
    NothingYet(run, i, j);
    IndexedSteps(run, j - 1);
    if RefusedIn(run, i, j) {
      RefusedStays(s, s');
    } else {
      PublishedIsTodo(s);
    }
  }

  lemma PublishedIsTodo(s: State)
    requires Inv(Indexed(s)) && s.prod.StoreIndex?
    ensures s.filled == s.history + s.todo
  {
    hide Inv, X.Shape;
    InvProducer(Indexed(s));
    FilledAll(Indexed(s));
  }

  lemma RefusedStays(s: State, s': State)
    requires Inv(Indexed(s)) && Next(Indexed(s), Indexed(s')) && s'.prod == Ready
    requires Reverting(s.prod) || Refuses(s, s')
    ensures SameQueue(s, s')
  {
    hide Inv, Next, Refuses, Reverting, Stays;
    StepHasEffect(Indexed(s), Indexed(s'));
    RefusedIsNotPublished(s, s');
    StaysIsSame(s, s');
  }

  lemma StaysIsSame(s: State, s': State)
    requires Stays(Indexed(s), Indexed(s'))
    ensures SameQueue(s, s')
  {
    hide BlocksFor, Indexed, OnlyLeave, StillDelivered;
    IndexedFields(s);
    IndexedFields(s');
  }

  lemma IndexedFields(s: State)
    ensures var r := Indexed(s);
            && r.q == s.q && r.history == s.history && r.prod == s.prod && r.todo == s.todo && r.tailBlock == s.tailBlock
            && (s.ix == X.NO_INDEX || r == s) && r.ix.live == s.ix.live
  {
  }

  lemma RefusedIsNotPublished(s: State, s': State)
    requires Reverting(s.prod) || Refuses(s, s')
    ensures !Publishes(Indexed(s), Indexed(s'))
    ensures s'.prod == Ready ==> forall t :: !Claims(Indexed(s), Indexed(s'), t)
  {
    hide Indexed, Full, NoNewBlock, NoNewIndex, X.Shape;
    IndexedFields(s);
    IndexedFields(s');
  }

  /** From run[i] to run[j] the producer enqueues items, and nothing makes that fail. */
  ghost predicate Enqueues(run: seq<State>, i: nat, j: nat, items: seq<Item>) {
    Calls(run, i, items) && OneCall(run, i, j) && run[j].prod.Ready? && !RefusedIn(run, i, j)
  }

  /** Between the states of `marks` the producer enqueues the items one by one. */
  ghost predicate Singles(run: seq<State>, marks: seq<nat>, items: seq<Item>) {
    && |marks| == |items| + 1 && marks[|items|] < |run|
    && forall k :: 0 <= k < |items| ==> Enqueues(run, marks[k], marks[k + 1], [items[k]])
  }

  lemma {:induction false} SinglesAppend(run: seq<State>, marks: seq<nat>, items: seq<Item>)
    requires Run(run) && Singles(run, marks, items)
    ensures marks[0] < |run| && run[marks[|items|]].history == run[marks[0]].history + items
  {
    hide Run, Enqueues;
    if items != [] {
      var n := |items| - 1;
      assert Enqueues(run, marks[n], marks[n + 1], [items[n]]);
      EnqueuesAppends(run, marks[n], marks[n + 1], [items[n]]);
      SinglesAppend(run, marks[..n + 1], items[..n]);
      assert items == items[..n] + [items[n]];
    }
  }

  /**
    An enqueue of many items that succeeds leaves the same queue as enqueues of the items one by one that do: the same
    contents, the same tail and the same end of the index, with a block in it for every index not dequeued yet.
  */
  lemma BulkIsSingles(run: seq<State>, i: nat, j: nat, run': seq<State>, marks: seq<nat>, items: seq<Item>)
    requires Run(run) && Run(run') && Enqueues(run, i, j, items) && Singles(run', marks, items)
    requires |marks| > 0 && marks[0] < |run'| && run'[marks[0]].history == run[i].history && run'[marks[|items|]].prod.Ready?
    ensures
      var s, s' := run[j], run'[marks[|items|]];
      && s.history == s'.history && s.q.sh.tail == s'.q.sh.tail == |s.history| && s.ix.next == s'.ix.next == First(s)
      && AtRest(s) && AtRest(s')
      && forall k :: 0 <= k < |s.history| && k !in s.done && k !in s'.done ==> BlockOf(k) in s.ix.live && BlockOf(k) in s'.ix.live
  {
    hide Inv, Run, Next, BlocksFor, BlockOf, Singles, Enqueues, OneCall, Stored;
    LastMark(run', marks, items);
    SinglesAppend(run', marks, items);
    EnqueuesAppends(run, i, j, items);
    ReadyIsAtRest(run, j);
    ReadyIsAtRest(run', marks[|items|]);
    RunHasInv(run, j);
    RunHasInv(run', marks[|items|]);
    InvIndices(Indexed(run[j]));
    InvIndices(Indexed(run'[marks[|items|]]));
  }

  lemma LastMark(run: seq<State>, marks: seq<nat>, items: seq<Item>)
    requires Singles(run, marks, items)
    ensures |marks| == |items| + 1 && marks[|items|] < |run|
  {
  }

  lemma EnqueuesAppends(run: seq<State>, i: nat, j: nat, items: seq<Item>)
    requires Run(run) && Enqueues(run, i, j, items)
    ensures i < j < |run| && run[j].prod.Ready? && run[j].history == run[i].history + items
  {
    hide Run, RefusedIn, Call;
    CallEnds(run, i, j, items);
  }

  // ---------------------------------------------------------------- at rest

  ghost predicate Quiet(s: State) {
    s.prod.Ready? && forall t :: t in s.q.pc ==> s.q.pc[t].Idle?
  }

  /** When nothing is in flight, exactly the items before the head were delivered, each as it was enqueued. */
  lemma QuietDeliversPrefix(run: seq<State>, i: nat)
    requires Run(run) && i < |run| && Quiet(run[i])
    ensures forall k :: k in run[i].delivered <==> 0 <= k < run[i].q.sh.head
    ensures run[i].q.sh.head <= |run[i].history|
    ensures forall k :: 0 <= k < run[i].q.sh.head ==> k in run[i].done && run[i].delivered[k] == run[i].history[k]
  {
    hide Inv, Run;
    RunHasInv(run, i);
    var s := Indexed(run[i]);
    InvIndices(s);
    InvKeys(s);
    forall k: nat | k < s.q.sh.head ensures k in s.done {
      InvCovers(s, k);
    }
  }

  lemma InvCovers(s: State, k: nat)
    requires Inv(s) && k < s.q.sh.head
    ensures Covered(k, s.con, s.q.pc, s.done)
  {
    hide T.Inv, X.Inv, StoredOk, BlocksOk, RolesOk, HistoryOk, ProducerOk, ConsumersOk, Covered;
  }

  /** Then the memory the producer holds is exactly the blocks from the one of the head to the one of the tail. */
  lemma QuietOwnsExactly(run: seq<State>, i: nat, n: nat)
    requires Run(run) && i < |run| && Quiet(run[i])
    ensures n in run[i].ix.live <==> BlockOf(run[i].q.sh.head) <= n < BlocksFor(run[i].q.sh.tail)
    ensures forall id :: id in run[i].role ==> run[i].role[id].Live?
  {
    hide Inv, Run, BlockOf, BlocksFor, Base, DoneIn;
    RunHasInv(run, i);
    var s := Indexed(run[i]);
    ReadyIsAtRest(run, i);
    QuietDeliversPrefix(run, i);
    QuietRoles(s);
    InvIndices(s);
    if n in s.ix.live {
      InvBlocks(s, n);
      if n < BlockOf(s.q.sh.head) {
        forall k: nat | BlockOf(k) == n ensures k in s.done {
          if s.q.sh.head <= k {
            BlockOfOrder(s.q.sh.head, k);
          }
        }
        WholeBlock(s.done, n);
      }
    } else if BlockOf(s.q.sh.head) <= n < BlocksFor(s.q.sh.tail) {
      QuietBlockIsLive(s, n);
    }
  }

  lemma QuietRoles(s: State)
    requires Inv(s) && Quiet(s)
    ensures forall id :: id in s.role ==> s.role[id].Live?
  {
    hide Inv, X.Shape;
    InvKeys(s);
    forall id | id in s.role ensures s.role[id].Live? {
      InvRole(s, id);
      if s.role[id].Retiring? || s.role[id].Freed? {
        InvParts(s, s.role[id].t);
      }
    }
  }

  lemma QuietBlockIsLive(s: State, n: nat)
    requires Inv(s) && (forall k :: k in s.done ==> k < s.q.sh.head) && BlockOf(s.q.sh.head) <= n < BlocksFor(s.q.sh.tail)
    ensures n in s.ix.live
  {
    hide Inv, BlockOf, BlocksFor, Base, X.Shape, ProducingOk, FilledOk, RoomOk;
    var head, tail := s.q.sh.head, s.q.sh.tail;
    InvIndices(s);
    InvProducer(s);
    BlocksForIs(tail);
    InBlock(head);
    var k := if Base(n) < head then head else Base(n);
    BaseNext(n);
    if BlockOf(head) < n {
      BaseOrder(BlockOf(head), n);
    }
    BlockOfIs(k, n);
    if tail <= k {
      BlocksForSplits(tail, k);
    }
  }
}
