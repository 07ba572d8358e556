/**
  BlockingConcurrentQueue: the queue and the semaphore together (source/utils/blockingconcurrentqueue.h:515-779).

  Each thread that enqueues has a producer of its own. What the inner queue does is reduced to its counters: enqueuing
  n items advances the tail of the thread's producer, dequeuing k claims k published items of some producer, which is
  what the ticket protocol guarantees; `BlockingTickets` joins the two. The inner queue may fail to find an item as often
  as it likes.
*/
module Blocking {
  import opened Totals
  import S = Semaphore

  datatype State = State(
    sem: S.State,
    tail: seq<nat>,       // items published by each thread's producer
    head: seq<nat>,       // items of it that were claimed
    claimed: seq<nat>)    // items each thread has claimed

  predicate Shape(s: State) {
    S.Shape(s.sem) && |s.tail| == |s.head| == |s.claimed| == |s.sem.pc|
  }

  // ---------------------------------------------------------------- steps

  /** enqueue and enqueue_bulk: items first, then the signal for as many. */
  function Enqueue(s: State, t: nat, n: nat): State
    requires Shape(s) && t < |s.tail|
  {
    s.(sem := S.Signal(s.sem, t, n), tail := s.tail[t := s.tail[t] + n])
  }

  /** try_dequeue, wait_dequeue, wait_dequeue_timed and try_dequeue_bulk: tokens first. */
  function Dequeue(s: State, t: nat, max: nat, blocking: bool, timed: bool): State
    requires Shape(s) && t < |s.tail|
  {
    s.(sem := S.Wait(s.sem, t, max, blocking, timed))
  }

  predicate CanClaim(s: State, t: nat, p: nat, k: nat) {
    && Shape(s) && t < |s.tail| && p < |s.tail| && k > 0
    && s.sem.pc[t].Done? && s.claimed[t] + k <= s.sem.acquired[t] && s.head[p] + k <= s.tail[p]
  }

  /** An iteration of the loop that claims k of the items the thread has tokens for. */
  function Claim(s: State, t: nat, p: nat, k: nat): State
    requires CanClaim(s, t, p, k)
  {
    s.(head := s.head[p := s.head[p] + k], claimed := s.claimed[t := s.claimed[t] + k])
  }

  /** The loop ends when all tokens are used. */
  predicate CanReturn(s: State, t: nat) {
    Shape(s) && t < |s.tail| && s.sem.pc[t].Done? && s.claimed[t] == s.sem.acquired[t]
  }

  ghost predicate Init(s: State) {
    && Shape(s) && S.Init(s.sem) && s.sem.initial == 0
    && forall t :: 0 <= t < |s.tail| ==> s.tail[t] == s.head[t] == s.claimed[t] == 0
  }

  ghost predicate Next(s: State, s': State) {
    && Shape(s)
    && (|| (exists t: nat, n :: t < |s.tail| && s.sem.pc[t].Idle? && s' == Enqueue(s, t, n))
        || (exists t: nat, max, blocking, timed ::
              t < |s.tail| && s.sem.pc[t].Idle? && s' == Dequeue(s, t, max, blocking, timed))
        || (exists t: nat, luck :: S.CanStep(s.sem, t, luck) && s' == s.(sem := S.Step(s.sem, t, luck)))
        || (exists t: nat, p: nat, k: nat :: CanClaim(s, t, p, k) && s' == Claim(s, t, p, k))
        || (exists t: nat :: CanReturn(s, t) && s' == s.(sem := S.Return(s.sem, t)))
        || s' == s)
  }

  ghost predicate NextAt(run: seq<State>, i: nat)
    requires i + 1 < |run|
  {
    Next(run[i], run[i + 1])
  }

  ghost predicate Run(run: seq<State>) {
    |run| > 0 && Init(run[0]) && forall i :: 0 <= i < |run| - 1 ==> NextAt(run, i)
  }

  // ---------------------------------------------------------------- invariant

  /** Items a thread has published and not signalled yet. */
  function Unsent(p: S.Pc): nat {
    if p.AddCount? then p.n else 0
  }

  function AllUnsent(pc: seq<S.Pc>): seq<nat> {
    seq(|pc|, i requires 0 <= i < |pc| => Unsent(pc[i]))
  }

  predicate Outside(p: S.Pc) {
    p.Idle? || p.AddCount? || p.Post?
  }

  /** Every item is signalled once, and no thread claims more than it has tokens for, or ends with tokens left. */
  predicate ThreadOk(p: S.Pc, acquired: nat, signalled: nat, tail: nat, claimed: nat) {
    signalled + Unsent(p) == tail && claimed <= acquired && (Outside(p) ==> claimed == acquired)
  }

  ghost predicate Inv(s: State) {
    && Shape(s) && S.Inv(s.sem) && s.sem.initial == 0 && Total(s.head) == Total(s.claimed)
    && (forall p :: 0 <= p < |s.tail| ==> s.head[p] <= s.tail[p])
    && (forall t :: 0 <= t < |s.tail| ==>
          ThreadOk(s.sem.pc[t], s.sem.acquired[t], s.sem.signalled[t], s.tail[t], s.claimed[t]))
  }

  lemma ActKeepsThread(v: S.View, luck: S.Luck, tail: nat, claimed: nat)
    requires S.CanAct(v, luck) && ThreadOk(v.pc, v.acquired, v.signalled, tail, claimed)
    ensures var v' := S.Act(v, luck); ThreadOk(v'.pc, v'.acquired, v'.signalled, tail, claimed)
  {
  }

  lemma ClaimKeepsInv(s: State, t: nat, p: nat, k: nat)
    requires Inv(s) && CanClaim(s, t, p, k)
    ensures Inv(Claim(s, t, p, k))
  {
    hide S.Inv, ThreadOk, Total;
    TotalUpdate(s.head, p, s.head[p] + k);
    TotalUpdate(s.claimed, t, s.claimed[t] + k);
    ClaimerOk(s, t, p, k);
  }

  lemma ClaimerOk(s: State, t: nat, p: nat, k: nat)
    requires CanClaim(s, t, p, k)
    ensures ThreadOk(s.sem.pc[t], s.sem.acquired[t], s.sem.signalled[t], s.tail[t], s.claimed[t])
            ==> ThreadOk(s.sem.pc[t], s.sem.acquired[t], s.sem.signalled[t], s.tail[t], s.claimed[t] + k)
  {
  }

  lemma EnqueueKeepsInv(s: State, t: nat, n: nat)
    requires Inv(s) && t < |s.tail| && s.sem.pc[t].Idle?
    ensures Inv(Enqueue(s, t, n))
  {
    hide S.Inv;
    S.MoveKeepsInv(s.sem, t, S.AddCount(n));
  }

  lemma DequeueKeepsInv(s: State, t: nat, max: nat, blocking: bool, timed: bool)
    requires Inv(s) && t < |s.tail| && s.sem.pc[t].Idle?
    ensures Inv(Dequeue(s, t, max, blocking, timed))
  {
    hide S.Inv;
    S.MoveKeepsInv(s.sem, t, Dequeue(s, t, max, blocking, timed).sem.pc[t]);
  }

  lemma ReturnKeepsInv(s: State, t: nat)
    requires Inv(s) && CanReturn(s, t)
    ensures Inv(s.(sem := S.Return(s.sem, t)))
  {
    hide S.Inv;
    S.MoveKeepsInv(s.sem, t, S.Idle);
  }

  lemma StepKeepsInv(s: State, t: nat, luck: S.Luck)
    requires Inv(s) && S.CanStep(s.sem, t, luck)
    ensures Inv(s.(sem := S.Step(s.sem, t, luck)))
  {
    hide S.Inv, S.Step, ThreadOk;
    S.StepKeepsInv(s.sem, t, luck);
    StepKeepsThreads(s, t, luck);
  }

  lemma NextKeepsInv(s: State, s': State)
    requires Inv(s) && Next(s, s')
    ensures Inv(s')
  {
    hide Inv, S.Step, S.CanStep, CanClaim, Enqueue, Dequeue, Claim;
    if t: nat, n :| t < |s.tail| && s.sem.pc[t].Idle? && s' == Enqueue(s, t, n) {
      EnqueueKeepsInv(s, t, n);
    } else if t: nat, max, blocking, timed :|
        t < |s.tail| && s.sem.pc[t].Idle? && s' == Dequeue(s, t, max, blocking, timed) {
      DequeueKeepsInv(s, t, max, blocking, timed);
    } else if t: nat, luck :| S.CanStep(s.sem, t, luck) && s' == s.(sem := S.Step(s.sem, t, luck)) {
      StepKeepsInv(s, t, luck);
    } else if t: nat, p: nat, k: nat :| CanClaim(s, t, p, k) && s' == Claim(s, t, p, k) {
      ClaimKeepsInv(s, t, p, k);
    } else if t: nat :| CanReturn(s, t) && s' == s.(sem := S.Return(s.sem, t)) {
      ReturnKeepsInv(s, t);
    }
  }

  lemma StepKeepsThreads(s: State, t: nat, luck: S.Luck)
    requires Inv(s) && S.CanStep(s.sem, t, luck)
    ensures
      var sem' := S.Step(s.sem, t, luck);
      && S.Shape(sem') && |sem'.pc| == |s.sem.pc| && sem'.initial == 0
      && forall u :: 0 <= u < |s.tail| ==> ThreadOk(sem'.pc[u], sem'.acquired[u], sem'.signalled[u], s.tail[u], s.claimed[u])
  {
    hide S.Act, S.CanAct, S.Inv;
    ActKeepsThread(S.Get(s.sem, t), luck, s.tail[t], s.claimed[t]);
  }

  lemma InitHasInv(s: State)
    requires Init(s)
    ensures Inv(s)
  {
    S.InitHasInv(s.sem);
    TotalZero(s.head);
    TotalZero(s.claimed);
  }

  lemma {:induction false} RunHasInv(run: seq<State>, i: nat)
    requires Run(run) && i < |run|
    ensures Inv(run[i])
  {
    hide Inv, Next, Init;
    if i == 0 {
      InitHasInv(run[0]);
    } else {
      RunHasInv(run, i - 1);
      assert NextAt(run, i - 1);
      NextKeepsInv(run[i - 1], run[i]);
    }
  }

  // ---------------------------------------------------------------- what the composition guarantees

  lemma {:induction false} UnsentTotal(pc: seq<S.Pc>, signalled: seq<nat>, tail: seq<nat>)
    requires |pc| == |signalled| == |tail|
    requires forall t :: 0 <= t < |pc| ==> signalled[t] + Unsent(pc[t]) == tail[t]
    ensures Total(signalled) + Total(AllUnsent(pc)) == Total(tail)
  {
    if pc != [] {
      var n := |pc| - 1;
      UnsentTotal(pc[..n], signalled[..n], tail[..n]);
      assert AllUnsent(pc)[..n] == AllUnsent(pc[..n]);
    }
  }

  /** Tokens held by threads for items they have not claimed yet. */
  function Held(s: State): int {
    Total(s.sem.acquired) - Total(s.claimed)
  }

  /**
    Summed over all producers, the items published and not claimed are the tokens available, those held by threads
    still looking for their item, and the signals not sent yet.
  */
  lemma ItemsAreTokens(run: seq<State>, i: nat)
    requires Run(run) && i < |run|
    ensures Total(run[i].tail) - Total(run[i].head)
            == S.Available(run[i].sem) + Held(run[i]) + Total(AllUnsent(run[i].sem.pc))
  {
    hide S.Inv, Run;
    RunHasInv(run, i);
    UnsentTotal(run[i].sem.pc, run[i].sem.signalled, run[i].tail);
  }

  lemma SemaphoreBalance(s: State)
    requires Inv(s)
    ensures S.Available(s.sem) == s.sem.count + S.Waiters(s.sem) >= 0
    ensures s.sem.kernel + S.Posts(s.sem) == S.Min(S.Waiters(s.sem), S.Available(s.sem))
  {
    hide S.Waiters, S.Posts;
  }

  lemma ItemSomewhere(tail: seq<nat>, head: seq<nat>)
    requires |tail| == |head| && Total(tail) > Total(head)
    ensures exists p :: 0 <= p < |tail| && head[p] < tail[p]
  {
    if forall p :: 0 <= p < |tail| ==> tail[p] <= head[p] {
      TotalOrder(tail, head);
    }
  }

  /**
    There are always at least as many unclaimed items as tokens held, so a thread in the loop
    `while (!inner.try_dequeue(item))` always has one it can claim, whatever the other threads do.
  */
  lemma HolderFindsItem(run: seq<State>, i: nat, t: nat)
    requires Run(run) && i < |run| && t < |run[i].sem.pc| && run[i].sem.pc[t].Done?
    ensures Shape(run[i])
    ensures Total(run[i].tail) - Total(run[i].head) >= Held(run[i])
    ensures run[i].claimed[t] <= run[i].sem.acquired[t] <= run[i].claimed[t] + Held(run[i])
    ensures CanReturn(run[i], t) || exists p: nat :: CanClaim(run[i], t, p, 1)
  {
    hide S.Inv, Run;
    var s := run[i];
    RunHasInv(run, i);
    SemaphoreBalance(s);
    ItemsAreTokens(run, i);
    HeldParts(s, t);
    if s.claimed[t] < s.sem.acquired[t] {
      ItemSomewhere(s.tail, s.head);
      var p :| 0 <= p < |s.tail| && s.head[p] < s.tail[p];
      assert CanClaim(s, t, p, 1);
    }
  }

  lemma HeldParts(s: State, t: nat)
    requires Inv(s) && t < |s.tail|
    ensures s.claimed[t] <= s.sem.acquired[t] <= s.claimed[t] + Held(s)
  {
    hide S.Inv;
    var most := s.sem.acquired[t := s.claimed[t]];
    forall u | 0 <= u < |s.tail| ensures s.claimed[u] <= most[u] {
      assert ThreadOk(s.sem.pc[u], s.sem.acquired[u], s.sem.signalled[u], s.tail[u], s.claimed[u]);
    }
    TotalOrder(s.claimed, most);
    TotalUpdate(s.sem.acquired, t, s.claimed[t]);
  }

  /** When an attempt finds no token, every unclaimed item is reserved: for a holder, for a waiter, or not signalled. */
  lemma RefusedMeansReserved(run: seq<State>, i: nat)
    requires Run(run) && i < |run| && run[i].sem.count <= 0
    ensures Total(run[i].tail) - Total(run[i].head)
            == Held(run[i]) + run[i].sem.kernel + S.Posts(run[i].sem) + Total(AllUnsent(run[i].sem.pc))
  {
    hide S.Inv, Run, S.Posts, S.Waiters;
    RunHasInv(run, i);
    SemaphoreBalance(run[i]);
    ItemsAreTokens(run, i);
  }

  /** Between calls every unclaimed item has a token in the counter: nothing is stranded. */
  lemma QuietMeansCounted(run: seq<State>, i: nat)
    requires Run(run) && i < |run| && forall t :: 0 <= t < |run[i].sem.pc| ==> run[i].sem.pc[t].Idle?
    ensures run[i].sem.count == Total(run[i].tail) - Total(run[i].head) && run[i].sem.kernel == 0
  {
    hide S.Inv, Run;
    var s := run[i];
    RunHasInv(run, i);
    SemaphoreBalance(s);
    ItemsAreTokens(run, i);
    TotalZero(S.Waits(s.sem.pc));
    TotalZero(S.Postings(s.sem.pc));
    TotalZero(AllUnsent(s.sem.pc));
    forall t | 0 <= t < |s.tail| ensures s.claimed[t] == s.sem.acquired[t] {
      assert ThreadOk(s.sem.pc[t], s.sem.acquired[t], s.sem.signalled[t], s.tail[t], s.claimed[t]);
    }
    assert s.claimed == s.sem.acquired;
  }

  // ---------------------------------------------------------------- what a call comes to

  function Sems(run: seq<State>): (r: seq<S.State>)
    ensures |r| == |run| && forall i :: 0 <= i < |run| ==> r[i] == run[i].sem
  {
    seq(|run|, i requires 0 <= i < |run| => run[i].sem)
  }

  lemma NextIsSemaphores(s: State, s': State)
    requires Next(s, s')
    ensures S.Next(s.sem, s'.sem)
  {
    hide S.Step, S.CanStep, S.Wait, S.Signal;
  }

  /** What the threads do to the semaphore is a run of the semaphore. */
  lemma SemaphoreRuns(run: seq<State>)
    requires Run(run)
    ensures S.Run(Sems(run))
  {
    hide Next, S.Next;
    forall i | 0 <= i < |run| - 1 ensures S.NextAt(Sems(run), i) {
      assert NextAt(run, i);
      NextIsSemaphores(run[i], run[i + 1]);
    }
  }

  /** Thread t is in one call all the while from run[i + 1] on, and out of it at run[j]. */
  ghost predicate CallEnds(run: seq<State>, i: nat, j: nat, t: nat) {
    && i + 1 < j < |run| && Shape(run[i]) && Shape(run[j]) && t < |run[i].tail|
    && run[i].sem.pc[t].Idle? && t < |run[j].tail| && run[j].sem.pc[t].Idle?
    && forall g :: i < g < j ==> t < |run[g].sem.pc| && !run[g].sem.pc[t].Idle?
  }

  /** At some moment of the call no token was available. */
  ghost predicate WasExhausted(run: seq<State>, i: nat, j: nat) {
    exists h :: i < h < j && h < |run| && run[h].sem.count <= 0
  }

  lemma InvThread(s: State, t: nat)
    requires Inv(s) && t < |s.tail|
    ensures Shape(s) && ThreadOk(s.sem.pc[t], s.sem.acquired[t], s.sem.signalled[t], s.tail[t], s.claimed[t])
  {
    hide S.Inv, ThreadOk;
  }

  /**
    A dequeue for at most max items returns with at most max items of its own. If it blocks without a time limit, it
    returns only with an item; otherwise it returns with none only if max is 0 or no token was available at some moment
    of the call.
  */
  lemma DequeueCall(run: seq<State>, i: nat, j: nat, t: nat, max: nat, blocking: bool, timed: bool)
    requires Run(run) && CallEnds(run, i, j, t) && run[i + 1] == Dequeue(run[i], t, max, blocking, timed)
    ensures
      var had, has := run[i].claimed[t], run[j].claimed[t];
      && had <= has <= had + max
      && (blocking && !timed ==> (has > had <==> max > 0))
      && (has == had ==> max == 0 || WasExhausted(run, i, j))
  {
    hide Run, Inv, S.Run, S.Next, ThreadOk;
    var sems := Sems(run);
    SemaphoreRuns(run);
    assert S.WaitsAt(sems, i, t, max, blocking, timed);
    assert S.Through(sems, i, j - 1, t);
    S.WaitEnds(sems, i, j - 1, t, max, blocking, timed);
    S.WaitCall(sems, i, j - 1, t, max, blocking, timed);
    AtRest(run, i, t);
    AtRest(run, j, t);
    if S.WasExhausted(sems, i, j - 1) {
      var h :| i < h < j - 1 && h < |sems| && sems[h].count <= 0;
      assert run[h].sem.count <= 0;
    }
  }

  /** An enqueue of n items publishes exactly n items in the thread's producer and gives exactly n tokens for them. */
  lemma EnqueueCall(run: seq<State>, i: nat, j: nat, t: nat, n: nat)
    requires Run(run) && CallEnds(run, i, j, t) && run[i + 1] == Enqueue(run[i], t, n)
    ensures run[j].tail[t] == run[i].tail[t] + n && run[j].sem.signalled[t] == run[i].sem.signalled[t] + n
  {
    hide Run, Inv, S.Run, S.Next, ThreadOk;
    var sems := Sems(run);
    SemaphoreRuns(run);
    assert S.SignalsAt(sems, i, t, n);
    S.SignalCall(sems, i, j, t, n);
    AtRest(run, i, t);
    AtRest(run, j, t);
  }

  /** Between calls a thread has claimed an item for every token, and given a token for every item. */
  lemma AtRest(run: seq<State>, i: nat, t: nat)
    requires Run(run) && i < |run| && t < |run[i].sem.pc| && run[i].sem.pc[t].Idle?
    ensures Shape(run[i])
    ensures run[i].claimed[t] == run[i].sem.acquired[t] && run[i].sem.signalled[t] == run[i].tail[t]
  {
    hide Run, Inv;
    RunHasInv(run, i);
    InvShape(run[i]);
    InvThread(run[i], t);
  }

  lemma InvShape(s: State)
    requires Inv(s)
    ensures Shape(s)
  {
    hide S.Inv;
  }
}
