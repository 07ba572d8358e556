/**
  The blocking queue with the ticket protocol of its producers: every access of a dequeue to the four counters of a
  producer is a step here (source/utils/blockingconcurrentqueue.h:515-779, source/utils/concurrentqueue.h:2460-2530).

  The machine of Blocking counts claims; here a claim is the step that adds to headIndex. A thread that holds tokens
  tries one producer after the other, each time for at most as many items as it has tokens left.
*/
module BlockingTickets {
  import opened Words
  import opened Totals
  import S = Semaphore
  import B = Blocking
  import T = Tickets
  import TicketLaws

  /** The blocking queue, and the counters of each thread's producer. */
  datatype State = State(b: B.State, queues: seq<T.State>)

  /** The counters of Blocking are those of the producers, which all threads may dequeue from. */
  ghost predicate Joined(s: State, p: nat)
    requires B.Shape(s.b) && p < |s.queues| == |s.b.tail|
  {
    && s.queues[p].sh.tail == s.b.tail[p] && s.queues[p].sh.head == s.b.head[p]
    && forall t :: t in s.queues[p].pc <==> 0 <= t < |s.b.tail|
  }

  ghost predicate Shape(s: State) {
    B.Shape(s.b) && |s.queues| == |s.b.tail| && forall p :: 0 <= p < |s.queues| ==> Joined(s, p)
  }

  // ---------------------------------------------------------------- steps

  datatype Move =
    | Enqueue(t: nat, n: nat)
    | Dequeue(t: nat, max: nat, blocking: bool, timed: bool)
    | Wait(t: nat, luck: S.Luck)
    | Try(p: nat, t: nat, max: nat)
    | Access(p: nat, t: nat)
    | Return(t: nat)

  /** Thread t is in no dequeue of a producer. */
  ghost predicate Resting(s: State, t: nat) {
    forall p :: 0 <= p < |s.queues| && t in s.queues[p].pc ==> s.queues[p].pc[t] == T.Idle
  }

  ghost predicate CanDo(s: State, m: Move) {
    && Shape(s)
    && match m
    case Enqueue(t, _) => t < |s.b.tail| && s.b.sem.pc[t].Idle?
    case Dequeue(t, _, _, _) => t < |s.b.tail| && s.b.sem.pc[t].Idle?
    case Wait(t, luck) => S.CanStep(s.b.sem, t, luck)
    case Try(p, t, max) =>
      && p < |s.queues| && t < |s.b.tail| && s.b.sem.pc[t].Done? && Resting(s, t)
      && max > 0 && s.b.claimed[t] + max <= s.b.sem.acquired[t]
    case Access(p, t) =>
      p < |s.queues| && t < |s.b.tail| && t in s.queues[p].pc && s.queues[p].pc[t] != T.Idle
    case Return(t) => B.CanReturn(s.b, t) && Resting(s, t)
  }

  /** The access that adds to headIndex claims as many items as it adds. */
  function Claimed(b: B.State, p: nat, t: nat, pc: T.Pc): B.State
    requires B.Shape(b) && p < |b.tail| && t < |b.tail|
  {
    if pc.AddHead? then b.(head := b.head[p := b.head[p] + pc.got], claimed := b.claimed[t := b.claimed[t] + pc.got]) else b
  }

  ghost function Do(s: State, m: Move): State
    requires CanDo(s, m)
  {
    match m
    case Enqueue(t, n) => State(B.Enqueue(s.b, t, n), s.queues[t := T.Publish(s.queues[t], n)])
    case Dequeue(t, max, blocking, timed) => s.(b := B.Dequeue(s.b, t, max, blocking, timed))
    case Wait(t, luck) => s.(b := s.b.(sem := S.Step(s.b.sem, t, luck)))
    case Try(p, t, max) => s.(queues := s.queues[p := T.Call(s.queues[p], t, max)])
    case Access(p, t) =>
      assert Joined(s, p);
      State(Claimed(s.b, p, t, s.queues[p].pc[t]), s.queues[p := T.Step(s.queues[p], t)])
    case Return(t) => s.(b := s.b.(sem := S.Return(s.b.sem, t)))
  }

  ghost predicate Init(s: State) {
    Shape(s) && B.Init(s.b) && forall p :: 0 <= p < |s.queues| ==> T.Init(s.queues[p])
  }

  ghost predicate Next(s: State, s': State) {
    exists m :: CanDo(s, m) && s' == Do(s, m)
  }

  ghost predicate Timely(s: State) {
    forall p :: 0 <= p < |s.queues| ==> T.Timely(s.queues[p])
  }

  ghost predicate NextAt(run: seq<State>, i: nat)
    requires i + 1 < |run|
  {
    Next(run[i], run[i + 1])
  }

  ghost predicate Run(run: seq<State>) {
    && |run| > 0 && Init(run[0])
    && (forall i :: 0 <= i < |run| - 1 ==> NextAt(run, i))
    && (forall i :: 0 <= i < |run| ==> Timely(run[i]))
  }

  // ---------------------------------------------------------------- invariant

  /** How many items a dequeue may still claim. */
  function Ask(pc: T.Pc): nat {
    match pc
    case LoadTail(max) => max
    case LoadOver(max, _) => max
    case LoadCount(max, _, _, _) => max
    case AddCount(want, _, _) => want
    case ReloadTail(want, _, _, _) => want
    case AddOver(_, got, _) => got
    case AddHead(_, got) => got
    case _ => 0
  }

  /** A dequeue belongs to a thread that has tokens for all it may claim, and is the thread's only one. */
  ghost predicate TryOk(s: State, p: nat, t: nat)
    requires Shape(s) && p < |s.queues| && t < |s.b.tail|
  {
    assert Joined(s, p);
    s.queues[p].pc[t] != T.Idle ==>
      && s.b.sem.pc[t].Done? && s.b.claimed[t] + Ask(s.queues[p].pc[t]) <= s.b.sem.acquired[t]
      && forall r :: 0 <= r < |s.queues| && r != p && t in s.queues[r].pc ==> s.queues[r].pc[t] == T.Idle
  }

  ghost predicate Inv(s: State) {
    && Shape(s) && B.Inv(s.b)
    && (forall p :: 0 <= p < |s.queues| ==> T.Inv(s.queues[p]))
    && (forall p, t :: 0 <= p < |s.queues| && 0 <= t < |s.b.tail| ==> TryOk(s, p, t))
  }

  lemma InvParts(s: State, p: nat, t: nat)
    requires Inv(s) && p < |s.queues| && t < |s.b.tail|
    ensures Shape(s) && B.Inv(s.b) && T.Inv(s.queues[p]) && Joined(s, p) && t in s.queues[p].pc && TryOk(s, p, t)
  {
    hide B.Inv, T.Inv;
  }

  lemma AskShrinks(v: T.View)
    ensures Ask(T.Act(v).pc) <= Ask(v.pc) && (v.pc.AddHead? ==> Ask(T.Act(v).pc) == 0)
    ensures v.pc.AddHead? ==> T.Act(v).sh.head == v.sh.head + v.pc.got
    ensures !v.pc.AddHead? ==> T.Act(v).sh.head == v.sh.head
    ensures T.Act(v).sh.tail == v.sh.tail
  {
    hide T.Granted, T.Room, T.Range;
  }

  // ---------------------------------------------------------------- every step keeps it

  /** Every step is one of Blocking, if only none at all, and one of the ticket protocol for each producer. */
  ghost predicate Steps(s: State, s': State) {
    && |s'.queues| == |s.queues| && B.Next(s.b, s'.b)
    && forall p :: 0 <= p < |s.queues| ==> T.Next(s.queues[p], s'.queues[p])
  }

  lemma NothingIsNext(q: T.State)
    ensures T.Next(q, q)
  {
    assert T.Publish(q, 0) == q;
  }

  lemma StepIsNext(q: T.State, t: nat)
    requires t in q.pc
    ensures T.Next(q, T.Step(q, t))
  {
    hide T.Step, T.Call, T.Publish;
  }

  lemma CallIsNext(q: T.State, t: nat, max: nat)
    requires t in q.pc && q.pc[t] == T.Idle && max > 0
    ensures T.Next(q, T.Call(q, t, max))
  {
    hide T.Step, T.Call, T.Publish;
  }

  lemma PublishIsNext(q: T.State, n: nat)
    ensures T.Next(q, T.Publish(q, n))
  {
    hide T.Step, T.Call, T.Publish;
  }

  /** A step of the semaphore or between calls leaves the producers alone. */
  lemma OthersRest(s: State, s': State)
    requires s'.queues == s.queues && B.Next(s.b, s'.b)
    ensures Steps(s, s')
  {
    hide B.Next, T.Next;
    forall p | 0 <= p < |s.queues| ensures T.Next(s.queues[p], s'.queues[p]) {
      NothingIsNext(s.queues[p]);
    }
  }

  lemma OneMoves(s: State, s': State, p: nat)
    requires p < |s.queues| == |s'.queues| && B.Next(s.b, s'.b) && T.Next(s.queues[p], s'.queues[p])
    requires forall r :: 0 <= r < |s.queues| && r != p ==> s'.queues[r] == s.queues[r]
    ensures Steps(s, s')
  {
    hide B.Next, T.Next;
    forall r | 0 <= r < |s.queues| ensures T.Next(s.queues[r], s'.queues[r]) {
      if r != p {
        NothingIsNext(s.queues[r]);
      }
    }
  }

  lemma TicketsKept(s: State, s': State)
    requires Steps(s, s') && Timely(s) && forall p :: 0 <= p < |s.queues| ==> T.Inv(s.queues[p])
    ensures forall p :: 0 <= p < |s'.queues| ==> T.Inv(s'.queues[p])
  {
    hide B.Next, T.Next, T.Inv, T.Timely;
    forall p | 0 <= p < |s'.queues| ensures T.Inv(s'.queues[p]) {
      T.NextKeepsInv(s.queues[p], s'.queues[p]);
    }
  }

  /** Threads not done with the semaphore are in no dequeue, so what they do there concerns none. */
  lemma SemaphoreKeeps(s: State, s': State, t: nat)
    requires Inv(s) && Timely(s) && Shape(s') && B.Next(s.b, s'.b) && |s'.b.tail| == |s.b.tail| && t < |s.b.tail|
    requires |s'.queues| == |s.queues| && s'.b.claimed == s.b.claimed
    requires forall p :: 0 <= p < |s.queues| ==> s'.queues[p].pc == s.queues[p].pc && T.Next(s.queues[p], s'.queues[p])
    requires forall u :: 0 <= u < |s.b.tail| && u != t ==>
               s'.b.sem.pc[u] == s.b.sem.pc[u] && s'.b.sem.acquired[u] == s.b.sem.acquired[u]
    requires Resting(s, t)
    ensures Inv(s') && Steps(s, s')
  {
    hide B.Inv, B.Next, T.Next, T.Inv, T.Timely;
    B.NextKeepsInv(s.b, s'.b);
    TicketsKept(s, s');
    forall p, u | 0 <= p < |s'.queues| && 0 <= u < |s'.b.tail| ensures TryOk(s', p, u) {
      assert TryOk(s, p, u) && Joined(s', p);
    }
  }

  lemma NotDoneRests(s: State, t: nat)
    requires Inv(s) && t < |s.b.tail| && !s.b.sem.pc[t].Done?
    ensures Resting(s, t)
  {
    hide B.Inv, T.Inv;
    forall p | 0 <= p < |s.queues| && t in s.queues[p].pc ensures s.queues[p].pc[t] == T.Idle {
      assert TryOk(s, p, t);
    }
  }

  lemma EnqueueKeeps(s: State, m: Move)
    requires Inv(s) && Timely(s) && CanDo(s, m) && m.Enqueue?
    ensures Inv(Do(s, m)) && Steps(s, Do(s, m))
  {
    hide Inv, B.Next, T.Next, Timely, T.Inv, B.Inv, S.Inv;
    var s' := Do(s, m);
    EnqueueIsNext(s.b, m.t, m.n);
    NotDoneRests(s, m.t);
    forall p | 0 <= p < |s.queues| ensures T.Next(s.queues[p], s'.queues[p]) && Joined(s', p) {
      assert Joined(s, p);
      PublishIsNext(s.queues[p], m.n);
      NothingIsNext(s.queues[p]);
    }
    SemaphoreKeeps(s, s', m.t);
  }

  lemma EnqueueIsNext(b: B.State, t: nat, n: nat)
    requires B.Shape(b) && t < |b.tail| && b.sem.pc[t].Idle?
    ensures B.Next(b, B.Enqueue(b, t, n))
  {
    hide S.CanStep, S.Step, B.CanClaim, B.Claim, B.Enqueue, B.Dequeue, B.CanReturn;
  }

  lemma DequeueIsNext(b: B.State, t: nat, max: nat, blocking: bool, timed: bool)
    requires B.Shape(b) && t < |b.tail| && b.sem.pc[t].Idle?
    ensures B.Next(b, B.Dequeue(b, t, max, blocking, timed))
  {
    hide S.CanStep, S.Step, B.CanClaim, B.Claim, B.Enqueue, B.Dequeue, B.CanReturn;
  }

  lemma WaitIsNext(b: B.State, t: nat, luck: S.Luck)
    requires B.Shape(b) && S.CanStep(b.sem, t, luck)
    ensures B.Next(b, b.(sem := S.Step(b.sem, t, luck)))
  {
    hide S.CanStep, S.Step, B.CanClaim, B.Claim, B.Enqueue, B.Dequeue, B.CanReturn;
  }

  lemma ReturnIsNext(b: B.State, t: nat)
    requires B.CanReturn(b, t)
    ensures B.Next(b, b.(sem := S.Return(b.sem, t)))
  {
    hide S.CanStep, S.Step, B.CanClaim, B.Claim, B.Enqueue, B.Dequeue;
  }

  lemma ClaimIsNext(b: B.State, t: nat, p: nat, k: nat)
    requires B.Shape(b) && B.CanClaim(b, t, p, k)
    ensures B.Next(b, B.Claim(b, t, p, k))
  {
    hide S.CanStep, S.Step, B.CanClaim, B.Claim, B.Enqueue, B.Dequeue, B.CanReturn;
  }

  lemma RestIsNext(b: B.State)
    requires B.Shape(b)
    ensures B.Next(b, b)
  {
  }

  lemma DequeueKeeps(s: State, m: Move)
    requires Inv(s) && Timely(s) && CanDo(s, m) && m.Dequeue?
    ensures Inv(Do(s, m)) && Steps(s, Do(s, m))
  {
    hide Inv, B.Next, T.Next, Timely, T.Inv, B.Inv, S.Inv;
    var s' := Do(s, m);
    DequeueIsNext(s.b, m.t, m.max, m.blocking, m.timed);
    NotDoneRests(s, m.t);
    SameQueues(s, s');
    SemaphoreKeeps(s, s', m.t);
  }

  lemma SameQueues(s: State, s': State)
    requires Shape(s) && s'.queues == s.queues && B.Shape(s'.b) && s'.b.tail == s.b.tail && s'.b.head == s.b.head
    ensures Shape(s') && forall p :: 0 <= p < |s.queues| ==> T.Next(s.queues[p], s'.queues[p])
  {
    hide T.Next;
    forall p | 0 <= p < |s.queues| ensures T.Next(s.queues[p], s'.queues[p]) && Joined(s', p) {
      assert Joined(s, p);
      NothingIsNext(s.queues[p]);
    }
  }

  lemma WaitKeeps(s: State, m: Move)
    requires Inv(s) && Timely(s) && CanDo(s, m) && m.Wait?
    ensures Inv(Do(s, m)) && Steps(s, Do(s, m))
  {
    hide Inv, B.Next, T.Next, Timely, T.Inv, B.Inv, S.Inv, S.Act;
    var s' := Do(s, m);
    WaitIsNext(s.b, m.t, m.luck);
    NotDoneRests(s, m.t);
    SameQueues(s, s');
    SemaphoreKeeps(s, s', m.t);
  }

  lemma ReturnKeeps(s: State, m: Move)
    requires Inv(s) && Timely(s) && CanDo(s, m) && m.Return?
    ensures Inv(Do(s, m)) && Steps(s, Do(s, m))
  {
    hide Inv, B.Next, T.Next, Timely, T.Inv, B.Inv, S.Inv;
    var s' := Do(s, m);
    ReturnIsNext(s.b, m.t);
    SameQueues(s, s');
    SemaphoreKeeps(s, s', m.t);
  }

  lemma TryKeeps(s: State, m: Move)
    requires Inv(s) && Timely(s) && CanDo(s, m) && m.Try?
    ensures Inv(Do(s, m)) && Steps(s, Do(s, m))
  {
    hide B.Next, T.Next, Timely, T.Inv, B.Inv, S.Inv;
    var s' := Do(s, m);
    assert Joined(s, m.p);
    CallIsNext(s.queues[m.p], m.t, m.max);
    RestIsNext(s.b);
    OneMoves(s, s', m.p);
    TicketsKept(s, s');
    forall p | 0 <= p < |s'.queues| ensures Joined(s', p) {
      assert Joined(s, p);
    }
    forall p, u | 0 <= p < |s'.queues| && 0 <= u < |s'.b.tail| ensures TryOk(s', p, u) {
      assert TryOk(s, p, u) && TryOk(s, m.p, u) && Joined(s, p) && Joined(s', p);
      assert forall r :: 0 <= r < |s.queues| ==> Joined(s, r) && s.queues[r].pc[m.t] == T.Idle;
    }
  }

  lemma AccessKeeps(s: State, m: Move)
    requires Inv(s) && Timely(s) && CanDo(s, m) && m.Access?
    ensures Inv(Do(s, m)) && Steps(s, Do(s, m))
  {
    hide B.Next, T.Next, Timely, T.Inv, B.Inv, S.Inv, T.Act, Inv;
    var s', q := Do(s, m), s.queues[m.p];
    InvParts(s, m.p, m.t);
    TicketLaws.ClaimFits(q, m.t);
    AskShrinks(T.View(q.sh, q.pc[m.t]));
    StepIsNext(q, m.t);
    RestIsNext(s.b);
    if q.pc[m.t].AddHead? {
      ClaimIsNext(s.b, m.t, m.p, q.pc[m.t].got);
    }
    OneMoves(s, s', m.p);
    B.NextKeepsInv(s.b, s'.b);
    AccessParts(s, s', m);
  }

  lemma AccessParts(s: State, s': State, m: Move)
    requires Inv(s) && Timely(s) && CanDo(s, m) && m.Access? && s' == Do(s, m) && Steps(s, s') && B.Inv(s'.b)
    ensures Inv(s')
  {
    hide B.Next, T.Next, Timely, T.Inv, B.Inv, S.Inv, T.Act;
    var q := s.queues[m.p];
    assert Joined(s, m.p) && TryOk(s, m.p, m.t);
    AskShrinks(T.View(q.sh, q.pc[m.t]));
    TicketsKept(s, s');
    forall p | 0 <= p < |s'.queues| ensures Joined(s', p) {
      assert Joined(s, p);
    }
    forall p, u | 0 <= p < |s'.queues| && 0 <= u < |s'.b.tail| ensures TryOk(s', p, u) {
      assert TryOk(s, p, u) && Joined(s, p);
    }
  }

  lemma NextKeeps(s: State, m: Move)
    requires Inv(s) && Timely(s) && CanDo(s, m)
    ensures Inv(Do(s, m)) && Steps(s, Do(s, m))
  {
    hide Inv, Timely, Do, CanDo, Steps;
    match m
    case Enqueue(_, _) => EnqueueKeeps(s, m);
    case Dequeue(_, _, _, _) => DequeueKeeps(s, m);
    case Wait(_, _) => WaitKeeps(s, m);
    case Try(_, _, _) => TryKeeps(s, m);
    case Access(_, _) => AccessKeeps(s, m);
    case Return(_) => ReturnKeeps(s, m);
  }

  lemma InitHasInv(s: State)
    requires Init(s)
    ensures Inv(s)
  {
    hide B.Inv, T.Inv;
    B.InitHasInv(s.b);
    forall p | 0 <= p < |s.queues| ensures T.Inv(s.queues[p]) {
      T.InitHasInv(s.queues[p]);
    }
    forall p, t | 0 <= p < |s.queues| && 0 <= t < |s.b.tail| ensures TryOk(s, p, t) {
      assert Joined(s, p) && T.Init(s.queues[p]);
    }
  }

  lemma {:induction false} RunHasInv(run: seq<State>, i: nat)
    requires Run(run) && i < |run|
    ensures Inv(run[i])
  {
    hide Inv, Init, Timely, Do, CanDo, Steps;
    if i == 0 {
      InitHasInv(run[0]);
    } else {
      RunHasInv(run, i - 1);
      assert NextAt(run, i - 1);
      var m :| CanDo(run[i - 1], m) && run[i] == Do(run[i - 1], m);
      NextKeeps(run[i - 1], m);
    }
  }

  lemma RunSteps(run: seq<State>, i: nat)
    requires Run(run) && i + 1 < |run|
    ensures Steps(run[i], run[i + 1])
  {
    hide Inv, Init, Timely, Do, CanDo, Steps;
    RunHasInv(run, i);
    assert NextAt(run, i);
    var m :| CanDo(run[i], m) && run[i + 1] == Do(run[i], m);
    NextKeeps(run[i], m);
  }

  // ---------------------------------------------------------------- runs of the parts

  function Blockings(run: seq<State>): (r: seq<B.State>)
    ensures |r| == |run| && forall i :: 0 <= i < |run| ==> r[i] == run[i].b
  {
    seq(|run|, i requires 0 <= i < |run| => run[i].b)
  }

  /** Each step of a dequeue is a claim of Blocking or none of its steps: a run of the whole is one of Blocking. */
  lemma BlockingRuns(run: seq<State>)
    requires Run(run)
    ensures B.Run(Blockings(run))
  {
    hide B.Next, T.Next, Inv, Next, Timely;
    forall i | 0 <= i < |run| - 1 ensures B.NextAt(Blockings(run), i) {
      RunSteps(run, i);
    }
  }

  lemma {:induction false} QueuesStay(run: seq<State>, i: nat)
    requires Run(run) && i < |run|
    ensures |run[i].queues| == |run[0].queues|
  {
    hide B.Next, T.Next, Inv, Next, Timely, Init;
    if i > 0 {
      QueuesStay(run, i - 1);
      RunSteps(run, i - 1);
    }
  }

  ghost function TicketsOf(run: seq<State>, p: nat): (r: seq<T.State>)
    requires Run(run) && p < |run[0].queues|
    ensures |r| == |run| && forall i :: 0 <= i < |run| ==> p < |run[i].queues| && r[i] == run[i].queues[p]
  {
    assert forall i :: 0 <= i < |run| ==> p < |run[i].queues| by {
      forall i | 0 <= i < |run| ensures p < |run[i].queues| {
        QueuesStay(run, i);
      }
    }
    seq(|run|, i requires 0 <= i < |run| => run[i].queues[p])
  }

  /** And one of the ticket protocol for each producer. */
  lemma TicketRuns(run: seq<State>, p: nat)
    requires Run(run) && p < |run[0].queues|
    ensures T.Run(TicketsOf(run, p))
  {
    hide B.Next, T.Next, Inv, Next, T.Timely;
    var r := TicketsOf(run, p);
    forall i | 0 <= i < |r| - 1 ensures T.NextAt(r, i) {
      RunSteps(run, i);
    }
    forall i | 0 <= i < |r| ensures T.Timely(r[i]) {
      assert Timely(run[i]);
    }
  }

  // ---------------------------------------------------------------- items and tokens

  function Tails(s: State): seq<nat> {
    seq(|s.queues|, p requires 0 <= p < |s.queues| => s.queues[p].sh.tail)
  }

  function Heads(s: State): seq<nat> {
    seq(|s.queues|, p requires 0 <= p < |s.queues| => s.queues[p].sh.head)
  }

  lemma CountersAre(s: State)
    requires Inv(s)
    ensures Tails(s) == s.b.tail && Heads(s) == s.b.head
  {
    hide B.Inv, T.Inv;
    forall p | 0 <= p < |s.queues| ensures Tails(s)[p] == s.b.tail[p] && Heads(s)[p] == s.b.head[p] {
      assert Joined(s, p);
    }
  }

  /**
    Summed over the counters of all producers, the items published and not claimed are the tokens available, those held
    by threads still looking for their item, and the signals not sent yet.
  */
  lemma ItemsAreTokens(run: seq<State>, i: nat)
    requires Run(run) && i < |run|
    ensures Total(Tails(run[i])) - Total(Heads(run[i]))
            == S.Available(run[i].b.sem) + B.Held(run[i].b) + Total(B.AllUnsent(run[i].b.sem.pc))
  {
    hide Run, Inv, B.Run;
    RunHasInv(run, i);
    CountersAre(run[i]);
    BlockingRuns(run);
    B.ItemsAreTokens(Blockings(run), i);
  }

  /** Some producer has an item that thread t may claim. */
  ghost predicate HasItem(s: State, p: nat) {
    p < |s.queues| && s.queues[p].sh.head < s.queues[p].sh.tail
  }

  /**
    A thread in the loop `while (!inner.try_dequeue(item))` that has not got its items yet always has a producer with an
    item nobody claimed. If no dequeue of that producer is in progress, then its own, run alone, claims one.
  */
  lemma HolderFindsItem(run: seq<State>, i: nat, t: nat)
    requires Run(run) && i < |run| && t < |run[i].b.sem.pc| && run[i].b.sem.pc[t].Done?
    ensures B.Shape(run[i].b)
    ensures B.CanReturn(run[i].b, t) || exists p: nat :: HasItem(run[i], p)
    ensures forall p: nat :: HasItem(run[i], p) && Quiet(run[i].queues[p]) && t in run[i].queues[p].pc ==>
              Delivers(run[i].queues[p], t)
  {
    hide Run, Inv, B.Run, T.Run, T.Inv;
    var s := run[i];
    RunHasInv(run, i);
    CountersAre(s);
    BlockingRuns(run);
    B.HolderFindsItem(Blockings(run), i, t);
    if !B.CanReturn(s.b, t) {
      var p: nat :| B.CanClaim(s.b, t, p, 1);
      assert Tails(s)[p] == s.b.tail[p] && Heads(s)[p] == s.b.head[p];
      assert HasItem(s, p);
    }
    forall p: nat | HasItem(s, p) && Quiet(s.queues[p]) && t in s.queues[p].pc ensures Delivers(s.queues[p], t) {
      QueuesStay(run, i);
      TicketRuns(run, p);
      TicketLaws.QuietDequeue(TicketsOf(run, p), i, t, 1);
    }
  }

  /** No dequeue in progress, and the tail within half the index range of the head, as ImplicitQueue keeps it. */
  ghost predicate Quiet(q: T.State) {
    (forall u :: u in q.pc ==> q.pc[u] == T.Idle) && q.sh.tail < q.sh.head + HALF
  }

  /** A dequeue of one item by t, run alone, claims the next one. */
  ghost predicate Delivers(q: T.State, t: nat)
    requires t in q.pc
  {
    TicketLaws.Steps(T.Call(q, t, 1), t, 6).pc == q.pc[t := T.Claimed(q.sh.head, 1)]
  }

  // ---------------------------------------------------------------- what a call comes to

  /** In the step from run[i] thread t makes the call m, in which it is all the while until it returns at run[j]. */
  ghost predicate CallEnds(run: seq<State>, i: nat, j: nat, t: nat, m: Move) {
    && i + 1 < j < |run| && CanDo(run[i], m) && run[i + 1] == Do(run[i], m) && t < |run[i].b.tail|
    && t < |run[j].b.sem.pc| && run[j].b.sem.pc[t].Idle?
    && forall g :: i < g < j ==> t < |run[g].b.sem.pc| && !run[g].b.sem.pc[t].Idle?
  }

  lemma InvShape(s: State)
    requires Inv(s)
    ensures B.Shape(s.b)
  {
    hide B.Inv, T.Inv;
  }

  lemma CallIsBlockings(run: seq<State>, i: nat, j: nat, t: nat, m: Move)
    requires Run(run) && CallEnds(run, i, j, t, m) && run[i].b.sem.pc[t].Idle? && t < |run[j].b.tail|
    ensures B.Run(Blockings(run)) && B.CallEnds(Blockings(run), i, j, t)
  {
    hide Run, Inv, B.Run, Do;
    BlockingRuns(run);
    RunHasInv(run, i);
    InvShape(run[i]);
    RunHasInv(run, j);
    InvShape(run[j]);
  }

  /**
    A dequeue for at most max items returns with at most max items of its own, each claimed from the counters of some
    producer. If it blocks without a time limit, it returns only with an item; otherwise it returns with none only if
    max is 0 or no token was available at some moment of the call.
  */
  lemma DequeueCall(run: seq<State>, i: nat, j: nat, t: nat, max: nat, blocking: bool, timed: bool)
    requires Run(run) && CallEnds(run, i, j, t, Dequeue(t, max, blocking, timed))
    ensures t < |run[i].b.claimed| && t < |run[j].b.claimed|
    ensures
      var had, has := run[i].b.claimed[t], run[j].b.claimed[t];
      && had <= has <= had + max
      && (blocking && !timed ==> (has > had <==> max > 0))
      && (has == had ==> max == 0 || B.WasExhausted(Blockings(run), i, j))
  {
    hide Run, Inv, B.Run, B.CallEnds;
    RunHasInv(run, j);
    InvShape(run[j]);
    CallIsBlockings(run, i, j, t, Dequeue(t, max, blocking, timed));
    B.DequeueCall(Blockings(run), i, j, t, max, blocking, timed);
  }

  /** An enqueue of n items moves the tail of the thread's producer by exactly n. */
  lemma EnqueueCall(run: seq<State>, i: nat, j: nat, t: nat, n: nat)
    requires Run(run) && CallEnds(run, i, j, t, Enqueue(t, n))
    ensures t < |run[i].queues| && t < |run[j].queues|
    ensures run[j].queues[t].sh.tail == run[i].queues[t].sh.tail + n
  {
    hide Run, Inv, B.Run, B.CallEnds;
    RunHasInv(run, i);
    RunHasInv(run, j);
    InvShape(run[j]);
    CallIsBlockings(run, i, j, t, Enqueue(t, n));
    B.EnqueueCall(Blockings(run), i, j, t, n);
    CountersAre(run[i]);
    CountersAre(run[j]);
    assert Tails(run[i])[t] == run[i].b.tail[t] && Tails(run[j])[t] == run[j].b.tail[t];
  }
}
