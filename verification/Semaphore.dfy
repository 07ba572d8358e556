/**
  LightweightSemaphore: a counter in front of a kernel semaphore, for any number of threads
  (source/utils/blockingconcurrentqueue.h:250-411).

  Every step is one atomic access or one call of the kernel semaphore. A wait for one token is a wait for at most
  one. How long a thread spins, when a timed wait times out and when a weak exchange fails are left open. `acquired`
  and `signalled` count what each thread got and gave; `base` is what it had got before its call.
*/
module Semaphore {
  import opened Totals

  /** A call of tryWaitMany (not blocking) or waitMany, with or without a time limit. */
  datatype Call = Call(max: nat, blocking: bool, timed: bool, base: nat)

  datatype Pc =
    | Idle
    | Load(c: Call, got: nat)
    | Cas(c: Call, got: nat, seen: int)
    | SpinLoad(c: Call)
    | SpinCas(c: Call, seen: int)
    | Subtract(c: Call)
    | Sleep(c: Call)
    | Recount(c: Call)
    | TryKernel(c: Call)
    | GiveBack(c: Call, seen: int)
    | Done(c: Call, got: nat)
    | AddCount(n: nat)
    | Post(k: nat)

  datatype State = State(
    count: int,             // m_count
    kernel: nat,            // permits in the kernel semaphore
    pc: seq<Pc>,
    initial: nat,
    acquired: seq<nat>,
    signalled: seq<nat>)

  // ---------------------------------------------------------------- steps

  /** What a step may depend on besides the state: giving up a spin, a spurious failure, a time-out. */
  datatype Luck = Good | Bad

  /** The shared part a step of one thread reads and writes. */
  datatype View = View(count: int, kernel: nat, pc: Pc, acquired: nat, signalled: nat)

  /** What an exchange for at most `want` tokens leaves. */
  function Left(seen: int, want: nat): int {
    if seen > want then seen - want else 0
  }

  function Tried(c: Call, got: nat, seen: int): Pc {
    if seen > 0 then Cas(c, got, seen)
    else if got == 0 && c.blocking && c.max > 0 then SpinLoad(c)
    else Done(c, got)
  }

  /** A blocking call that has its first token tries to get the rest without blocking. */
  function First(c: Call): Pc {
    if c.max > 1 then Load(c, 1) else Done(c, 1)
  }

  function Released(seen: int, n: nat): int {
    if -seen < n then -seen else n
  }

  predicate CanAct(v: View, luck: Luck) {
    match v.pc
    case Idle => false
    case Done(_, _) => false
    case Load(c, got) => got <= c.max
    case Cas(c, got, _) => got <= c.max
    case Sleep(c) => if luck.Good? then v.kernel > 0 else c.timed
    case Post(k) => k > 0
    case _ => true
  }

  function Act(v: View, luck: Luck): View
    requires CanAct(v, luck)
  {
    match v.pc
    case Load(c, got) => v.(pc := Tried(c, got, v.count))
    case Cas(c, got, seen) =>
      if luck.Good? && v.count == seen && seen > 0 then
        var left := Left(seen, c.max - got);
        v.(count := left, acquired := v.acquired + (seen - left), pc := Done(c, got + (seen - left)))
      else v.(pc := Tried(c, got, v.count))
    case SpinLoad(c) =>
      if luck.Bad? then v.(pc := Subtract(c)) else v.(pc := if v.count > 0 then SpinCas(c, v.count) else SpinLoad(c))
    case SpinCas(c, seen) =>
      if v.count == seen && seen > 0 then
        var left := Left(seen, c.max);
        v.(count := left, acquired := v.acquired + (seen - left), pc := Done(c, seen - left))
      else v.(pc := SpinLoad(c))
    case Subtract(c) =>
      if v.count > 0 then v.(count := v.count - 1, acquired := v.acquired + 1, pc := First(c))
      else v.(count := v.count - 1, pc := Sleep(c))
    case Sleep(c) =>
      if luck.Good? then v.(kernel := v.kernel - 1, acquired := v.acquired + 1, pc := First(c))
      else v.(pc := Recount(c))
    case Recount(c) => v.(pc := if v.count >= 0 then TryKernel(c) else GiveBack(c, v.count))
    case TryKernel(c) =>
      if v.kernel > 0 then v.(kernel := v.kernel - 1, acquired := v.acquired + 1, pc := First(c))
      else v.(pc := Recount(c))
    case GiveBack(c, seen) =>
      if v.count == seen then v.(count := v.count + 1, pc := Done(c, 0)) else v.(pc := Recount(c))
    case AddCount(n) =>
      var k := Released(v.count, n);
      v.(count := v.count + n, signalled := v.signalled + n, pc := if k > 0 then Post(k) else Idle)
    case Post(k) => v.(kernel := v.kernel + 1, pc := if k > 1 then Post(k - 1) else Idle)
  }

  predicate Shape(s: State) {
    |s.acquired| == |s.signalled| == |s.pc|
  }

  function Get(s: State, t: nat): View
    requires Shape(s) && t < |s.pc|
  {
    View(s.count, s.kernel, s.pc[t], s.acquired[t], s.signalled[t])
  }

  function Put(s: State, t: nat, v: View): State
    requires Shape(s) && t < |s.pc|
  {
    s.(count := v.count, kernel := v.kernel, pc := s.pc[t := v.pc], acquired := s.acquired[t := v.acquired],
       signalled := s.signalled[t := v.signalled])
  }

  predicate CanStep(s: State, t: nat, luck: Luck) {
    Shape(s) && t < |s.pc| && CanAct(Get(s, t), luck)
  }

  function Step(s: State, t: nat, luck: Luck): State
    requires CanStep(s, t, luck)
  {
    Put(s, t, Act(Get(s, t), luck))
  }

  function Wait(s: State, t: nat, max: nat, blocking: bool, timed: bool): State
    requires Shape(s) && t < |s.pc|
  {
    s.(pc := s.pc[t := Load(Call(max, blocking, timed, s.acquired[t]), 0)])
  }

  function Signal(s: State, t: nat, n: nat): State
    requires Shape(s) && t < |s.pc|
  {
    s.(pc := s.pc[t := AddCount(n)])
  }

  function Return(s: State, t: nat): State
    requires Shape(s) && t < |s.pc|
  {
    s.(pc := s.pc[t := Idle])
  }

  ghost predicate Init(s: State) {
    && Shape(s) && s.count == s.initial && s.kernel == 0
    && forall t :: 0 <= t < |s.pc| ==> s.pc[t] == Idle && s.acquired[t] == 0 && s.signalled[t] == 0
  }

  ghost predicate Next(s: State, s': State) {
    && Shape(s)
    && (|| (exists t, luck :: CanStep(s, t, luck) && s' == Step(s, t, luck))
        || (exists t: nat, max, blocking, timed :: t < |s.pc| && s.pc[t].Idle? && s' == Wait(s, t, max, blocking, timed))
        || (exists t: nat, n :: t < |s.pc| && s.pc[t].Idle? && s' == Signal(s, t, n))
        || (exists t: nat :: t < |s.pc| && s.pc[t].Done? && s' == Return(s, t))
        || s' == s)
  }

  ghost predicate NextAt(run: seq<State>, i: nat)
    requires i + 1 < |run|
  {
    Next(run[i], run[i + 1])
  }

  ghost predicate Run(run: seq<State>) {
    |run| > 0 && Init(run[0]) && forall i :: 0 <= i < |run| - 1 ==> NextAt(run, i)
  }

  // ---------------------------------------------------------------- invariant

  /** The thread has decremented the counter and neither got a token for it nor given it back. */
  function Waiting(p: Pc): nat {
    if p.Sleep? || p.Recount? || p.TryKernel? || p.GiveBack? then 1 else 0
  }

  /** Posts the thread owes the kernel semaphore. */
  function Posting(p: Pc): nat {
    if p.Post? then p.k else 0
  }

  function Waits(pc: seq<Pc>): seq<nat> {
    seq(|pc|, i requires 0 <= i < |pc| => Waiting(pc[i]))
  }

  function Postings(pc: seq<Pc>): seq<nat> {
    seq(|pc|, i requires 0 <= i < |pc| => Posting(pc[i]))
  }

  function Waiters(s: State): nat {
    Total(Waits(s.pc))
  }

  function Posts(s: State): nat {
    Total(Postings(s.pc))
  }

  function Negative(x: int): nat {
    if x < 0 then -x else 0
  }

  predicate Balanced(count: int, kernel: int, given: int, taken: int, waiters: int, posts: int) {
    && count == given - taken - waiters
    && kernel + posts == waiters - Negative(count)
  }

  /** What a call has acquired so far. */
  predicate ThreadOk(p: Pc, acquired: nat) {
    match p
    case Load(c, got) => acquired == c.base + got && got <= c.max && got <= 1
    case Cas(c, got, seen) => acquired == c.base + got && got <= c.max && got <= 1 && seen > 0
    case SpinLoad(c) => acquired == c.base && c.blocking && c.max > 0
    case SpinCas(c, seen) => acquired == c.base && seen > 0 && c.blocking && c.max > 0
    case Subtract(c) => acquired == c.base && c.blocking && c.max > 0
    case Sleep(c) => acquired == c.base && c.blocking && c.max > 0
    case Recount(c) => acquired == c.base && c.timed && c.blocking && c.max > 0
    case TryKernel(c) => acquired == c.base && c.timed && c.blocking && c.max > 0
    case GiveBack(c, seen) => acquired == c.base && c.timed && seen < 0 && c.blocking && c.max > 0
    case Done(c, got) => acquired == c.base + got && got <= c.max && (c.blocking && c.max > 0 && !c.timed ==> got > 0)
    case Post(k) => k > 0
    case _ => true
  }

  ghost predicate Inv(s: State) {
    && Shape(s)
    && Balanced(s.count, s.kernel, s.initial + Total(s.signalled), Total(s.acquired), Waiters(s), Posts(s))
    && forall t :: 0 <= t < |s.pc| ==> ThreadOk(s.pc[t], s.acquired[t])
  }

  /** The heart of the benaphore: every step of a thread balances, whatever the others do. */
  ghost predicate KeepsBalance(v: View, v': View) {
    && ThreadOk(v'.pc, v'.acquired) && v'.acquired >= v.acquired && v'.signalled >= v.signalled
    && v'.count == v.count + (v'.signalled - v.signalled) - (v'.acquired - v.acquired) - (Waiting(v'.pc) - Waiting(v.pc))
    && v'.kernel + Posting(v'.pc) - Waiting(v'.pc) + Negative(v'.count)
       == v.kernel + Posting(v.pc) - Waiting(v.pc) + Negative(v.count)
  }

  lemma ActBalances(v: View, luck: Luck)
    requires CanAct(v, luck) && ThreadOk(v.pc, v.acquired)
    ensures KeepsBalance(v, Act(v, luck))
  {
    hide Act, ThreadOk, KeepsBalance;
    if v.pc.Subtract? || v.pc.Sleep? || v.pc.Recount? || v.pc.TryKernel? || v.pc.GiveBack? {
      WaitBalances(v, luck);
    } else if v.pc.AddCount? || v.pc.Post? {
      SignalBalances(v, luck);
    } else {
      TryBalances(v, luck);
    }
  }

  lemma TryBalances(v: View, luck: Luck)
    requires CanAct(v, luck) && ThreadOk(v.pc, v.acquired)
    requires v.pc.Load? || v.pc.Cas? || v.pc.SpinLoad? || v.pc.SpinCas?
    ensures KeepsBalance(v, Act(v, luck))
  {
  }

  lemma WaitBalances(v: View, luck: Luck)
    requires CanAct(v, luck) && ThreadOk(v.pc, v.acquired)
    requires v.pc.Subtract? || v.pc.Sleep? || v.pc.Recount? || v.pc.TryKernel? || v.pc.GiveBack?
    ensures KeepsBalance(v, Act(v, luck))
  {
  }

  lemma SignalBalances(v: View, luck: Luck)
    requires CanAct(v, luck) && ThreadOk(v.pc, v.acquired)
    requires v.pc.AddCount? || v.pc.Post?
    ensures KeepsBalance(v, Act(v, luck))
  {
  }

  lemma PutTotals(s: State, t: nat, v: View)
    requires Shape(s) && t < |s.pc|
    ensures
      var s' := Put(s, t, v);
      && Waiters(s') == Waiters(s) + Waiting(v.pc) - Waiting(s.pc[t])
      && Posts(s') == Posts(s) + Posting(v.pc) - Posting(s.pc[t])
      && Total(s'.acquired) == Total(s.acquired) + v.acquired - s.acquired[t]
      && Total(s'.signalled) == Total(s.signalled) + v.signalled - s.signalled[t]
  {
    var s' := Put(s, t, v);
    assert Waits(s'.pc) == Waits(s.pc)[t := Waiting(v.pc)];
    assert Postings(s'.pc) == Postings(s.pc)[t := Posting(v.pc)];
    TotalUpdate(Waits(s.pc), t, Waiting(v.pc));
    TotalUpdate(Postings(s.pc), t, Posting(v.pc));
    TotalUpdate(s.acquired, t, v.acquired);
    TotalUpdate(s.signalled, t, v.signalled);
  }

  lemma StepKeepsInv(s: State, t: nat, luck: Luck)
    requires Inv(s) && CanStep(s, t, luck)
    ensures Inv(Step(s, t, luck))
  {
    hide Act, Waiters, Posts, Waiting, Posting, ThreadOk, CanAct;
    ActBalances(Get(s, t), luck);
    PutTotals(s, t, Act(Get(s, t), luck));
  }

  /** Calls and returns change only the thread's own position. */
  lemma MoveKeepsInv(s: State, t: nat, p: Pc)
    requires Inv(s) && t < |s.pc| && ThreadOk(p, s.acquired[t])
    requires Waiting(p) == Waiting(s.pc[t]) == 0 && Posting(p) == Posting(s.pc[t]) == 0
    ensures Inv(s.(pc := s.pc[t := p]))
  {
    hide Waiters, Posts, Balanced;
    PutTotals(s, t, Get(s, t).(pc := p));
    assert Put(s, t, Get(s, t).(pc := p)) == s.(pc := s.pc[t := p]);
  }

  lemma NextKeepsInv(s: State, s': State)
    requires Inv(s) && Next(s, s')
    ensures Inv(s')
  {
    hide Inv, Step, CanStep;
    if t, luck :| CanStep(s, t, luck) && s' == Step(s, t, luck) {
      StepKeepsInv(s, t, luck);
    } else if t: nat, max, blocking, timed :| t < |s.pc| && s.pc[t].Idle? && s' == Wait(s, t, max, blocking, timed) {
      MoveKeepsInv(s, t, s'.pc[t]);
    } else if t: nat, n :| t < |s.pc| && s.pc[t].Idle? && s' == Signal(s, t, n) {
      MoveKeepsInv(s, t, s'.pc[t]);
    } else if t: nat :| t < |s.pc| && s.pc[t].Done? && s' == Return(s, t) {
      MoveKeepsInv(s, t, Idle);
    }
  }

  lemma InitHasInv(s: State)
    requires Init(s)
    ensures Inv(s)
  {
    TotalZero(Waits(s.pc));
    TotalZero(Postings(s.pc));
    TotalZero(s.acquired);
    TotalZero(s.signalled);
  }

  lemma {:induction false} RunHasInv(run: seq<State>, i: nat)
    requires Run(run) && i < |run|
    ensures Inv(run[i])
  {
    hide Inv, Next, Init;
    if i == 0 {
      InitHasInv(run[0]);
    } else {
      RunHasInv(run, i - 1);
      assert NextAt(run, i - 1);
      NextKeepsInv(run[i - 1], run[i]);
    }
  }

  // ---------------------------------------------------------------- what the semaphore guarantees

  /** Tokens that were given and not acquired yet. */
  function Available(s: State): int {
    s.initial + Total(s.signalled) - Total(s.acquired)
  }

  /** No token is acquired that was not given, in any run, timeouts included. */
  lemma AcquiredWereGiven(run: seq<State>, i: nat)
    requires Run(run) && i < |run|
    ensures Available(run[i]) >= 0
    ensures Available(run[i]) == run[i].count + Waiters(run[i])
  {
    hide Waiters, Posts, Run;
    RunHasInv(run, i);
  }

  function Min(a: int, b: int): int {
    if a < b then a else b
  }

  /**
    No wakeup is lost and none is made up: the permits in the kernel semaphore and the posts still to be made are
    together exactly as many as there are waiters to be served by available tokens.
  */
  lemma WakeupsMatch(run: seq<State>, i: nat)
    requires Run(run) && i < |run|
    ensures run[i].kernel + Posts(run[i]) == Min(Waiters(run[i]), Available(run[i]))
  {
    hide Waiters, Posts, Run;
    RunHasInv(run, i);
  }

  /** A sleeper can go on as soon as a token is available and nobody is about to post. */
  lemma SleeperCanWake(run: seq<State>, i: nat, t: nat)
    requires Run(run) && i < |run| && t < |run[i].pc| && run[i].pc[t].Sleep?
    requires Available(run[i]) > 0 && Posts(run[i]) == 0
    ensures CanStep(run[i], t, Good)
  {
    hide Posts, Run;
    RunHasInv(run, i);
    WakeupsMatch(run, i);
    assert Waits(run[i].pc)[t] == 1;
    TotalParts(Waits(run[i].pc));
  }

  /** Conversely a waiter for which there is neither a permit nor a post has no token to wait for. */
  lemma StuckMeansNone(run: seq<State>, i: nat)
    requires Run(run) && i < |run| && Waiters(run[i]) > 0 && run[i].kernel == 0 && Posts(run[i]) == 0
    ensures Available(run[i]) == 0 && run[i].count < 0
  {
    hide Waiters, Posts, Run;
    RunHasInv(run, i);
  }

  /** A call returns as many tokens as it acquired, at most max; without a time limit a wait returns at least one. */
  lemma ReturnsWhatItGot(run: seq<State>, i: nat, t: nat)
    requires Run(run) && i < |run| && t < |run[i].pc| && run[i].pc[t].Done?
    ensures Shape(run[i])
    ensures
      var Done(c, got) := run[i].pc[t];
      run[i].acquired[t] - c.base == got <= c.max && (c.blocking && !c.timed ==> (got > 0 <==> c.max > 0))
  {
    hide Run;
    RunHasInv(run, i);
    assert ThreadOk(run[i].pc[t], run[i].acquired[t]);
  }

  lemma {:induction false} WaitersBound(pc: seq<Pc>)
    ensures Total(Waits(pc)) <= |pc|
  {
    if pc != [] {
      var n := |pc| - 1;
      assert Waits(pc)[..n] == Waits(pc[..n]);
      WaitersBound(pc[..n]);
    }
  }

  /**
    Signalling releases no more threads than wait, so the count handed to the kernel semaphore fits an int as long as
    the number of threads does; and the counter never drops below minus the number of threads.
  */
  lemma ReleasesOnlyWaiters(run: seq<State>, i: nat, t: nat, n: nat)
    requires Run(run) && i < |run| && t < |run[i].pc|
    ensures Released(run[i].count, n) <= Waiters(run[i]) <= |run[i].pc|
    ensures -|run[i].pc| <= run[i].count <= Available(run[i])
  {
    hide Posts, Run;
    RunHasInv(run, i);
    WaitersBound(run[i].pc);
  }

  /** waitMany of zero tokens without a time limit breaks its own assert (line 391): it returns none. */
  lemma WaitForNoneGetsNone(s: State, t: nat)
    requires Shape(s) && t < |s.pc| && s.count <= 0
    ensures
      var s' := Wait(s, t, 0, true, false);
      CanStep(s', t, Good) && Step(s', t, Good).pc[t].Done? && Step(s', t, Good).pc[t].got == 0
  {
  }

  // ---------------------------------------------------------------- what a call comes to

  predicate InWait(p: Pc) {
    !p.Idle? && !p.AddCount? && !p.Post?
  }

  function CallOf(p: Pc): Call
    requires InWait(p)
  {
    p.c
  }

  /** A step of a waiting thread leaves its call as it is, and lets it end with nothing only for lack of tokens. */
  lemma ActKeepsCall(v: View, luck: Luck)
    requires CanAct(v, luck) && InWait(v.pc) && ThreadOk(v.pc, v.acquired)
    ensures
      var v' := Act(v, luck);
      && InWait(v'.pc) && CallOf(v'.pc) == CallOf(v.pc)
      && (v'.pc.Done? && v'.pc.got == 0 ==> v'.pc.c.max == 0 || v.count <= 0)
  {
  }

  /** A step of one thread in the run of another's call. */
  lemma OthersWait(s: State, s': State, t: nat)
    requires Next(s, s') && t < |s.pc| && InWait(s.pc[t])
    ensures |s'.pc| == |s.pc| && Shape(s) && Shape(s')
    ensures
      || (s'.pc[t] == s.pc[t] && s'.acquired[t] == s.acquired[t])
      || (s.pc[t].Done? && s'.pc[t].Idle? && s'.acquired[t] == s.acquired[t])
      || exists luck :: CanStep(s, t, luck) && s' == Step(s, t, luck)
  {
    hide Act, CanAct;
  }

  lemma WaitGoesOn(s: State, s': State, t: nat)
    requires Inv(s) && Next(s, s') && t < |s.pc| && InWait(s.pc[t]) && t < |s'.pc| && !s'.pc[t].Idle?
    ensures InWait(s'.pc[t]) && CallOf(s'.pc[t]) == CallOf(s.pc[t])
    ensures s'.pc[t].Done? && s'.pc[t].got == 0 ==> s'.pc[t] == s.pc[t] || s'.pc[t].c.max == 0 || s.count <= 0
  {
    hide Next, Act, CanAct, ThreadOk, Waiters, Posts, Balanced;
    OthersWait(s, s', t);
    if luck :| CanStep(s, t, luck) && s' == Step(s, t, luck) {
      ActKeepsCall(Get(s, t), luck);
    }
  }

  ghost predicate WasExhausted(run: seq<State>, i: nat, j: nat) {
    exists h :: i < h < j && h < |run| && run[h].count <= 0
  }

  /** In the step from run[i] thread t calls wait or one of its variants. */
  ghost predicate WaitsAt(run: seq<State>, i: nat, t: nat, max: nat, blocking: bool, timed: bool) {
    && i + 1 < |run| && Shape(run[i]) && t < |run[i].pc| && run[i].pc[t].Idle?
    && run[i + 1] == Wait(run[i], t, max, blocking, timed)
  }

  /** Thread t has been in its call all the while from run[i + 1] to run[k]. */
  ghost predicate Through(run: seq<State>, i: nat, k: nat, t: nat) {
    i < k < |run| && forall g :: i < g <= k ==> t < |run[g].pc| && !run[g].pc[t].Idle?
  }

  lemma {:induction false} WaitSoFar(run: seq<State>, i: nat, k: nat, t: nat, max: nat, blocking: bool, timed: bool)
    requires Run(run) && WaitsAt(run, i, t, max, blocking, timed) && Through(run, i, k, t)
    ensures t < |run[k].pc| && InWait(run[k].pc[t])
    ensures CallOf(run[k].pc[t]) == Call(max, blocking, timed, run[i].acquired[t])
    ensures run[k].pc[t].Done? && run[k].pc[t].got == 0 ==> max == 0 || WasExhausted(run, i, k)
  {
    hide Run, Next, Inv;
    if k > i + 1 {
      WaitSoFar(run, i, k - 1, t, max, blocking, timed);
      RunHasInv(run, k - 1);
      RunNext(run, k - 1);
      WaitGoesOn(run[k - 1], run[k], t);
      if WasExhausted(run, i, k - 1) {
        var h :| i < h < k - 1 && h < |run| && run[h].count <= 0;
        assert i < h < k;
      }
    }
  }

  lemma RunNext(run: seq<State>, i: nat)
    requires Run(run) && i + 1 < |run|
    ensures Next(run[i], run[i + 1])
  {
    hide Next, Init;
    assert NextAt(run, i);
  }

  /**
    A call does what was asked: it acquires as many tokens as it returns, at most max; if it blocks without a time limit
    at least one, if and only if max is positive; and it comes back with none only if max is 0 or no token was available
    at some moment of the call.
  */
  lemma WaitCall(run: seq<State>, i: nat, j: nat, t: nat, max: nat, blocking: bool, timed: bool)
    requires Run(run) && WaitsAt(run, i, t, max, blocking, timed) && Through(run, i, j, t) && run[j].pc[t].Done?
    ensures Shape(run[j])
    ensures
      var got := run[j].pc[t].got;
      && got <= max && run[j].acquired[t] == run[i].acquired[t] + got
      && (blocking && !timed ==> (got > 0 <==> max > 0))
      && (got == 0 ==> max == 0 || WasExhausted(run, i, j))
  {
    hide Run, Next, Inv;
    WaitSoFar(run, i, j, t, max, blocking, timed);
    ReturnsWhatItGot(run, j, t);
  }

  /** A call ends from Done. */
  lemma WaitEnds(run: seq<State>, i: nat, j: nat, t: nat, max: nat, blocking: bool, timed: bool)
    requires Run(run) && WaitsAt(run, i, t, max, blocking, timed) && Through(run, i, j, t)
    requires j + 1 < |run| && t < |run[j + 1].pc| && run[j + 1].pc[t].Idle?
    ensures run[j].pc[t].Done? && Shape(run[j]) && Shape(run[j + 1]) && run[j + 1].acquired[t] == run[j].acquired[t]
  {
    hide Run, Next, Inv, Act, CanAct;
    WaitSoFar(run, i, j, t, max, blocking, timed);
    RunHasInv(run, j);
    RunNext(run, j);
    OthersWait(run[j], run[j + 1], t);
    InvThread(run[j], t);
    if luck :| CanStep(run[j], t, luck) && run[j + 1] == Step(run[j], t, luck) {
      ActKeepsCall(Get(run[j], t), luck);
    }
  }

  lemma InvThread(s: State, t: nat)
    requires Inv(s) && t < |s.pc|
    ensures Shape(s) && ThreadOk(s.pc[t], s.acquired[t])
  {
  }

  /** A call that nobody disturbs takes the tokens there are, up to max; without blocking, none if there are none. */
  lemma QuietWait(s: State, t: nat, max: nat, blocking: bool, timed: bool)
    requires Shape(s) && t < |s.pc|
    ensures
      var s0 := Wait(s, t, max, blocking, timed);
      && CanStep(s0, t, Good)
      && var s1 := Step(s0, t, Good);
         if s.count > 0 then
           && CanStep(s1, t, Good)
           && var s2 := Step(s1, t, Good);
              && s2.pc[t].Done? && s2.pc[t].c == Call(max, blocking, timed, s.acquired[t]) && s2.pc[t].got == Min(max, s.count)
              && s2.count == s.count - Min(max, s.count) && s2.acquired[t] == s.acquired[t] + Min(max, s.count)
              && s2.kernel == s.kernel
         else
           (!blocking || max == 0) ==>
             && s1.pc[t] == Done(Call(max, blocking, timed, s.acquired[t]), 0)
             && s1.count == s.count && s1.acquired == s.acquired && s1.kernel == s.kernel
  {
  }

  /** In the step from run[i] thread t calls signal(n). */
  ghost predicate SignalsAt(run: seq<State>, i: nat, t: nat, n: nat) {
    i + 1 < |run| && Shape(run[i]) && t < |run[i].pc| && run[i].pc[t].Idle? && run[i + 1] == Signal(run[i], t, n)
  }

  /** What thread t has signalled, and what it is about to. */
  function Owed(p: Pc): nat {
    if p.AddCount? then p.n else 0
  }

  lemma ActSignals(v: View, luck: Luck)
    requires CanAct(v, luck) && (v.pc.AddCount? || v.pc.Post?)
    ensures var v' := Act(v, luck); v'.signalled + Owed(v'.pc) == v.signalled + Owed(v.pc) && !InWait(v'.pc)
  {
  }

  lemma SignalGoesOn(s: State, s': State, t: nat)
    requires Next(s, s') && t < |s.pc| && Shape(s) && (s.pc[t].AddCount? || s.pc[t].Post?)
    ensures |s'.pc| == |s.pc| && Shape(s') && !InWait(s'.pc[t])
    ensures s'.signalled[t] + Owed(s'.pc[t]) == s.signalled[t] + Owed(s.pc[t])
  {
    hide Act, CanAct;
    if u, luck :| CanStep(s, u, luck) && s' == Step(s, u, luck) {
      if u == t {
        ActSignals(Get(s, t), luck);
      }
    }
  }

  lemma {:induction false} SignalSoFar(run: seq<State>, i: nat, k: nat, t: nat, n: nat)
    requires Run(run) && SignalsAt(run, i, t, n) && i < k < |run|
    requires forall g :: i < g < k ==> t < |run[g].pc| && !run[g].pc[t].Idle?
    ensures t < |run[k].pc| && Shape(run[k]) && !InWait(run[k].pc[t])
    ensures run[k].signalled[t] + Owed(run[k].pc[t]) == run[i].signalled[t] + n
  {
    hide Run, Next;
    if k > i + 1 {
      SignalSoFar(run, i, k - 1, t, n);
      RunNext(run, k - 1);
      SignalGoesOn(run[k - 1], run[k], t);
    }
  }

  /** A signal gives exactly the n tokens it was asked to give. */
  lemma SignalCall(run: seq<State>, i: nat, j: nat, t: nat, n: nat)
    requires Run(run) && SignalsAt(run, i, t, n) && i + 1 < j < |run| && t < |run[j].pc| && run[j].pc[t].Idle?
    requires forall g :: i < g < j ==> t < |run[g].pc| && !run[g].pc[t].Idle?
    ensures Shape(run[j]) && run[j].signalled[t] == run[i].signalled[t] + n
  {
    hide Run, Next;
    SignalSoFar(run, i, j, t, n);
  }
}
