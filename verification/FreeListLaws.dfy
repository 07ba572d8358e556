/** What the free list guarantees in every run, and what a call of add or try_get comes to. */
module FreeListLaws {
  import opened Wrappers
  import opened FreeList
  import opened FreeListSteps

  // ---------------------------------------------------------------- what the invariant gives

  /** Following freeListNext from h meets exactly the nodes xs, in this order. */
  ghost predicate Chain(s: State, h: Option<Node>, xs: seq<Node>)
    decreases |xs|
  {
    if xs == [] then h == None else h == Some(xs[0]) && Chain(s, s.Next(xs[0]), xs[1..])
  }

  lemma {:induction false} ChainFrom(s: State, i: nat)
    requires ListOk(s) && i <= |s.list|
    ensures Chain(s, First(s.list[i..]), s.list[i..])
    decreases |s.list| - i
  {
    if i < |s.list| {
      ChainFrom(s, i + 1);
      assert s.list[i..][1..] == s.list[i + 1..];
    }
  }

  lemma {:induction false} ChainUnique(s: State, h: Option<Node>, xs: seq<Node>, ys: seq<Node>)
    requires Chain(s, h, xs) && Chain(s, h, ys)
    ensures xs == ys
    decreases |xs|
  {
    if xs != [] && ys != [] {
      ChainUnique(s, s.Next(xs[0]), xs[1..], ys[1..]);
    }
  }

  /** In every run the pointers in memory form one finite list without repetition. */
  lemma HeadLeadsThroughList(run: seq<State>, i: nat, xs: seq<Node>)
    requires Run(run) && i < |run|
    ensures Chain(run[i], run[i].head, xs) <==> xs == run[i].list
    ensures forall j, k :: 0 <= j < k < |run[i].list| ==> run[i].list[j] != run[i].list[k]
  {
    RunHasInv(run, i);
    ChainFrom(run[i], 0);
    assert run[i].list[0..] == run[i].list;
    if Chain(run[i], run[i].head, xs) {
      ChainUnique(run[i], run[i].head, xs, run[i].list);
    }
  }

  /**
    The pop is free of the ABA problem: whenever the CAS of try_get succeeds, memory holds a list whose first node is
    the one popped, and afterwards it holds the rest of that same list, however old the `next` in hand is.
  */
  lemma PopTakesFirst(run: seq<State>, i: nat, t: Thread, xs: seq<Node>)
    requires Run(run) && i < |run| && t in run[i].pc && run[i].pc[t].CasHead?
    requires Chain(run[i], run[i].head, xs)
    requires Step(run[i], t).pc[t].DropTwo?
    ensures xs != [] && run[i].pc[t].head == xs[0]
    ensures Chain(Step(run[i], t), Step(run[i], t).head, xs[1..])
  {
    var s := run[i];
    HeadLeadsThroughList(run, i, xs);
    RunHasInv(run, i);
    StepKeepsInv(s, t);
    ChainFrom(Step(s, t), 0);
    assert Step(s, t).list[0..] == xs[1..];
  }

  /**
    Exclusive ownership: a node try_get is about to return has SHOULD_BE_ON_FREELIST clear (the assert at line 1396),
    is in nobody's hands, off the list, and no other thread is returning, adding or publishing it.
  */
  lemma TryGetIsExclusive(run: seq<State>, i: nat, t: Thread, n: Node)
    requires Run(run) && i < |run| && t in run[i].pc && run[i].pc[t] == DropTwo(n)
    ensures run[i].Refs(n) < SHOULD_BE_ON_FREELIST
    ensures run[i].Place(n) != Out && n !in run[i].list
    ensures Step(run[i], t).Place(n) == Out
    ensures forall u :: u in run[i].pc && u != t ==>
              run[i].pc[u] != DropTwo(n) && run[i].pc[u] != Flag(n)
              && !Quiet(run[i].pc[u], n) && !Offered(run[i].pc[u], n)
  {
    var s := run[i];
    RunHasInv(run, i);
    assert ThreadOk(s, t) && CountOk(s, n);
    GettersBound(s, n);
    forall u | u in s.pc && u != t
      ensures s.pc[u] != DropTwo(n) && s.pc[u] != Flag(n) && !Quiet(s.pc[u], n) && !Offered(s.pc[u], n)
    {
      assert ThreadOk(s, u);
    }
  }

  /** The step from s to s' is a call of add for n. */
  ghost predicate Adds(s: State, s': State, n: Node) {
    exists t :: t in s.pc && s.pc[t] == Idle && s' == CallAdd(s, t, n)
  }

  lemma OutStaysInStep(s: State, t: Thread, n: Node)
    requires Inv(s) && t in s.pc && s.Place(n) == Out
    ensures Step(s, t).Place(n) == Out
  {
    if Target(s.pc[t]) == Some(n) {
      ViewHolds(s, t, n);
      ActPlaces(t, n, Look(s, t, n));
    }
  }

  /** A node in a client's hands stays there until somebody calls add for it. */
  lemma OutStays(s: State, s': State, n: Node)
    requires Inv(s) && Next(s, s') && s.Place(n) == Out
    ensures s'.Place(n) == Out || Adds(s, s', n)
  {
    if t :| t in s.pc && s' == Step(s, t) {
      OutStaysInStep(s, t, n);
    } else if t :| t in s.pc && s.pc[t] == Idle && s' == CallTryGet(s, t) {
      assert s'.place == s.place;
    } else {
      var t, m :| t in s.pc && s.pc[t] == Idle && s.Place(m) == Out && s' == CallAdd(s, t, m);
      assert m != n ==> s'.Place(n) == s.Place(n);
    }
  }

  /** Step i of the run is the return of n from try_get by t. */
  ghost predicate Returns(run: seq<State>, i: nat, t: Thread, n: Node) {
    i + 1 < |run| && t in run[i].pc && run[i].pc[t] == DropTwo(n) && run[i + 1] == Step(run[i], t)
  }

  ghost predicate AddsAt(run: seq<State>, i: nat, n: Node)
    requires i + 1 < |run|
  {
    Adds(run[i], run[i + 1], n)
  }

  lemma {:induction false} OutUntilAdd(run: seq<State>, i: nat, j: nat, n: Node)
    requires Run(run) && i <= j < |run| && run[i].Place(n) == Out
    requires forall k :: i <= k < j ==> !AddsAt(run, k, n)
    ensures run[j].Place(n) == Out
  {
    if i < j {
      OutUntilAdd(run, i, j - 1, n);
      assert NextAt(run, j - 1) && !AddsAt(run, j - 1, n);
      RunHasInv(run, j - 1);
      OutStays(run[j - 1], run[j], n);
    }
  }

  /** No node is handed out twice: between two returns of a node lies a call of add for it. */
  lemma NoDoubleReturn(run: seq<State>, i: nat, j: nat, t: Thread, u: Thread, n: Node)
    requires Run(run) && i < j && Returns(run, i, t, n) && Returns(run, j, u, n)
    ensures exists k :: i < k < j && AddsAt(run, k, n)
  {
    if forall k :: i + 1 <= k < j ==> !AddsAt(run, k, n) {
      TryGetIsExclusive(run, i, t, n);
      OutUntilAdd(run, i + 1, j, n);
      TryGetIsExclusive(run, j, u, n);
      assert false;
    }
  }

  /**
    No node is lost on the way: one whose add was put off has its flag set and some thread inside try_get that still
    holds a reference and cannot pop it; if that thread is the last to drop its reference, it publishes the node.
  */
  lemma PendingIsBound(run: seq<State>, i: nat, n: Node)
    requires Run(run) && i < |run| && run[i].Place(n) == Pending
    ensures run[i].Refs(n) >= SHOULD_BE_ON_FREELIST && Getters(run[i], n) != {}
    ensures forall t :: t in Getters(run[i], n) ==> !run[i].pc[t].DropTwo? && !Step(run[i], t).pc[t].DropTwo?
    ensures forall t :: Getters(run[i], n) == {t} && run[i].pc[t].DropOne? ==> Step(run[i], t).Place(n) == Publishing(t)
  {
    var s := run[i];
    RunHasInv(run, i);
    assert CountOk(s, n);
    forall t | t in Getters(s, n)
      ensures !s.pc[t].DropTwo? && !Step(s, t).pc[t].DropTwo?
    {
      ViewHolds(s, t, n);
    }
  }

  /** When no call is in progress, every node is in a client's hands or on the list that starts at freeListHead. */
  lemma NoNodeIsLost(run: seq<State>, i: nat, xs: seq<Node>, n: Node)
    requires Run(run) && i < |run| && Chain(run[i], run[i].head, xs)
    requires forall t :: t in run[i].pc ==> run[i].pc[t] == Idle
    ensures n in xs <==> run[i].Place(n) != Out
    ensures run[i].Refs(n) == if n in xs then 1 else 0
  {
    var s := run[i];
    HeadLeadsThroughList(run, i, xs);
    RunHasInv(run, i);
    assert CountOk(s, n) && PlaceOk(s, n);
    assert Getters(s, n) == {};
  }

  // ---------------------------------------------------------------- what a call comes to

  /** Positions inside try_get, as opposed to add. */
  predicate InTryGet(p: Pc) {
    match p
    case Idle => false
    case Flag(_) => false
    case PubLoad(_, k) => k.Loop?
    case PubNext(_, _, k) => k.Loop?
    case PubRefs(_, _, k) => k.Loop?
    case PubCas(_, _, k) => k.Loop?
    case PubBackOff(_, _, k) => k.Loop?
    case _ => true
  }

  lemma SearchGoesOn(p: Pc, t: Thread, n: Node, v: View)
    requires Target(p) == Some(n) && v.pc == p
    ensures
      var p' := Act(t, n, v).pc;
      && (InTryGet(p') ==> InTryGet(p)) && (p' != Idle && InTryGet(p) ==> InTryGet(p'))
      && (p.DropTwo? ==> p' == Idle)
  {
  }

  /** A thread inside the free list stays in the call it is in until that returns. */
  lemma StepStaysInCall(f: State, t: Thread)
    requires t in f.pc
    ensures
      var f' := Step(f, t);
      && f'.pc.Keys == f.pc.Keys && t in f'.pc && (forall u :: u in f.pc && u != t ==> u in f'.pc && f'.pc[u] == f.pc[u])
      && (InTryGet(f'.pc[t]) ==> InTryGet(f.pc[t])) && (f'.pc[t] != Idle && InTryGet(f.pc[t]) ==> InTryGet(f'.pc[t]))
      && (f.pc[t].DropTwo? ==> f'.pc[t] == Idle)
  {
    hide Act, InTryGet;
    var n := Target(f.pc[t]);
    if n.Some? {
      SearchGoesOn(f.pc[t], t, n.value, Look(f, t, n.value));
    } else {
      LoopGoesOn(f, t);
    }
  }

  lemma LoopGoesOn(f: State, t: Thread)
    requires t in f.pc && Target(f.pc[t]).None?
    ensures
      var p, p' := f.pc[t], Step(f, t).pc[t];
      (InTryGet(p') ==> InTryGet(p)) && (p' != Idle && InTryGet(p) ==> InTryGet(p')) && !p.DropTwo?
  {
  }

  /** From run[i] to run[j] thread t makes one call of try_get. */
  ghost predicate TryGets(run: seq<State>, i: nat, j: nat, t: Thread) {
    && i + 1 < j < |run| && t in run[i].pc && run[i].pc[t] == Idle && run[i + 1] == CallTryGet(run[i], t)
    && (forall k :: i < k < j ==> t in run[k].pc && run[k].pc[t] != Idle)
    && t in run[j].pc && run[j].pc[t] == Idle
  }

  /** The thread has read a null head and will return when it has dropped the reference it holds. */
  predicate SawNull(p: Pc) {
    match p
    case DropOne(_, seen) => seen == None
    case PubLoad(_, k) => k == Loop(None)
    case PubNext(_, _, k) => k == Loop(None)
    case PubRefs(_, _, k) => k == Loop(None)
    case PubCas(_, _, k) => k == Loop(None)
    case PubBackOff(_, _, k) => k == Loop(None)
    case _ => false
  }

  /** It comes to that only by reading one, and leaves only then, or with a node. */
  lemma ActSeesNull(t: Thread, n: Node, v: View)
    requires Target(v.pc) == Some(n) && InTryGet(v.pc)
    ensures
      var p' := Act(t, n, v).pc;
      && (SawNull(p') ==> SawNull(v.pc) || v.head == None)
      && (p' == Idle ==> v.pc == DropTwo(n) || SawNull(v.pc))
  {
  }

  lemma StepSeesNull(s: State, t: Thread)
    requires t in s.pc && InTryGet(s.pc[t])
    ensures
      var s' := Step(s, t);
      && t in s'.pc && (SawNull(s'.pc[t]) ==> SawNull(s.pc[t]) || s.head == None)
      && (s'.pc[t] == Idle ==> s.pc[t].DropTwo? || SawNull(s.pc[t]) || s.head == None)
  {
    hide Act, SawNull;
    var n := Target(s.pc[t]);
    if n.Some? {
      ActSeesNull(t, n.value, Look(s, t, n.value));
    } else {
      LoadSeesNull(s, t);
    }
  }

  lemma LoadSeesNull(s: State, t: Thread)
    requires t in s.pc && InTryGet(s.pc[t]) && Target(s.pc[t]).None?
    ensures var p' := Step(s, t).pc[t]; !SawNull(p') && (p' == Idle ==> s.head == None)
  {
  }

  /** A thread in a call is moved by its own steps only. */
  lemma OnlyOwnSteps(s: State, s': State, t: Thread)
    requires Next(s, s') && t in s.pc && s.pc[t] != Idle
    ensures t in s'.pc && (s'.pc[t] == s.pc[t] || s' == Step(s, t))
  {
    hide Step;
    if u :| u in s.pc && s' == Step(s, u) {
      StepStaysInCall(s, u);
    }
  }

  ghost predicate HeadWasNull(run: seq<State>, i: nat, k: nat) {
    exists h :: i < h < k && h < |run| && run[h].head == None
  }

  lemma {:induction false} NullIsSeen(run: seq<State>, i: nat, k: nat, t: Thread)
    requires Run(run) && i < k < |run| && t in run[i].pc && run[i].pc[t] == Idle && run[i + 1] == CallTryGet(run[i], t)
    requires forall g :: i < g <= k ==> t in run[g].pc && run[g].pc[t] != Idle
    ensures InTryGet(run[k].pc[t]) && (SawNull(run[k].pc[t]) ==> HeadWasNull(run, i, k))
  {
    hide Run, Next, Step;
    if k > i + 1 {
      NullIsSeen(run, i, k - 1, t);
      RunNext(run, k - 1);
      OnlyOwnSteps(run[k - 1], run[k], t);
      if run[k] == Step(run[k - 1], t) {
        StepStaysInCall(run[k - 1], t);
        StepSeesNull(run[k - 1], t);
      }
      if HeadWasNull(run, i, k - 1) {
        var h :| i < h < k - 1 && h < |run| && run[h].head == None;
        assert i < h < k;
      }
    }
  }

  lemma RunNext(run: seq<State>, i: nat)
    requires Run(run) && i + 1 < |run|
    ensures Next(run[i], run[i + 1])
  {
    hide Next, Init;
    assert NextAt(run, i);
  }

  ghost predicate ReturnsNode(run: seq<State>, i: nat, t: Thread) {
    exists n :: Returns(run, i, t, n)
  }

  /** A try_get returns a node or has found the list empty: at some moment of the call freeListHead was null. */
  lemma NullMeansEmpty(run: seq<State>, i: nat, j: nat, t: Thread)
    requires Run(run) && TryGets(run, i, j, t)
    ensures ReturnsNode(run, j - 1, t) || HeadWasNull(run, i, j)
  {
    hide Run, Next, Step;
    NullIsSeen(run, i, j - 1, t);
    RunNext(run, j - 1);
    OnlyOwnSteps(run[j - 1], run[j], t);
    StepSeesNull(run[j - 1], t);
    if run[j - 1].pc[t].DropTwo? {
      assert Returns(run, j - 1, t, run[j - 1].pc[t].head);
    } else if HeadWasNull(run, i, j - 1) {
      var h :| i < h < j - 1 && h < |run| && run[h].head == None;
      assert i < h < j;
    }
  }

  ghost function Steps(s: State, t: Thread, n: nat): (r: State)
    requires t in s.pc
    ensures t in r.pc
    decreases n
  {
    if n == 0 then s else
      StepStaysInCall(s, t);
      Steps(Step(s, t), t, n - 1)
  }

  lemma StepIs(s: State, t: Thread, n: Node)
    requires t in s.pc && Target(s.pc[t]) == Some(n)
    ensures Step(s, t) == Put(s, t, n, Act(t, n, Look(s, t, n)))
  {
  }

  /**
    A try_get that nobody disturbs takes the first node of the list, whatever other threads are in the middle of, and
    leaves the rest; on an empty list it returns at once and changes nothing.
  */
  lemma QuietTryGet(run: seq<State>, i: nat, t: Thread, xs: seq<Node>)
    requires Run(run) && i < |run| && t in run[i].pc && run[i].pc[t] == Idle && Chain(run[i], run[i].head, xs)
    ensures
      if xs == [] then Steps(CallTryGet(run[i], t), t, 1) == run[i]
      else
        var r := Steps(CallTryGet(run[i], t), t, 6);
        && r.pc == run[i].pc && r.Place(xs[0]) == Out && r.list == xs[1..] && Chain(r, r.head, xs[1..])
        && forall n :: n != xs[0] ==> r.Place(n) == run[i].Place(n)
  {
    hide Run, Inv, Step, Act, Steps;
    HeadLeadsThroughList(run, i, xs);
    RunHasInv(run, i);
    var s := run[i];
    if xs == [] {
      EmptyTryGet(s, t);
    } else {
      FirstTryGet(s, t);
      var r := Steps(CallTryGet(s, t), t, 6);
      ChainFrom(r, 0) by {
        InvHasList(r);
      }
      InvHasList(r);
      assert r.list[0..] == xs[1..];
    }
  }

  lemma InvHasList(s: State)
    requires Inv(s)
    ensures ListOk(s)
  {
  }

  lemma EmptyTryGet(s: State, t: Thread)
    requires Inv(s) && t in s.pc && s.pc[t] == Idle && s.list == []
    ensures Steps(CallTryGet(s, t), t, 1) == s
  {
    hide Act;
    assert s.head == None;
    var s1 := CallTryGet(s, t);
    assert Step(s1, t).pc == s.pc;
    assert Steps(s1, t, 1) == Steps(Step(s1, t), t, 0) == Step(s1, t);
  }

  /** Only the position of t, and the reference count of n, differ from s. */
  ghost predicate Differs(s: State, s': State, t: Thread, p: Pc, n: Node, refs: nat) {
    && s'.pc == s.pc[t := p] && s'.head == s.head && s'.list == s.list && s'.Refs(n) == refs
    && forall m :: s'.Next(m) == s.Next(m) && s'.Place(m) == s.Place(m)
  }

  /** An access of t to node n, seen from the state s in which t was still idle. */
  lemma AccessDiffers(s: State, s': State, t: Thread, p: Pc, n: Node, refs: nat, p': Pc, refs': nat)
    requires t in s.pc && Differs(s, s', t, p, n, refs) && Target(p) == Some(n)
    requires var v := View(p, refs, s.Next(n), s.Place(n), s.head, s.list); Act(t, n, v) == v.(pc := p', refs := refs')
    ensures t in s'.pc && Differs(s, Step(s', t), t, p', n, refs')
  {
    hide Act;
    StepIs(s', t, n);
  }

  lemma FrontIsCounted(s: State)
    requires Inv(s) && s.list != []
    ensures
      var n := s.list[0];
      && s.head == Some(n) && s.Place(n) == Listed && s.Next(n) == First(s.list[1..])
      && RefCount(s.Refs(n)) != 0 && 0 < s.Refs(n) && s.Refs(n) + 1 < SHOULD_BE_ON_FREELIST
  {
    var n := s.list[0];
    assert CountOk(s, n) && s.Next(s.list[0]) == First(s.list[0 + 1..]);
    GettersBound(s, n);
  }

  /** The first four accesses of an undisturbed try_get, up to the exchange of freeListHead. */
  lemma TryGetReaches(s: State, t: Thread)
    requires Inv(s) && t in s.pc && s.pc[t] == Idle && s.list != []
    ensures
      var n := s.list[0];
      Differs(s, Steps(CallTryGet(s, t), t, 4), t, CasHead(n, s.Next(n)), n, s.Refs(n) + 1)
  {
    hide Act, Inv, Differs;
    FrontIsCounted(s);
    var n, refs := s.list[0], s.Refs(s.list[0]);
    var s0 := CallTryGet(s, t);
    var s1 := Step(s0, t);
    assert Differs(s, s1, t, LoadRefs(n), n, refs) by {
      FirstLoad(s, t);
    }
    var s2, s3, s4 := Step(s1, t), Step(Step(s1, t), t), Step(Step(Step(s1, t), t), t);
    FrontActs(t, n, s.Next(n), s.Place(n), s.head, s.list, refs);
    AccessDiffers(s, s1, t, LoadRefs(n), n, refs, CasRefs(n, refs), refs);
    AccessDiffers(s, s2, t, CasRefs(n, refs), n, refs, LoadNext(n), refs + 1);
    AccessDiffers(s, s3, t, LoadNext(n), n, refs + 1, CasHead(n, s.Next(n)), refs + 1);
    FourSteps(s0, t);
  }

  lemma FirstLoad(s: State, t: Thread)
    requires Inv(s) && t in s.pc && s.pc[t] == Idle && s.list != []
    ensures Differs(s, Step(CallTryGet(s, t), t), t, LoadRefs(s.list[0]), s.list[0], s.Refs(s.list[0]))
  {
    hide Act;
    FrontIsCounted(s);
  }

  lemma FrontActs(t: Thread, n: Node, next: Option<Node>, place: Place, head: Option<Node>, list: seq<Node>, refs: nat)
    requires RefCount(refs) != 0 && refs + 1 < SHOULD_BE_ON_FREELIST
    ensures var v := View(LoadRefs(n), refs, next, place, head, list); Act(t, n, v) == v.(pc := CasRefs(n, refs))
    ensures var v := View(CasRefs(n, refs), refs, next, place, head, list);
            Act(t, n, v) == v.(pc := LoadNext(n), refs := refs + 1)
    ensures var v := View(LoadNext(n), refs + 1, next, place, head, list); Act(t, n, v) == v.(pc := CasHead(n, next))
  {
  }

  lemma FourSteps(s: State, t: Thread)
    requires t in s.pc
    ensures t in Step(s, t).pc && t in Step(Step(s, t), t).pc && t in Step(Step(Step(s, t), t), t).pc
    ensures Steps(s, t, 4) == Step(Step(Step(Step(s, t), t), t), t)
  {
    hide Act, Step;
    var s1 := Step(s, t);
    StepStaysInCall(s, t);
    var s2 := Step(s1, t);
    StepStaysInCall(s1, t);
    var s3 := Step(s2, t);
    StepStaysInCall(s2, t);
    assert Steps(s, t, 4) == Steps(s1, t, 3) == Steps(s2, t, 2) == Steps(s3, t, 1) == Step(s3, t);
  }

  /** The exchange succeeds, and the node is handed over. */
  lemma TryGetTakes(s: State, s4: State, t: Thread)
    requires Inv(s) && t in s.pc && s.pc[t] == Idle && s.list != []
    requires Differs(s, s4, t, CasHead(s.list[0], s.Next(s.list[0])), s.list[0], s.Refs(s.list[0]) + 1)
    ensures t in s4.pc && t in Step(s4, t).pc
    ensures
      var r, n := Step(Step(s4, t), t), s.list[0];
      && r.pc == s.pc && r.list == s.list[1..] && r.Place(n) == Out && forall m :: m != n ==> r.Place(m) == s.Place(m)
  {
    hide Act;
    FrontIsCounted(s);
    var n := s.list[0];
    StepIs(s4, t, n);
    TakingActs(t, n, Look(s4, t, n));
    var s5 := Step(s4, t);
    StepIs(s5, t, n);
    ReturningActs(t, n, Look(s5, t, n));
    assert s.pc[t := Idle] == s.pc;
  }

  lemma TakingActs(t: Thread, n: Node, v: View)
    requires v.pc.CasHead? && v.pc.head == n && v.head == Some(n)
    ensures var v' := Act(t, n, v); v'.pc == DropTwo(n) && v'.list == Tail(v.list) && v'.place == Popped(t)
  {
  }

  lemma ReturningActs(t: Thread, n: Node, v: View)
    requires v.pc == DropTwo(n)
    ensures var v' := Act(t, n, v); v'.pc == Idle && v'.list == v.list && v'.place == Out
  {
  }

  lemma FirstTryGet(s: State, t: Thread)
    requires Inv(s) && t in s.pc && s.pc[t] == Idle && s.list != []
    ensures
      var r, n := Steps(CallTryGet(s, t), t, 6), s.list[0];
      && Inv(r) && r.pc == s.pc && r.list == s.list[1..] && r.Place(n) == Out
      && forall m :: m != n ==> r.Place(m) == s.Place(m)
  {
    hide Act, Inv, Step, Differs, Steps;
    TryGetReaches(s, t);
    CallTryGetKeepsInv(s, t);
    var s0 := CallTryGet(s, t);
    TryGetTakes(s, Steps(s0, t, 4), t);
    StepsAdd(s0, t, 4, 2);
    TwoSteps(Steps(s0, t, 4), t);
    StepsKeepInv(s0, t, 6);
  }

  lemma TwoSteps(s: State, t: Thread)
    requires t in s.pc
    ensures t in Step(s, t).pc && Steps(s, t, 2) == Step(Step(s, t), t)
  {
    hide Act, Step;
    var s1 := Step(s, t);
    StepStaysInCall(s, t);
    assert Steps(s, t, 2) == Steps(s1, t, 1) == Step(s1, t);
  }

  lemma {:induction false} StepsAdd(s: State, t: Thread, m: nat, n: nat)
    requires t in s.pc
    ensures Steps(s, t, m + n) == Steps(Steps(s, t, m), t, n)
    decreases m
  {
    hide Act, Step;
    if m > 0 {
      StepStaysInCall(s, t);
      StepsAdd(Step(s, t), t, m - 1, n);
    }
  }

  lemma {:induction false} StepsKeepInv(s: State, t: Thread, n: nat)
    requires Inv(s) && t in s.pc
    ensures Inv(Steps(s, t, n))
    decreases n
  {
    hide Act, Step, Inv;
    if n > 0 {
      StepStaysInCall(s, t);
      StepKeepsInv(s, t);
      StepsKeepInv(Step(s, t), t, n - 1);
    }
  }

  // ---------------------------------------------------------------- an undisturbed add

  /**
    An add that nobody disturbs puts the node in front of the list, unless some getter still holds a reference from
    before: then it returns at once, and leaves the node to the getter (PendingIsBound).
  */
  lemma QuietAdd(run: seq<State>, i: nat, t: Thread, n: Node, xs: seq<Node>)
    requires Run(run) && i < |run| && t in run[i].pc && run[i].pc[t] == Idle && run[i].Place(n) == Out
    requires Chain(run[i], run[i].head, xs)
    ensures
      if Getters(run[i], n) == {} then
        var r := Steps(CallAdd(run[i], t, n), t, 5);
        r.pc == run[i].pc && Chain(r, r.head, [n] + xs) && r.list == [n] + xs && r.Refs(n) == 1
      else
        var r := Steps(CallAdd(run[i], t, n), t, 1);
        r.pc == run[i].pc && Chain(r, r.head, xs) && r.Place(n) == Pending
  {
    hide Run, Inv, Step, Act, Steps, Chain;
    HeadLeadsThroughList(run, i, xs);
    RunHasInv(run, i);
    var s := run[i];
    CallAddKeepsInv(s, t, n);
    if Getters(s, n) == {} {
      AddsInFront(s, t, n);
      var r := Steps(CallAdd(s, t, n), t, 5);
      StepsKeepInv(CallAdd(s, t, n), t, 5);
      ListChain(r);
    } else {
      AddIsPutOff(s, t, n);
      var r := Steps(CallAdd(s, t, n), t, 1);
      StepsKeepInv(CallAdd(s, t, n), t, 1);
      ListChain(r);
    }
  }

  lemma ListChain(s: State)
    requires Inv(s)
    ensures Chain(s, s.head, s.list)
  {
    ChainFrom(s, 0);
    assert s.list[0..] == s.list;
  }

  lemma OutIsCounted(s: State, n: Node)
    requires Inv(s) && s.Place(n) == Out
    ensures s.Refs(n) == |Getters(s, n)| && s.Refs(n) + 2 < SHOULD_BE_ON_FREELIST
  {
    assert CountOk(s, n);
    GettersBound(s, n);
  }

  lemma AddIsPutOff(s: State, t: Thread, n: Node)
    requires Inv(s) && t in s.pc && s.pc[t] == Idle && s.Place(n) == Out && Getters(s, n) != {}
    ensures var r := Steps(CallAdd(s, t, n), t, 1); r.pc == s.pc && r.list == s.list && r.Place(n) == Pending
  {
    OutIsCounted(s, n);
    var s0 := CallAdd(s, t, n);
    StepIs(s0, t, n);
    assert Steps(s0, t, 1) == Steps(Step(s0, t), t, 0) == Step(s0, t);
    assert s.pc[t := Idle] == s.pc;
  }

  /** What t sees of the list and of n while it adds n: its position, the count and the link. */
  ghost predicate AddsAs(s: State, s': State, t: Thread, n: Node, p: Pc, refs: nat, next: Option<Node>) {
    && s'.pc == s.pc[t := p] && s'.head == s.head && s'.list == s.list && s'.Refs(n) == refs && s'.Next(n) == next
  }

  lemma AddGoesOn(s: State, s': State, t: Thread, n: Node, p: Pc, refs: nat, next: Option<Node>, p': Pc, refs': nat,
                  next': Option<Node>, place': Place)
    requires t in s.pc && AddsAs(s, s', t, n, p, refs, next) && Target(p) == Some(n)
    requires var v := View(p, refs, next, s'.Place(n), s.head, s.list);
             Act(t, n, v) == v.(pc := p', refs := refs', next := next', place := place')
    ensures t in s'.pc && AddsAs(s, Step(s', t), t, n, p', refs', next') && Step(s', t).Place(n) == place'
  {
    hide Act;
    StepIs(s', t, n);
  }

  lemma AddActs(t: Thread, n: Node, place: Place, head: Option<Node>, list: seq<Node>, next: Option<Node>)
    ensures var v := View(Flag(n), 0, next, place, head, list);
            Act(t, n, v) == v.(pc := PubLoad(n, Return), refs := SHOULD_BE_ON_FREELIST, place := Publishing(t))
    ensures var v := View(PubLoad(n, Return), SHOULD_BE_ON_FREELIST, next, place, head, list);
            Act(t, n, v) == v.(pc := PubNext(n, head, Return))
    ensures var v := View(PubNext(n, head, Return), SHOULD_BE_ON_FREELIST, next, place, head, list);
            Act(t, n, v) == v.(pc := PubRefs(n, head, Return), next := head)
    ensures var v := View(PubRefs(n, head, Return), SHOULD_BE_ON_FREELIST, next, place, head, list);
            Act(t, n, v) == v.(pc := PubCas(n, head, Return), refs := 1)
    ensures var v := View(PubCas(n, head, Return), 1, next, place, head, list);
            var v' := Act(t, n, v); v'.pc == Idle && v'.list == [n] + list && v'.refs == 1
  {
  }

  lemma AddsInFront(s: State, t: Thread, n: Node)
    requires Inv(s) && t in s.pc && s.pc[t] == Idle && s.Place(n) == Out && Getters(s, n) == {}
    ensures var r := Steps(CallAdd(s, t, n), t, 5); r.pc == s.pc && r.list == [n] + s.list && r.Refs(n) == 1
  {
    hide Act, Inv, AddsAs, Steps, Step, Getters;
    OutIsCounted(s, n);
    var s0, b, p := CallAdd(s, t, n), SHOULD_BE_ON_FREELIST, Publishing(t);
    assert AddsAs(s, s0, t, n, Flag(n), 0, s.Next(n)) by {
      AddStarts(s, t, n);
    }
    AddActs(t, n, s0.Place(n), s.head, s.list, s.Next(n));
    AddGoesOn(s, s0, t, n, Flag(n), 0, s.Next(n), PubLoad(n, Return), b, s.Next(n), p);
    AddActs(t, n, p, s.head, s.list, s.Next(n));
    var s1 := Step(s0, t);
    AddGoesOn(s, s1, t, n, PubLoad(n, Return), b, s.Next(n), PubNext(n, s.head, Return), b, s.Next(n), p);
    var s2 := Step(s1, t);
    AddGoesOn(s, s2, t, n, PubNext(n, s.head, Return), b, s.Next(n), PubRefs(n, s.head, Return), b, s.head, p);
    var s3 := Step(s2, t);
    AddActs(t, n, p, s.head, s.list, s.head);
    AddGoesOn(s, s3, t, n, PubRefs(n, s.head, Return), b, s.head, PubCas(n, s.head, Return), 1, s.head, p);
    var s4 := Step(s3, t);
    AddEnds(s, s4, t, n);
    FourSteps(s0, t);
    StepsAdd(s0, t, 4, 1);
    OneStep(s4, t);
  }

  lemma AddStarts(s: State, t: Thread, n: Node)
    requires t in s.pc && s.Refs(n) == 0
    ensures AddsAs(s, CallAdd(s, t, n), t, n, Flag(n), 0, s.Next(n))
  {
  }

  lemma AddEnds(s: State, s4: State, t: Thread, n: Node)
    requires t in s.pc && s.pc[t] == Idle && AddsAs(s, s4, t, n, PubCas(n, s.head, Return), 1, s.head)
    ensures t in s4.pc
    ensures var r := Step(s4, t); r.pc == s.pc && r.list == [n] + s.list && r.Refs(n) == 1
  {
    hide Act;
    StepIs(s4, t, n);
    AddActs(t, n, s4.Place(n), s.head, s.list, s.head);
    assert s.pc[t := Idle] == s.pc;
  }

  lemma OneStep(s: State, t: Thread)
    requires t in s.pc
    ensures Steps(s, t, 1) == Step(s, t)
  {
    hide Act, Step;
    StepStaysInCall(s, t);
    assert Steps(s, t, 1) == Steps(Step(s, t), t, 0);
  }
}
