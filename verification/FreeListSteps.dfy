/** Every access to the free list keeps its invariant. */
module FreeListSteps {
  import opened Wrappers
  import opened FreeList

  // ---------------------------------------------------------------- preservation

  lemma GettersBound(s: State, n: Node)
    ensures |Getters(s, n)| <= |s.pc.Keys|
  {
    assert s.pc.Keys == Getters(s, n) + (s.pc.Keys - Getters(s, n));
  }

  /** Moving one thread changes the getters of a node by that thread only. */
  lemma GettersAfter(s: State, s': State, t: Thread, n: Node)
    requires t in s.pc && t in s'.pc && s'.pc == s.pc[t := s'.pc[t]]
    ensures Holds(s.pc[t], n) == Holds(s'.pc[t], n) ==> Getters(s', n) == Getters(s, n)
    ensures !Holds(s.pc[t], n) && Holds(s'.pc[t], n) ==>
              Getters(s', n) != {} && |Getters(s', n)| == |Getters(s, n)| + 1
    ensures Holds(s.pc[t], n) && !Holds(s'.pc[t], n) ==>
              Getters(s, n) != {} && |Getters(s', n)| == |Getters(s, n)| - 1
  {
    hide Holds;
    var before, after := Getters(s, n), Getters(s', n);
    if Holds(s.pc[t], n) == Holds(s'.pc[t], n) {
      assert after == before;
    } else if Holds(s'.pc[t], n) {
      assert t !in before && after == before + {t};
    } else {
      assert t in before && after == before - {t};
    }
  }

  /** A target is the only node a position holds, keeps quiet or offers. */
  lemma OnlyTarget(p: Pc, n: Node)
    ensures Holds(p, n) || Quiet(p, n) || Offered(p, n) ==> Target(p) == Some(n)
  {
  }

  lemma ActStays(t: Thread, n: Node, v: View, m: Node)
    requires Target(v.pc) == Some(n) && m != n
    ensures var p := Act(t, n, v).pc; !Holds(p, m) && !Quiet(p, m) && !Offered(p, m)
  {
  }

  /** The counts of the nodes a step does not target. */
  lemma CountElsewhere(s: State, t: Thread, m: Node)
    requires t in s.pc && Target(s.pc[t]) != Some(m) && CountOk(s, m)
    ensures CountOk(Step(s, t), m)
  {
    var s' := Step(s, t);
    OnlyTarget(s.pc[t], m);
    if Target(s.pc[t]).Some? {
      var n := Target(s.pc[t]).value;
      ActStays(t, n, Look(s, t, n), m);
    }
    if t in s'.pc {
      GettersAfter(s, s', t, m);
    }
  }

  /** A place that names the thread fits the thread's position. */
  ghost predicate Named(v: View, n: Node, t: Thread) {
    && (v.place == Adding(t) ==> v.pc == Flag(n))
    && (v.place == Publishing(t) ==> Quiet(v.pc, n) || Offered(v.pc, n))
    && (v.place == Popped(t) ==> v.pc == DropTwo(n))
  }

  /** CountOk of the target, in terms of what the thread sees. `g` is the number of getters. */
  ghost predicate Counted(v: View, n: Node, t: Thread, quiet: bool, g: nat) {
    && v.refs == Base(v.place, quiet) + g
    && (quiet ==> g == 0)
    && (v.place.Pending? ==> g > 0)
  }

  ghost predicate ViewOk(v: View, n: Node, t: Thread) {
    && Named(v, n, t)
    && match v.pc
    case DropOne(_, _) => v.refs == SHOULD_BE_ON_FREELIST + 1 ==> v.place.Pending?
    case CasHead(h, next) => v.next == next && (v.head == Some(n) ==> v.place == Listed)
    case DropTwo(h) => v.place == Popped(t)
    case Flag(_) => v.place == Adding(t)
    case PubLoad(_, _) => v.place == Publishing(t)
    case PubNext(_, _, _) => v.place == Publishing(t)
    case PubRefs(_, h, _) => v.place == Publishing(t) && v.next == h
    case PubCas(_, h, _) => v.place == Publishing(t) && v.next == h
    case PubBackOff(_, _, _) => v.place == Publishing(t)
    case _ => true
  }

  function Bit(b: bool): nat { if b then 1 else 0 }

  /** The arithmetic of freeListRefs: the access of one thread keeps the meaning of its target's count. */
  lemma ActCounts(t: Thread, n: Node, v: View, quiet: bool, g: nat)
    requires Target(v.pc) == Some(n) && ViewOk(v, n, t)
    requires Counted(v, n, t, quiet, g) && g + 2 < SHOULD_BE_ON_FREELIST && Bit(Holds(v.pc, n)) <= g
    requires v.place == Publishing(t) ==> quiet == Quiet(v.pc, n)
    requires quiet ==> v.place.Publishing?
    ensures
      var v' := Act(t, n, v);
      var quiet' := if v'.place == Publishing(t) then Quiet(v'.pc, n) else quiet && v'.place == v.place;
      Counted(v', n, t, quiet', g - Bit(Holds(v.pc, n)) + Bit(Holds(v'.pc, n)))
  {
  }

  lemma ViewHolds(s: State, t: Thread, n: Node)
    requires Inv(s) && t in s.pc && Target(s.pc[t]) == Some(n)
    ensures ViewOk(Look(s, t, n), n, t)
  {
    assert ThreadOk(s, t) && PlaceOk(s, n) && CountOk(s, n);
    GettersBound(s, n);
    if s.head == Some(n) {
      assert s.Place(s.list[0]) == Listed;
    }
  }

  lemma CountAtTarget(s: State, t: Thread, n: Node)
    requires Inv(s) && t in s.pc && Target(s.pc[t]) == Some(n)
    ensures CountOk(Step(s, t), n)
  {
    var s', g := Step(s, t), |Getters(s, n)|;
    ViewHolds(s, t, n);
    GettersBound(s, n);
    GettersAfter(s, s', t, n);
    assert CountOk(s, n) && PlaceOk(s, n);
    assert g == 0 ==> Getters(s, n) == {};
    if Holds(s.pc[t], n) {
      assert t in Getters(s, n);
    }
    ActCounts(t, n, Look(s, t, n), IsQuiet(s, n), g);
    assert IsQuiet(s', n) == (var v' := Act(t, n, Look(s, t, n));
      if v'.place == Publishing(t) then Quiet(v'.pc, n) else IsQuiet(s, n) && v'.place == s.Place(n));
  }

  /** An access changes a place only at the hands of the thread it names, and leaves one that fits the new position. */
  lemma ActPlaces(t: Thread, n: Node, v: View)
    requires Target(v.pc) == Some(n) && ViewOk(v, n, t)
    ensures
      var v' := Act(t, n, v);
      && Named(v', n, t)
      && (v'.place != v.place ==> v'.place in {Out, Pending, Listed, Publishing(t), Popped(t)})
      && (v'.place != v.place ==> v.place in {Adding(t), Publishing(t), Popped(t), Listed, Pending})
  {
  }

  lemma PlaceKept(s: State, t: Thread, m: Node)
    requires Inv(s) && t in s.pc
    ensures PlaceOk(Step(s, t), m)
  {
    assert PlaceOk(s, m) && ThreadOk(s, t);
    OnlyTarget(s.pc[t], m);
    if Target(s.pc[t]) == Some(m) {
      ViewHolds(s, t, m);
      ActPlaces(t, m, Look(s, t, m));
    }
  }

  /** What the accessing thread will need for its next access. */
  lemma ActKeepsView(t: Thread, n: Node, v: View)
    requires Target(v.pc) == Some(n) && ViewOk(v, n, t)
    ensures
      var v' := Act(t, n, v);
      Target(v'.pc) == Some(n) && Relied(v'.pc) ==>
        match v'.pc
        case CasHead(h, next) => v'.next == next
        case _ => ViewOk(v', n, t)
  {
  }

  /** Positions that rely on a field of their target. */
  predicate Relied(p: Pc) {
    !p.Idle? && !p.LoadHead? && !p.LoadRefs? && !p.CasRefs? && !p.LoadNext? && !p.DropOne?
  }

  lemma ActRelies(t: Thread, n: Node, v: View)
    requires Target(v.pc) == Some(n)
    ensures Relied(Act(t, n, v).pc) ==> Target(Act(t, n, v).pc) == Some(n)
  {
  }

  /** next is written only while no getter holds the node. */
  lemma ActRespects(t: Thread, n: Node, v: View)
    requires Target(v.pc) == Some(n) && ViewOk(v, n, t)
    ensures var v' := Act(t, n, v); v'.next != v.next ==> Quiet(v.pc, n) && v.place == Publishing(t)
  {
  }

  lemma ThreadKept(s: State, t: Thread)
    requires Inv(s) && t in s.pc
    ensures t in Step(s, t).pc && ThreadOk(Step(s, t), t)
  {
    if Target(s.pc[t]).Some? {
      var n := Target(s.pc[t]).value;
      ViewHolds(s, t, n);
      ActKeepsView(t, n, Look(s, t, n));
      ActRelies(t, n, Look(s, t, n));
    }
  }

  /** A thread at rest keeps what it relies on if nobody touches places that name it or links it holds. */
  lemma ThreadFrame(s: State, s': State, u: Thread)
    requires u in s.pc && u in s'.pc && s'.pc[u] == s.pc[u] && ThreadOk(s, u)
    requires forall m :: s'.Place(m) != s.Place(m) ==> s.Place(m) !in {Adding(u), Publishing(u), Popped(u)}
    requires forall m :: s'.Next(m) != s.Next(m) ==> !Holds(s.pc[u], m) && s.Place(m) != Publishing(u)
    ensures ThreadOk(s', u)
  {
  }

  lemma OthersKept(s: State, t: Thread, u: Thread)
    requires Inv(s) && t in s.pc && u in s.pc && u != t
    ensures u in Step(s, t).pc && ThreadOk(Step(s, t), u)
  {
    assert ThreadOk(s, u);
    if Target(s.pc[t]).Some? {
      var n := Target(s.pc[t]).value;
      ViewHolds(s, t, n);
      assert CountOk(s, n);
      var v := Look(s, t, n);
      var v' := Act(t, n, v);
      ActRespects(t, n, v);
      ActPlaces(t, n, v);
      assert Holds(s.pc[u], n) ==> u in Getters(s, n);
      var s' := Put(s, t, n, v');
      assert forall m :: s'.Next(m) == if m == n then v'.next else s.Next(m);
      assert forall m :: s'.Place(m) == if m == n then v'.place else s.Place(m);
      ThreadFrame(s, s', u);
    }
  }

  lemma ListPops(s: State, s': State, t: Thread)
    requires ListOk(s) && s.list != []
    requires s'.head == s.Next(s.list[0]) && s'.list == s.list[1..]
    requires forall n :: s'.Next(n) == s.Next(n)
    requires forall n :: s'.Place(n) == if n == s.list[0] then Popped(t) else s.Place(n)
    ensures ListOk(s')
  {
    assert s.Next(s.list[0]) == First(s.list[0 + 1..]);
    forall i | 0 <= i < |s'.list|
      ensures s'.Next(s'.list[i]) == First(s'.list[i + 1..])
    {
      assert s.list[i + 1 + 1..] == s'.list[i + 1..];
    }
  }

  lemma ListPushes(s: State, s': State, n: Node)
    requires ListOk(s) && s.Place(n) != Listed && s.Next(n) == s.head
    requires s'.head == Some(n) && s'.list == [n] + s.list
    requires forall m :: s'.Next(m) == s.Next(m)
    requires forall m :: s'.Place(m) == if m == n then Listed else s.Place(m)
    ensures ListOk(s')
  {
    assert s'.list[0 + 1..] == s.list;
    forall i | 0 < i < |s'.list|
      ensures s'.Next(s'.list[i]) == First(s'.list[i + 1..])
    {
      assert s.list[i - 1 + 1..] == s'.list[i + 1..];
    }
  }

  lemma ListUntouched(s: State, s': State)
    requires ListOk(s) && s'.head == s.head && s'.list == s.list
    requires forall m :: (s.Place(m) == Listed) == (s'.Place(m) == Listed)
    requires forall m :: s.Place(m) == Listed ==> s'.Next(m) == s.Next(m)
    ensures ListOk(s')
  {
  }

  /** Only the two successful CASes on freeListHead change the list. */
  lemma ActOnList(t: Thread, n: Node, v: View)
    requires Target(v.pc) == Some(n) && ViewOk(v, n, t) && v.head == First(v.list)
    ensures
      var v' := Act(t, n, v);
      || (v'.head == v.head && v'.list == v.list && (v'.place == Listed <==> v.place == Listed))
      || (v.list != [] && v.list[0] == n && v'.head == v.next == v'.next && v'.list == v.list[1..] && v'.place == Popped(t))
      || (v.place != Listed && v.next == v.head && v'.next == v.next && v'.head == Some(n) && v'.list == [n] + v.list
          && v'.place == Listed)
  {
  }

  lemma ListKept(s: State, t: Thread)
    requires Inv(s) && t in s.pc
    ensures ListOk(Step(s, t))
  {
    var s' := Step(s, t);
    if Target(s.pc[t]).Some? {
      var n := Target(s.pc[t]).value;
      var v := Look(s, t, n);
      ViewHolds(s, t, n);
      ActOnList(t, n, v);
      ActRespects(t, n, v);
      ListPut(s, t, n, v, Act(t, n, v));
    }
  }

  lemma ListPut(s: State, t: Thread, n: Node, v: View, v': View)
    requires ListOk(s) && t in s.pc && v == Look(s, t, n)
    requires v'.next != v.next ==> v.place == Publishing(t)
    requires
      || (v'.head == v.head && v'.list == v.list && (v'.place == Listed <==> v.place == Listed))
      || (v.list != [] && v.list[0] == n && v'.head == v.next == v'.next && v'.list == v.list[1..] && v'.place == Popped(t))
      || (v.place != Listed && v.next == v.head && v'.next == v.next && v'.head == Some(n) && v'.list == [n] + v.list
          && v'.place == Listed)
    ensures ListOk(Put(s, t, n, v'))
  {
    var s' := Put(s, t, n, v');
    assert forall m :: s'.Next(m) == if m == n then v'.next else s.Next(m);
    assert forall m :: s'.Place(m) == if m == n then v'.place else s.Place(m);
    if v'.head == v.head && v'.list == v.list && (v'.place == Listed <==> v.place == Listed) {
      ListUntouched(s, s');
    } else if v'.place == Listed {
      ListPushes(s, s', n);
    } else {
      ListPops(s, s', t);
    }
  }

  lemma StepKeepsInv(s: State, t: Thread)
    requires Inv(s) && t in s.pc
    ensures Inv(Step(s, t))
  {
    var s' := Step(s, t);
    assert s'.pc.Keys == s.pc.Keys;
    ListKept(s, t);
    forall n: Node ensures CountOk(s', n) {
      if Target(s.pc[t]) == Some(n) {
        CountAtTarget(s, t, n);
      } else {
        assert CountOk(s, n);
        CountElsewhere(s, t, n);
      }
    }
    forall n: Node ensures PlaceOk(s', n) {
      PlaceKept(s, t, n);
    }
    forall u | u in s'.pc ensures ThreadOk(s', u) {
      if u == t {
        ThreadKept(s, t);
      } else {
        OthersKept(s, t, u);
      }
    }
  }

  /** Entering a function changes no count and no list. */
  lemma CallKeepsInv(s: State, s': State, t: Thread)
    requires Inv(s) && t in s.pc && s.pc[t] == Idle && t in s'.pc && s'.pc == s.pc[t := s'.pc[t]]
    requires s'.head == s.head && s'.list == s.list && s'.refs == s.refs && s'.next == s.next
    requires s'.pc[t] == LoadHead || exists n :: s'.pc[t] == Flag(n)
    requires forall m :: s'.Place(m) == if s'.pc[t] == Flag(m) then Adding(t) else s.Place(m)
    requires forall m :: s'.pc[t] == Flag(m) ==> s.Place(m) == Out
    ensures Inv(s')
  {
    assert s'.pc.Keys == s.pc.Keys;
    ListUntouched(s, s');
    forall m: Node ensures CountOk(s', m) && PlaceOk(s', m) {
      assert CountOk(s, m) && PlaceOk(s, m);
      GettersAfter(s, s', t, m);
    }
    forall u | u in s'.pc ensures ThreadOk(s', u) {
      assert ThreadOk(s, u);
    }
  }

  lemma InitHasInv(s: State)
    requires Init(s)
    ensures Inv(s)
  {
    forall n: Node ensures CountOk(s, n) {
      assert Getters(s, n) == {};
    }
  }

  lemma CallTryGetKeepsInv(s: State, t: Thread)
    requires Inv(s) && t in s.pc && s.pc[t] == Idle
    ensures Inv(CallTryGet(s, t))
  {
    CallKeepsInv(s, CallTryGet(s, t), t);
  }

  lemma CallAddKeepsInv(s: State, t: Thread, n: Node)
    requires Inv(s) && t in s.pc && s.pc[t] == Idle && s.Place(n) == Out
    ensures Inv(CallAdd(s, t, n))
  {
    CallKeepsInv(s, CallAdd(s, t, n), t);
  }

  lemma NextKeepsInv(s: State, s': State)
    requires Inv(s) && Next(s, s')
    ensures Inv(s')
  {
    if t :| t in s.pc && s' == Step(s, t) {
      StepKeepsInv(s, t);
    } else if t :| t in s.pc && s.pc[t] == Idle && s' == CallTryGet(s, t) {
      CallTryGetKeepsInv(s, t);
    } else {
      var t, n :| t in s.pc && s.pc[t] == Idle && s.Place(n) == Out && s' == CallAdd(s, t, n);
      CallAddKeepsInv(s, t, n);
    }
  }

  lemma {:induction false} RunHasInv(run: seq<State>, i: nat)
    requires Run(run) && i < |run|
    ensures Inv(run[i])
  {
    hide Next, Inv, Init;
    if i == 0 {
      InitHasInv(run[0]);
    } else {
      RunHasInv(run, i - 1);
      assert NextAt(run, i - 1);
      NextKeepsInv(run[i - 1], run[i]);
    }
  }
}
