/**
  The reference-counted lock-free free list that recycles blocks
  (source/utils/concurrentqueue.h:1340-1449).

  One step is one atomic load, store, CAS or fetch_add on sequentially consistent memory; any number of threads
  run try_get and add at the same time. `list` and `place` are auxiliary: no step reads them to decide anything.
  They say what the pointers and counters mean, and Inv ties them to what is really stored.
*/
module FreeList {
  import opened Wrappers

  type Thread = nat
  type Node = nat

  const SHOULD_BE_ON_FREELIST: nat := 0x8000_0000
  const WORD: nat := 0x1_0000_0000

  /** What a thread does after add_knowing_refcount_is_zero: return from add, or go on with the loop of try_get. */
  datatype Resume = Return | Loop(head: Option<Node>)

  /** Where a thread is. A constructor is named after the access the thread is about to make. */
  datatype Pc =
    | Idle
    | LoadHead
    | LoadRefs(head: Node)
    | CasRefs(head: Node, refs: nat)
    | LoadNext(head: Node)
    | CasHead(head: Node, next: Option<Node>)
    | DropTwo(head: Node)
    | DropOne(prev: Node, seen: Option<Node>)
    | Flag(node: Node)
    | PubLoad(node: Node, k: Resume)
    | PubNext(node: Node, seen: Option<Node>, k: Resume)
    | PubRefs(node: Node, seen: Option<Node>, k: Resume)
    | PubCas(node: Node, seen: Option<Node>, k: Resume)
    | PubBackOff(node: Node, seen: Option<Node>, k: Resume)

  /** Where a node is. A node no client has created yet counts as Out. */
  datatype Place = Out | Adding(t: Thread) | Pending | Publishing(t: Thread) | Listed | Popped(t: Thread)

  datatype State = State(
    head: Option<Node>,
    refs: map<Node, nat>,
    next: map<Node, Option<Node>>,
    pc: map<Thread, Pc>,
    list: seq<Node>,
    place: map<Node, Place>)
  {
    /** Fields of a node nobody has written yet have the values of the constructor at line 1343. */
    function Refs(n: Node): nat { if n in refs then refs[n] else 0 }
    function Next(n: Node): Option<Node> { if n in next then next[n] else None }
    function Place(n: Node): Place { if n in place then place[n] else Out }
  }

  // ---------------------------------------------------------------- steps

  /** fetch_add on a 32-bit word. */
  function FetchAdd(w: nat, d: int): nat {
    (w + d) % WORD
  }

  /** refs & REFS_MASK. */
  function RefCount(w: nat): nat {
    w % SHOULD_BE_ON_FREELIST
  }

  function First(list: seq<Node>): Option<Node> {
    if list == [] then None else Some(list[0])
  }

  function Tail(list: seq<Node>): seq<Node> {
    if list == [] then [] else list[1..]
  }

  /** `while (head != nullptr)`. */
  function LoopHead(head: Option<Node>): Pc {
    if head.Some? then LoadRefs(head.value) else Idle
  }

  function Resumed(k: Resume): Pc {
    if k.Loop? then LoopHead(k.head) else Idle
  }

  /** The node a thread's next access goes to; none before the load of freeListHead at the top of try_get. */
  function Target(p: Pc): Option<Node> {
    match p
    case Idle => None
    case LoadHead => None
    case LoadRefs(h) => Some(h)
    case CasRefs(h, _) => Some(h)
    case LoadNext(h) => Some(h)
    case CasHead(h, _) => Some(h)
    case DropTwo(h) => Some(h)
    case DropOne(p, _) => Some(p)
    case Flag(n) => Some(n)
    case PubLoad(n, _) => Some(n)
    case PubNext(n, _, _) => Some(n)
    case PubRefs(n, _, _) => Some(n)
    case PubCas(n, _, _) => Some(n)
    case PubBackOff(n, _, _) => Some(n)
  }

  /** What a thread can read and write in one step: its own position, its target node and the head of the list. */
  datatype View = View(pc: Pc, refs: nat, next: Option<Node>, place: Place, head: Option<Node>, list: seq<Node>)

  function Look(s: State, t: Thread, n: Node): View
    requires t in s.pc
  {
    View(s.pc[t], s.Refs(n), s.Next(n), s.Place(n), s.head, s.list)
  }

  function Put(s: State, t: Thread, n: Node, v: View): State {
    State(v.head, s.refs[n := v.refs], s.next[n := v.next], s.pc[t := v.pc], v.list, s.place[n := v.place])
  }

  /** The access of thread t on its target n. */
  function Act(t: Thread, n: Node, v: View): View {
    match v.pc
    case Idle => v
    case LoadHead => v
    case LoadRefs(h) => v.(pc := CasRefs(h, v.refs))
    case CasRefs(h, refs) =>
      if RefCount(refs) == 0 || v.refs != refs then v.(pc := LoadHead)
      else v.(pc := LoadNext(h), refs := FetchAdd(refs, 1))
    case LoadNext(h) => v.(pc := CasHead(h, v.next))
    case CasHead(h, next) =>
      if v.head != Some(h) then v.(pc := DropOne(h, v.head))
      else v.(pc := DropTwo(h), head := next, list := Tail(v.list), place := Popped(t))
    case DropTwo(h) => v.(pc := Idle, refs := FetchAdd(v.refs, -2), place := Out)
    case DropOne(p, h) =>
      var w := FetchAdd(v.refs, -1);
      if v.refs == SHOULD_BE_ON_FREELIST + 1 then v.(pc := PubLoad(p, Loop(h)), refs := w, place := Publishing(t))
      else v.(pc := LoopHead(h), refs := w)
    case Flag(m) =>
      var w := FetchAdd(v.refs, SHOULD_BE_ON_FREELIST);
      if v.refs == 0 then v.(pc := PubLoad(m, Return), refs := w, place := Publishing(t))
      else v.(pc := Idle, refs := w, place := Pending)
    case PubLoad(m, k) => v.(pc := PubNext(m, v.head, k))
    case PubNext(m, h, k) => v.(pc := PubRefs(m, h, k), next := h)
    case PubRefs(m, h, k) => v.(pc := PubCas(m, h, k), refs := 1)
    case PubCas(m, h, k) =>
      if v.head != h then v.(pc := PubBackOff(m, v.head, k))
      else v.(pc := Resumed(k), head := Some(n), list := [n] + v.list, place := Listed)
    case PubBackOff(m, h, k) =>
      var w := FetchAdd(v.refs, SHOULD_BE_ON_FREELIST - 1);
      if v.refs == 1 then v.(pc := PubNext(m, h, k), refs := w)
      else v.(pc := Resumed(k), refs := w, place := Pending)
  }

  function Goto(s: State, t: Thread, p: Pc): State {
    s.(pc := s.pc[t := p])
  }

  /** The next access of thread t. */
  function Step(s: State, t: Thread): State
    requires t in s.pc
  {
    var n := Target(s.pc[t]);
    if n.Some? then Put(s, t, n.value, Act(t, n.value, Look(s, t, n.value)))
    else if s.pc[t].LoadHead? then Goto(s, t, LoopHead(s.head))
    else s
  }

  /** An idle thread calls try_get. */
  function CallTryGet(s: State, t: Thread): State {
    Goto(s, t, LoadHead)
  }

  /** An idle thread calls add for a node that is in the clients' hands. */
  function CallAdd(s: State, t: Thread, n: Node): State {
    Goto(s, t, Flag(n)).(place := s.place[n := Adding(t)])
  }

  ghost predicate Init(s: State) {
    && s.head == None && s.list == []
    && s.refs == map[] && s.next == map[] && s.place == map[]
    && (forall t :: t in s.pc ==> s.pc[t] == Idle)
    && |s.pc.Keys| + 2 < SHOULD_BE_ON_FREELIST
  }

  ghost predicate Next(s: State, s': State) {
    || (exists t :: t in s.pc && s' == Step(s, t))
    || (exists t :: t in s.pc && s.pc[t] == Idle && s' == CallTryGet(s, t))
    || (exists t, n :: t in s.pc && s.pc[t] == Idle && s.Place(n) == Out && s' == CallAdd(s, t, n))
  }

  ghost predicate NextAt(run: seq<State>, i: nat)
    requires i + 1 < |run|
  {
    Next(run[i], run[i + 1])
  }

  ghost predicate Run(run: seq<State>) {
    && |run| > 0 && Init(run[0])
    && forall i :: 0 <= i < |run| - 1 ==> NextAt(run, i)
  }

  // ---------------------------------------------------------------- invariant

  predicate Holds(p: Pc, n: Node) {
    match p
    case LoadNext(h) => h == n
    case CasHead(h, _) => h == n
    case DropTwo(h) => h == n
    case DropOne(p, _) => p == n
    case _ => false
  }

  /** The threads of try_get that hold a reference to n. */
  ghost function Getters(s: State, n: Node): set<Thread> {
    set t | t in s.pc.Keys && Holds(s.pc[t], n)
  }

  /** Thread p is inside add_knowing_refcount_is_zero for n with the count known to be zero. */
  predicate Quiet(p: Pc, n: Node) {
    match p
    case PubLoad(m, _) => m == n
    case PubNext(m, _, _) => m == n
    case PubRefs(m, _, _) => m == n
    case _ => false
  }

  /** Thread p is inside add_knowing_refcount_is_zero for n with the list's reference already stored. */
  predicate Offered(p: Pc, n: Node) {
    match p
    case PubCas(m, _, _) => m == n
    case PubBackOff(m, _, _) => m == n
    case _ => false
  }

  /** The part of freeListRefs that is not the references of getters. */
  function Base(place: Place, quiet: bool): nat {
    match place
    case Out => 0
    case Adding(_) => 0
    case Pending => SHOULD_BE_ON_FREELIST
    case Publishing(_) => if quiet then SHOULD_BE_ON_FREELIST else 1
    case Listed => 1
    case Popped(_) => 1
  }

  ghost predicate IsQuiet(s: State, n: Node) {
    s.Place(n).Publishing? && s.Place(n).t in s.pc && Quiet(s.pc[s.Place(n).t], n)
  }

  ghost predicate CountOk(s: State, n: Node) {
    && s.Refs(n) == Base(s.Place(n), IsQuiet(s, n)) + |Getters(s, n)|
    && (IsQuiet(s, n) ==> Getters(s, n) == {})
    && (s.Place(n).Pending? ==> Getters(s, n) != {})
  }

  /** The place of a node agrees with the thread working on it. */
  ghost predicate PlaceOk(s: State, n: Node) {
    match s.Place(n)
    case Adding(t) => t in s.pc && s.pc[t] == Flag(n)
    case Publishing(t) => t in s.pc && (Quiet(s.pc[t], n) || Offered(s.pc[t], n))
    case Popped(t) => t in s.pc && s.pc[t] == DropTwo(n)
    case _ => true
  }

  ghost predicate ThreadOk(s: State, t: Thread)
    requires t in s.pc
  {
    match s.pc[t]
    case CasHead(h, next) => s.Next(h) == next
    case DropTwo(h) => s.Place(h) == Popped(t)
    case Flag(n) => s.Place(n) == Adding(t)
    case PubLoad(n, _) => s.Place(n) == Publishing(t)
    case PubNext(n, _, _) => s.Place(n) == Publishing(t)
    case PubRefs(n, h, _) => s.Place(n) == Publishing(t) && s.Next(n) == h
    case PubCas(n, h, _) => s.Place(n) == Publishing(t) && s.Next(n) == h
    case PubBackOff(n, _, _) => s.Place(n) == Publishing(t)
    case _ => true
  }

  ghost predicate ListOk(s: State) {
    && s.head == First(s.list)
    && (forall i, j :: 0 <= i < j < |s.list| ==> s.list[i] != s.list[j])
    && (forall i :: 0 <= i < |s.list| ==> s.Place(s.list[i]) == Listed)
    && (forall i :: 0 <= i < |s.list| ==> s.Next(s.list[i]) == First(s.list[i + 1..]))
    && (forall n :: s.Place(n) == Listed ==> n in s.list)
  }

  ghost predicate Inv(s: State) {
    && ListOk(s)
    && (forall n :: CountOk(s, n))
    && (forall n :: PlaceOk(s, n))
    && (forall t :: t in s.pc ==> ThreadOk(s, t))
    && |s.pc.Keys| + 2 < SHOULD_BE_ON_FREELIST
  }
}
