/**
  The ticket protocol by which any number of consumers claim the items of one producer
  (source/utils/concurrentqueue.h:2460-2530 for one item, 2682-2778 for several).

  The counters are kept unbounded; every comparison is made on their 64-bit words, as in the code.
  A dequeue of one item is the dequeue of at most one (SingleIsBulkOfOne). The sets of tickets and `head0` are
  auxiliary: no step reads them to decide anything.
*/
module Tickets {
  import opened Words

  type Thread = nat

  datatype Pc =
    | Idle
    | LoadTail(max: nat)
    | LoadOver(max: nat, tail: nat)
    | LoadCount(max: nat, tail: nat, over: nat, head0: nat)
    | AddCount(want: nat, over: nat, head0: nat)
    | ReloadTail(want: nat, over: nat, head0: nat, my: nat)
    | AddOver(my: nat, got: nat, back: nat)
    | AddHead(my: nat, got: nat)
    | Claimed(first: nat, got: nat)

  /** The four counters of ProducerBase, and which of the tickets 0 .. count were decided how. */
  datatype Shared = Shared(
    tail: nat, head: nat, count: nat, over: nat,
    approved: set<nat>, claimed: set<nat>, rejected: set<nat>, counted: set<nat>)

  datatype State = State(sh: Shared, pc: map<Thread, Pc>)

  // ---------------------------------------------------------------- steps

  /** static_cast<size_t>(tail - (count - over)). */
  function Room(tail: nat, count: nat, over: nat): nat {
    Wrap(Wrap(tail) - Wrap(Wrap(count) - Wrap(over)))
  }

  function Min(a: nat, b: nat): nat {
    if a < b then a else b
  }

  /** How many of `want` tickets from `my` on are granted: actualCount, or 0 where it fails the test. */
  function Granted(tail: nat, my: nat, over: nat, want: nat): (got: nat)
    ensures got <= want
  {
    var actual := Room(tail, my, over);
    if CircularLess(0, actual) then Min(want, actual) else 0
  }

  /** The tickets a, a + 1, .., b - 1. */
  ghost function Range(a: nat, b: nat): (r: set<nat>)
    ensures forall i :: i in r <==> a <= i < b
    ensures |r| == if a <= b then b - a else 0
  {
    if b <= a then {} else Range(a, b - 1) + {b - 1}
  }

  datatype View = View(sh: Shared, pc: Pc)

  /** The next access of a thread, on the shared counters and its own position. */
  ghost function Act(v: View): View {
    var sh := v.sh;
    match v.pc
    case Idle => v
    case LoadTail(max) => View(sh, LoadOver(max, sh.tail))
    case LoadOver(max, tail) => View(sh, LoadCount(max, tail, sh.over, sh.head))
    case LoadCount(max, tail, over, head0) =>
      var desired := Room(tail, sh.count, over);
      View(sh, if CircularLess(0, desired) then AddCount(Min(desired, max), over, head0) else Idle)
    case AddCount(want, over, head0) =>
      View(sh.(count := sh.count + want), ReloadTail(want, over, head0, sh.count))
    case ReloadTail(want, over, head0, my) =>
      var got := Granted(sh.tail, my, over, want);
      View(sh.(approved := sh.approved + Range(my, my + got), rejected := sh.rejected + Range(my + got, my + want)),
           if got < want || got == 0 then AddOver(my, got, want - got) else AddHead(my, got))
    case AddOver(my, got, back) =>
      View(sh.(over := sh.over + back, counted := sh.counted + Range(my + got, my + got + back)),
           if got > 0 then AddHead(my, got) else Idle)
    case AddHead(my, got) =>
      View(sh.(head := sh.head + got, claimed := sh.claimed + Range(my, my + got)), Claimed(sh.head, got))
    case Claimed(_, _) => View(sh, Idle)
  }

  ghost function Put(s: State, t: Thread, v: View): State {
    State(v.sh, s.pc[t := v.pc])
  }

  ghost function Step(s: State, t: Thread): State
    requires t in s.pc
  {
    Put(s, t, Act(View(s.sh, s.pc[t])))
  }

  /** An idle consumer starts a dequeue of at most max > 0 items. */
  function Call(s: State, t: Thread, max: nat): (s': State)
    ensures t in s'.pc
  {
    s.(pc := s.pc[t := LoadTail(max)])
  }

  /** The producer publishes n more items. */
  function Publish(s: State, n: nat): State {
    s.(sh := s.sh.(tail := s.sh.tail + n))
  }

  ghost predicate Init(s: State) {
    && s.sh == Shared(0, 0, 0, 0, {}, {}, {}, {})
    && forall t :: t in s.pc ==> s.pc[t] == Idle
  }

  ghost predicate Next(s: State, s': State) {
    || (exists t :: t in s.pc && s' == Step(s, t))
    || (exists t, max: nat :: t in s.pc && s.pc[t] == Idle && max > 0 && s' == Call(s, t, max))
    || (exists n :: s' == Publish(s, n))
  }

  /**
    The tickets a thread is compared against lag by at most half the index range: those among the first `my` that
    were neither counted back nor claimed when it read dequeueOvercommit, or that were issued since.
  */
  ghost predicate Timely(s: State) {
    forall t :: t in s.pc && s.pc[t].ReloadTail? ==> s.pc[t].my <= s.pc[t].over + s.pc[t].head0 + HALF
  }

  ghost predicate NextAt(run: seq<State>, i: nat)
    requires i + 1 < |run|
  {
    Next(run[i], run[i + 1])
  }

  ghost predicate Run(run: seq<State>) {
    && |run| > 0 && Init(run[0])
    && (forall i :: 0 <= i < |run| - 1 ==> NextAt(run, i))
    && (forall i :: 0 <= i < |run| ==> Timely(run[i]))
  }

  // ---------------------------------------------------------------- invariant

  /** The tickets below p that were not rejected. */
  ghost function Standing(sh: Shared, p: nat): set<nat> {
    Range(0, p) - sh.rejected
  }

  ghost predicate SetsOk(sh: Shared) {
    && (forall i :: i in sh.claimed ==> i in sh.approved)
    && (forall i :: i in sh.counted ==> i in sh.rejected)
    && (forall i :: i in sh.approved ==> i !in sh.rejected && i < sh.count)
    && (forall i :: i in sh.rejected ==> i < sh.count)
    && sh.head == |sh.claimed| && sh.over == |sh.counted|
  }

  /** Below an approved ticket there are fewer standing tickets than published items. */
  ghost predicate ApprovedOk(sh: Shared) {
    forall p :: p in sh.approved ==> |Standing(sh, p)| < sh.tail
  }

  ghost predicate SharedOk(sh: Shared) {
    SetsOk(sh) && ApprovedOk(sh)
  }

  /** The tickets lo .. hi of a thread are not settled in headIndex or dequeueOvercommit yet. */
  function Lo(p: Pc): nat {
    match p
    case ReloadTail(_, _, _, my) => my
    case AddOver(my, _, _) => my
    case AddHead(my, _) => my
    case _ => 0
  }

  function Hi(p: Pc): nat {
    match p
    case ReloadTail(want, _, _, my) => my + want
    case AddOver(my, got, back) => my + got + back
    case AddHead(my, got) => my + got
    case _ => 0
  }

  ghost predicate Pledged(sh: Shared, lo: nat, hi: nat) {
    forall i :: lo <= i < hi ==> i in sh.approved && i !in sh.claimed
  }

  ghost predicate Refused(sh: Shared, lo: nat, hi: nat) {
    forall i :: lo <= i < hi ==> i in sh.rejected && i !in sh.counted
  }

  ghost predicate Open(sh: Shared, lo: nat, hi: nat) {
    hi <= sh.count && forall i :: lo <= i < hi ==> i !in sh.approved && i !in sh.rejected
  }

  ghost predicate ThreadOk(sh: Shared, p: Pc) {
    match p
    case LoadCount(_, _, over, head0) => over <= sh.over && head0 <= sh.tail
    case AddCount(_, over, head0) => over <= sh.over && head0 <= sh.tail
    case ReloadTail(want, over, head0, my) =>
      head0 <= sh.tail && over + |Standing(sh, my)| <= my && Open(sh, my, my + want)
    case AddOver(my, got, back) => Pledged(sh, my, my + got) && Refused(sh, my + got, my + got + back)
    case AddHead(my, got) => got > 0 && Pledged(sh, my, my + got)
    case Claimed(first, got) => got > 0 && first + got <= sh.head
    case _ => true
  }

  /** Two threads share no ticket and no index. */
  ghost predicate Apart(p: Pc, q: Pc) {
    && (Lo(p) < Hi(p) && Lo(q) < Hi(q) ==> Hi(p) <= Lo(q) || Hi(q) <= Lo(p))
    && (p.Claimed? && q.Claimed? ==> p.first + p.got <= q.first || q.first + q.got <= p.first)
  }

  ghost predicate Settled(s: State, i: nat) {
    i in s.sh.claimed || i in s.sh.counted || exists t :: t in s.pc && Lo(s.pc[t]) <= i < Hi(s.pc[t])
  }

  ghost predicate Inv(s: State) {
    && SharedOk(s.sh)
    && (forall t :: t in s.pc ==> ThreadOk(s.sh, s.pc[t]))
    && (forall t, u :: t in s.pc && u in s.pc && t != u ==> Apart(s.pc[t], s.pc[u]))
    && (forall i :: 0 <= i < s.sh.count ==> Settled(s, i))
  }

  // ---------------------------------------------------------------- counting

  lemma SubsetSize(a: set<nat>, b: set<nat>)
    requires a <= b
    ensures |a| <= |b|
  {
    assert b == a + (b - a);
  }

  /** Rejecting tickets and looking further ahead move the number of standing tickets in the obvious directions. */
  lemma StandingMoves(sh: Shared, sh': Shared, p: nat, q: nat)
    requires sh.rejected <= sh'.rejected && p <= q
    ensures |Standing(sh', p)| <= |Standing(sh, p)|
    ensures |Standing(sh, q)| <= |Standing(sh, p)| + (q - p)
  {
    SubsetSize(Standing(sh', p), Standing(sh, p));
    SubsetSize(Standing(sh, q), Standing(sh, p) + Range(p, q));
  }

  ghost function Max(a: set<nat>): (m: nat)
    requires a != {}
    ensures m in a && forall i :: i in a ==> i <= m
  {
    var x :| x in a;
    if a == {x} then x else
      assert a == {x} + (a - {x});
      var m := Max(a - {x});
      if x > m then x else m
  }

  /** The heart of the protocol: no more tickets are approved than items were published. */
  lemma ApprovedFitTail(sh: Shared)
    requires SharedOk(sh)
    ensures |sh.approved| <= sh.tail
  {
    if sh.approved != {} {
      var p := Max(sh.approved);
      ghost var below := Standing(sh, p);
      assert |below| < sh.tail;
      assert forall i :: i in sh.approved ==> i in below || i == p;
      SubsetSize(sh.approved, below + {p});
    }
  }

  // ---------------------------------------------------------------- word arithmetic

  lemma RoomIsWrap(tail: nat, my: nat, over: nat)
    ensures Room(tail, my, over) == Wrap(tail + over - my)
  {
  }

  /** What the wrapped comparison grants was really published, however far the published items are ahead. */
  lemma GrantedIsPublished(tail: nat, my: nat, over: nat, want: nat)
    requires my <= over + tail + HALF
    ensures var got := Granted(tail, my, over, want); got > 0 ==> got + my <= tail + over
  {
    hide Room;
    RoomIsWrap(tail, my, over);
  }

  /**
    The lag bound is exact: as long as the ticket is less than one full turn of the index ahead, the comparison is
    safe if and only if the ticket is at most half a turn ahead.
  */
  lemma GrantedIsPublishedExactly(tail: nat, my: nat, over: nat, want: nat)
    requires want > 0 && my < over + tail + WORD
    ensures
      var got := Granted(tail, my, over, want);
      (got > 0 ==> got + my <= tail + over) <==> my <= over + tail + HALF
  {
    hide Granted;
    if my <= over + tail + HALF {
      GrantedIsPublished(tail, my, over, want);
    } else {
      GrantedTooFar(tail, my, over, want);
    }
  }

  lemma GrantedTooFar(tail: nat, my: nat, over: nat, want: nat)
    requires want > 0 && over + tail + HALF < my < over + tail + WORD
    ensures Granted(tail, my, over, want) > 0
  {
    hide Room;
    RoomIsWrap(tail, my, over);
  }

  /** Published items are granted, up to the number wanted. */
  lemma PublishedIsGranted(tail: nat, my: nat, over: nat, want: nat)
    requires 0 < tail + over - my < HALF
    ensures Granted(tail, my, over, want) == Min(want, tail + over - my)
  {
    hide Room;
    RoomIsWrap(tail, my, over);
    WrapOnce(tail + over - my);
  }

  /** The tests for one item, written on the indices themselves, are the tests for at most one. */
  lemma SingleIsBulkOfOne(tail: nat, count: nat, over: nat)
    ensures CircularLess(Wrap(Wrap(count) - Wrap(over)), Wrap(tail)) <==> CircularLess(0, Room(tail, count, over))
    ensures CircularLess(Wrap(Wrap(count) - Wrap(over)), Wrap(tail)) <==> Granted(tail, count, over, 1) == 1
  {
    hide Room, Wrap;
    RoomIsWrap(tail, count, over);
    WrapDifference(count, over);
    WrapDifference(count - over, tail);
    NegatedWrap(tail + over - count);
    WrapOnce(0);
  }

  lemma NegatedWrap(x: int)
    ensures Wrap(0 - Wrap(x)) == Wrap(-x)
  {
  }

  // ---------------------------------------------------------------- preservation

  /** Deciding the tickets my .. my + want: the first `got` are approved, the others rejected. */
  ghost function Decide(sh: Shared, my: nat, got: nat, want: nat): Shared {
    sh.(approved := sh.approved + Range(my, my + got), rejected := sh.rejected + Range(my + got, my + want))
  }

  lemma DecideStanding(sh: Shared, my: nat, got: nat, want: nat, p: nat)
    requires ApprovedOk(sh)
    requires got <= want && (got > 0 ==> |Standing(sh, my)| + got <= sh.tail)
    requires p in Decide(sh, my, got, want).approved
    ensures |Standing(Decide(sh, my, got, want), p)| < sh.tail
  {
    var sh' := Decide(sh, my, got, want);
    StandingMoves(sh, sh', p, p);
    if p !in sh.approved {
      StandingMoves(sh, sh', my, p);
    }
  }

  lemma DecideSets(sh: Shared, my: nat, got: nat, want: nat)
    requires SetsOk(sh) && got <= want && Open(sh, my, my + want)
    ensures SetsOk(Decide(sh, my, got, want))
    ensures Pledged(Decide(sh, my, got, want), my, my + got)
    ensures Refused(Decide(sh, my, got, want), my + got, my + want)
  {
  }

  lemma DecideApproved(sh: Shared, my: nat, got: nat, want: nat)
    requires ApprovedOk(sh) && got <= want
    requires got > 0 ==> |Standing(sh, my)| + got <= sh.tail
    ensures ApprovedOk(Decide(sh, my, got, want))
  {
    ghost var sh' := Decide(sh, my, got, want);
    forall p | p in sh'.approved ensures |Standing(sh', p)| < sh'.tail {
      DecideStanding(sh, my, got, want, p);
    }
  }

  lemma DecideOk(sh: Shared, my: nat, got: nat, want: nat)
    requires SharedOk(sh) && got <= want && Open(sh, my, my + want)
    requires got > 0 ==> |Standing(sh, my)| + got <= sh.tail
    ensures SharedOk(Decide(sh, my, got, want))
    ensures ThreadOk(Decide(sh, my, got, want), AddOver(my, got, want - got))
    ensures got == want > 0 ==> ThreadOk(Decide(sh, my, got, want), AddHead(my, got))
  {
    hide SetsOk, ApprovedOk, Standing, Range, Pledged, Refused, Open;
    DecideSets(sh, my, got, want);
    DecideApproved(sh, my, got, want);
  }

  lemma ReloadTailOk(v: View)
    requires SharedOk(v.sh) && ThreadOk(v.sh, v.pc) && v.pc.ReloadTail?
    requires v.pc.my <= v.pc.over + v.pc.head0 + HALF
    ensures SharedOk(Act(v).sh) && ThreadOk(Act(v).sh, Act(v).pc)
  {
    hide SharedOk, Granted, Standing, Open, Pledged, Refused, Range;
    var ReloadTail(want, over, _, my) := v.pc;
    var got := Granted(v.sh.tail, my, over, want);
    GrantedIsPublished(v.sh.tail, my, over, want);
    DecideOk(v.sh, my, got, want);
  }

  lemma ApprovedSame(sh: Shared, sh': Shared)
    requires ApprovedOk(sh) && sh'.rejected == sh.rejected && sh'.approved == sh.approved && sh'.tail == sh.tail
    ensures ApprovedOk(sh')
  {
    assert forall p :: Standing(sh', p) == Standing(sh, p);
  }

  lemma AddCountOk(v: View)
    requires SharedOk(v.sh) && ThreadOk(v.sh, v.pc) && v.pc.AddCount?
    ensures SharedOk(Act(v).sh) && ThreadOk(Act(v).sh, Act(v).pc)
  {
    hide Granted, Room, ApprovedOk;
    var sh, sh' := v.sh, Act(v).sh;
    SubsetSize(sh.counted, sh.rejected);
    assert Range(0, sh.count) == Standing(sh, sh.count) + sh.rejected;
    ApprovedSame(sh, sh');
    assert Standing(sh', sh.count) == Standing(sh, sh.count);
  }

  lemma AddOverOk(v: View)
    requires SharedOk(v.sh) && ThreadOk(v.sh, v.pc) && v.pc.AddOver?
    ensures SharedOk(Act(v).sh) && ThreadOk(Act(v).sh, Act(v).pc)
  {
    hide Granted, Room, ApprovedOk;
    ApprovedSame(v.sh, Act(v).sh);
  }

  lemma AddHeadOk(v: View)
    requires SharedOk(v.sh) && ThreadOk(v.sh, v.pc) && v.pc.AddHead?
    ensures SharedOk(Act(v).sh) && ThreadOk(Act(v).sh, Act(v).pc)
  {
    hide Granted, Room, ApprovedOk;
    ApprovedSame(v.sh, Act(v).sh);
  }

  lemma LoadsOk(v: View)
    requires SharedOk(v.sh) && ThreadOk(v.sh, v.pc)
    requires !v.pc.AddCount? && !v.pc.ReloadTail? && !v.pc.AddOver? && !v.pc.AddHead?
    ensures Act(v).sh == v.sh && ThreadOk(Act(v).sh, Act(v).pc)
  {
    if v.pc.LoadOver? {
      ApprovedFitTail(v.sh);
      SubsetSize(v.sh.claimed, v.sh.approved);
    }
  }

  lemma ActOk(v: View)
    requires SharedOk(v.sh) && ThreadOk(v.sh, v.pc)
    requires v.pc.ReloadTail? ==> v.pc.my <= v.pc.over + v.pc.head0 + HALF
    ensures SharedOk(Act(v).sh) && ThreadOk(Act(v).sh, Act(v).pc)
  {
    hide SharedOk, ThreadOk;
    match v.pc
    case AddCount(_, _, _) => AddCountOk(v);
    case ReloadTail(_, _, _, _) => ReloadTailOk(v);
    case AddOver(_, _, _) => AddOverOk(v);
    case AddHead(_, _) => AddHeadOk(v);
    case _ => LoadsOk(v);
  }

  /** Counters and sets only grow. */
  lemma ActGrows(v: View)
    ensures
      var sh, sh' := v.sh, Act(v).sh;
      && sh'.tail == sh.tail && sh'.head >= sh.head && sh'.over >= sh.over && sh'.count >= sh.count
      && sh.approved <= sh'.approved && sh.rejected <= sh'.rejected
  {
    hide Granted, Room, Range, Lo, Hi;
  }

  /** What happens to a ticket happens at the hands of the thread it belongs to. */
  lemma ActIsLocal(v: View, i: nat)
    requires !(Lo(v.pc) <= i < Hi(v.pc))
    ensures
      var sh, sh' := v.sh, Act(v).sh;
      && (i in sh'.approved ==> i in sh.approved) && (i in sh'.rejected ==> i in sh.rejected)
      && (i in sh'.claimed ==> i in sh.claimed) && (i in sh'.counted ==> i in sh.counted)
  {
    hide Granted, Room;
  }

  /** What a thread at rest relies on survives the access of another thread. */
  lemma RestOk(v: View, q: Pc)
    requires ThreadOk(v.sh, q) && Apart(v.pc, q)
    ensures ThreadOk(Act(v).sh, q)
  {
    hide Act, Standing;
    ActGrows(v);
    forall i: nat | !(Lo(v.pc) <= i < Hi(v.pc))
      ensures
        var sh, sh' := v.sh, Act(v).sh;
        && (i in sh'.approved ==> i in sh.approved) && (i in sh'.rejected ==> i in sh.rejected)
        && (i in sh'.claimed ==> i in sh.claimed) && (i in sh'.counted ==> i in sh.counted)
    {
      ActIsLocal(v, i);
    }
    if q.ReloadTail? {
      assert v.sh.rejected <= Act(v).sh.rejected;
      StandingMoves(v.sh, Act(v).sh, q.my, q.my);
    }
  }

  /** Tickets and indices are handed out once. */
  lemma ApartOk(v: View, q: Pc)
    requires SharedOk(v.sh) && ThreadOk(v.sh, v.pc) && ThreadOk(v.sh, q) && Apart(v.pc, q)
    ensures Apart(Act(v).pc, q)
  {
    hide Standing, ApprovedOk, Granted, Room, Range;
    if v.pc.AddCount? {
      OwnIssued(v.sh, q);
    }
  }

  lemma OwnIssued(sh: Shared, q: Pc)
    requires SharedOk(sh) && ThreadOk(sh, q)
    ensures Lo(q) < Hi(q) ==> Hi(q) <= sh.count
  {
    if Lo(q) < Hi(q) && !q.ReloadTail? {
      assert (Hi(q) - 1) in sh.approved + sh.rejected;
    }
  }

  /** A ticket that leaves its thread has been counted in headIndex or dequeueOvercommit. */
  lemma SettledOk(v: View, i: nat)
    requires i < Act(v).sh.count
    ensures
      || Lo(Act(v).pc) <= i < Hi(Act(v).pc)
      || i in Act(v).sh.claimed || i in Act(v).sh.counted
      || (i < v.sh.count && !(Lo(v.pc) <= i < Hi(v.pc)))
    ensures v.sh.claimed <= Act(v).sh.claimed && v.sh.counted <= Act(v).sh.counted
  {
    hide Granted, Room, Min, CircularLess;
  }

  lemma StepKeepsInv(s: State, t: Thread)
    requires Inv(s) && Timely(s) && t in s.pc
    ensures Inv(Step(s, t))
  {
    hide SharedOk, ThreadOk, Apart, Act;
    var v := View(s.sh, s.pc[t]);
    var s' := Step(s, t);
    ActOk(v);
    forall u | u in s'.pc ensures ThreadOk(s'.sh, s'.pc[u]) {
      if u != t {
        assert Apart(s.pc[t], s.pc[u]);
        RestOk(v, s.pc[u]);
      }
    }
    forall u, w | u in s'.pc && w in s'.pc && u != w ensures Apart(s'.pc[u], s'.pc[w]) {
      if u == t {
        ApartOk(v, s.pc[w]);
      } else if w == t {
        assert Apart(s.pc[t], s.pc[u]);
        ApartOk(v, s.pc[u]);
        ApartSymmetric(s'.pc[t], s'.pc[u]);
      }
    }
    forall i | 0 <= i < s'.sh.count ensures Settled(s', i) {
      StepSettles(s, t, i);
    }
  }

  lemma ApartSymmetric(p: Pc, q: Pc)
    requires Apart(p, q)
    ensures Apart(q, p)
  {
  }

  lemma StepSettles(s: State, t: Thread, i: nat)
    requires t in s.pc && i < Step(s, t).sh.count
    requires forall i :: 0 <= i < s.sh.count ==> Settled(s, i)
    ensures Settled(Step(s, t), i)
  {
    hide Act;
    var v := View(s.sh, s.pc[t]);
    var s' := Step(s, t);
    SettledOk(v, i);
    assert t in s'.pc && s'.pc[t] == Act(v).pc;
    if i < s.sh.count {
      assert Settled(s, i);
      if u :| u in s.pc && Lo(s.pc[u]) <= i < Hi(s.pc[u]) {
        assert u != t ==> u in s'.pc && s'.pc[u] == s.pc[u];
      }
    }
  }

  lemma CallKeepsInv(s: State, t: Thread, max: nat)
    requires Inv(s) && t in s.pc && s.pc[t] == Idle
    ensures Inv(Call(s, t, max))
  {
    hide SharedOk;
    var s' := Call(s, t, max);
    forall i | 0 <= i < s'.sh.count ensures Settled(s', i) {
      assert Settled(s, i);
      if u :| u in s.pc && Lo(s.pc[u]) <= i < Hi(s.pc[u]) {
        assert u in s'.pc && s'.pc[u] == s.pc[u];
      }
    }
  }

  lemma PublishShared(sh: Shared, n: nat)
    requires SharedOk(sh)
    ensures SharedOk(sh.(tail := sh.tail + n))
  {
    assert forall p :: Standing(sh.(tail := sh.tail + n), p) == Standing(sh, p);
  }

  lemma PublishRest(sh: Shared, n: nat, q: Pc)
    requires ThreadOk(sh, q)
    ensures ThreadOk(sh.(tail := sh.tail + n), q)
  {
    assert q.ReloadTail? ==> Standing(sh.(tail := sh.tail + n), q.my) == Standing(sh, q.my);
  }

  lemma PublishKeepsInv(s: State, n: nat)
    requires Inv(s)
    ensures Inv(Publish(s, n))
  {
    hide SharedOk, ThreadOk, Apart;
    var s' := Publish(s, n);
    PublishShared(s.sh, n);
    forall t | t in s'.pc ensures ThreadOk(s'.sh, s'.pc[t]) {
      PublishRest(s.sh, n, s.pc[t]);
    }
    forall i | 0 <= i < s'.sh.count ensures Settled(s', i) {
      assert Settled(s, i);
    }
  }

  lemma NextKeepsInv(s: State, s': State)
    requires Inv(s) && Timely(s) && Next(s, s')
    ensures Inv(s')
  {
    hide Inv, Timely, Step, Call, Publish;
    if t :| t in s.pc && s' == Step(s, t) {
      StepKeepsInv(s, t);
    } else if t, max: nat :| t in s.pc && s.pc[t] == Idle && max > 0 && s' == Call(s, t, max) {
      CallKeepsInv(s, t, max);
    } else {
      var n :| s' == Publish(s, n);
      PublishKeepsInv(s, n);
    }
  }

  lemma {:induction false} RunHasInv(run: seq<State>, i: nat)
    requires Run(run) && i < |run|
    ensures Inv(run[i])
  {
    hide Inv, Next, Timely;
    if i == 0 {
      InitHasInv(run[0]);
    } else {
      RunHasInv(run, i - 1);
      assert NextAt(run, i - 1);
      NextKeepsInv(run[i - 1], run[i]);
    }
  }

  lemma InitHasInv(s: State)
    requires Init(s)
    ensures Inv(s)
  {
  }
}
