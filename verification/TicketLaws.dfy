/** What the ticket protocol guarantees in every run. */
module TicketLaws {
  import opened Words
  import opened Tickets

  // ---------------------------------------------------------------- what the invariant gives

  /**
    Ticket safety: in every run, whoever dequeues and however the threads interleave, headIndex stays within
    tailIndex, and so does what a thread is about to claim.
  */
  lemma ClaimsArePublished(run: seq<State>, i: nat, t: Thread)
    requires Run(run) && i < |run| && t in run[i].pc
    ensures run[i].sh.head <= run[i].sh.tail
    ensures run[i].pc[t].AddHead? ==> run[i].sh.head + run[i].pc[t].got <= run[i].sh.tail
    ensures run[i].pc[t].Claimed? ==> run[i].pc[t].first + run[i].pc[t].got <= run[i].sh.head
  {
    RunHasInv(run, i);
    ClaimFits(run[i], t);
  }

  lemma ClaimFits(s: State, t: Thread)
    requires Inv(s) && t in s.pc
    ensures s.sh.head <= s.sh.tail
    ensures s.pc[t].AddHead? ==> s.pc[t].got > 0 && s.sh.head + s.pc[t].got <= s.sh.tail
    ensures s.pc[t].Claimed? ==> s.pc[t].first + s.pc[t].got <= s.sh.head
  {
    var sh := s.sh;
    ApprovedFitTail(sh);
    SubsetSize(sh.claimed, sh.approved);
    assert ThreadOk(sh, s.pc[t]);
    if s.pc[t].AddHead? {
      var mine := Range(s.pc[t].my, s.pc[t].my + s.pc[t].got);
      SubsetSize(sh.claimed + mine, sh.approved);
    }
  }

  /** Two claims never overlap. */
  lemma ClaimsAreApart(run: seq<State>, i: nat, t: Thread, u: Thread, k: nat)
    requires Run(run) && i < |run| && t in run[i].pc && u in run[i].pc && t != u
    requires run[i].pc[t].Claimed? && run[i].pc[u].Claimed?
    ensures !(run[i].pc[t].first <= k < run[i].pc[t].first + run[i].pc[t].got
              && run[i].pc[u].first <= k < run[i].pc[u].first + run[i].pc[u].got)
  {
    RunHasInv(run, i);
    assert Apart(run[i].pc[t], run[i].pc[u]);
  }

  /** The overcommit a thread has read never exceeds the ticket it then draws. */
  lemma OvercommitBelowTicket(run: seq<State>, i: nat, t: Thread)
    requires Run(run) && i < |run| && t in run[i].pc && run[i].pc[t].AddCount?
    ensures run[i].pc[t].over <= Step(run[i], t).pc[t].my
  {
    RunHasInv(run, i);
    assert ThreadOk(run[i].sh, run[i].pc[t]);
    SubsetSize(run[i].sh.counted, Range(0, run[i].sh.count));
  }

  /**
    The asserts at lines 2470 and 2693 make that comparison on words, where it holds exactly while the word of the
    overcommit and the distance to the ticket fit in a word together; so always before 2^64 tickets were drawn.
  */
  lemma OvercommitAssertExactly(run: seq<State>, i: nat, t: Thread)
    requires Run(run) && i < |run| && t in run[i].pc && run[i].pc[t].AddCount?
    ensures
      var over, my := run[i].pc[t].over, Step(run[i], t).pc[t].my;
      && over <= my
      && (Wrap(over) <= Wrap(my) <==> Wrap(over) + Wrap(my - over) < WORD)
      && (my - over < WORD ==> (Wrap(over) <= Wrap(my) <==> Wrap(over) + (my - over) < WORD))
      && (my < WORD ==> Wrap(over) <= Wrap(my))
  {
    hide Run, Wrap, Range, Granted, Room;
    OvercommitBelowTicket(run, i, t);
    WrappedOrder(run[i].pc[t].over, Step(run[i], t).pc[t].my);
  }

  /** With no dequeue in progress the optimistic count less the overcommit is the head index. */
  lemma QuietCountsMatch(run: seq<State>, i: nat)
    requires Run(run) && i < |run|
    requires forall t :: t in run[i].pc ==> run[i].pc[t].Idle?
    ensures run[i].sh.count - run[i].sh.over == run[i].sh.head
  {
    RunHasInv(run, i);
    QuietCounts(run[i]);
  }

  lemma QuietCounts(s: State)
    requires Inv(s) && forall t :: t in s.pc ==> s.pc[t].Idle?
    ensures s.sh.count - s.sh.over == s.sh.head
  {
    var sh := s.sh;
    forall k | 0 <= k < sh.count ensures k in sh.claimed + sh.counted {
      assert Settled(s, k);
    }
    assert Range(0, sh.count) == sh.claimed + sh.counted;
  }

  ghost function Steps(s: State, t: Thread, n: nat): (r: State)
    requires t in s.pc
    ensures t in r.pc
    decreases n
  {
    if n == 0 then s else Steps(Step(s, t), t, n - 1)
  }

  /**
    A dequeue that nobody disturbs takes exactly what is there: nothing, in three accesses, from an empty queue, and
    otherwise the next min(max, tail - head) indices.
  */
  lemma QuietDequeue(run: seq<State>, i: nat, t: Thread, max: nat)
    requires Run(run) && i < |run| && t in run[i].pc && max > 0
    requires forall u :: u in run[i].pc ==> run[i].pc[u].Idle?
    requires run[i].sh.tail < run[i].sh.head + HALF
    ensures
      var s := run[i];
      if s.sh.tail <= s.sh.head then Steps(Call(s, t, max), t, 3) == s
      else
        var n := s.sh.tail - s.sh.head;
        var r := Steps(Call(s, t, max), t, 6);
        r.pc == s.pc[t := Claimed(s.sh.head, Min(max, n))] && r.sh.head == s.sh.head + Min(max, n) && r.sh.tail == s.sh.tail
  {
    hide Run, Steps, Call;
    QuietCountsMatch(run, i);
    ClaimsArePublished(run, i, t);
    QuietSteps(run[i], t, max);
  }

  lemma QuietFrom(s: State, t: Thread, max: nat)
    requires Inv(s) && t in s.pc && max > 0 && forall u :: u in s.pc ==> s.pc[u].Idle?
    requires s.sh.head <= s.sh.tail < s.sh.head + HALF
    ensures
      var n := s.sh.tail - s.sh.head;
      if n == 0 then Steps(Call(s, t, max), t, 3) == s
      else Steps(Call(s, t, max), t, 6).pc == s.pc[t := Claimed(s.sh.head, Min(max, n))]
  {
    hide Steps, Call;
    QuietCounts(s);
    QuietSteps(s, t, max);
  }

  lemma QuietSteps(s: State, t: Thread, max: nat)
    requires t in s.pc && s.pc[t] == Idle && max > 0
    requires s.sh.count - s.sh.over == s.sh.head && s.sh.head <= s.sh.tail < s.sh.head + HALF
    ensures
      var n := s.sh.tail - s.sh.head;
      if n == 0 then Steps(Call(s, t, max), t, 3) == s
      else
        var r := Steps(Call(s, t, max), t, 6);
        r.pc == s.pc[t := Claimed(s.sh.head, Min(max, n))] && r.sh.head == s.sh.head + Min(max, n) && r.sh.tail == s.sh.tail
  {
    hide Room, CircularLess, Granted, Step, Call;
    QuietRoom(s.sh);
    QuietLoads(s, t, max);
    var s3 := Steps(Call(s, t, max), t, 3);
    if s.sh.tail > s.sh.head {
      PublishedIsGranted(s.sh.tail, s.sh.count, s.sh.over, Min(s.sh.tail - s.sh.head, max));
      QuietClaims(s3, t);
      StepsAdd(Call(s, t, max), t, 3, 3);
    } else {
      assert s.pc[t := Idle] == s.pc;
    }
  }

  lemma QuietRoom(sh: Shared)
    requires sh.count - sh.over == sh.head && sh.head <= sh.tail < sh.head + HALF
    ensures Room(sh.tail, sh.count, sh.over) == sh.tail - sh.head
    ensures CircularLess(0, sh.tail - sh.head) <==> sh.head < sh.tail
  {
    hide Room, CircularLess;
    RoomIsWrap(sh.tail, sh.count, sh.over);
    WrapOnce(sh.tail - sh.head);
    RoomGrants(sh.tail - sh.head);
  }

  lemma {:induction false} StepsAdd(s: State, t: Thread, m: nat, n: nat)
    requires t in s.pc
    ensures Steps(s, t, m + n) == Steps(Steps(s, t, m), t, n)
    decreases m
  {
    if m > 0 {
      StepsAdd(Step(s, t), t, m - 1, n);
    }
  }

  lemma QuietLoads(s: State, t: Thread, max: nat)
    requires t in s.pc
    ensures
      var room := Room(s.sh.tail, s.sh.count, s.sh.over);
      Steps(Call(s, t, max), t, 3)
      == State(s.sh, s.pc[t := if CircularLess(0, room) then AddCount(Min(room, max), s.sh.over, s.sh.head) else Idle])
  {
    hide Room, CircularLess;
    var s0 := Call(s, t, max);
    var s1 := Step(s0, t);
    var s2 := Step(s1, t);
    var s3 := Step(s2, t);
    assert Steps(s0, t, 3) == Steps(s1, t, 2) == Steps(s2, t, 1) == s3;
    assert s3.pc == s.pc[t := s3.pc[t]];
  }

  lemma QuietClaims(s: State, t: Thread)
    requires t in s.pc && s.pc[t].AddCount? && s.pc[t].want > 0
    requires Granted(s.sh.tail, s.sh.count, s.pc[t].over, s.pc[t].want) == s.pc[t].want
    ensures
      var r := Steps(s, t, 3);
      r.pc == s.pc[t := Claimed(s.sh.head, s.pc[t].want)] && r.sh.head == s.sh.head + s.pc[t].want && r.sh.tail == s.sh.tail
  {
    hide Granted, Range;
    var s1 := Step(s, t);
    var s2 := Step(s1, t);
    var s3 := Step(s2, t);
    assert Steps(s, t, 3) == Steps(s1, t, 2) == Steps(s2, t, 1) == s3;
  }

  // ---------------------------------------------------------------- a run in which the assert on words fails

  /** Two consumers, and the counters. */
  predicate Stands(s: State, tail: nat, head: nat, count: nat, over: nat, p0: Pc, p1: Pc) {
    s.sh.tail == tail && s.sh.head == head && s.sh.count == count && s.sh.over == over && s.pc == map[0 := p0, 1 := p1]
  }

  ghost function Last(run: seq<State>): State
    requires |run| > 0
  {
    run[|run| - 1]
  }

  lemma Extend(run: seq<State>, s': State)
    requires Run(run) && Next(Last(run), s') && Timely(s')
    ensures Run(run + [s'])
  {
    hide Next, Timely, Init;
    var run' := run + [s'];
    forall i | 0 <= i < |run'| - 1 ensures NextAt(run', i) {
      assert i < |run| - 1 ==> NextAt(run, i);
    }
  }

  lemma ActMoves(v: View)
    ensures
      var sh, sh' := v.sh, Act(v).sh;
      && Act(v).pc == Moved(sh.tail, sh.head, sh.count, sh.over, v.pc)
      && sh'.tail == sh.tail && sh'.head == HeadAfter(sh.head, v.pc) && sh'.count == CountAfter(sh.count, v.pc)
      && sh'.over == OverAfter(sh.over, v.pc)
  {
    hide Granted, Room, CircularLess, Range;
  }

  /** One more access of thread 0. */
  lemma Go0(run: seq<State>, tail: nat, head: nat, count: nat, over: nat, p0: Pc, p1: Pc) returns (run': seq<State>)
    requires |run| > 0 && Run(run) && Stands(Last(run), tail, head, count, over, p0, p1)
    requires var p := Moved(tail, head, count, over, p0); p.ReloadTail? ==> p.my <= p.over + p.head0 + HALF
    requires p1.ReloadTail? ==> p1.my <= p1.over + p1.head0 + HALF
    ensures
      |run'| > 0 && Run(run') &&
      Stands(Last(run'), tail, HeadAfter(head, p0), CountAfter(count, p0), OverAfter(over, p0),
             Moved(tail, head, count, over, p0), p1)
  {
    hide Act, Moved, Run, Next;
    var s := Last(run);
    var s' := Step(s, 0);
    StepIsNext(s, 0);
    ActMoves(View(s.sh, s.pc[0]));
    assert s'.pc == map[0 := Moved(tail, head, count, over, p0), 1 := p1];
    Extend(run, s');
    run' := run + [s'];
  }

  lemma Go1(run: seq<State>, tail: nat, head: nat, count: nat, over: nat, p0: Pc, p1: Pc) returns (run': seq<State>)
    requires |run| > 0 && Run(run) && Stands(Last(run), tail, head, count, over, p0, p1)
    requires var p := Moved(tail, head, count, over, p1); p.ReloadTail? ==> p.my <= p.over + p.head0 + HALF
    requires p0.ReloadTail? ==> p0.my <= p0.over + p0.head0 + HALF
    ensures
      |run'| > 0 && Run(run') &&
      Stands(Last(run'), tail, HeadAfter(head, p1), CountAfter(count, p1), OverAfter(over, p1), p0,
             Moved(tail, head, count, over, p1))
  {
    hide Act, Moved, Run, Next;
    var s := Last(run);
    var s' := Step(s, 1);
    StepIsNext(s, 1);
    ActMoves(View(s.sh, s.pc[1]));
    assert s'.pc == map[0 := p0, 1 := Moved(tail, head, count, over, p1)];
    Extend(run, s');
    run' := run + [s'];
  }

  function HeadAfter(head: nat, p: Pc): nat { if p.AddHead? then head + p.got else head }

  function CountAfter(count: nat, p: Pc): nat { if p.AddCount? then count + p.want else count }

  function OverAfter(over: nat, p: Pc): nat { if p.AddOver? then over + p.back else over }

  /** Where a thread's next access takes it, from the counters alone. */
  function Moved(tail: nat, head: nat, count: nat, over: nat, p: Pc): Pc {
    match p
    case Idle => p
    case LoadTail(max) => LoadOver(max, tail)
    case LoadOver(max, t) => LoadCount(max, t, over, head)
    case LoadCount(max, t, o, h) =>
      var desired := Room(t, count, o);
      if CircularLess(0, desired) then AddCount(Min(desired, max), o, h) else Idle
    case AddCount(want, o, h) => ReloadTail(want, o, h, count)
    case ReloadTail(want, o, h, my) =>
      var got := Granted(tail, my, o, want);
      if got < want || got == 0 then AddOver(my, got, want - got) else AddHead(my, got)
    case AddOver(my, got, _) => if got > 0 then AddHead(my, got) else Idle
    case AddHead(_, got) => Claimed(head, got)
    case Claimed(_, _) => Idle
  }

  lemma StepIsNext(s: State, t: Thread)
    requires t in s.pc
    ensures Next(s, Step(s, t))
  {
    hide Step, Call, Publish;
  }

  lemma PublishIsNext(s: State, n: nat)
    ensures Next(s, Publish(s, n))
  {
    hide Step, Call, Publish;
  }

  lemma CallIsNext(s: State, t: Thread, max: nat)
    requires t in s.pc && s.pc[t] == Idle && max > 0
    ensures Next(s, Call(s, t, max))
  {
    hide Step, Call, Publish;
  }

  /** The producer publishes n more items. */
  lemma More(run: seq<State>, n: nat, tail: nat, head: nat, count: nat, over: nat) returns (run': seq<State>)
    requires |run| > 0 && Run(run) && Stands(Last(run), tail, head, count, over, Idle, Idle)
    ensures |run'| > 0 && Run(run') && Stands(Last(run'), tail + n, head, count, over, Idle, Idle)
  {
    hide Run, Next;
    var s' := Publish(Last(run), n);
    PublishIsNext(Last(run), n);
    Extend(run, s');
    run' := run + [s'];
  }

  lemma Call0(run: seq<State>, max: nat, tail: nat, head: nat, count: nat, over: nat) returns (run': seq<State>)
    requires |run| > 0 && Run(run) && Stands(Last(run), tail, head, count, over, Idle, Idle) && max > 0
    ensures |run'| > 0 && Run(run') && Stands(Last(run'), tail, head, count, over, LoadTail(max), Idle)
  {
    hide Run, Next;
    var s' := Call(Last(run), 0, max);
    CallIsNext(Last(run), 0, max);
    assert s'.pc == map[0 := LoadTail(max), 1 := Idle];
    Extend(run, s');
    run' := run + [s'];
  }

  lemma Call1(run: seq<State>, max: nat, tail: nat, head: nat, count: nat, over: nat, p0: Pc) returns (run': seq<State>)
    requires |run| > 0 && Run(run) && Stands(Last(run), tail, head, count, over, p0, Idle) && max > 0 && !p0.ReloadTail?
    ensures |run'| > 0 && Run(run') && Stands(Last(run'), tail, head, count, over, p0, LoadTail(max))
  {
    hide Run, Next;
    var s' := Call(Last(run), 1, max);
    CallIsNext(Last(run), 1, max);
    assert s'.pc == map[0 := p0, 1 := LoadTail(max)];
    Extend(run, s');
    run' := run + [s'];
  }

  /** Thread 0 alone dequeues the n items there are. */
  lemma Round(run: seq<State>, n: nat, head: nat, count: nat, over: nat) returns (run': seq<State>)
    requires |run| > 0 && Run(run) && Stands(Last(run), head, head, count, over, Idle, Idle)
    requires count - over == head && 0 < n < HALF
    ensures |run'| > 0 && Run(run') && Stands(Last(run'), head + n, head + n, count + n, over, Idle, Idle)
  {
    hide Run, Room, Granted, CircularLess, Stands;
    var tail := head + n;
    RoomIsWrap(tail, count, over);
    WrapOnce(n);
    PublishedIsGranted(tail, count, over, n);
    RoomGrants(n);
    run' := More(run, n, head, head, count, over);
    run' := Call0(run', n, tail, head, count, over);
    run' := Go0(run', tail, head, count, over, LoadTail(n), Idle);
    run' := Go0(run', tail, head, count, over, LoadOver(n, tail), Idle);
    run' := Go0(run', tail, head, count, over, LoadCount(n, tail, over, head), Idle);
    run' := Go0(run', tail, head, count, over, AddCount(n, over, head), Idle);
    run' := Go0(run', tail, head, count + n, over, ReloadTail(n, over, head, count), Idle);
    run' := Go0(run', tail, head, count + n, over, AddHead(count, n), Idle);
    run' := Go0(run', tail, tail, count + n, over, Claimed(head, n), Idle);
  }

  lemma RoomGrants(n: nat)
    requires n < HALF
    ensures CircularLess(0, n) <==> n > 0
  {
  }

  /** Two threads race for one item: both find it there. */
  lemma RaceStarts(run: seq<State>) returns (run': seq<State>)
    requires |run| > 0 && Run(run) && Stands(Last(run), 0, 0, 0, 0, Idle, Idle)
    ensures |run'| > 0 && Run(run') && Stands(Last(run'), 1, 0, 0, 0, AddCount(1, 0, 0), LoadTail(1))
  {
    hide Run, Room, Granted, CircularLess, Stands;
    RaceFacts();
    run' := More(run, 1, 0, 0, 0, 0);
    run' := Call0(run', 1, 1, 0, 0, 0);
    run' := Call1(run', 1, 1, 0, 0, 0, LoadTail(1));
    run' := Go0(run', 1, 0, 0, 0, LoadTail(1), LoadTail(1));
    run' := Go0(run', 1, 0, 0, 0, LoadOver(1, 1), LoadTail(1));
    run' := Go0(run', 1, 0, 0, 0, LoadCount(1, 1, 0, 0), LoadTail(1));
  }

  lemma RaceGoesOn(run: seq<State>) returns (run': seq<State>)
    requires |run| > 0 && Run(run) && Stands(Last(run), 1, 0, 0, 0, AddCount(1, 0, 0), LoadTail(1))
    ensures |run'| > 0 && Run(run') && Stands(Last(run'), 1, 0, 0, 0, AddCount(1, 0, 0), AddCount(1, 0, 0))
  {
    hide Run, Room, Granted, CircularLess, Stands;
    RaceFacts();
    run' := Go1(run, 1, 0, 0, 0, AddCount(1, 0, 0), LoadTail(1));
    run' := Go1(run', 1, 0, 0, 0, AddCount(1, 0, 0), LoadOver(1, 1));
    run' := Go1(run', 1, 0, 0, 0, AddCount(1, 0, 0), LoadCount(1, 1, 0, 0));
  }

  /** One claims it. */
  lemma RaceWon(run: seq<State>) returns (run': seq<State>)
    requires |run| > 0 && Run(run) && Stands(Last(run), 1, 0, 0, 0, AddCount(1, 0, 0), AddCount(1, 0, 0))
    ensures |run'| > 0 && Run(run') && Stands(Last(run'), 1, 1, 1, 0, Idle, AddCount(1, 0, 0))
  {
    hide Run, Room, Granted, CircularLess, Stands;
    RaceFacts();
    run' := Go0(run, 1, 0, 0, 0, AddCount(1, 0, 0), AddCount(1, 0, 0));
    run' := Go0(run', 1, 0, 1, 0, ReloadTail(1, 0, 0, 0), AddCount(1, 0, 0));
    run' := Go0(run', 1, 0, 1, 0, AddHead(0, 1), AddCount(1, 0, 0));
    run' := Go0(run', 1, 1, 1, 0, Claimed(0, 1), AddCount(1, 0, 0));
  }

  /** The other takes its ticket back. */
  lemma RaceLost(run: seq<State>) returns (run': seq<State>)
    requires |run| > 0 && Run(run) && Stands(Last(run), 1, 1, 1, 0, Idle, AddCount(1, 0, 0))
    ensures |run'| > 0 && Run(run') && Stands(Last(run'), 1, 1, 2, 1, Idle, Idle)
  {
    hide Run, Stands, Moved;
    LoserMoves();
    run' := Go1(run, 1, 1, 1, 0, Idle, AddCount(1, 0, 0));
    run' := Go1(run', 1, 1, 2, 0, Idle, ReloadTail(1, 0, 0, 1));
    run' := Go1(run', 1, 1, 2, 0, Idle, AddOver(1, 0, 1));
  }

  lemma LoserMoves()
    ensures Moved(1, 1, 1, 0, AddCount(1, 0, 0)) == ReloadTail(1, 0, 0, 1)
    ensures Moved(1, 1, 2, 0, ReloadTail(1, 0, 0, 1)) == AddOver(1, 0, 1)
    ensures Moved(1, 1, 2, 0, AddOver(1, 0, 1)) == Idle
  {
    hide Granted, Room, CircularLess, Moved;
    RaceFacts();
    RefusedMoves(1, 1, 1, 2, 0, 1, 0, 0);
  }

  lemma RefusedMoves(tail: nat, head: nat, my: nat, count: nat, over: nat, want: nat, o: nat, h: nat)
    ensures Moved(tail, head, my, over, AddCount(want, o, h)) == ReloadTail(want, o, h, my)
    ensures Granted(tail, my, o, want) == 0 ==> Moved(tail, head, count, over, ReloadTail(want, o, h, my)) == AddOver(my, 0, want)
    ensures Moved(tail, head, count, over, AddOver(my, 0, want)) == Idle
  {
    hide Granted, Room, CircularLess;
  }

  lemma RaceFacts()
    ensures Room(1, 0, 0) == 1 && CircularLess(0, 1) && Granted(1, 0, 0, 1) == 1 && Granted(1, 1, 0, 1) == 0
  {
  }

  /**
    The assert on words can fail: after a race has left an overcommit of one, enough items pass to bring the tickets to
    2^64, and the next consumer reads overcommit 1 and draws the ticket whose word is 0.
  */
  lemma OvercommitAssertFails() returns (run: seq<State>)
    ensures |run| > 0 && Run(run)
    ensures var p := Last(run).pc; 0 in p && p[0].AddCount? && Wrap(p[0].over) > Wrap(Step(Last(run), 0).pc[0].my)
  {
    hide Run, Room, Granted, CircularLess, Stands;
    run := Start();
    run := RaceStarts(run);
    run := RaceGoesOn(run);
    run := RaceWon(run);
    run := RaceLost(run);
    run := Round(run, HALF - 1, 1, 2, 1);
    run := Round(run, HALF - 1, HALF, HALF + 1, 1);
    run := More(run, 1, WORD - 1, WORD - 1, WORD, 1);
    RoomIsWrap(WORD, WORD, 1);
    RoomGrants(1);
    run := Call0(run, 1, WORD, WORD - 1, WORD, 1);
    run := Go0(run, WORD, WORD - 1, WORD, 1, LoadTail(1), Idle);
    run := Go0(run, WORD, WORD - 1, WORD, 1, LoadOver(1, WORD), Idle);
    run := Go0(run, WORD, WORD - 1, WORD, 1, LoadCount(1, WORD, 1, WORD - 1), Idle);
    WordsDisagree(Last(run));
  }

  lemma Start() returns (run: seq<State>)
    ensures |run| > 0 && Run(run) && Stands(Last(run), 0, 0, 0, 0, Idle, Idle)
  {
    run := [State(Shared(0, 0, 0, 0, {}, {}, {}, {}), map[0 := Idle, 1 := Idle])];
  }

  lemma WordsDisagree(s: State)
    requires Stands(s, WORD, WORD - 1, WORD, 1, AddCount(1, 1, WORD - 1), Idle)
    ensures 0 in s.pc && s.pc[0].AddCount? && Wrap(s.pc[0].over) > Wrap(Step(s, 0).pc[0].my)
  {
    hide Room, Granted, CircularLess, Range;
  }
}
