/** What the hash tables guarantee in every run. */
module ProducerHashRuns {
  import opened Wrappers
  import Circular
  import opened ProducerHash
  import opened ProducerHashSteps

  // ---------------------------------------------------------------- every run keeps the invariant

  lemma StepKeeps(s: State, t: Id, luck: Option<ProducerId>)
    requires Inv(s) && CanStep(s, t, luck)
    ensures Inv(Step(s, t, luck))
  {
    hide Inv, Step, Slot, Shape;
    match s.pc[t]
    case LoadMain => LoadMainKeeps(s, t, luck);
    case Look(_, _, _) => LookKeeps(s, t, luck);
    case CopyLoad(_, _, _, _) => CopyLoadKeeps(s, t, luck);
    case CopyCas(main, _, _, steps) =>
      InvShape(s);
      if Taken(s.tables[main], t, steps) { CopyLoadKeeps(s, t, luck); } else { CopyCasKeeps(s, t, luck); }
    case CopyValue(_, _, _) => StoreValueKeeps(s, t, luck);
    case AddCount(_) => AddCountKeeps(s, t, luck);
    case TestSet(_, _) => if s.resizing { ReloadKeeps(s, t, luck); } else { LockKeeps(s, t, luck); }
    case Reload(_) => ReloadKeeps(s, t, luck);
    case Allocate(_) => if luck.None? { ReloadKeeps(s, t, luck); } else { AllocateKeeps(s, t, luck); }
    case SubLocked => SubCountKeeps(s, t, luck);
    case ClearFail => LockKeeps(s, t, luck);
    case Clear(_, _) => LockKeeps(s, t, luck);
    case WaitLoad(_) => ReloadKeeps(s, t, luck);
    case Create(_, _) => if luck.None? { ReloadKeeps(s, t, luck); } else { CreateKeeps(s, t, luck); }
    case SubCount => SubCountKeeps(s, t, luck);
    case InsertLoad(_, _, _, _) => InsertLoadKeeps(s, t, luck);
    case InsertCas(main, _, _, steps) =>
      InvShape(s);
      if Taken(s.tables[main], t, steps) { InsertLoadKeeps(s, t, luck); } else { InsertCasKeeps(s, t, luck); }
    case InsertValue(_, _, _) => StoreValueKeeps(s, t, luck);
  }

  lemma InitHasInv(s: State)
    requires Init(s)
    ensures Inv(s)
  {
    EmptyTableOk(INITIAL_SIZE, s.ticket, s.home);
    forall t ensures !Has(s.tables[0], t) {
      EmptyHasNone(s.tables[0], t);
    }
  }

  lemma NextKeeps(s: State, s': State)
    requires Inv(s) && Next(s, s')
    ensures Inv(s')
  {
    hide Inv, CanStep, Step;
    if t, luck :| CanStep(s, t, luck) && s' == Step(s, t, luck) {
      StepKeeps(s, t, luck);
    } else {
      var t :| t in s.pc && (s.pc[t].Idle? || s.pc[t].Returned?) && s' == Move(s, t, LoadMain);
      StartKeeps(s, t);
    }
  }

  lemma {:induction false} RunHasInv(run: seq<State>, i: nat)
    requires Run(run) && i < |run|
    ensures Inv(run[i])
  {
    hide Inv, Next, Init;
    if i == 0 {
      InitHasInv(run[0]);
    } else {
      RunHasInv(run, i - 1);
      assert NextAt(run, i - 1);
      NextKeeps(run[i - 1], run[i]);
    }
  }

  // ---------------------------------------------------------------- occupancy

  function IdsIn(keys: seq<Option<Id>>): set<Id> {
    set j | 0 <= j < |keys| && keys[j].Some? :: keys[j].value
  }

  /** The number of slots in use. */
  function Used(keys: seq<Option<Id>>): nat {
    if keys == [] then 0 else Used(keys[..|keys| - 1]) + if keys[|keys| - 1].Some? then 1 else 0
  }

  lemma {:induction false} UsedIsIds(keys: seq<Option<Id>>)
    requires forall i, j :: 0 <= i < j < |keys| && keys[i].Some? ==> keys[i] != keys[j]
    ensures Used(keys) == |IdsIn(keys)|
  {
    if keys != [] {
      var n := |keys| - 1;
      var before := keys[..n];
      UsedIsIds(before);
      IdsOfLast(keys, n);
    }
  }

  lemma IdsOfLast(keys: seq<Option<Id>>, n: nat)
    requires |keys| == n + 1 && forall i, j :: 0 <= i < j < |keys| && keys[i].Some? ==> keys[i] != keys[j]
    ensures keys[n].Some? ==> keys[n].value !in IdsIn(keys[..n]) && IdsIn(keys) == IdsIn(keys[..n]) + {keys[n].value}
    ensures keys[n].None? ==> IdsIn(keys) == IdsIn(keys[..n])
  {
    forall id ensures id in IdsIn(keys) <==> id in IdsIn(keys[..n]) || keys[n] == Some(id) {
      if id in IdsIn(keys) {
        var j :| 0 <= j < |keys| && keys[j] == Some(id);
        assert j == n || keys[..n][j] == Some(id);
      }
    }
  }

  lemma {:induction false} AllUsed(keys: seq<Option<Id>>)
    requires forall j :: 0 <= j < |keys| ==> keys[j].Some?
    ensures Used(keys) == |keys|
  {
    if keys != [] {
      AllUsed(keys[..|keys| - 1]);
    }
  }

  /** The latest-counted of some ids, and that there are no more of them than its rank. */
  lemma {:induction false} Newest(order: seq<Id>, ids: set<Id>, m: nat) returns (p: nat)
    requires m <= |order| && ids != {} && forall id :: id in ids ==> id in order[..m]
    ensures p < m && order[p] in ids && |ids| <= p + 1
    decreases m
  {
    if order[m - 1] in ids {
      p := m - 1;
      PrefixBounds(order, ids, m);
    } else {
      forall id | id in ids ensures id in order[..m - 1] {
        assert id != order[m - 1];
      }
      p := Newest(order, ids, m - 1);
    }
  }

  lemma {:induction false} PrefixBounds(order: seq<Id>, ids: set<Id>, m: nat)
    requires m <= |order| && forall id :: id in ids ==> id in order[..m]
    ensures |ids| <= m
  {
    if m > 0 {
      var fewer := ids - {order[m - 1]};
      forall id | id in fewer ensures id in order[..m - 1] {
      }
      PrefixBounds(order, fewer, m - 1);
      assert |ids| <= |fewer| + 1 by {
        assert ids <= fewer + {order[m - 1]};
        assert ids == fewer || ids == fewer + {order[m - 1]};
      }
    }
  }

  /** In every state of every run each table is less than three quarters full, and never has an id twice. */
  lemma OccupancyBelowThreeQuarters(run: seq<State>, i: nat, g: nat)
    requires Run(run) && i < |run| && g < |run[i].tables|
    ensures TableShape(run[i].tables[g]) && DistinctKeys(run[i].tables[g])
    ensures var tb := run[i].tables[g]; Used(tb.keys) == 0 || Used(tb.keys) < ThreeQuarters(tb.cap)
  {
    hide Inv, Run;
    RunHasInv(run, i);
    TableIsNotFull(run[i], g);
  }

  lemma TableIsNotFull(s: State, g: nat)
    requires Inv(s) && g < |s.tables|
    ensures TableShape(s.tables[g]) && DistinctKeys(s.tables[g])
    ensures Used(s.tables[g].keys) < s.tables[g].cap
    ensures Used(s.tables[g].keys) == 0 || Used(s.tables[g].keys) < ThreeQuarters(s.tables[g].cap)
  {
    hide PathTo, ThreadOk, ValuesOk, LockOk;
    var tb := s.tables[g];
    assert TableOk(tb, s.ticket, s.home);
    UsedIsIds(tb.keys);
    if IdsIn(tb.keys) != {} {
      forall id | id in IdsIn(tb.keys) ensures id in s.order[..|s.order|] && id in s.ticket && s.ticket[id] < ThreeQuarters(tb.cap) {
        var j :| 0 <= j < |tb.keys| && tb.keys[j] == Some(id);
        assert EntryOk(tb, j, s.ticket, s.home);
        assert s.order[..|s.order|] == s.order;
      }
      var p := Newest(s.order, IdsIn(tb.keys), |s.order|);
      assert s.ticket[s.order[p]] >= p + 1;
    }
  }

  // ---------------------------------------------------------------- what the table guarantees

  lemma SlotCovers(id: Id, cap: nat, j: nat)
    requires j < cap
    ensures exists i :: 0 <= i < cap && Slot(id, i, cap) == j
  {
    var i := (j - HASH(id)) % cap;
    Circular.Remainder(j - HASH(id), cap);
    Circular.Shift(i, j - HASH(id), HASH(id), cap);
    Circular.Symmetric(HASH(id) + i, j, cap);
    Circular.RemainderIs(HASH(id) + i, j, cap);
    assert Slot(id, i, cap) == j;
  }

  lemma ProbeIsShort(s: State, g: nat, id: Id, steps: nat)
    requires Inv(s) && g < |s.tables| && TableShape(s.tables[g]) && Probed(s.tables[g], id, steps)
    ensures steps < s.tables[g].cap
  {
    hide Inv, Slot;
    var tb := s.tables[g];
    TableIsNotFull(s, g);
    if steps >= tb.cap {
      forall j | 0 <= j < |tb.keys| ensures tb.keys[j].Some? {
        SlotCovers(id, tb.cap, j);
        var i :| 0 <= i < tb.cap && Slot(id, i, tb.cap) == j;
        assert Taken(tb, id, i);
      }
      AllUsed(tb.keys);
    }
  }

  /** The current probe is within the table. */
  ghost predicate Short(s: State, p: Pc) {
    match p
    case Look(_, gen, steps) => gen < |s.tables| && steps < s.tables[gen].cap
    case CopyLoad(main, _, _, steps) => main < |s.tables| && steps < s.tables[main].cap
    case CopyCas(main, _, _, steps) => main < |s.tables| && steps < s.tables[main].cap
    case InsertLoad(main, _, _, steps) => main < |s.tables| && steps < s.tables[main].cap
    case InsertCas(main, _, _, steps) => main < |s.tables| && steps < s.tables[main].cap
    case _ => true
  }

  lemma ProbeInTable(s: State, t: Id)
    requires Inv(s) && t in s.pc
    ensures Short(s, s.pc[t])
  {
    hide Inv, Slot, Probed, Has, Nowhere;
    InvThread(s, t);
    match s.pc[t]
    case Look(_, gen, steps) => ProbeIsShort(s, gen, t, steps);
    case CopyLoad(main, _, _, steps) => ProbeIsShort(s, main, t, steps);
    case CopyCas(main, _, _, steps) => ProbeIsShort(s, main, t, steps);
    case InsertLoad(main, _, _, steps) => ProbeIsShort(s, main, t, steps);
    case InsertCas(main, _, _, steps) => ProbeIsShort(s, main, t, steps);
    case _ =>
  }

  /** Every probe loop ends: it never visits as many slots as the table has, however the other threads interleave. */
  lemma ProbesEnd(run: seq<State>, i: nat, t: Id)
    requires Run(run) && i < |run| && t in run[i].pc
    ensures Short(run[i], run[i].pc[t])
  {
    hide Inv, Run, Short;
    RunHasInv(run, i);
    ProbeInTable(run[i], t);
  }

  /** A thread in the middle of a call can always take its next step. */
  lemma NobodyIsStuck(run: seq<State>, i: nat, t: Id)
    requires Run(run) && i < |run| && t in run[i].pc && !run[i].pc[t].Idle? && !run[i].pc[t].Returned?
    ensures CanStep(run[i], t, None)
  {
    hide Inv, Run, CanStep;
    RunHasInv(run, i);
    CanGoOn(run[i], t, None);
  }

  lemma CanGoOn(s: State, t: Id, luck: Option<ProducerId>)
    requires Inv(s) && t in s.pc && !s.pc[t].Idle? && !s.pc[t].Returned?
    requires s.pc[t].Create? && luck.Some? ==> luck.value !in s.owner
    ensures CanStep(s, t, luck)
  {
    hide Inv, Slot, Probed, Has, Nowhere, TableOk;
    InvThread(s, t);
    CountIs(s);
    if s.pc[t].Look? {
      var tb := s.tables[s.pc[t].gen];
      var j := Slot(t, s.pc[t].steps, tb.cap);
      if tb.keys[j] == Some(t) {
        FoundIsKnown(s, t, s.pc[t].gen, j);
      }
    }
  }

  lemma CountIs(s: State)
    requires Inv(s)
    ensures s.count == |s.order| && CountOk(s.count, s.order, s.ticket)
  {
    hide TablesOk, ThreadOk, ValuesOk, LockOk;
  }

  /** Once the table was grown for a count, that count fits it: the comment at lines 3382-3384. */
  lemma GrownIsEnough(cap: nat, main: nat, n: nat)
    requires cap > 0
    ensures Fit(Grown(cap, n), main, n) == Create(main, n)
  {
  }

  lemma StepKeepsHome(s: State, s': State, t: Id)
    requires Inv(s) && Next(s, s') && t in s.home
    ensures t in s'.home && s'.home[t] == s.home[t]
  {
    hide Inv, CanStep, Step;
    if u, luck :| CanStep(s, u, luck) && s' == Step(s, u, luck) {
      HomeGrows(s, u, luck, t);
    }
  }

  lemma HomeGrows(s: State, u: Id, luck: Option<ProducerId>, t: Id)
    requires Inv(s) && CanStep(s, u, luck) && t in s.home
    ensures t in Step(s, u, luck).home && Step(s, u, luck).home[t] == s.home[t]
  {
    hide Inv, Slot, Shape, SetKey, SetValue, Removed, Grown, EmptyTable;
    if s.pc[u].InsertCas? {
      InsertFinds(s, u);
    }
  }

  lemma {:induction false} HomeStays(run: seq<State>, i: nat, j: nat, t: Id)
    requires Run(run) && i <= j < |run| && t in run[i].home
    ensures t in run[j].home && run[j].home[t] == run[i].home[t]
  {
    hide Inv, Run, Next;
    if i < j {
      HomeStays(run, i, j - 1, t);
      RunSteps(run, j - 1);
      RunHasInv(run, j - 1);
      StepKeepsHome(run[j - 1], run[j], t);
    }
  }

  lemma RunSteps(run: seq<State>, i: nat)
    requires Run(run) && i + 1 < |run|
    ensures Next(run[i], run[i + 1])
  {
    hide Next, Init;
    assert NextAt(run, i);
  }

  /** A thread always gets back the producer it got first, and no other thread ever gets that one. */
  lemma SameProducer(run: seq<State>, i: nat, j: nat, t: Id, u: Id)
    requires Run(run) && i <= j < |run| && t in run[i].pc && u in run[j].pc
    requires run[i].pc[t].Returned? && run[i].pc[t].result.Some? && run[j].pc[u].Returned? && run[j].pc[u].result.Some?
    ensures run[j].pc[u].result == run[i].pc[t].result <==> t == u
  {
    hide Inv, Run, Nowhere, Has, TableOk;
    RunHasInv(run, i);
    RunHasInv(run, j);
    InvThread(run[i], t);
    InvThread(run[j], u);
    HomeStays(run, i, j, t);
    OwnersStay(run, i, j, run[i].home[t]);
  }

  lemma {:induction false} OwnersStay(run: seq<State>, i: nat, j: nat, v: ProducerId)
    requires Run(run) && i <= j < |run| && v in run[i].owner
    ensures v in run[j].owner && run[j].owner[v] == run[i].owner[v]
  {
    hide Inv, Run, Next;
    if i < j {
      OwnersStay(run, i, j - 1, v);
      RunSteps(run, j - 1);
      StepKeepsOwners(run[j - 1], run[j], v);
    }
  }

  lemma StepKeepsOwners(s: State, s': State, v: ProducerId)
    requires Next(s, s') && v in s.owner
    ensures v in s'.owner && s'.owner[v] == s.owner[v]
  {
    hide CanStep, Step;
    if u, luck :| CanStep(s, u, luck) && s' == Step(s, u, luck) {
      OwnersGrow(s, u, luck, v);
    }
  }

  lemma OwnersGrow(s: State, u: Id, luck: Option<ProducerId>, v: ProducerId)
    requires CanStep(s, u, luck) && v in s.owner
    ensures v in Step(s, u, luck).owner && Step(s, u, luck).owner[v] == s.owner[v]
  {
    hide Slot, Shape, SetKey, SetValue, Removed, Grown, EmptyTable;
  }
}
