/** What a call of get_or_add_implicit_producer comes to. */
module ProducerHashCalls {
  import opened Wrappers
  import opened ProducerHash
  import opened ProducerHashSteps
  import opened ProducerHashRuns

  // ---------------------------------------------------------------- what a call comes to

  /** A step of thread t that nothing but a failed allocation explains. */
  ghost predicate AllocationFails(s: State, s': State, t: Id) {
    && t in s.pc && (s.pc[t].Allocate? || s.pc[t].Create?)
    && (exists luck :: CanStep(s, t, luck) && s' == Step(s, t, luck))
    && (forall luck :: CanStep(s, t, luck) && s' == Step(s, t, luck) ==> luck.None?)
  }

  /** A call that is going to return null, or did. */
  predicate Failing(p: Pc) {
    p.SubLocked? || p.ClearFail? || p.SubCount? || p == Returned(None)
  }

  predicate InCall(p: Pc) {
    !p.Idle? && !p.Returned?
  }

  predicate MayFail(p: Pc) {
    p.Allocate? || p.Create?
  }

  /** A step concerns its own thread, and turns its call to failure exactly if it is an allocation out of luck. */
  predicate StepResult(pc: map<Id, Pc>, pc': map<Id, Pc>, t: Id, luck: Option<ProducerId>) {
    && t in pc && t in pc' && pc' == pc[t := pc'[t]] && !pc'[t].Idle?
    && (Failing(pc'[t]) <==> Failing(pc[t]) || (MayFail(pc[t]) && luck.None?))
    && (MayFail(pc[t]) ==> pc'[t] != pc[t])
  }

  lemma SearchingFails(s: State, t: Id, luck: Option<ProducerId>)
    requires CanStep(s, t, luck)
    requires s.pc[t].LoadMain? || s.pc[t].Look?
    ensures StepResult(s.pc, Step(s, t, luck).pc, t, luck)
  {
    hide Slot, Shape, SetKey, SetValue, Removed, Grown, EmptyTable, ThreeQuarters, TableShape;
  }

  lemma CopyingFails(s: State, t: Id, luck: Option<ProducerId>)
    requires CanStep(s, t, luck)
    requires s.pc[t].CopyLoad? || s.pc[t].CopyCas? || s.pc[t].CopyValue?
    ensures StepResult(s.pc, Step(s, t, luck).pc, t, luck)
  {
    hide Slot, Shape, SetKey, SetValue, Removed, Grown, EmptyTable, ThreeQuarters, TableShape;
  }

  lemma InsertingFails(s: State, t: Id, luck: Option<ProducerId>)
    requires CanStep(s, t, luck)
    requires s.pc[t].InsertLoad? || s.pc[t].InsertCas? || s.pc[t].InsertValue?
    ensures StepResult(s.pc, Step(s, t, luck).pc, t, luck)
  {
    hide Slot, Shape, SetKey, SetValue, Removed, Grown, EmptyTable, ThreeQuarters, TableShape;
  }

  lemma CountingFails(s: State, t: Id, luck: Option<ProducerId>)
    requires CanStep(s, t, luck)
    requires s.pc[t].AddCount? || s.pc[t].TestSet? || s.pc[t].Reload? || s.pc[t].Clear? || s.pc[t].WaitLoad?
    ensures StepResult(s.pc, Step(s, t, luck).pc, t, luck)
  {
    hide Slot, Shape, SetKey, SetValue, Removed, Grown, EmptyTable, ThreeQuarters, TableShape;
  }

  lemma MakingFails(s: State, t: Id, luck: Option<ProducerId>)
    requires CanStep(s, t, luck)
    requires s.pc[t].Allocate? || s.pc[t].Create? || s.pc[t].SubLocked? || s.pc[t].ClearFail? || s.pc[t].SubCount?
    ensures StepResult(s.pc, Step(s, t, luck).pc, t, luck)
  {
    hide Slot, Shape, SetKey, SetValue, Removed, Grown, EmptyTable, ThreeQuarters, TableShape;
  }

  lemma StepFails(s: State, t: Id, luck: Option<ProducerId>)
    requires CanStep(s, t, luck)
    ensures StepResult(s.pc, Step(s, t, luck).pc, t, luck)
  {
    hide Step, StepResult;
    match s.pc[t]
    case LoadMain => SearchingFails(s, t, luck);
    case Look(_, _, _) => SearchingFails(s, t, luck);
    case CopyLoad(_, _, _, _) => CopyingFails(s, t, luck);
    case CopyCas(_, _, _, _) => CopyingFails(s, t, luck);
    case CopyValue(_, _, _) => CopyingFails(s, t, luck);
    case InsertLoad(_, _, _, _) => InsertingFails(s, t, luck);
    case InsertCas(_, _, _, _) => InsertingFails(s, t, luck);
    case InsertValue(_, _, _) => InsertingFails(s, t, luck);
    case AddCount(_) => CountingFails(s, t, luck);
    case TestSet(_, _) => CountingFails(s, t, luck);
    case Reload(_) => CountingFails(s, t, luck);
    case Clear(_, _) => CountingFails(s, t, luck);
    case WaitLoad(_) => CountingFails(s, t, luck);
    case _ => MakingFails(s, t, luck);
  }

  /** A call turns to failure exactly when an allocation fails. */
  lemma FailsForMemory(s: State, s': State, t: Id)
    requires Next(s, s') && t in s.pc && InCall(s.pc[t])
    ensures t in s'.pc && !s'.pc[t].Idle?
    ensures Failing(s'.pc[t]) <==> Failing(s.pc[t]) || AllocationFails(s, s', t)
  {
    hide CanStep, Step, Failing;
    forall u, l | CanStep(s, u, l) ensures StepResult(s.pc, Step(s, u, l).pc, u, l) {
      StepFails(s, u, l);
    }
  }

  /** In the step from run[i] thread t calls get_or_add_implicit_producer, and it is in that call until run[j]. */
  ghost predicate Calls(run: seq<State>, i: nat, j: nat, t: Id) {
    && i < j < |run| && t in run[i].pc && !InCall(run[i].pc[t]) && run[i + 1] == Move(run[i], t, LoadMain)
    && forall g :: i < g < j ==> t in run[g].pc && InCall(run[g].pc[t])
  }

  ghost predicate FailedIn(run: seq<State>, i: nat, j: nat, t: Id) {
    exists k :: i < k < j && k + 1 < |run| && AllocationFails(run[k], run[k + 1], t)
  }

  lemma {:induction false} CallSoFar(run: seq<State>, i: nat, j: nat, t: Id)
    requires Run(run) && Calls(run, i, j, t)
    ensures t in run[j].pc && !run[j].pc[t].Idle?
    ensures Failing(run[j].pc[t]) <==> FailedIn(run, i, j, t)
  {
    hide Run, Next, Failing, AllocationFails, Inv;
    if j > i + 1 {
      var k := j - 1;
      CallSoFar(run, i, k, t);
      RunSteps(run, k);
      FailsForMemory(run[k], run[j], t);
      if AllocationFails(run[k], run[k + 1], t) {
        assert FailedIn(run, i, j, t);
      }
    } else {
      StartsWell(run[i], t);
    }
  }

  lemma StartsWell(s: State, t: Id)
    requires t in s.pc
    ensures var p := Move(s, t, LoadMain).pc[t]; !Failing(p) && !p.Idle?
  {
  }

  /** Some table has id with value v. */
  ghost predicate Stored(s: State, id: Id, v: ProducerId) {
    exists g, j :: 0 <= g < |s.tables| && TableShape(s.tables[g]) && 0 <= j < s.tables[g].cap
                   && s.tables[g].keys[j] == Some(id) && s.tables[g].values[j] == Some(v)
  }

  /**
    A call returns null exactly if one of its allocations failed. Otherwise its producer was made for this thread and is
    in a table under its id; with null the thread is in no table and does not count.
  */
  lemma NullMeansNoMemory(run: seq<State>, i: nat, j: nat, t: Id)
    requires Run(run) && Calls(run, i, j, t) && t in run[j].pc && run[j].pc[t].Returned?
    ensures run[j].pc[t].result.None? <==> FailedIn(run, i, j, t)
    ensures
      match run[j].pc[t].result
      case None => t !in run[j].home && t !in run[j].order && Nowhere(run[j].tables, t, 0)
      case Some(v) => v in run[j].owner && run[j].owner[v] == t && t in run[j].order && Stored(run[j], t, v)
  {
    hide Run, AllocationFails, Inv, Stored, FailedIn, Has;
    CallSoFar(run, i, j, t);
    RunHasInv(run, j);
    InvThread(run[j], t);
    if run[j].pc[t].result.Some? {
      KnownIsStored(run[j], t);
    }
  }

  lemma KnownIsStored(s: State, t: Id)
    requires Inv(s) && t in s.pc && s.pc[t].Returned? && s.pc[t].result.Some?
    ensures Stored(s, t, s.pc[t].result.value)
  {
    hide TablesOk, CountOk, LockOk;
    InvThread(s, t);
    var g :| 0 <= g < |s.tables| && Has(s.tables[g], t);
    assert TableShape(s.tables[g]);
    var j :| 0 <= j < |s.tables[g].keys| && s.tables[g].keys[j] == Some(t);
    assert s.tables[g].values[j] == Some(s.home[t]);
  }

  // ---------------------------------------------------------------- a call alone

  /** Alone, and with memory for what it allocates, thread t returns a producer within n steps; a new one would be v. */
  ghost predicate Gets(s: State, t: Id, v: ProducerId, n: nat)
    decreases n
  {
    && t in s.pc
    && if s.pc[t].Returned? then s.pc[t].result.Some?
       else n > 0 && CanStep(s, t, Some(v)) && Gets(Step(s, t, Some(v)), t, v, n - 1)
  }

  /** No other thread is resizing, v is not made yet, and a table just grown or found large enough is so. */
  ghost predicate Ready(s: State, t: Id, v: ProducerId) {
    && t in s.pc && !s.pc[t].Idle? && !Failing(s.pc[t]) && (s.resizing ==> HoldsLock(s.pc[t]))
    && (v in s.owner ==>
          s.pc[t].InsertLoad? || s.pc[t].InsertCas? || s.pc[t].InsertValue? || s.pc[t].Returned?)
    && (s.pc[t].Clear? ==>
          s.pc[t].main < |s.tables| && s.pc[t].n < ThreeQuarters(s.tables[s.pc[t].main].cap))
  }

  /** How far a call is from its end. */
  function Phase(p: Pc): nat {
    match p
    case LoadMain => 14
    case Look(_, _, _) => 13
    case AddCount(_) => 12
    case WaitLoad(_) => 11
    case TestSet(_, _) => 10
    case Reload(_) => 9
    case Allocate(_) => 8
    case Clear(_, _) => 7
    case Create(_, _) => 6
    case InsertLoad(_, _, _, _) => 5
    case InsertCas(_, _, _, _) => 5
    case CopyLoad(_, _, _, _) => 4
    case CopyCas(_, _, _, _) => 4
    case CopyValue(_, _, _) => 3
    case InsertValue(_, _, _) => 3
    case _ => 0
  }

  /** And within a probe loop. */
  function TablesLeft(p: Pc): nat {
    if p.Look? then p.gen else 0
  }

  function Ahead(tables: seq<Table>, g: nat, steps: nat): nat {
    if g < |tables| && steps < tables[g].cap then tables[g].cap - steps else 0
  }

  function ProbesLeft(tables: seq<Table>, p: Pc): nat {
    match p
    case Look(_, gen, steps) => Ahead(tables, gen, steps)
    case CopyLoad(main, _, _, steps) => 2 * Ahead(tables, main, steps) + 1
    case CopyCas(main, _, _, steps) => 2 * Ahead(tables, main, steps)
    case InsertLoad(main, _, _, steps) => 2 * Ahead(tables, main, steps) + 1
    case InsertCas(main, _, _, steps) => 2 * Ahead(tables, main, steps)
    case _ => 0
  }

  ghost predicate Nearer(s': State, s: State, t: Id)
    requires t in s.pc && t in s'.pc
  {
    var p, p' := s.pc[t], s'.pc[t];
    || Phase(p') < Phase(p)
    || (Phase(p') == Phase(p) && TablesLeft(p') < TablesLeft(p))
    || (Phase(p') == Phase(p) && TablesLeft(p') == TablesLeft(p) && ProbesLeft(s'.tables, p') < ProbesLeft(s.tables, p))
  }

  lemma SearchGoesOn(s: State, t: Id, v: ProducerId)
    requires CanStep(s, t, Some(v)) && Ready(s, t, v) && Short(s, s.pc[t])
    requires s.pc[t].LoadMain? || s.pc[t].Look?
    ensures var s' := Step(s, t, Some(v)); Ready(s', t, v) && Nearer(s', s, t)
  {
    hide Slot, Shape, SetKey, SetValue, Removed, Grown, EmptyTable, ThreeQuarters, TableShape, Decide;
  }

  lemma CopyLoadGoesOn(s: State, t: Id, v: ProducerId)
    requires CanStep(s, t, Some(v)) && Ready(s, t, v) && Short(s, s.pc[t]) && s.pc[t].CopyLoad?
    ensures var s' := Step(s, t, Some(v)); Ready(s', t, v) && Nearer(s', s, t)
  {
    hide Slot, Shape, SetValue, Removed, Grown, EmptyTable, ThreeQuarters, TableShape, Decide;
  }

  lemma CopyCasGoesOn(s: State, t: Id, v: ProducerId)
    requires CanStep(s, t, Some(v)) && Ready(s, t, v) && Short(s, s.pc[t]) && s.pc[t].CopyCas?
    ensures var s' := Step(s, t, Some(v)); Ready(s', t, v) && Nearer(s', s, t)
  {
    hide Slot, Shape, SetValue, Removed, Grown, EmptyTable, ThreeQuarters, TableShape, Decide;
  }

  lemma CopyValueGoesOn(s: State, t: Id, v: ProducerId)
    requires CanStep(s, t, Some(v)) && Ready(s, t, v) && Short(s, s.pc[t]) && s.pc[t].CopyValue?
    ensures var s' := Step(s, t, Some(v)); Ready(s', t, v) && Nearer(s', s, t)
  {
    hide Slot, Shape, SetValue, Removed, Grown, EmptyTable, ThreeQuarters, TableShape, Decide;
  }

  lemma InsertLoadGoesOn(s: State, t: Id, v: ProducerId)
    requires CanStep(s, t, Some(v)) && Ready(s, t, v) && Short(s, s.pc[t]) && s.pc[t].InsertLoad?
    ensures var s' := Step(s, t, Some(v)); Ready(s', t, v) && Nearer(s', s, t)
  {
    hide Slot, Shape, SetValue, Removed, Grown, EmptyTable, ThreeQuarters, TableShape, Decide;
  }

  lemma InsertCasGoesOn(s: State, t: Id, v: ProducerId)
    requires CanStep(s, t, Some(v)) && Ready(s, t, v) && Short(s, s.pc[t]) && s.pc[t].InsertCas?
    ensures var s' := Step(s, t, Some(v)); Ready(s', t, v) && Nearer(s', s, t)
  {
    hide Slot, Shape, SetValue, Removed, Grown, EmptyTable, ThreeQuarters, TableShape, Decide;
  }

  lemma InsertValueGoesOn(s: State, t: Id, v: ProducerId)
    requires CanStep(s, t, Some(v)) && Ready(s, t, v) && Short(s, s.pc[t]) && s.pc[t].InsertValue?
    ensures var s' := Step(s, t, Some(v)); Ready(s', t, v) && Nearer(s', s, t)
  {
    hide Slot, Shape, SetValue, Removed, Grown, EmptyTable, ThreeQuarters, TableShape, Decide;
  }

  lemma CountGoesOn(s: State, t: Id, v: ProducerId)
    requires CanStep(s, t, Some(v)) && Ready(s, t, v) && Short(s, s.pc[t])
    requires s.pc[t].AddCount? || s.pc[t].TestSet? || s.pc[t].WaitLoad?
    ensures var s' := Step(s, t, Some(v)); Ready(s', t, v) && Nearer(s', s, t)
  {
    hide Slot, Shape, SetKey, SetValue, Removed, Grown, EmptyTable, TableShape;
  }

  lemma ReloadGoesOn(s: State, t: Id, v: ProducerId)
    requires CanStep(s, t, Some(v)) && Ready(s, t, v) && Short(s, s.pc[t]) && (s.pc[t].Reload? || s.pc[t].Clear?)
    ensures var s' := Step(s, t, Some(v)); Ready(s', t, v) && Nearer(s', s, t)
  {
    hide Slot, Shape, SetKey, SetValue, Removed, TableShape;
  }

  lemma MakeGoesOn(s: State, t: Id, v: ProducerId)
    requires CanStep(s, t, Some(v)) && Ready(s, t, v) && Short(s, s.pc[t]) && (s.pc[t].Allocate? || s.pc[t].Create?)
    ensures var s' := Step(s, t, Some(v)); Ready(s', t, v) && Nearer(s', s, t)
  {
    hide Slot, Shape, SetKey, SetValue, Removed, TableShape;
  }

  lemma GoesOn(s: State, t: Id, v: ProducerId)
    requires CanStep(s, t, Some(v)) && Ready(s, t, v) && Short(s, s.pc[t])
    ensures var s' := Step(s, t, Some(v)); Ready(s', t, v) && Nearer(s', s, t)
  {
    hide Step, Nearer;
    match s.pc[t]
    case LoadMain => SearchGoesOn(s, t, v);
    case Look(_, _, _) => SearchGoesOn(s, t, v);
    case CopyLoad(_, _, _, _) => CopyLoadGoesOn(s, t, v);
    case CopyCas(_, _, _, _) => CopyCasGoesOn(s, t, v);
    case CopyValue(_, _, _) => CopyValueGoesOn(s, t, v);
    case InsertLoad(_, _, _, _) => InsertLoadGoesOn(s, t, v);
    case InsertCas(_, _, _, _) => InsertCasGoesOn(s, t, v);
    case InsertValue(_, _, _) => InsertValueGoesOn(s, t, v);
    case AddCount(_) => CountGoesOn(s, t, v);
    case TestSet(_, _) => CountGoesOn(s, t, v);
    case WaitLoad(_) => CountGoesOn(s, t, v);
    case Reload(_) => ReloadGoesOn(s, t, v);
    case Clear(_, _) => ReloadGoesOn(s, t, v);
    case _ => MakeGoesOn(s, t, v);
  }

  lemma {:induction false} ReadyGets(s: State, t: Id, v: ProducerId) returns (n: nat)
    requires Inv(s) && Ready(s, t, v)
    ensures Gets(s, t, v, n)
    decreases Phase(s.pc[t]), TablesLeft(s.pc[t]), ProbesLeft(s.tables, s.pc[t])
  {
    hide Inv, Step, CanStep;
    if s.pc[t].Returned? {
      return 0;
    }
    CanGoOn(s, t, Some(v));
    ProbeInTable(s, t);
    GoesOn(s, t, v);
    StepKeeps(s, t, Some(v));
    var s' := Step(s, t, Some(v));
    var m := ReadyGets(s', t, v);
    n := m + 1;
  }

  /**
    A call that nobody disturbs and whose allocations succeed returns a producer, whatever tables other threads left
    and whether or not it has to grow the last one.
  */
  lemma QuietGet(s: State, t: Id, v: ProducerId) returns (n: nat)
    requires Inv(s) && t in s.pc && !InCall(s.pc[t]) && !s.resizing && v !in s.owner
    ensures Gets(Move(s, t, LoadMain), t, v, n)
  {
    hide Inv;
    StartKeeps(s, t);
    n := ReadyGets(Move(s, t, LoadMain), t, v);
  }
}
