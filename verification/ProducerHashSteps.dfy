/** Every access of a thread to the hash tables keeps their invariant. */
module ProducerHashSteps {
  import opened Wrappers
  import opened ProducerHash

  // ---------------------------------------------------------------- steps that only move the thread

  lemma SameTables(tables: seq<Table>, t: Id)
    requires Shape(tables)
    ensures Extends(tables, tables, t)
  {
  }

  /** A thread that moves without touching tables, the order or the lock. */
  lemma MoveKeeps(s: State, t: Id, p: Pc)
    requires Inv(s) && t in s.pc && HoldsLock(s.pc[t]) == HoldsLock(p)
    requires ThreadOk(s, t, p)
    requires s.pc[t].CopyValue? || s.pc[t].InsertValue? ==> p == s.pc[t]
    ensures Inv(Move(s, t, p))
  {
    hide ThreadOk, TablesOk, CountOk, Untouched, Shape, ValuesOk, HoldsLock;
    var s' := Move(s, t, p);
    InvShape(s);
    SameTables(s.tables, t);
    ThreadInSame(s, s', t, p);
    forall u | u != t ensures Untouched(s, s', u) {
      SameUntouched(s, s', u);
    }
    ValuesMove(s.tables, t, s.pc[t], p, s.home);
    LockMoves(s.resizing, s.pc, t, p);
    ThreadsOk(s, s', t);
  }

  lemma LockMoves(resizing: bool, pc: map<Id, Pc>, t: Id, p: Pc)
    requires LockOk(resizing, pc) && t in pc && HoldsLock(pc[t]) == HoldsLock(p)
    ensures LockOk(resizing, pc[t := p])
  {
    hide HoldsLock;
    if resizing {
      var u :| u in pc && HoldsLock(pc[u]);
      assert HoldsLock(pc[t := p][u]);
    }
  }

  lemma InvShape(s: State)
    requires Inv(s)
    ensures Shape(s.tables)
  {
  }

  lemma SameUntouched(s: State, s': State, u: Id)
    requires s'.home == s.home && s'.order == s.order && s'.ticket == s.ticket && s'.owner == s.owner
    ensures Untouched(s, s', u)
  {
  }

  /** What the invariant says about a thread depends on nothing but tables, order, ticket, home and owner. */
  lemma ThreadInSame(s: State, s': State, t: Id, p: Pc)
    requires Shape(s.tables) && ThreadOk(s, t, p)
    requires s'.tables == s.tables && s'.home == s.home && s'.order == s.order && s'.ticket == s.ticket && s'.owner == s.owner
    ensures ThreadOk(s', t, p)
  {
    hide Nowhere, Probed, Has, Shape;
  }

  lemma ValuesMove(tables: seq<Table>, t: Id, p: Pc, p': Pc, home: map<Id, ProducerId>)
    requires Shape(tables) && ValuesOk(tables, t, p, home) && (p.CopyValue? || p.InsertValue? ==> p' == p)
    ensures ValuesOk(tables, t, p', home)
  {
  }

  lemma StartKeeps(s: State, t: Id)
    requires Inv(s) && t in s.pc && (s.pc[t].Idle? || s.pc[t].Returned?)
    ensures Inv(Move(s, t, LoadMain))
  {
    hide TablesOk, CountOk, LockOk, Inv;
    InvThread(s, t);
    MoveKeeps(s, t, LoadMain);
  }

  lemma InvThread(s: State, t: Id)
    requires Inv(s) && t in s.pc
    ensures Shape(s.tables) && ThreadOk(s, t, s.pc[t]) && ValuesOk(s.tables, t, s.pc[t], s.home)
    ensures TablesOk(s.tables, s.ticket, s.home)
  {
    hide ThreadOk, ValuesOk, CountOk, LockOk;
  }

  lemma LoadMainKeeps(s: State, t: Id, luck: Option<ProducerId>)
    requires Inv(s) && CanStep(s, t, luck) && s.pc[t].LoadMain?
    ensures Inv(Step(s, t, luck))
  {
    hide Inv, Unknown, Registered, Shape;
    InvThread(s, t);
    MoveKeeps(s, t, Step(s, t, luck).pc[t]);
  }

  lemma PathMeets(tb: Table, id: Id, steps: nat, who: Id, j: nat, d: nat)
    requires TableShape(tb) && Probed(tb, id, steps) && !Taken(tb, id, steps) && PathTo(tb, who, j, d)
    ensures who == id ==> tb.keys[j] != Some(id)
  {
    hide Slot;
  }

  /** A search that meets an empty slot has not missed the id. */
  lemma EmptyEndsSearch(tb: Table, id: Id, steps: nat, ticket: map<Id, nat>, home: map<Id, ProducerId>)
    requires TableOk(tb, ticket, home) && Probed(tb, id, steps) && !Taken(tb, id, steps)
    ensures !Has(tb, id)
  {
    hide Slot, ThreeQuarters, PathTo, Probed;
    forall j | 0 <= j < |tb.keys| && tb.keys[j].Some? ensures tb.keys[j] != Some(id) {
      assert EntryOk(tb, j, ticket, home);
      var d :| PathTo(tb, tb.keys[j].value, j, d);
      PathMeets(tb, id, steps, tb.keys[j].value, j, d);
    }
  }

  lemma LookKeeps(s: State, t: Id, luck: Option<ProducerId>)
    requires Inv(s) && CanStep(s, t, luck) && s.pc[t].Look?
    ensures Inv(Step(s, t, luck))
  {
    hide Inv, Slot, Has, TableOk, Nowhere, Probed;
    InvThread(s, t);
    var Look(main, gen, steps) := s.pc[t];
    var tb := s.tables[gen];
    var j := Slot(t, steps, tb.cap);
    if tb.keys[j] == Some(t) {
      FoundIsKnown(s, t, gen, j);
      ProbedNone(s.tables[main], t);
    } else if tb.keys[j].Some? {
      ProbedMore(tb, t, steps);
    } else {
      EmptyEndsSearch(tb, t, steps, s.ticket, s.home);
      NowhereMore(s.tables, t, gen);
      if gen > 0 {
        ProbedNone(s.tables[gen - 1], t);
      } else {
        NowhereIsUnknown(s, t);
      }
    }
    MoveKeeps(s, t, Step(s, t, luck).pc[t]);
  }

  lemma FoundIsKnown(s: State, t: Id, gen: nat, j: nat)
    requires Inv(s) && t in s.pc && s.pc[t].Look? && gen < |s.tables| && TableShape(s.tables[gen])
    requires j < s.tables[gen].cap && s.tables[gen].keys[j] == Some(t)
    ensures Has(s.tables[gen], t) && s.tables[gen].values[j].Some? && Known(s, t, s.tables[gen].values[j].value)
  {
    hide Slot, TablesOk, CountOk, LockOk, Nowhere, Probed;
    InvThread(s, t);
    assert Has(s.tables[gen], t);
    HasIsSomewhere(s.tables, t, gen);
  }

  lemma HasIsSomewhere(tables: seq<Table>, t: Id, gen: nat)
    requires gen < |tables| && Has(tables[gen], t)
    ensures !Nowhere(tables, t, 0)
  {
    hide Has;
  }

  lemma ProbedNone(tb: Table, t: Id)
    requires TableShape(tb)
    ensures Probed(tb, t, 0)
  {
  }

  lemma ProbedMore(tb: Table, t: Id, steps: nat)
    requires TableShape(tb) && Probed(tb, t, steps) && Taken(tb, t, steps) && tb.keys[Slot(t, steps, tb.cap)] != Some(t)
    ensures Probed(tb, t, steps + 1)
  {
    hide Slot;
  }

  lemma NowhereMore(tables: seq<Table>, t: Id, gen: nat)
    requires gen < |tables| && Nowhere(tables, t, gen + 1) && !Has(tables[gen], t)
    ensures Nowhere(tables, t, gen)
  {
    hide Has;
  }

  lemma NowhereIsUnknown(s: State, t: Id)
    requires Nowhere(s.tables, t, 0) && (Unknown(s, t) || Registered(s, t))
    ensures Unknown(s, t)
  {
    hide Has;
  }

  lemma CopyLoadKeeps(s: State, t: Id, luck: Option<ProducerId>)
    requires Inv(s) && CanStep(s, t, luck) && (s.pc[t].CopyLoad? || (s.pc[t].CopyCas? && Taken(s.tables[s.pc[t].main], t, s.pc[t].steps)))
    ensures Inv(Step(s, t, luck))
  {
    hide Inv, Slot, Has, Registered, Nowhere, Probed;
    InvThread(s, t);
    var tb := s.tables[s.pc[t].main];
    if Taken(tb, t, s.pc[t].steps) {
      AbsentHere(s.tables, t, s.pc[t].from + 1, s.pc[t].main, Slot(t, s.pc[t].steps, tb.cap));
      ProbedMore(tb, t, s.pc[t].steps);
    }
    MoveKeeps(s, t, Step(s, t, luck).pc[t]);
  }

  lemma AbsentHere(tables: seq<Table>, t: Id, from: nat, g: nat, j: nat)
    requires Nowhere(tables, t, from) && from <= g < |tables| && j < |tables[g].keys|
    ensures tables[g].keys[j] != Some(t)
  {
  }

  lemma InsertLoadKeeps(s: State, t: Id, luck: Option<ProducerId>)
    requires Inv(s) && CanStep(s, t, luck)
    requires s.pc[t].InsertLoad? || (s.pc[t].InsertCas? && Taken(s.tables[s.pc[t].main], t, s.pc[t].steps))
    ensures Inv(Step(s, t, luck))
  {
    hide Inv, Slot, Has, Nowhere, Probed;
    InvThread(s, t);
    var tb := s.tables[s.pc[t].main];
    if Taken(tb, t, s.pc[t].steps) {
      AbsentHere(s.tables, t, 0, s.pc[t].main, Slot(t, s.pc[t].steps, tb.cap));
      ProbedMore(tb, t, s.pc[t].steps);
    }
    MoveKeeps(s, t, Step(s, t, luck).pc[t]);
  }

  lemma ReloadKeeps(s: State, t: Id, luck: Option<ProducerId>)
    requires Inv(s) && CanStep(s, t, luck)
    requires s.pc[t].Reload? || s.pc[t].WaitLoad? || (s.pc[t].TestSet? && s.resizing) || (s.pc[t].Allocate? && luck.None?)
             || (s.pc[t].Create? && luck.None?)
    ensures Inv(Step(s, t, luck))
  {
    hide Inv, Nowhere;
    InvThread(s, t);
    MoveKeeps(s, t, Step(s, t, luck).pc[t]);
  }

  // ---------------------------------------------------------------- counting

  lemma TicketsElsewhere(tables: seq<Table>, ticket: map<Id, nat>, home: map<Id, ProducerId>, t: Id, n: nat)
    requires TablesOk(tables, ticket, home) && t !in home
    ensures TablesOk(tables, ticket[t := n], home)
  {
    hide PathTo, ThreeQuarters;
    var ticket' := ticket[t := n];
    forall g | 0 <= g < |tables| ensures TableOk(tables[g], ticket', home) {
      var tb := tables[g];
      assert TableOk(tb, ticket, home);
      forall j | 0 <= j < tb.cap ensures EntryOk(tb, j, ticket', home) {
        assert EntryOk(tb, j, ticket, home);
      }
    }
  }

  lemma CountAdds(count: nat, order: seq<Id>, ticket: map<Id, nat>, t: Id)
    requires CountOk(count, order, ticket) && t !in order
    ensures CountOk(count + 1, order + [t], ticket[t := count + 1])
  {
  }

  lemma AddCountKeeps(s: State, t: Id, luck: Option<ProducerId>)
    requires Inv(s) && CanStep(s, t, luck) && s.pc[t].AddCount?
    ensures Inv(Step(s, t, luck))
  {
    hide TablesOk, CountOk, ThreadOk, ValuesOk, LockOk, Nowhere, Untouched, ThreeQuarters;
    InvThread(s, t);
    var s' := Step(s, t, luck);
    AddCountOk(s, t, luck);
    TicketsElsewhere(s.tables, s.ticket, s.home, t, s.count + 1);
    CountAdds(s.count, s.order, s.ticket, t);
    SameTables(s.tables, t);
    LockMoves(s.resizing, s.pc, t, s'.pc[t]);
    ValuesMove(s.tables, t, s.pc[t], s'.pc[t], s.home);
    ThreadsOk(s, s', t);
  }

  lemma AddCountOk(s: State, t: Id, luck: Option<ProducerId>)
    requires Inv(s) && CanStep(s, t, luck) && s.pc[t].AddCount?
    ensures t !in s.home && t !in s.order
    ensures var s' := Step(s, t, luck); t in s'.pc && ThreadOk(s', t, s'.pc[t])
    ensures forall u :: u != t ==> Untouched(s, Step(s, t, luck), u)
  {
    hide TablesOk, CountOk, ValuesOk, LockOk, Nowhere;
    InvThread(s, t);
  }

  lemma RemovedCount(count: nat, order: seq<Id>, ticket: map<Id, nat>, t: Id)
    requires CountOk(count, order, ticket) && t in order
    ensures count > 0 && CountOk(count - 1, Removed(order, t), ticket)
    ensures forall u :: u in Removed(order, t) <==> u in order && u != t
  {
    hide IndexOf;
    var q, order' := IndexOf(order, t), Removed(order, t);
    forall p | 0 <= p < |order'| ensures order'[p] == order[if p < q then p else p + 1] {
    }
    forall u | u in order && u != t ensures u in order' {
      var p :| 0 <= p < |order| && order[p] == u;
      assert order'[if p < q then p else p - 1] == u;
    }
  }

  lemma SubCountKeeps(s: State, t: Id, luck: Option<ProducerId>)
    requires Inv(s) && CanStep(s, t, luck) && (s.pc[t].SubLocked? || s.pc[t].SubCount?)
    ensures Inv(Step(s, t, luck))
  {
    hide TablesOk, CountOk, ThreadOk, ValuesOk, LockOk, Nowhere, Untouched, Removed;
    InvThread(s, t);
    var s' := Step(s, t, luck);
    RemovedCount(s.count, s.order, s.ticket, t);
    SubCountOk(s, t, luck);
    SameTables(s.tables, t);
    LockMoves(s.resizing, s.pc, t, s'.pc[t]);
    ValuesMove(s.tables, t, s.pc[t], s'.pc[t], s.home);
    ThreadsOk(s, s', t);
  }

  lemma SubCountOk(s: State, t: Id, luck: Option<ProducerId>)
    requires Inv(s) && CanStep(s, t, luck) && (s.pc[t].SubLocked? || s.pc[t].SubCount?)
    requires forall u :: u in Removed(s.order, t) <==> u in s.order && u != t
    ensures t !in s.home
    ensures var s' := Step(s, t, luck); t in s'.pc && ThreadOk(s', t, s'.pc[t])
    ensures forall u :: u != t ==> Untouched(s, Step(s, t, luck), u)
  {
    hide TablesOk, CountOk, ValuesOk, LockOk, Nowhere, Removed;
    InvThread(s, t);
  }

  // ---------------------------------------------------------------- the resize lock

  lemma LockChanges(resizing: bool, pc: map<Id, Pc>, t: Id, p: Pc)
    requires LockOk(resizing, pc) && t in pc && (if HoldsLock(p) then !resizing else HoldsLock(pc[t]))
    ensures LockOk(HoldsLock(p), pc[t := p])
  {
    hide HoldsLock;
    assert pc[t := p][t] == p;
  }

  lemma LockKeeps(s: State, t: Id, luck: Option<ProducerId>)
    requires Inv(s) && CanStep(s, t, luck)
    requires (s.pc[t].TestSet? && !s.resizing) || s.pc[t].Clear? || s.pc[t].ClearFail?
    ensures Inv(Step(s, t, luck))
  {
    hide TablesOk, CountOk, ThreadOk, ValuesOk, LockOk, Nowhere, Untouched, ThreeQuarters;
    InvThread(s, t);
    var s' := Step(s, t, luck);
    LockThreadOk(s, t, luck);
    LockChanges(s.resizing, s.pc, t, s'.pc[t]);
    SameTables(s.tables, t);
    ValuesMove(s.tables, t, s.pc[t], s'.pc[t], s.home);
    forall u | u != t ensures Untouched(s, s', u) {
      SameUntouched(s, s', u);
    }
    ThreadsOk(s, s', t);
  }

  lemma LockThreadOk(s: State, t: Id, luck: Option<ProducerId>)
    requires Inv(s) && CanStep(s, t, luck)
    requires (s.pc[t].TestSet? && !s.resizing) || s.pc[t].Clear? || s.pc[t].ClearFail?
    ensures var s' := Step(s, t, luck); t in s'.pc && ThreadOk(s', t, s'.pc[t])
  {
    hide TablesOk, CountOk, ValuesOk, LockOk, Nowhere;
    InvThread(s, t);
  }

  // ---------------------------------------------------------------- a new table, a new producer

  lemma AppendedTables(tables: seq<Table>, cap: nat, t: Id, ticket: map<Id, nat>, home: map<Id, ProducerId>)
    requires TablesOk(tables, ticket, home) && cap > tables[|tables| - 1].cap
    ensures Extends(tables, tables + [EmptyTable(cap)], t)
    ensures TablesOk(tables + [EmptyTable(cap)], ticket, home)
  {
    hide EntryOk, DistinctKeys;
    var tables' := tables + [EmptyTable(cap)];
    EmptyTableOk(cap, ticket, home);
    forall g, h | 0 <= g < h < |tables'| ensures tables'[g].cap < tables'[h].cap {
      assert h == |tables| && g < |tables| - 1 ==> tables[g].cap < tables[|tables| - 1].cap;
    }
    forall g | 0 <= g < |tables'| ensures TableOk(tables'[g], ticket, home) {
      assert g < |tables| ==> TableOk(tables[g], ticket, home);
    }
  }

  lemma EmptyTableOk(cap: nat, ticket: map<Id, nat>, home: map<Id, ProducerId>)
    requires cap > 0
    ensures TableOk(EmptyTable(cap), ticket, home) && NoKeys(EmptyTable(cap))
  {
  }

  lemma AllocateKeeps(s: State, t: Id, luck: Option<ProducerId>)
    requires Inv(s) && CanStep(s, t, luck) && s.pc[t].Allocate? && luck.Some?
    ensures Inv(Step(s, t, luck))
  {
    hide TablesOk, CountOk, ThreadOk, ValuesOk, LockOk, Untouched, Extends, EmptyTable, Grown;
    InvThread(s, t);
    var s', cap := Step(s, t, luck), Grown(s.tables[|s.tables| - 1].cap, s.pc[t].n);
    AppendedTables(s.tables, cap, t, s.ticket, s.home);
    ExtendsShape(s.tables, s'.tables, t);
    AllocateOk(s, s', t, cap);
    LockMoves(s.resizing, s.pc, t, s'.pc[t]);
    forall u | u != t ensures Untouched(s, s', u) {
      SameUntouched(s, s', u);
    }
    ThreadsOk(s, s', t);
  }

  lemma AllocateOk(s: State, s': State, t: Id, cap: nat)
    requires Inv(s) && t in s.pc && s.pc[t].Allocate? && cap > 0 && s'.tables == s.tables + [EmptyTable(cap)] && Shape(s'.tables)
    requires s'.home == s.home && s'.order == s.order && s'.ticket == s.ticket
    ensures ThreadOk(s', t, Clear(|s.tables|, s.pc[t].n)) && ValuesOk(s'.tables, t, Clear(|s.tables|, s.pc[t].n), s'.home)
  {
    hide TablesOk, CountOk, LockOk, Shape;
    InvThread(s, t);
  }

  lemma CreateKeeps(s: State, t: Id, luck: Option<ProducerId>)
    requires Inv(s) && CanStep(s, t, luck) && s.pc[t].Create? && luck.Some?
    ensures Inv(Step(s, t, luck))
  {
    hide TablesOk, CountOk, ThreadOk, ValuesOk, LockOk, ThreeQuarters;
    InvThread(s, t);
    var s' := Step(s, t, luck);
    CreateOk(s, t, luck);
    SameTables(s.tables, t);
    LockMoves(s.resizing, s.pc, t, s'.pc[t]);
    ValuesMove(s.tables, t, s.pc[t], s'.pc[t], s.home);
    ThreadsOk(s, s', t);
  }

  lemma CreateOk(s: State, t: Id, luck: Option<ProducerId>)
    requires Inv(s) && CanStep(s, t, luck) && s.pc[t].Create? && luck.Some?
    ensures var s' := Step(s, t, luck); t in s'.pc && ThreadOk(s', t, s'.pc[t])
  {
    hide TablesOk, CountOk, ValuesOk, LockOk, Nowhere, Slot;
    InvThread(s, t);
    ProbedNone(s.tables[s.pc[t].main], t);
  }

  // ---------------------------------------------------------------- storing a key

  function WithKey(tb: Table, j: nat, t: Id): Table
    requires j < |tb.keys|
  {
    tb.(keys := tb.keys[j := Some(t)])
  }

  lemma KeyExtends(tb: Table, j: nat, t: Id)
    requires TableShape(tb) && j < tb.cap && tb.keys[j] == None
    ensures TableShape(WithKey(tb, j, t)) && Extended(tb, WithKey(tb, j, t), t) && Has(WithKey(tb, j, t), t)
  {
    assert WithKey(tb, j, t).keys[j] == Some(t);
  }

  lemma PathStays(tb: Table, tb': Table, t: Id, u: Id, j: nat, d: nat)
    requires TableShape(tb) && TableShape(tb') && Extended(tb, tb', t) && PathTo(tb, u, j, d)
    ensures PathTo(tb', u, j, d)
  {
    hide Slot;
    forall i | 0 <= i < d ensures Taken(tb', u, i) {
      assert Taken(tb, u, i);
    }
  }

  /** A key stored where the search for it ended keeps the table in order. */
  lemma TableWithKey(tb: Table, j: nat, t: Id, steps: nat, ticket: map<Id, nat>, home: map<Id, ProducerId>,
                     home': map<Id, ProducerId>)
    requires TableOk(tb, ticket, home) && j < tb.cap && tb.keys[j] == None && !Has(tb, t)
    requires j == Slot(t, steps, tb.cap) && Probed(tb, t, steps)
    requires t in home' && t in ticket && ticket[t] < ThreeQuarters(tb.cap) && forall id :: id in home ==> id in home'
    ensures TableOk(WithKey(tb, j, t), ticket, home')
  {
    hide Slot, ThreeQuarters, PathTo, Probed, Extended;
    var tb' := WithKey(tb, j, t);
    KeyExtends(tb, j, t);
    forall i | 0 <= i < tb.cap ensures EntryOk(tb', i, ticket, home') {
      if i == j {
        ProbedIsPath(tb, tb', t, j, steps);
      } else if tb.keys[i].Some? {
        assert EntryOk(tb, i, ticket, home);
        var d :| PathTo(tb, tb.keys[i].value, i, d);
        PathStays(tb, tb', t, tb.keys[i].value, i, d);
      }
    }
  }

  lemma ProbedIsPath(tb: Table, tb': Table, t: Id, j: nat, steps: nat)
    requires TableShape(tb) && TableShape(tb') && Extended(tb, tb', t) && Probed(tb, t, steps) && j == Slot(t, steps, tb.cap)
    ensures PathTo(tb', t, j, steps)
  {
    hide Slot;
    forall i | 0 <= i < steps ensures Taken(tb', t, i) {
      assert Taken(tb, t, i);
    }
  }

  lemma TableWithHome(tb: Table, ticket: map<Id, nat>, home: map<Id, ProducerId>, home': map<Id, ProducerId>)
    requires TableOk(tb, ticket, home) && forall id :: id in home ==> id in home'
    ensures TableOk(tb, ticket, home')
  {
    hide PathTo, ThreeQuarters;
    forall j | 0 <= j < tb.cap ensures EntryOk(tb, j, ticket, home') {
      assert EntryOk(tb, j, ticket, home);
    }
  }

  lemma TablesWithKey(tables: seq<Table>, g: nat, t: Id, steps: nat, ticket: map<Id, nat>, home: map<Id, ProducerId>,
                      home': map<Id, ProducerId>)
    requires TablesOk(tables, ticket, home) && g < |tables| && !Has(tables[g], t) && Probed(tables[g], t, steps)
    requires !Taken(tables[g], t, steps)
    requires t in home' && t in ticket && ticket[t] < ThreeQuarters(tables[g].cap) && forall id :: id in home ==> id in home'
    ensures
      var j := Slot(t, steps, tables[g].cap);
      && TablesOk(SetKey(tables, g, j, t), ticket, home') && Extends(tables, SetKey(tables, g, j, t), t)
      && Has(SetKey(tables, g, j, t)[g], t)
  {
    hide Slot, ThreeQuarters, Probed, TableOk, Has, Extended, NoKeys;
    var j := Slot(t, steps, tables[g].cap);
    var tables' := SetKey(tables, g, j, t);
    assert tables' == tables[g := WithKey(tables[g], j, t)];
    KeyExtends(tables[g], j, t);
    TableWithKey(tables[g], j, t, steps, ticket, home, home');
    forall h | 0 <= h < |tables| ensures TableOk(tables'[h], ticket, home') && TableShape(tables'[h]) && Extended(tables[h], tables'[h], t) {
      assert TableOk(tables[h], ticket, home);
      if h != g {
        TableWithHome(tables[h], ticket, home, home');
        SameExtended(tables[h], t);
      }
    }
  }

  lemma SameExtended(tb: Table, t: Id)
    requires TableShape(tb)
    ensures Extended(tb, tb, t)
  {
  }

  lemma InsertCasKeeps(s: State, t: Id, luck: Option<ProducerId>)
    requires Inv(s) && CanStep(s, t, luck) && s.pc[t].InsertCas? && !Taken(s.tables[s.pc[t].main], t, s.pc[t].steps)
    ensures Inv(Step(s, t, luck))
  {
    hide TablesOk, CountOk, ThreadOk, ValuesOk, LockOk, ThreeQuarters, Extends, Slot;
    InvThread(s, t);
    var s' := Step(s, t, luck);
    var InsertCas(main, n, v, steps) := s.pc[t];
    InsertFinds(s, t);
    TablesWithKey(s.tables, main, t, steps, s.ticket, s.home, s'.home);
    ExtendsShape(s.tables, s'.tables, t);
    InsertOk(s, s', t);
    LockMoves(s.resizing, s.pc, t, s'.pc[t]);
    ThreadsOk(s, s', t);
  }

  lemma InsertFinds(s: State, t: Id)
    requires Inv(s) && t in s.pc && s.pc[t].InsertCas?
    ensures
      var InsertCas(main, n, v, steps) := s.pc[t];
      && main < |s.tables| && TableShape(s.tables[main]) && !Has(s.tables[main], t) && Probed(s.tables[main], t, steps)
      && t !in s.home && t in s.order && t in s.ticket && s.ticket[t] < ThreeQuarters(s.tables[main].cap)
      && v in s.owner && s.owner[v] == t && Nowhere(s.tables, t, 0)
  {
    hide TablesOk, CountOk, ValuesOk, LockOk, Has, Slot;
    InvThread(s, t);
  }

  lemma InsertOk(s: State, s': State, t: Id)
    requires Shape(s.tables) && Shape(s'.tables) && t in s.pc && s.pc[t].InsertCas?
    requires
      var InsertCas(main, n, v, steps) := s.pc[t];
      && main < |s.tables| && !Taken(s.tables[main], t, steps) && t in s.order && v in s.owner && s.owner[v] == t
      && s'.tables == SetKey(s.tables, main, Slot(t, steps, s.tables[main].cap), t)
      && s'.home == s.home[t := v] && s'.order == s.order && s'.owner == s.owner && Nowhere(s.tables, t, 0)
    ensures
      var InsertCas(main, n, v, steps) := s.pc[t];
      var p := InsertValue(main, Slot(t, steps, s.tables[main].cap), v);
      ThreadOk(s', t, p) && ValuesOk(s'.tables, t, p, s'.home)
  {
    hide Slot;
    var InsertCas(main, n, v, steps) := s.pc[t];
    var j := Slot(t, steps, s.tables[main].cap);
    assert s'.tables[main].keys[j] == Some(t);
    assert Has(s'.tables[main], t);
    forall g, i | 0 <= g < |s.tables| && 0 <= i < s.tables[g].cap ensures s.tables[g].keys[i] != Some(t) {
      AbsentHere(s.tables, t, 0, g, i);
    }
  }

  lemma CopyCasKeeps(s: State, t: Id, luck: Option<ProducerId>)
    requires Inv(s) && CanStep(s, t, luck) && s.pc[t].CopyCas? && !Taken(s.tables[s.pc[t].main], t, s.pc[t].steps)
    ensures Inv(Step(s, t, luck))
  {
    hide TablesOk, CountOk, ThreadOk, ValuesOk, LockOk, ThreeQuarters, Extends, Slot;
    InvThread(s, t);
    var s' := Step(s, t, luck);
    CopyFinds(s, t);
    TablesWithKey(s.tables, s.pc[t].main, t, s.pc[t].steps, s.ticket, s.home, s.home);
    ExtendsShape(s.tables, s'.tables, t);
    CopyOk(s, s', t);
    LockMoves(s.resizing, s.pc, t, s'.pc[t]);
    ThreadsOk(s, s', t);
  }

  /** An id copied to the main table has a count that fits it: the table it comes from is smaller. */
  lemma CopyFinds(s: State, t: Id)
    requires Inv(s) && t in s.pc && s.pc[t].CopyCas?
    ensures
      var CopyCas(main, from, v, steps) := s.pc[t];
      && main < |s.tables| && TableShape(s.tables[main]) && !Has(s.tables[main], t) && Probed(s.tables[main], t, steps)
      && Known(s, t, v) && t in s.ticket && s.ticket[t] < ThreeQuarters(s.tables[main].cap)
  {
    hide CountOk, ValuesOk, LockOk, PathTo, Slot, ThreeQuarters, Probed;
    InvThread(s, t);
    var from := s.pc[t].from;
    var j :| 0 <= j < |s.tables[from].keys| && s.tables[from].keys[j] == Some(t);
    assert TableOk(s.tables[from], s.ticket, s.home);
    assert EntryOk(s.tables[from], j, s.ticket, s.home);
    QuartersGrow(s.tables[from].cap, s.tables[s.pc[t].main].cap);
  }

  lemma QuartersGrow(a: nat, b: nat)
    requires a <= b
    ensures ThreeQuarters(a) <= ThreeQuarters(b)
  {
  }

  lemma CopyOk(s: State, s': State, t: Id)
    requires Shape(s.tables) && Shape(s'.tables) && t in s.pc && s.pc[t].CopyCas? && ValuesOk(s.tables, t, s.pc[t], s.home)
    requires
      var CopyCas(main, from, v, steps) := s.pc[t];
      && main < |s.tables| && !Taken(s.tables[main], t, steps) && Known(s, t, v)
      && s'.tables == SetKey(s.tables, main, Slot(t, steps, s.tables[main].cap), t)
      && s'.home == s.home && s'.order == s.order && s'.owner == s.owner
    ensures
      var CopyCas(main, from, v, steps) := s.pc[t];
      var p := CopyValue(main, Slot(t, steps, s.tables[main].cap), v);
      ThreadOk(s', t, p) && ValuesOk(s'.tables, t, p, s'.home)
  {
    hide Slot;
    var main, j := s.pc[t].main, Slot(t, s.pc[t].steps, s.tables[s.pc[t].main].cap);
    assert s'.tables[main].keys[j] == Some(t);
    assert Has(s'.tables[main], t);
    forall g, i | 0 <= g < |s'.tables| && 0 <= i < s'.tables[g].cap && s'.tables[g].keys[i] == Some(t) && !(g == main && i == j)
      ensures s.tables[g].keys[i] == Some(t) && s'.tables[g].values[i] == s.tables[g].values[i]
    {
    }
  }

  // ---------------------------------------------------------------- storing a value

  lemma TablesWithValue(tables: seq<Table>, g: nat, j: nat, t: Id, v: ProducerId, ticket: map<Id, nat>,
                        home: map<Id, ProducerId>)
    requires TablesOk(tables, ticket, home) && g < |tables| && j < tables[g].cap && tables[g].keys[j] == Some(t)
    ensures TablesOk(SetValue(tables, g, j, v), ticket, home) && Extends(tables, SetValue(tables, g, j, v), t)
  {
    hide ThreeQuarters, Slot, PathTo, Taken;
    var tables', tb := SetValue(tables, g, j, v), tables[g];
    var tb' := tb.(values := tb.values[j := Some(v)]);
    assert TableOk(tb, ticket, home);
    forall i | 0 <= i < tb.cap ensures EntryOk(tb', i, ticket, home) {
      assert EntryOk(tb, i, ticket, home);
      if tb.keys[i].Some? {
        var d :| PathTo(tb, tb.keys[i].value, i, d);
        KeysDecidePaths(tb, tb', tb.keys[i].value, i, d);
      }
    }
    forall h | 0 <= h < |tables'| ensures TableOk(tables'[h], ticket, home) && Extended(tables[h], tables'[h], t) {
      assert TableOk(tables[h], ticket, home);
    }
  }

  lemma KeysDecidePaths(tb: Table, tb': Table, id: Id, j: nat, d: nat)
    requires TableShape(tb) && TableShape(tb') && tb'.cap == tb.cap && tb'.keys == tb.keys && PathTo(tb, id, j, d)
    ensures PathTo(tb', id, j, d)
  {
    hide Slot;
    forall i | 0 <= i < d ensures Taken(tb', id, i) {
      assert Taken(tb, id, i);
    }
  }

  lemma StoreValueKeeps(s: State, t: Id, luck: Option<ProducerId>)
    requires Inv(s) && CanStep(s, t, luck) && (s.pc[t].CopyValue? || s.pc[t].InsertValue?)
    ensures Inv(Step(s, t, luck))
  {
    hide TablesOk, CountOk, ThreadOk, ValuesOk, LockOk, Extends;
    InvThread(s, t);
    var s' := Step(s, t, luck);
    StoringFinds(s, t);
    TablesWithValue(s.tables, s.pc[t].main, s.pc[t].slot, t, s.pc[t].v, s.ticket, s.home);
    ExtendsShape(s.tables, s'.tables, t);
    StoredOk(s, s', t);
    LockMoves(s.resizing, s.pc, t, s'.pc[t]);
    forall u | u != t ensures Untouched(s, s', u) {
      SameUntouched(s, s', u);
    }
    ThreadsOk(s, s', t);
  }

  lemma StoringFinds(s: State, t: Id)
    requires Inv(s) && t in s.pc && (s.pc[t].CopyValue? || s.pc[t].InsertValue?)
    ensures Shape(s.tables) && Storing(s, t, s.pc[t].main, s.pc[t].slot, s.pc[t].v)
  {
    hide TablesOk, CountOk, ValuesOk, LockOk, Has;
    InvThread(s, t);
  }

  lemma StoredOk(s: State, s': State, t: Id)
    requires Shape(s.tables) && Shape(s'.tables) && t in s.pc && (s.pc[t].CopyValue? || s.pc[t].InsertValue?)
    requires Storing(s, t, s.pc[t].main, s.pc[t].slot, s.pc[t].v) && ValuesOk(s.tables, t, s.pc[t], s.home)
    requires s'.tables == SetValue(s.tables, s.pc[t].main, s.pc[t].slot, s.pc[t].v)
    requires s'.home == s.home && s'.order == s.order && s'.owner == s.owner
    ensures ThreadOk(s', t, Returned(Some(s.pc[t].v))) && ValuesOk(s'.tables, t, Returned(Some(s.pc[t].v)), s'.home)
  {
    var g :| 0 <= g < |s.tables| && Has(s.tables[g], t);
    assert s'.tables[g].keys == s.tables[g].keys;
    assert Has(s'.tables[g], t);
  }
}
