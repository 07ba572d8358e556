/**
  The chained lock-free hash table from thread ids to implicit producers
  (source/utils/concurrentqueue.h:3280-3428), for any number of threads.

  A thread's id is its key. Every step is one atomic access; the entries of a new table are private until it is
  published. A mask by a capacity less one is a remainder by it. `order`, `ticket`, `home` and `owner` are auxiliary:
  the ids that count in implicitProducerHashCount, oldest first, the count each got, the producer each id was
  registered with, and the thread each producer was made for. Producers are never recycled, since no thread exit is
  reported.
*/
module ProducerHash {
  import opened Wrappers

  type Id = nat
  type ProducerId = nat
  type TableSize = n: nat | n > 0 witness 1

  /** INITIAL_IMPLICIT_PRODUCER_HASH_SIZE */
  const INITIAL_SIZE: TableSize

  /** hash_thread_id: any function of the id. */
  const HASH: Id -> nat

  datatype Table = Table(cap: nat, keys: seq<Option<Id>>, values: seq<Option<ProducerId>>)

  datatype Pc =
    | Idle
    | LoadMain
    | Look(main: nat, gen: nat, steps: nat)
    | CopyLoad(main: nat, from: nat, v: ProducerId, steps: nat)
    | CopyCas(main: nat, from: nat, v: ProducerId, steps: nat)
    | CopyValue(main: nat, slot: nat, v: ProducerId)
    | AddCount(main: nat)
    | TestSet(main: nat, n: nat)
    | Reload(n: nat)
    | Allocate(n: nat)
    | SubLocked
    | ClearFail
    | Clear(main: nat, n: nat)
    | WaitLoad(n: nat)
    | Create(main: nat, n: nat)
    | SubCount
    | InsertLoad(main: nat, n: nat, v: ProducerId, steps: nat)
    | InsertCas(main: nat, n: nat, v: ProducerId, steps: nat)
    | InsertValue(main: nat, slot: nat, v: ProducerId)
    | Returned(result: Option<ProducerId>)

  /** Tables are numbered from the initial one on; each one's `prev` is the one before. */
  datatype State = State(
    tables: seq<Table>,
    count: nat,
    resizing: bool,
    pc: map<Id, Pc>,
    order: seq<Id>,
    ticket: map<Id, nat>,
    home: map<Id, ProducerId>,
    owner: map<ProducerId, Id>)

  // ---------------------------------------------------------------- steps

  function Slot(id: Id, steps: nat, cap: nat): (j: nat)
    requires cap > 0
    ensures j < cap
  {
    (HASH(id) + steps) % cap
  }

  function ThreeQuarters(cap: nat): nat {
    cap / 2 + cap / 4
  }

  function EmptyTable(cap: nat): Table {
    Table(cap, seq(cap, i => None), seq(cap, i => None))
  }

  /** The capacity of the next table: doubled, and doubled on until n is below half of it. */
  function Grown(cap: nat, n: nat): (c: nat)
    requires cap > 0
    ensures c > cap && n < c / 2
    decreases n - cap
  {
    if n < cap then 2 * cap else Grown(2 * cap, n)
  }

  function Fit(cap: nat, main: nat, n: nat): Pc {
    if n < ThreeQuarters(cap) then Create(main, n) else WaitLoad(n)
  }

  function Decide(cap: nat, main: nat, n: nat): Pc {
    if n >= cap / 2 then TestSet(main, n) else Fit(cap, main, n)
  }

  predicate TableShape(t: Table) {
    t.cap > 0 && |t.keys| == |t.values| == t.cap
  }

  ghost predicate Shape(tables: seq<Table>) {
    && |tables| > 0 && (forall g :: 0 <= g < |tables| ==> TableShape(tables[g]))
    && (forall g, h :: 0 <= g < h < |tables| ==> tables[g].cap < tables[h].cap)
  }

  /** The step of a thread refers to a table that exists. */
  predicate InTable(p: Pc, n: nat) {
    match p
    case Look(main, gen, _) => gen <= main < n
    case CopyLoad(main, from, _, _) => main < n
    case CopyCas(main, from, _, _) => main < n
    case CopyValue(main, _, _) => main < n
    case AddCount(main) => main < n
    case TestSet(main, _) => main < n
    case Clear(main, _) => main < n
    case Create(main, _) => main < n
    case InsertLoad(main, _, _, _) => main < n
    case InsertCas(main, _, _, _) => main < n
    case InsertValue(main, _, _) => main < n
    case _ => true
  }

  ghost predicate CanStep(s: State, t: Id, luck: Option<ProducerId>) {
    && Shape(s.tables) && t in s.pc && InTable(s.pc[t], |s.tables|) && !s.pc[t].Idle? && !s.pc[t].Returned?
    && match s.pc[t]
    case Look(main, gen, steps) =>
      var tb := s.tables[gen];
      tb.keys[Slot(t, steps, tb.cap)] == Some(t) ==> tb.values[Slot(t, steps, tb.cap)].Some?
    case CopyValue(main, slot, _) => slot < s.tables[main].cap
    case InsertValue(main, slot, _) => slot < s.tables[main].cap
    case Create(_, _) => luck.Some? ==> luck.value !in s.owner
    case SubLocked => t in s.order && s.count > 0
    case SubCount => t in s.order && s.count > 0
    case _ => true
  }

  function SetKey(tables: seq<Table>, g: nat, j: nat, id: Id): seq<Table>
    requires g < |tables| && j < |tables[g].keys|
  {
    tables[g := tables[g].(keys := tables[g].keys[j := Some(id)])]
  }

  function SetValue(tables: seq<Table>, g: nat, j: nat, v: ProducerId): seq<Table>
    requires g < |tables| && j < |tables[g].values|
  {
    tables[g := tables[g].(values := tables[g].values[j := Some(v)])]
  }

  function IndexOf(xs: seq<Id>, x: Id): (p: nat)
    requires x in xs
    ensures p < |xs| && xs[p] == x
  {
    if xs[0] == x then 0 else 1 + IndexOf(xs[1..], x)
  }

  function Removed(xs: seq<Id>, x: Id): seq<Id>
    requires x in xs
  {
    xs[..IndexOf(xs, x)] + xs[IndexOf(xs, x) + 1..]
  }

  function Move(s: State, t: Id, p: Pc): State {
    s.(pc := s.pc[t := p])
  }

  /** The next access of thread t; luck says whether an allocation succeeds, and names the producer made. */
  function Step(s: State, t: Id, luck: Option<ProducerId>): State
    requires CanStep(s, t, luck)
  {
    var latest := |s.tables| - 1;
    match s.pc[t]
    case LoadMain => Move(s, t, Look(latest, latest, 0))
    case Look(main, gen, steps) =>
      var tb := s.tables[gen];
      var j := Slot(t, steps, tb.cap);
      Move(s, t,
        if tb.keys[j] == Some(t) then
          if gen != main then CopyLoad(main, gen, tb.values[j].value, 0) else Returned(tb.values[j])
        else if tb.keys[j].Some? then Look(main, gen, steps + 1)
        else if gen > 0 then Look(main, gen - 1, 0)
        else AddCount(main))
    case CopyLoad(main, from, v, steps) =>
      var tb := s.tables[main];
      Move(s, t, if tb.keys[Slot(t, steps, tb.cap)].None? then CopyCas(main, from, v, steps) else CopyLoad(main, from, v, steps + 1))
    case CopyCas(main, from, v, steps) =>
      var j := Slot(t, steps, s.tables[main].cap);
      if s.tables[main].keys[j].None? then
        Move(s.(tables := SetKey(s.tables, main, j, t)), t, CopyValue(main, j, v))
      else Move(s, t, CopyLoad(main, from, v, steps + 1))
    case CopyValue(main, slot, v) => Move(s.(tables := SetValue(s.tables, main, slot, v)), t, Returned(Some(v)))
    case AddCount(main) =>
      var n := s.count + 1;
      Move(s.(count := s.count + 1, order := s.order + [t], ticket := s.ticket[t := n]), t,
           Decide(s.tables[main].cap, main, n))
    case TestSet(main, n) =>
      if s.resizing then Move(s, t, Fit(s.tables[main].cap, main, n)) else Move(s.(resizing := true), t, Reload(n))
    case Reload(n) => Move(s, t, if n >= s.tables[latest].cap / 2 then Allocate(n) else Clear(latest, n))
    case Allocate(n) =>
      if luck.None? then Move(s, t, SubLocked)
      else Move(s.(tables := s.tables + [EmptyTable(Grown(s.tables[latest].cap, n))]), t, Clear(latest + 1, n))
    case SubLocked => Move(s.(count := s.count - 1, order := Removed(s.order, t)), t, ClearFail)
    case ClearFail => Move(s.(resizing := false), t, Returned(None))
    case Clear(main, n) => Move(s.(resizing := false), t, Fit(s.tables[main].cap, main, n))
    case WaitLoad(n) => Move(s, t, Decide(s.tables[latest].cap, latest, n))
    case Create(main, n) =>
      if luck.None? then Move(s, t, SubCount)
      else Move(s.(owner := s.owner[luck.value := t]), t, InsertLoad(main, n, luck.value, 0))
    case SubCount => Move(s.(count := s.count - 1, order := Removed(s.order, t)), t, Returned(None))
    case InsertLoad(main, n, v, steps) =>
      var tb := s.tables[main];
      Move(s, t, if tb.keys[Slot(t, steps, tb.cap)].None? then InsertCas(main, n, v, steps) else InsertLoad(main, n, v, steps + 1))
    case InsertCas(main, n, v, steps) =>
      var j := Slot(t, steps, s.tables[main].cap);
      if s.tables[main].keys[j].None? then
        Move(s.(tables := SetKey(s.tables, main, j, t), home := s.home[t := v]), t, InsertValue(main, j, v))
      else Move(s, t, InsertLoad(main, n, v, steps + 1))
    case InsertValue(main, slot, v) => Move(s.(tables := SetValue(s.tables, main, slot, v)), t, Returned(Some(v)))
  }

  ghost predicate Init(s: State) {
    && s.tables == [EmptyTable(INITIAL_SIZE)] && s.count == 0 && !s.resizing
    && (forall t :: t in s.pc ==> s.pc[t] == Idle)
    && s.order == [] && s.ticket == map[] && s.home == map[] && s.owner == map[]
  }

  ghost predicate Next(s: State, s': State) {
    || (exists t, luck :: CanStep(s, t, luck) && s' == Step(s, t, luck))
    || (exists t :: t in s.pc && (s.pc[t].Idle? || s.pc[t].Returned?) && s' == Move(s, t, LoadMain))
  }

  ghost predicate NextAt(run: seq<State>, i: nat)
    requires i + 1 < |run|
  {
    Next(run[i], run[i + 1])
  }

  ghost predicate Run(run: seq<State>) {
    |run| > 0 && Init(run[0]) && forall i :: 0 <= i < |run| - 1 ==> NextAt(run, i)
  }

  // ---------------------------------------------------------------- invariant

  ghost predicate Has(t: Table, id: Id) {
    exists j :: 0 <= j < |t.keys| && t.keys[j] == Some(id)
  }

  /** The first `steps` slots that a search for id visits are taken by others. */
  ghost predicate Probed(t: Table, id: Id, steps: nat)
    requires TableShape(t)
  {
    forall i :: 0 <= i < steps ==> Taken(t, id, i) && t.keys[Slot(id, i, t.cap)] != Some(id)
  }

  predicate Taken(t: Table, id: Id, i: nat)
    requires TableShape(t)
  {
    t.keys[Slot(id, i, t.cap)].Some?
  }

  /** A search for id comes to slot j after d slots, all taken. */
  ghost predicate PathTo(t: Table, id: Id, j: nat, d: nat)
    requires TableShape(t)
  {
    j == Slot(id, d, t.cap) && forall i :: 0 <= i < d ==> Taken(t, id, i)
  }

  /** Only ids that count are in a table, each where a search finds it, and with a count below its three quarters. */
  ghost predicate EntryOk(t: Table, j: nat, ticket: map<Id, nat>, home: map<Id, ProducerId>)
    requires TableShape(t) && j < t.cap
  {
    t.keys[j].Some? ==>
      var id := t.keys[j].value;
      id in home && id in ticket && ticket[id] < ThreeQuarters(t.cap) && exists d :: PathTo(t, id, j, d)
  }

  ghost predicate DistinctKeys(t: Table)
    requires TableShape(t)
  {
    forall i, j :: 0 <= i < j < t.cap && t.keys[i].Some? ==> t.keys[i] != t.keys[j]
  }

  ghost predicate TableOk(t: Table, ticket: map<Id, nat>, home: map<Id, ProducerId>) {
    TableShape(t) && DistinctKeys(t) && forall j :: 0 <= j < t.cap ==> EntryOk(t, j, ticket, home)
  }

  ghost predicate TablesOk(tables: seq<Table>, ticket: map<Id, nat>, home: map<Id, ProducerId>) {
    Shape(tables) && forall g :: 0 <= g < |tables| ==> TableOk(tables[g], ticket, home)
  }

  /** The count is the number of ids that count, and each got at least its rank. */
  ghost predicate CountOk(count: nat, order: seq<Id>, ticket: map<Id, nat>) {
    && count == |order|
    && (forall p, q :: 0 <= p < q < |order| ==> order[p] != order[q])
    && (forall p :: 0 <= p < |order| ==> order[p] in ticket && ticket[order[p]] >= p + 1)
  }

  /** The value stored with id's key is the producer it was registered with, unless id is just storing it. */
  ghost predicate ValuesOk(tables: seq<Table>, id: Id, p: Pc, home: map<Id, ProducerId>)
    requires Shape(tables)
  {
    forall g, j :: 0 <= g < |tables| && 0 <= j < tables[g].cap && tables[g].keys[j] == Some(id) ==>
      || (id in home && tables[g].values[j] == Some(home[id]))
      || (p.CopyValue? && p.main == g && p.slot == j) || (p.InsertValue? && p.main == g && p.slot == j)
  }

  ghost predicate Nowhere(tables: seq<Table>, id: Id, from: nat) {
    forall g :: from <= g < |tables| ==> !Has(tables[g], id)
  }

  ghost predicate Unknown(s: State, id: Id) {
    id !in s.home && id !in s.order && Nowhere(s.tables, id, 0)
  }

  ghost predicate Counted(s: State, id: Id, n: nat) {
    id !in s.home && id in s.order && id in s.ticket && s.ticket[id] == n && Nowhere(s.tables, id, 0)
  }

  ghost predicate Registered(s: State, id: Id) {
    && id in s.home && id in s.order && s.home[id] in s.owner && s.owner[s.home[id]] == id
    && exists g :: 0 <= g < |s.tables| && Has(s.tables[g], id)
  }

  ghost predicate Known(s: State, id: Id, v: ProducerId) {
    Registered(s, id) && s.home[id] == v
  }

  ghost predicate Inserting(s: State, id: Id, main: nat, n: nat, v: ProducerId, steps: nat)
    requires Shape(s.tables)
  {
    && main < |s.tables| && Counted(s, id, n) && n < ThreeQuarters(s.tables[main].cap)
    && v in s.owner && s.owner[v] == id && Probed(s.tables[main], id, steps)
  }

  ghost predicate Copying(s: State, id: Id, main: nat, from: nat, v: ProducerId, steps: nat)
    requires Shape(s.tables)
  {
    && from < main < |s.tables| && Known(s, id, v) && Has(s.tables[from], id) && Nowhere(s.tables, id, from + 1)
    && Probed(s.tables[main], id, steps)
  }

  ghost predicate Storing(s: State, id: Id, main: nat, slot: nat, v: ProducerId)
    requires Shape(s.tables)
  {
    main < |s.tables| && slot < s.tables[main].cap && s.tables[main].keys[slot] == Some(id) && Known(s, id, v)
  }

  ghost predicate ThreadOk(s: State, id: Id, p: Pc)
    requires Shape(s.tables)
  {
    match p
    case Idle => Unknown(s, id) || Registered(s, id)
    case LoadMain => Unknown(s, id) || Registered(s, id)
    case Look(main, gen, steps) =>
      && gen <= main < |s.tables| && (Unknown(s, id) || Registered(s, id))
      && Nowhere(s.tables, id, gen + 1) && Probed(s.tables[gen], id, steps)
    case CopyLoad(main, from, v, steps) => Copying(s, id, main, from, v, steps)
    case CopyCas(main, from, v, steps) => Copying(s, id, main, from, v, steps)
    case CopyValue(main, slot, v) => Storing(s, id, main, slot, v)
    case AddCount(main) => main < |s.tables| && Unknown(s, id)
    case TestSet(main, n) => main < |s.tables| && Counted(s, id, n)
    case Reload(n) => Counted(s, id, n)
    case Allocate(n) => Counted(s, id, n)
    case SubLocked => id in s.ticket && Counted(s, id, s.ticket[id])
    case ClearFail => Unknown(s, id)
    case Clear(main, n) => main < |s.tables| && Counted(s, id, n)
    case WaitLoad(n) => Counted(s, id, n)
    case Create(main, n) => main < |s.tables| && Counted(s, id, n) && n < ThreeQuarters(s.tables[main].cap)
    case SubCount => id in s.ticket && Counted(s, id, s.ticket[id])
    case InsertLoad(main, n, v, steps) => Inserting(s, id, main, n, v, steps)
    case InsertCas(main, n, v, steps) => Inserting(s, id, main, n, v, steps)
    case InsertValue(main, slot, v) => Storing(s, id, main, slot, v)
    case Returned(result) => if result.Some? then Known(s, id, result.value) else Unknown(s, id)
  }

  /** Threads between test_and_set and clear. */
  predicate HoldsLock(p: Pc) {
    p.Reload? || p.Allocate? || p.SubLocked? || p.ClearFail? || p.Clear?
  }

  ghost predicate LockOk(resizing: bool, pc: map<Id, Pc>) {
    && (resizing <==> exists t :: t in pc && HoldsLock(pc[t]))
    && (forall t, u :: t in pc && u in pc && HoldsLock(pc[t]) && HoldsLock(pc[u]) ==> t == u)
  }

  ghost predicate Inv(s: State) {
    && TablesOk(s.tables, s.ticket, s.home) && CountOk(s.count, s.order, s.ticket) && LockOk(s.resizing, s.pc)
    && (forall id :: id in s.home ==> id in s.order && id in s.pc)
    && (forall t :: t in s.pc ==> ThreadOk(s, t, s.pc[t]) && ValuesOk(s.tables, t, s.pc[t], s.home))
  }

  // ---------------------------------------------------------------- what other threads notice

  /** Thread t may have added its own key to tables, stored the value of one, or added empty tables. */
  ghost predicate Extends(tables: seq<Table>, tables': seq<Table>, t: Id) {
    && Shape(tables) && Shape(tables') && |tables| <= |tables'|
    && (forall g :: 0 <= g < |tables| ==> Extended(tables[g], tables'[g], t))
    && (forall g :: |tables| <= g < |tables'| ==> NoKeys(tables'[g]))
  }

  ghost predicate Extended(tb: Table, tb': Table, t: Id)
    requires TableShape(tb) && TableShape(tb')
  {
    && tb'.cap == tb.cap
    && (forall j :: 0 <= j < tb.cap ==> tb'.keys[j] == tb.keys[j] || (tb.keys[j].None? && tb'.keys[j] == Some(t)))
    && (forall j :: 0 <= j < tb.cap && tb.keys[j] != Some(t) ==> tb'.values[j] == tb.values[j])
  }

  ghost predicate NoKeys(tb: Table) {
    forall j :: 0 <= j < |tb.keys| ==> tb.keys[j] == None
  }

  lemma ExtendedHas(tb: Table, tb': Table, t: Id, u: Id)
    requires TableShape(tb) && TableShape(tb') && Extended(tb, tb', t)
    ensures Has(tb, u) ==> Has(tb', u)
    ensures u != t && Has(tb', u) ==> Has(tb, u)
  {
  }

  lemma ExtendedProbed(tb: Table, tb': Table, t: Id, u: Id, steps: nat)
    requires TableShape(tb) && TableShape(tb') && Extended(tb, tb', t) && u != t && Probed(tb, u, steps)
    ensures Probed(tb', u, steps)
  {
    hide Slot;
    forall i | 0 <= i < steps ensures Taken(tb', u, i) && tb'.keys[Slot(u, i, tb'.cap)] != Some(u) {
      assert Taken(tb, u, i);
    }
  }

  lemma ExtendedNowhere(tables: seq<Table>, tables': seq<Table>, t: Id, u: Id, from: nat)
    requires Extends(tables, tables', t) && u != t && Nowhere(tables, u, from)
    ensures Nowhere(tables', u, from)
  {
    hide Has;
    forall g | from <= g < |tables'| ensures !Has(tables'[g], u) {
      if g < |tables| {
        ExtendedHas(tables[g], tables'[g], t, u);
      } else {
        EmptyHasNone(tables'[g], u);
      }
    }
  }

  lemma EmptyHasNone(tb: Table, u: Id)
    requires NoKeys(tb)
    ensures !Has(tb, u)
  {
  }

  /** What thread t may do to what the invariant records about thread u. */
  ghost predicate Untouched(s: State, s': State, u: Id) {
    && (u in s'.home <==> u in s.home) && (u in s.home ==> s'.home[u] == s.home[u])
    && (u in s'.order <==> u in s.order)
    && (u in s.ticket ==> u in s'.ticket && s'.ticket[u] == s.ticket[u])
    && (forall v :: v in s.owner ==> v in s'.owner && s'.owner[v] == s.owner[v])
  }

  lemma KnowledgeKept(s: State, s': State, t: Id, u: Id)
    requires Extends(s.tables, s'.tables, t) && t != u && Untouched(s, s', u)
    ensures Unknown(s, u) ==> Unknown(s', u)
    ensures Registered(s, u) ==> Registered(s', u)
    ensures forall n :: Counted(s, u, n) ==> Counted(s', u, n)
  {
    hide Has, Nowhere;
    if Nowhere(s.tables, u, 0) {
      ExtendedNowhere(s.tables, s'.tables, t, u, 0);
    }
    if Registered(s, u) {
      var g :| 0 <= g < |s.tables| && Has(s.tables[g], u);
      ExtendedHas(s.tables[g], s'.tables[g], t, u);
    }
  }

  lemma OtherOk(s: State, s': State, t: Id, u: Id, p: Pc)
    requires Extends(s.tables, s'.tables, t) && t != u && Untouched(s, s', u) && ThreadOk(s, u, p)
    ensures ThreadOk(s', u, p)
  {
    hide Unknown, Counted, Has, Nowhere, Probed, Extended, NoKeys, ThreeQuarters, TableShape;
    KnowledgeKept(s, s', t, u);
    ExtendedCap(s.tables, s'.tables, t);
    if p.Look? {
      ExtendedNowhere(s.tables, s'.tables, t, u, p.gen + 1);
      ExtendedProbed(s.tables[p.gen], s'.tables[p.gen], t, u, p.steps);
    } else if p.CopyLoad? || p.CopyCas? {
      ExtendedNowhere(s.tables, s'.tables, t, u, p.from + 1);
      ExtendedHas(s.tables[p.from], s'.tables[p.from], t, u);
      ExtendedProbed(s.tables[p.main], s'.tables[p.main], t, u, p.steps);
    } else if p.InsertLoad? || p.InsertCas? {
      ExtendedProbed(s.tables[p.main], s'.tables[p.main], t, u, p.steps);
    } else if p.CopyValue? || p.InsertValue? {
      ExtendedKey(s.tables[p.main], s'.tables[p.main], t, u, p.slot);
    }
  }

  lemma ExtendedCap(tables: seq<Table>, tables': seq<Table>, t: Id)
    requires Extends(tables, tables', t)
    ensures |tables| <= |tables'| && Shape(tables')
    ensures forall g :: 0 <= g < |tables| ==> tables'[g].cap == tables[g].cap && Extended(tables[g], tables'[g], t)
  {
    hide NoKeys;
  }

  lemma ExtendedKey(tb: Table, tb': Table, t: Id, u: Id, j: nat)
    requires TableShape(tb) && TableShape(tb') && Extended(tb, tb', t) && j < tb.cap && tb.keys[j] == Some(u)
    ensures tb'.keys[j] == Some(u)
  {
  }

  lemma OtherValuesOk(tables: seq<Table>, tables': seq<Table>, t: Id, u: Id, p: Pc, home: map<Id, ProducerId>,
                      home': map<Id, ProducerId>)
    requires Extends(tables, tables', t) && t != u && ValuesOk(tables, u, p, home)
    requires u in home ==> u in home' && home'[u] == home[u]
    ensures ValuesOk(tables', u, p, home')
  {
    hide NoKeys;
    forall g | |tables| <= g < |tables'| ensures !Has(tables'[g], u) {
      EmptyHasNone(tables'[g], u);
    }
    forall g, j | 0 <= g < |tables'| && 0 <= j < tables'[g].cap && tables'[g].keys[j] == Some(u)
      ensures
        || (u in home' && tables'[g].values[j] == Some(home'[u]))
        || (p.CopyValue? && p.main == g && p.slot == j) || (p.InsertValue? && p.main == g && p.slot == j)
    {
      assert Has(tables'[g], u);
      assert Extended(tables[g], tables'[g], t);
    }
  }

  /** All threads after a step of thread t, if t itself is all right. */
  lemma ThreadsOk(s: State, s': State, t: Id)
    requires Inv(s) && t in s.pc && Extends(s.tables, s'.tables, t) && t in s'.pc && s'.pc == s.pc[t := s'.pc[t]]
    requires forall u :: u != t ==> Untouched(s, s', u)
    requires ThreadOk(s', t, s'.pc[t]) && ValuesOk(s'.tables, t, s'.pc[t], s'.home)
    ensures forall u :: u in s'.pc ==> ThreadOk(s', u, s'.pc[u]) && ValuesOk(s'.tables, u, s'.pc[u], s'.home)
  {
    hide ThreadOk, ValuesOk, Extends, TablesOk, CountOk, LockOk;
    ExtendsShape(s.tables, s'.tables, t);
    forall u | u in s'.pc ensures ThreadOk(s', u, s'.pc[u]) && ValuesOk(s'.tables, u, s'.pc[u], s'.home) {
      if u != t {
        assert ThreadOk(s, u, s.pc[u]) && ValuesOk(s.tables, u, s.pc[u], s.home);
        OtherOk(s, s', t, u, s.pc[u]);
        OtherValuesOk(s.tables, s'.tables, t, u, s.pc[u], s.home, s'.home);
      }
    }
  }

  lemma ExtendsShape(tables: seq<Table>, tables': seq<Table>, t: Id)
    requires Extends(tables, tables', t)
    ensures Shape(tables) && Shape(tables')
  {
    hide Extended, NoKeys;
  }
}
