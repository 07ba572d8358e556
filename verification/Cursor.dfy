/**
  DatastoreIterator: the rows of a query, fetched in batches through a database cursor
  (source/datastore/DatastoreIterator.cpp:37-112, 165-210).

  The server is abstract: a query selects some rows, `faults` says which of the following commands fail, and `log`
  records the commands it was sent. END ends the transaction even when it reports a failure.
*/
module Cursor {
  import opened Quotients
  import opened Wrappers

  type Row = int

  datatype Command = Begin | Declare(rows: seq<Row>) | Fetch(n: nat) | Close | End

  datatype Event = Event(c: Command, ok: bool)

  datatype Reply = Tuples(rows: seq<Row>) | CommandOk | Failed

  datatype Server = Server(open: bool, cursor: Option<seq<Row>>, faults: seq<bool>, log: seq<Event>)

  // ---------------------------------------------------------------- the server

  function Min(a: nat, b: nat): nat {
    if a < b then a else b
  }

  predicate Refuses(s: Server) {
    s.faults != [] && s.faults[0]
  }

  function Rest(faults: seq<bool>): seq<bool> {
    if faults == [] then [] else faults[1..]
  }

  predicate Succeeds(s: Server, c: Command) {
    && !Refuses(s)
    && match c
    case Begin => true
    case Declare(_) => s.open
    case Fetch(_) => s.open && s.cursor.Some?
    case Close => s.open && s.cursor.Some?
    case End => true
  }

  function Exec(s: Server, c: Command): Server {
    var ok := Succeeds(s, c);
    var s1 := s.(faults := Rest(s.faults), log := s.log + [Event(c, ok)]);
    match c
    case Begin => if ok then s1.(open := true) else s1
    case Declare(rows) => if ok then s1.(cursor := Some(rows)) else s1
    case Fetch(n) => if ok then s1.(cursor := Some(s.cursor.value[Min(n, |s.cursor.value|)..])) else s1
    case Close => if ok then s1.(cursor := None) else s1
    case End => s1.(open := false, cursor := None)
  }

  function ReplyTo(s: Server, c: Command): Reply {
    if !Succeeds(s, c) then Failed
    else if c.Fetch? then Tuples(s.cursor.value[..Min(c.n, |s.cursor.value|)])
    else CommandOk
  }

  /** Every BEGIN that succeeded was ended before the next, and every END ended one; `open` is whether one is open. */
  predicate Paired(log: seq<Event>, open: bool) {
    if log == [] then !open
    else
      var before, last := log[..|log| - 1], log[|log| - 1];
      if last.c.Begin? && last.ok then open && Paired(before, false)
      else if last.c.End? then !open && Paired(before, true)
      else Paired(before, open)
  }

  function Fetches(log: seq<Event>): nat {
    if log == [] then 0 else Fetches(log[..|log| - 1]) + if log[|log| - 1].c.Fetch? then 1 else 0
  }

  lemma LogGrows(s: Server, c: Command)
    requires Paired(s.log, s.open) && (c.Begin? ==> !s.open) && (c.End? ==> s.open)
    ensures Paired(Exec(s, c).log, Exec(s, c).open)
    ensures Fetches(Exec(s, c).log) == Fetches(s.log) + if c.Fetch? then 1 else 0
  {
    assert Exec(s, c).log[..|s.log|] == s.log;
  }

  /** In any paired log, between two successful BEGINs there is an END. */
  lemma {:induction false} BeginsAreSeparated(log: seq<Event>, open: bool, i: nat, j: nat)
    requires Paired(log, open) && i < j < |log|
    requires log[i] == Event(Begin, true) && log[j] == Event(Begin, true)
    ensures exists k :: i < k < j && log[k].c.End?
  {
    var n := |log| - 1;
    if j < n {
      BeginsAreSeparated(log[..n], OpenBefore(log, open), i, j);
      var k :| i < k < j && log[..n][k].c.End?;
      assert log[k].c.End?;
    } else {
      EndedSince(log[..n], false, i);
    }
  }

  function OpenBefore(log: seq<Event>, open: bool): (before: bool)
    requires log != [] && Paired(log, open)
    ensures Paired(log[..|log| - 1], before)
  {
    var last := log[|log| - 1];
    if last.c.Begin? && last.ok then false else if last.c.End? then true else open
  }

  lemma {:induction false} EndedSince(log: seq<Event>, open: bool, i: nat)
    requires Paired(log, open) && i < |log| && log[i] == Event(Begin, true) && !open
    ensures exists k :: i < k < |log| && log[k].c.End?
  {
    var n := |log| - 1;
    if !log[n].c.End? {
      assert i < n;
      EndedSince(log[..n], OpenBefore(log, open), i);
      var k :| i < k < n && log[..n][k].c.End?;
      assert log[k].c.End?;
    } else {
      assert i < n;
    }
  }

  predicate NoFaults(faults: seq<bool>) {
    forall i :: 0 <= i < |faults| ==> !faults[i]
  }

  /** Neither of the next two commands fails: the BEGIN and the DECLARE of a query. */
  predicate CanStart(faults: seq<bool>) {
    forall i :: 0 <= i < |faults| && i < 2 ==> !faults[i]
  }

  // ---------------------------------------------------------------- the iterator

  datatype Status = Ready | Open

  class DatastoreIterator {
    var server: Server
    var result: Option<Reply>
    var offset: nat
    var status: Status
    var fetchSize: nat
    var wasError: bool

    /** A transaction is open exactly when the iterator is Open, and all earlier ones were ended. */
    ghost predicate Transactional()
      reads this
    {
      && (server.open <==> status.Open?) && Paired(server.log, server.open)
      && (server.cursor.Some? ==> server.open)
    }

    ghost predicate Valid()
      reads this
    {
      && Transactional()
      && (status.Ready? ==> result.None? || (result.value.Failed? && offset == 0))
      && (status.Open? && result.Some? ==> result.value.Tuples? && offset <= |result.value.rows| && server.cursor.Some?)
    }

    /** The rows the client has not got yet. */
    ghost function Remaining(): seq<Row>
      reads this
      requires Valid()
    {
      (if result.Some? && result.value.Tuples? then result.value.rows[offset..] else [])
      + (if server.cursor.Some? then server.cursor.value else [])
    }

    /** A query is running and the server will not fail. */
    ghost predicate Healthy()
      reads this
    {
      status.Open? && server.cursor.Some? && NoFaults(server.faults) && fetchSize > 0
    }

    constructor (faults: seq<bool>)
      ensures Valid() && status == Ready && server.log == [] && server.faults == faults && !wasError
    {
      server := Server(false, None, faults, []);
      result := None;
      offset := 0;
      status := Ready;
      fetchSize := 0;
      wasError := false;
    }

    method Execute(c: Command) returns (r: Reply)
      modifies this`server
      ensures server == Exec(old(server), c) && r == ReplyTo(old(server), c)
    {
      r := ReplyTo(server, c);
      server := Exec(server, c);
    }

    /** closeAndReset: one CLOSE and one END if a query is open, nothing otherwise. */
    method CloseAndReset()
      requires Transactional()
      modifies this`status, this`result, this`server, this`wasError
      ensures Transactional() && status == Ready && (old(wasError) ==> wasError)
      ensures old(status) == Ready ==> server == old(server) && result == old(result) && wasError == old(wasError)
      ensures old(status) == Open ==>
                && result == None && server.cursor == None
                && server == Exec(Exec(old(server), Close), End)
                && Fetches(server.log) == old(Fetches(server.log))
      ensures old(Healthy()) ==> wasError == old(wasError)
    {
      if status == Open {
        result := None;
        LogGrows(server, Close);
        var r := Execute(Close);
        if !r.CommandOk? {
          wasError := true;
        }
        LogGrows(server, End);
        r := Execute(End);
        if !r.CommandOk? {
          wasError := true;
        }
      }
      status := Ready;
    }

    /** executeQuery, for a query that selects `rows`; Datastore only calls it when the iterator is ready. */
    method ExecuteQuery(rows: seq<Row>, size: nat)
      requires Valid() && status == Ready
      modifies this
      ensures Valid()
      ensures status == Open ==> Remaining() == rows && server.cursor == Some(rows) && result == None && fetchSize == size
      ensures status == Ready ==> wasError && result == None
      ensures status == Open <==> old(CanStart(server.faults))
      ensures status == Open ==> wasError == old(wasError) && server == Exec(Exec(old(server), Begin), Declare(rows))
      ensures old(NoFaults(server.faults)) ==> status == Open && NoFaults(server.faults) && wasError == old(wasError)
      ensures Fetches(server.log) == old(Fetches(server.log))
    {
      offset := 0;
      result := None;
      LogGrows(server, Begin);
      var r := Execute(Begin);
      if !r.CommandOk? {
        wasError := true;
        return;
      }
      status := Open;
      fetchSize := size;
      LogGrows(server, Declare(rows));
      r := Execute(Declare(rows));
      if !r.CommandOk? {
        wasError := true;
        CloseAndReset();
        return;
      }
    }

    /** Datastore::data: refused while a query is open. */
    method Data(rows: seq<Row>, size: nat) returns (accepted: bool)
      requires Valid()
      modifies this
      ensures Valid() && accepted == (old(status) == Ready)
      ensures !accepted ==> server == old(server) && result == old(result) && status == old(status) && offset == old(offset)
      ensures accepted && status == Open ==> Remaining() == rows && server.cursor == Some(rows) && result == None && fetchSize == size
      ensures accepted && status == Ready ==> wasError
      ensures accepted ==> (status == Open <==> old(CanStart(server.faults)))
      ensures accepted && status == Open ==>
                wasError == old(wasError) && server == Exec(Exec(old(server), Begin), Declare(rows))
      ensures accepted && old(NoFaults(server.faults)) ==> status == Open && NoFaults(server.faults)
    {
      accepted := status == Ready;
      if accepted {
        ExecuteQuery(rows, size);
      }
    }

    /**
      next: whatever the batches and whatever fails, a row returned is the next one, and null is returned only at the
      end or after an error; either way the transaction is ended then.
    */
    method Next() returns (row: Option<Row>)
      requires Valid() && (status.Open? ==> fetchSize > 0)
      modifies this
      ensures Valid() && fetchSize == old(fetchSize)
      ensures row.Some? ==>
                && status == Open && old(Remaining()) != [] && row.value == old(Remaining())[0]
                && Remaining() == old(Remaining())[1..] && wasError == old(wasError)
      ensures row.None? ==> status == Ready && (wasError || (old(status) == Open && old(Remaining()) == []))
      ensures old(Healthy()) ==> wasError == old(wasError) && (row.None? <==> old(Remaining()) == [])
      ensures old(Healthy()) && row.Some? ==> Healthy()
      ensures old(Drained(result, offset)) ==> Fetches(server.log) == old(Fetches(server.log)) + 1
      ensures !old(Drained(result, offset)) ==> Fetches(server.log) == old(Fetches(server.log)) && server == old(server)
      ensures row.Some? && old(Drained(result, offset)) ==>
                && old(server.cursor).Some?
                && server.cursor == Some(old(server.cursor).value[Min(fetchSize, |old(server.cursor).value|)..])
      ensures row.Some? ==> result.Some? && result.value.Tuples?
    {
      if Drained(result, offset) {
        FetchBatch();
        if !result.value.Tuples? {
          wasError := true;
          CloseAndReset();
          return None;
        }
        if |result.value.rows| == 0 {
          CloseAndReset();
          return None;
        }
      }
      row := Some(result.value.rows[offset]);
      offset := offset + 1;
    }

    /** The first half of next: a new batch replaces the old one, and no row is skipped. */
    method FetchBatch()
      requires Valid() && Drained(result, offset)
      modifies this`result, this`offset, this`server
      ensures Transactional() && result.Some? && offset == 0
      ensures result.value.Tuples? ==>
                && Valid() && status == Open && Remaining() == old(Remaining())
                && old(server.cursor).Some?
                && server.cursor == Some(old(server.cursor).value[Min(fetchSize, |old(server.cursor).value|)..])
                && |result.value.rows| == Min(fetchSize, |old(server.cursor).value|)
      ensures !result.value.Tuples? ==> result.value.Failed?
      ensures old(Healthy()) ==> Healthy() && result.value.Tuples?
      ensures Fetches(server.log) == old(Fetches(server.log)) + 1
    {
      offset := 0;
      LogGrows(server, Fetch(fetchSize));
      var r := Execute(Fetch(fetchSize));
      result := Some(r);
      if r.Tuples? {
        assert Remaining() == old(server.cursor).value;
      }
    }
  }

  /** PQntuples */
  function Count(r: Reply): nat {
    if r.Tuples? then |r.rows| else 0
  }

  /** No row of the last batch is left. */
  predicate Drained(result: Option<Reply>, offset: nat) {
    result.None? || offset == Count(result.value)
  }

  // ---------------------------------------------------------------- reading a whole query

  /** f fetches have taken the first `taken` of n rows, in batches of size each but the last. */
  predicate Batched(n: nat, size: nat, f: nat, taken: int) {
    taken == Min(n, f * size) && (f > 0 ==> (f - 1) * size < n)
  }

  lemma NothingBatched(n: nat, size: nat)
    ensures Batched(n, size, 0, 0)
  {
  }

  lemma BatchedNext(n: nat, size: nat, f: nat, taken: nat)
    requires Batched(n, size, f, taken) && taken < n && size > 0
    ensures Batched(n, size, f + 1, taken + Min(size, n - taken))
  {
  }

  /** When all rows are taken, the number of fetches was the number of batches, the quotient rounded up. */
  lemma BatchesNeeded(n: nat, size: nat, f: nat)
    requires Batched(n, size, f, n) && size > 0
    ensures f == (n + size - 1) / size
  {
    if f > 0 {
      assert (f - 1) * size == f * size - size;
    }
    QuotientIs(n + size - 1, f, size);
  }

  /**
    Calling next until it returns null gives exactly the rows of the query, in order, with one fetch for each batch
    and one more, and leaves the iterator ready.
  */
  method ReadAll(it: DatastoreIterator) returns (rows: seq<Row>)
    requires it.Valid() && it.Healthy() && it.result.None?
    modifies it
    ensures it.Valid() && it.status == Ready && rows == old(it.Remaining()) && it.wasError == old(it.wasError)
    ensures it.fetchSize == old(it.fetchSize) > 0
    ensures Fetches(it.server.log) == old(Fetches(it.server.log)) + (|rows| + it.fetchSize - 1) / it.fetchSize + 1
  {
    hide Batched, Paired, Fetches;
    rows := [];
    ghost var all, size, before := it.Remaining(), it.fetchSize, Fetches(it.server.log);
    ghost var f: nat, taken: nat := 0, 0;
    NothingBatched(|all|, size);
    while true
      invariant it.Valid() && it.Healthy() && it.fetchSize == size && it.wasError == old(it.wasError)
      invariant rows + it.Remaining() == all
      invariant Fetches(it.server.log) == before + f && Batched(|all|, size, f, taken)
      invariant taken <= |all| && it.server.cursor.Some? && |it.server.cursor.value| == |all| - taken
      decreases |it.Remaining()|
    {
      ghost var drained, left := Drained(it.result, it.offset), it.Remaining();
      var row := it.Next();
      if row.None? {
        BatchesNeeded(|all|, size, f);
        assert rows == all;
        break;
      }
      if drained {
        BatchedNext(|all|, size, f, taken);
        taken := taken + Min(size, |all| - taken);
        f := f + 1;
      }
      rows := rows + [row.value];
      assert rows + left[1..] == all;
    }
  }
}
