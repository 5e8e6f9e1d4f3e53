/** The connection layer of src/fastpg/core.py: `Connection` (the query
    methods, the fetch wrappers and `transaction`) and `Database` (the
    connect/disconnect state machine, the `connection()` scope and the
    convenience methods). The asyncpg driver is not modelled; every call
    into it is an event appended to a trace, and what it hands back (a new
    connection or pool, a status, rows) is a parameter. */
module Core {
  import opened Python
  import opened Values
  import opened Utils
  import opened Records

  /** Identities of the driver objects: a connection and a pool. */
  type ConnId = nat
  type PoolId = nat

  /** The asyncpg query entry points the query methods call. */
  datatype Op = DriverExecute | DriverExecuteMany | DriverFetchVal | DriverFetchRow | DriverFetch

  /** One call into the driver. */
  datatype Event =
    | OpenConnection(dsn: string, conn: ConnId)
    | CloseConnection(conn: ConnId)
    | CreatePool(dsn: string, pool: PoolId)
    | ClosePool(pool: PoolId)
    | TerminatePool(pool: PoolId)
    | Acquire(pool: PoolId, conn: ConnId)
    | Release(pool: PoolId, conn: ConnId)
    | Start(conn: ConnId)
    | Commit(conn: ConnId)
    | Rollback(conn: ConnId)
    | Call(conn: ConnId, op: Op, text: string, args: Args)
    | CopyRecords(conn: ConnId, table: string, records: seq<seq<Value>>, columns: Option<seq<string>>)

  /** How the body of a scope ended: normally, or by raising. */
  datatype Exit = Normal | Threw(error: PyError)

  /** The driver, seen through the calls made into it. */
  class Driver {
    var log: seq<Event>

    constructor()
      ensures log == []
    {
      log := [];
    }

    method Send(e: Event)
      modifies this
      ensures log == old(log) + [e]
    {
      log := log + [e];
    }
  }

  /** The query a compiled call sends: one driver call when the compilation
      succeeded, none when it raised. */
  function Sent(conn: ConnId, op: Op, c: Result<Compiled>): (es: seq<Event>)
    ensures c.Ok? <==> |es| == 1
    ensures c.Err? <==> es == []
    ensures c.Ok? ==> es[0] == Call(conn, op, c.value.text, c.value.args)
  {
    if c.Ok? then [Call(conn, op, c.value.text, c.value.args)] else []
  }

  /** What a query method returns: `v` computed from the driver's answer
      when the compilation succeeded, the compilation's exception otherwise. */
  function Reply<T>(c: Result<Compiled>, v: T): (r: Result<T>)
    ensures r.Ok? <==> c.Ok?
    ensures r.Ok? ==> r.value == v
    ensures r.Err? ==> r.error == c.error
  {
    if c.Ok? then Ok(v) else Err(c.error)
  }

  /** `fetch_one`'s wrapping (core.py:167): a row becomes a `Record` when it
      is truthy, that is when it has at least one column. */
  function WrapRow(reply: Option<Entries>): (o: Option<Record>)
    ensures o.Some? <==> reply.Some? && |reply.value| > 0
    ensures o.Some? ==> o.value.row == reply.value
  {
    if reply.Some? && Truthy(Record(reply.value)) then Some(Record(reply.value)) else None
  }

  /** `fetch_many`'s wrapping (core.py:174): one `Record` per driver row, in order. */
  function WrapRows(replies: seq<Entries>): (rs: seq<Record>)
    ensures |rs| == |replies|
    ensures forall i :: 0 <= i < |rs| ==> rs[i].row == replies[i]
  {
    seq(|replies|, i requires 0 <= i < |replies| => Record(replies[i]))
  }

  /** The records `copy_records_to_table` hands to the driver (core.py:186):
      every value of every record coerced, shape kept. */
  function CoerceRecords(lib: Stdlib, records: seq<seq<Value>>): (out: seq<seq<Value>>)
    ensures |out| == |records|
    ensures forall i :: 0 <= i < |out| ==> |out[i]| == |records[i]|
    ensures forall i, j :: 0 <= i < |out| && 0 <= j < |out[i]| ==> out[i][j] == CompileValue(lib, records[i][j])
  {
    seq(|records|, i requires 0 <= i < |records| =>
      seq(|records[i]|, j requires 0 <= j < |records[i]| => CompileValue(lib, records[i][j])))
  }

  /** How `transaction` ends (core.py:196-204): it commits only when the
      body finished normally and no rollback was forced; otherwise it rolls back. */
  function TransactionEnding(conn: ConnId, force: bool, body: Exit): (e: Event)
    ensures e == Commit(conn) <==> body.Normal? && !force
    ensures e == Rollback(conn) <==> body.Threw? || force
  {
    if body.Threw? || force then Rollback(conn) else Commit(conn)
  }

  /** The driver calls of one pool-mode scope: acquire, the body's calls, and
      the release of the same connection to the same pool. */
  function PoolScope(p: PoolId, c: ConnId, inner: seq<Event>): (es: seq<Event>)
    ensures |es| == |inner| + 2
    ensures es[0] == Acquire(p, c) && es[|es| - 1] == Release(p, c)
    ensures es[1..|es| - 1] == inner
  {
    [Acquire(p, c)] + inner + [Release(p, c)]
  }

  /** A driver connection wrapped for use (core.py:140-188). */
  class Connection {
    const driver: Driver
    const raw: ConnId

    constructor(driver: Driver, raw: ConnId)
      ensures this.driver == driver && this.raw == raw
    {
      this.driver := driver;
      this.raw := raw;
    }

    /** The first two lines shared by the query methods: compile the query,
        then hand the text and the arguments to the driver. */
    method Dispatch(lib: Stdlib, op: Op, query: string, values: Value) returns (c: Result<Compiled>)
      modifies driver
      ensures c == Compile(lib, query, values)
      ensures driver.log == old(driver.log) + Sent(raw, op, c)
    {
      c := CompileQuery(lib, query, values);
      if c.Ok? {
        driver.Send(Call(raw, op, c.value.text, c.value.args));
      }
    }

    /** `execute` (core.py:147-150): the driver's status string. */
    method Execute(lib: Stdlib, query: string, values: Value, status: string) returns (r: Result<string>)
      modifies driver
      ensures r == Reply(Compile(lib, query, values), status)
      ensures driver.log == old(driver.log) + Sent(raw, DriverExecute, Compile(lib, query, values))
    {
      var c := Dispatch(lib, DriverExecute, query, values);
      if c.Err? {
        return Err(c.error);
      }
      return Ok(status);
    }

    /** `execute_many` (core.py:152-155): returns nothing. */
    method ExecuteMany(lib: Stdlib, query: string, values: Value) returns (r: Result<()>)
      modifies driver
      ensures r == Reply(Compile(lib, query, values), ())
      ensures driver.log == old(driver.log) + Sent(raw, DriverExecuteMany, Compile(lib, query, values))
    {
      var c := Dispatch(lib, DriverExecuteMany, query, values);
      if c.Err? {
        return Err(c.error);
      }
      return Ok(());
    }

    /** `fetch_val` (core.py:157-160): the driver's value, unconverted. */
    method FetchVal(lib: Stdlib, query: string, values: Value, reply: Value) returns (r: Result<Value>)
      modifies driver
      ensures r == Reply(Compile(lib, query, values), reply)
      ensures driver.log == old(driver.log) + Sent(raw, DriverFetchVal, Compile(lib, query, values))
    {
      var c := Dispatch(lib, DriverFetchVal, query, values);
      if c.Err? {
        return Err(c.error);
      }
      return Ok(reply);
    }

    /** `fetch_one` (core.py:162-167): the driver's row as a `Record`, or
        None when there is no row or the row has no columns. */
    method FetchOne(lib: Stdlib, query: string, values: Value, reply: Option<Entries>) returns (r: Result<Option<Record>>)
      modifies driver
      ensures r == Reply(Compile(lib, query, values), WrapRow(reply))
      ensures driver.log == old(driver.log) + Sent(raw, DriverFetchRow, Compile(lib, query, values))
    {
      var c := Dispatch(lib, DriverFetchRow, query, values);
      if c.Err? {
        return Err(c.error);
      }
      if reply.Some? && Truthy(Record(reply.value)) {
        return Ok(Some(Record(reply.value)));
      }
      return Ok(None);
    }

    /** `fetch_many` (core.py:169-174): one `Record` per driver row. */
    method FetchMany(lib: Stdlib, query: string, values: Value, replies: seq<Entries>) returns (r: Result<seq<Record>>)
      modifies driver
      ensures r == Reply(Compile(lib, query, values), WrapRows(replies))
      ensures driver.log == old(driver.log) + Sent(raw, DriverFetch, Compile(lib, query, values))
    {
      var c := Dispatch(lib, DriverFetch, query, values);
      if c.Err? {
        return Err(c.error);
      }
      return Ok(WrapRows(replies));
    }

    /** `copy_records_to_table` (core.py:176-188): the records are coerced
        value by value; the query compiler is not involved. */
    method CopyRecordsToTable(lib: Stdlib, table: string, records: seq<seq<Value>>, columns: Option<seq<string>>)
      modifies driver
      ensures driver.log == old(driver.log) + [CopyRecords(raw, table, CoerceRecords(lib, records), columns)]
    {
      driver.Send(CopyRecords(raw, table, CoerceRecords(lib, records), columns));
    }

    /** Entering `transaction` (core.py:192-193). */
    method TransactionStart()
      modifies driver
      ensures driver.log == old(driver.log) + [Start(raw)]
    {
      driver.Send(Start(raw));
    }

    /** Leaving `transaction` (core.py:196-204): exactly one rollback or
        commit, and the body's exception, if any, raised again. */
    method TransactionFinish(force: bool, body: Exit) returns (outcome: Exit)
      modifies driver
      ensures outcome == body
      ensures driver.log == old(driver.log) + [TransactionEnding(raw, force, body)]
    {
      if body.Threw? {
        driver.Send(Rollback(raw));
        return body;
      }
      if force {
        driver.Send(Rollback(raw));
        return Normal;
      }
      driver.Send(Commit(raw));
      return Normal;
    }

    /** A whole `transaction` scope whose body makes the calls `inner` and
        ends with `body`: start, the body, then exactly one outcome. */
    method Transaction(force: bool, inner: seq<Event>, body: Exit) returns (outcome: Exit)
      modifies driver
      ensures outcome == body
      ensures driver.log == old(driver.log) + [Start(raw)] + inner + [TransactionEnding(raw, force, body)]
    {
      TransactionStart();
      driver.log := driver.log + inner;
      outcome := TransactionFinish(force, body);
    }
  }

  /** The database handle (core.py:50-137). In force-rollback mode it holds
      one global connection and never a pool; otherwise a pool and never a
      global connection. `held` counts the pool connections acquired by
      open scopes. */
  class Database {
    const driver: Driver
    const dsn: string
    const forceRollback: bool
    var pool: Option<PoolId>
    var globalConnection: Option<ConnId>
    ghost var held: multiset<ConnId>

    ghost predicate Valid()
      reads this
    {
      && (forceRollback ==> pool.None? && held == multiset{})
      && (!forceRollback ==> globalConnection.None?)
    }

    /** `Database(dsn, force_rollback=...)` (core.py:51-57): not connected. */
    constructor(driver: Driver, dsn: string, forceRollback: bool)
      ensures Valid()
      ensures this.driver == driver && this.dsn == dsn && this.forceRollback == forceRollback
      ensures pool.None? && globalConnection.None? && held == multiset{}
    {
      this.driver := driver;
      this.dsn := dsn;
      this.forceRollback := forceRollback;
      pool := None;
      globalConnection := None;
      held := multiset{};
    }

    /** `connect` (core.py:59-66): opens the global connection or creates the
        pool, which `handle` names; asserts it was not open already. */
    method Connect(handle: nat) returns (r: Result<()>)
      requires Valid()
      modifies this, driver
      ensures Valid() && held == old(held)
      ensures r.Err? <==> (if forceRollback then old(globalConnection).Some? else old(pool).Some?)
      ensures r.Err? ==> (r.error == AssertionError(AlreadyConnected)
        && pool == old(pool) && globalConnection == old(globalConnection) && driver.log == old(driver.log))
      ensures r.Ok? && forceRollback ==> (globalConnection == Some(handle) && pool == old(pool)
        && driver.log == old(driver.log) + [OpenConnection(dsn, handle)])
      ensures r.Ok? && !forceRollback ==> (pool == Some(handle) && globalConnection == old(globalConnection)
        && driver.log == old(driver.log) + [CreatePool(dsn, handle)])
    {
      if forceRollback {
        if globalConnection.Some? {
          return Err(AssertionError(AlreadyConnected));
        }
        driver.Send(OpenConnection(dsn, handle));
        globalConnection := Some(handle);
        return Ok(());
      }
      if pool.Some? {
        return Err(AssertionError(AlreadyConnected));
      }
      driver.Send(CreatePool(dsn, handle));
      pool := Some(handle);
      return Ok(());
    }

    /** `disconnect` (core.py:68-80): closes the global connection, or closes
        the pool and terminates it when the close does not finish in time
        (`closedInTime` stands for the outcome of `wait_for`); either way
        the field is reset. Asserts it was open. */
    method Disconnect(closedInTime: bool) returns (r: Result<()>)
      requires Valid()
      modifies this, driver
      ensures Valid() && held == old(held)
      ensures r.Err? <==> (if forceRollback then old(globalConnection).None? else old(pool).None?)
      ensures r.Err? ==> (r.error == AssertionError(NotConnected)
        && pool == old(pool) && globalConnection == old(globalConnection) && driver.log == old(driver.log))
      ensures r.Ok? && forceRollback ==> (globalConnection.None? && pool == old(pool)
        && driver.log == old(driver.log) + [CloseConnection(old(globalConnection).value)])
      ensures r.Ok? && !forceRollback ==> (pool.None? && globalConnection == old(globalConnection)
        && driver.log == old(driver.log) + [ClosePool(old(pool).value)]
           + (if closedInTime then [] else [TerminatePool(old(pool).value)]))
    {
      if forceRollback {
        if globalConnection.None? {
          return Err(AssertionError(NotConnected));
        }
        driver.Send(CloseConnection(globalConnection.value));
        globalConnection := None;
        return Ok(());
      }
      if pool.None? {
        return Err(AssertionError(NotConnected));
      }
      driver.Send(ClosePool(pool.value));
      if !closedInTime {
        driver.Send(TerminatePool(pool.value));
      }
      pool := None;
      return Ok(());
    }

    /** Entering `connection()` (core.py:84-87, 93-95). With forced rollback:
        the global connection inside a started transaction. Otherwise: a
        connection acquired from the pool (`acquired` names it). Asserts
        the database is connected. */
    method EnterConnection(acquired: ConnId) returns (r: Result<Connection>)
      requires Valid()
      modifies this, driver
      ensures Valid() && pool == old(pool) && globalConnection == old(globalConnection)
      ensures r.Err? <==> (if forceRollback then globalConnection.None? else pool.None?)
      ensures r.Err? ==> (r.error == AssertionError(NotConnected)
        && driver.log == old(driver.log) && held == old(held))
      ensures r.Ok? ==> fresh(r.value) && r.value.driver == driver
      ensures r.Ok? && forceRollback ==> (r.value.raw == globalConnection.value
        && driver.log == old(driver.log) + [Start(globalConnection.value)] && held == old(held))
      ensures r.Ok? && !forceRollback ==> (r.value.raw == acquired
        && driver.log == old(driver.log) + [Acquire(pool.value, acquired)]
        && held == old(held) + multiset{acquired})
    {
      if forceRollback {
        if globalConnection.None? {
          return Err(AssertionError(NotConnected));
        }
        var conn := new Connection(driver, globalConnection.value);
        conn.TransactionStart();
        return Ok(conn);
      }
      if pool.None? {
        return Err(AssertionError(NotConnected));
      }
      driver.Send(Acquire(pool.value, acquired));
      held := held + multiset{acquired};
      var conn := new Connection(driver, acquired);
      return Ok(conn);
    }

    /** Leaving `connection()` (core.py:88-91, 96-99). With forced rollback
        the transaction is always rolled back and `finally: return` swallows
        the body's exception. Otherwise the connection goes back to the pool
        the database holds now, and the body's exception propagates; with
        no pool left, the release itself fails with AttributeError. */
    method ExitConnection(conn: Connection, body: Exit) returns (outcome: Exit)
      requires Valid() && conn.driver == driver
      modifies this, driver
      ensures Valid() && pool == old(pool) && globalConnection == old(globalConnection)
      ensures forceRollback ==> (outcome == Normal
        && driver.log == old(driver.log) + [Rollback(conn.raw)] && held == old(held))
      ensures !forceRollback && pool.None? ==> (outcome == Threw(AttributeError)
        && driver.log == old(driver.log) && held == old(held))
      ensures !forceRollback && pool.Some? ==> (outcome == body
        && driver.log == old(driver.log) + [Release(pool.value, conn.raw)]
        && held == old(held) - multiset{conn.raw})
    {
      if forceRollback {
        var inner := conn.TransactionFinish(true, Normal);
        return Normal;
      }
      if pool.None? {
        return Threw(AttributeError);
      }
      driver.Send(Release(pool.value, conn.raw));
      held := held - multiset{conn.raw};
      return body;
    }

    /** A whole `connection()` scope whose body makes the calls `inner` and
        ends with `body`. In pool mode: one acquire before the body and one
        release of that same connection after it, whatever the body did. */
    method WithConnection(acquired: ConnId, inner: seq<Event>, body: Exit) returns (outcome: Exit)
      requires Valid()
      modifies this, driver
      ensures Valid() && pool == old(pool) && globalConnection == old(globalConnection) && held == old(held)
      ensures (if forceRollback then globalConnection.None? else pool.None?) ==>
        outcome == Threw(AssertionError(NotConnected)) && driver.log == old(driver.log)
      ensures forceRollback && globalConnection.Some? ==> (outcome == Normal
        && driver.log == old(driver.log) + [Start(globalConnection.value)] + inner + [Rollback(globalConnection.value)])
      ensures !forceRollback && pool.Some? ==> (outcome == body
        && driver.log == old(driver.log) + PoolScope(pool.value, acquired, inner))
    {
      var r := EnterConnection(acquired);
      if r.Err? {
        return Threw(r.error);
      }
      driver.log := driver.log + inner;
      outcome := ExitConnection(r.value, body);
    }

    /** The body of each convenience method ran in a pool scope: it is not
        reached in force-rollback mode, where the pool assertion fails. */
    method Execute(lib: Stdlib, acquired: ConnId, query: string, values: Value, status: string) returns (r: Result<()>)
      requires Valid()
      modifies this, driver
      ensures Valid() && pool == old(pool) && globalConnection == old(globalConnection) && held == old(held)
      ensures pool.None? ==> r == Err(AssertionError(NotConnected)) && driver.log == old(driver.log)
      ensures pool.Some? ==> (r == Reply(Compile(lib, query, values), ())
        && driver.log == old(driver.log)
           + PoolScope(pool.value, acquired, Sent(acquired, DriverExecute, Compile(lib, query, values))))
    {
      if pool.None? {
        return Err(AssertionError(NotConnected));
      }
      assert !forceRollback;
      ghost var log0, held0 := driver.log, held;
      var conn := EnterConnection(acquired);
      var res := conn.value.Execute(lib, query, values, status);
      ghost var sent := Sent(acquired, DriverExecute, Compile(lib, query, values));
      var outcome := ExitConnection(conn.value, if res.Err? then Threw(res.error) else Normal);
      assert held == held0 + multiset{acquired} - multiset{acquired} == held0;
      assert driver.log == log0 + [Acquire(pool.value, acquired)] + sent + [Release(pool.value, acquired)];
      r := if outcome.Threw? then Err(outcome.error) else Ok(());
    }

    /** `execute_many` (core.py:106-109). */
    method ExecuteMany(lib: Stdlib, acquired: ConnId, query: string, values: Value) returns (r: Result<()>)
      requires Valid()
      modifies this, driver
      ensures Valid() && pool == old(pool) && globalConnection == old(globalConnection) && held == old(held)
      ensures pool.None? ==> r == Err(AssertionError(NotConnected)) && driver.log == old(driver.log)
      ensures pool.Some? ==> (r == Reply(Compile(lib, query, values), ())
        && driver.log == old(driver.log)
           + PoolScope(pool.value, acquired, Sent(acquired, DriverExecuteMany, Compile(lib, query, values))))
    {
      if pool.None? {
        return Err(AssertionError(NotConnected));
      }
      assert !forceRollback;
      ghost var log0, held0 := driver.log, held;
      var conn := EnterConnection(acquired);
      var res := conn.value.ExecuteMany(lib, query, values);
      ghost var sent := Sent(acquired, DriverExecuteMany, Compile(lib, query, values));
      var outcome := ExitConnection(conn.value, if res.Err? then Threw(res.error) else Normal);
      assert held == held0 + multiset{acquired} - multiset{acquired} == held0;
      assert driver.log == log0 + [Acquire(pool.value, acquired)] + sent + [Release(pool.value, acquired)];
      r := if outcome.Threw? then Err(outcome.error) else Ok(());
    }

    /** `fetch_val` (core.py:111-114). */
    method FetchVal(lib: Stdlib, acquired: ConnId, query: string, values: Value, reply: Value) returns (r: Result<Value>)
      requires Valid()
      modifies this, driver
      ensures Valid() && pool == old(pool) && globalConnection == old(globalConnection) && held == old(held)
      ensures pool.None? ==> r == Err(AssertionError(NotConnected)) && driver.log == old(driver.log)
      ensures pool.Some? ==> (r == Reply(Compile(lib, query, values), reply)
        && driver.log == old(driver.log)
           + PoolScope(pool.value, acquired, Sent(acquired, DriverFetchVal, Compile(lib, query, values))))
    {
      if pool.None? {
        return Err(AssertionError(NotConnected));
      }
      assert !forceRollback;
      ghost var log0, held0 := driver.log, held;
      var conn := EnterConnection(acquired);
      var res := conn.value.FetchVal(lib, query, values, reply);
      ghost var sent := Sent(acquired, DriverFetchVal, Compile(lib, query, values));
      var outcome := ExitConnection(conn.value, if res.Err? then Threw(res.error) else Normal);
      assert held == held0 + multiset{acquired} - multiset{acquired} == held0;
      assert driver.log == log0 + [Acquire(pool.value, acquired)] + sent + [Release(pool.value, acquired)];
      r := if outcome.Threw? then Err(outcome.error) else res;
    }

    /** `fetch_one` (core.py:116-119). */
    method FetchOne(lib: Stdlib, acquired: ConnId, query: string, values: Value, reply: Option<Entries>) returns (r: Result<Option<Record>>)
      requires Valid()
      modifies this, driver
      ensures Valid() && pool == old(pool) && globalConnection == old(globalConnection) && held == old(held)
      ensures pool.None? ==> r == Err(AssertionError(NotConnected)) && driver.log == old(driver.log)
      ensures pool.Some? ==> (r == Reply(Compile(lib, query, values), WrapRow(reply))
        && driver.log == old(driver.log)
           + PoolScope(pool.value, acquired, Sent(acquired, DriverFetchRow, Compile(lib, query, values))))
    {
      if pool.None? {
        return Err(AssertionError(NotConnected));
      }
      assert !forceRollback;
      ghost var log0, held0 := driver.log, held;
      var conn := EnterConnection(acquired);
      var res := conn.value.FetchOne(lib, query, values, reply);
      ghost var sent := Sent(acquired, DriverFetchRow, Compile(lib, query, values));
      var outcome := ExitConnection(conn.value, if res.Err? then Threw(res.error) else Normal);
      assert held == held0 + multiset{acquired} - multiset{acquired} == held0;
      assert driver.log == log0 + [Acquire(pool.value, acquired)] + sent + [Release(pool.value, acquired)];
      r := if outcome.Threw? then Err(outcome.error) else res;
    }

    /** `fetch_many` (core.py:121-124). */
    method FetchMany(lib: Stdlib, acquired: ConnId, query: string, values: Value, replies: seq<Entries>) returns (r: Result<seq<Record>>)
      requires Valid()
      modifies this, driver
      ensures Valid() && pool == old(pool) && globalConnection == old(globalConnection) && held == old(held)
      ensures pool.None? ==> r == Err(AssertionError(NotConnected)) && driver.log == old(driver.log)
      ensures pool.Some? ==> (r == Reply(Compile(lib, query, values), WrapRows(replies))
        && driver.log == old(driver.log)
           + PoolScope(pool.value, acquired, Sent(acquired, DriverFetch, Compile(lib, query, values))))
    {
      if pool.None? {
        return Err(AssertionError(NotConnected));
      }
      assert !forceRollback;
      ghost var log0, held0 := driver.log, held;
      var conn := EnterConnection(acquired);
      var res := conn.value.FetchMany(lib, query, values, replies);
      ghost var sent := Sent(acquired, DriverFetch, Compile(lib, query, values));
      var outcome := ExitConnection(conn.value, if res.Err? then Threw(res.error) else Normal);
      assert held == held0 + multiset{acquired} - multiset{acquired} == held0;
      assert driver.log == log0 + [Acquire(pool.value, acquired)] + sent + [Release(pool.value, acquired)];
      r := if outcome.Threw? then Err(outcome.error) else res;
    }

    /** `copy_records_to_table` (core.py:126-137). */
    method CopyRecordsToTable(lib: Stdlib, acquired: ConnId, table: string, records: seq<seq<Value>>, columns: Option<seq<string>>) returns (r: Result<()>)
      requires Valid()
      modifies this, driver
      ensures Valid() && pool == old(pool) && globalConnection == old(globalConnection) && held == old(held)
      ensures pool.None? ==> r == Err(AssertionError(NotConnected)) && driver.log == old(driver.log)
      ensures pool.Some? ==> (r == Ok(())
        && driver.log == old(driver.log)
           + PoolScope(pool.value, acquired, [CopyRecords(acquired, table, CoerceRecords(lib, records), columns)]))
    {
      if pool.None? {
        return Err(AssertionError(NotConnected));
      }
      assert !forceRollback;
      ghost var log0, held0 := driver.log, held;
      var conn := EnterConnection(acquired);
      conn.value.CopyRecordsToTable(lib, table, records, columns);
      ghost var sent := [CopyRecords(acquired, table, CoerceRecords(lib, records), columns)];
      var outcome := ExitConnection(conn.value, Normal);
      assert held == held0 + multiset{acquired} - multiset{acquired} == held0;
      assert driver.log == log0 + [Acquire(pool.value, acquired)] + sent + [Release(pool.value, acquired)];
      r := Ok(());
    }
  }

  /** At most one of the two state fields is ever populated. */
  lemma OneFieldAtMost(db: Database)
    requires db.Valid()
    ensures db.pool.None? || db.globalConnection.None?
  {
  }

  /** Every convenience method fails its assertion in force-rollback mode:
      such a database never holds a pool. */
  lemma ForceRollbackHasNoPool(db: Database)
    requires db.Valid() && db.forceRollback
    ensures db.pool.None?
  {
  }
}
