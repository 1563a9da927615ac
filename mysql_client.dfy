/**
 * The control logic of the MySQL client: option filtering, the connection
 * template, the retry-once and exception-translation wrappers around every
 * statement, database creation and deletion, and the transaction wrapper.
 *
 * The driver is not modelled: every network round trip is an input outcome
 * (`Ok` with what the driver returned, or `Err` with what it raised), and the
 * client records what it did in a ghost event trace.
 */
module MySQLClient {
  import opened Wrappers
  import opened Models
  import opened Errors

  // ---------------------------------------------------------------------
  // Options and the connection template

  /** The keyword arguments `__init__` takes by name; `**kwargs` can never hold them. */
  const NamedParams: set<string> := {"user", "password", "database", "host", "port"}

  /** The options the base client consumes, popped from the copy of `kwargs`. */
  const ReservedKeys: set<string> := {"connection_name", "fetch_inserted", "db", "autocommit"}

  /** `d.pop(k, None)` on a dictionary, keeping only the dictionary. */
  function Pop(d: map<string, Value>, k: string): map<string, Value>
  {
    if k in d then d - {k} else d
  }

  /**
   * `self.extra`: a copy of `kwargs` with the four reserved keys popped. Every
   * other key keeps its value.
   */
  function ExtraOptions(kwargs: map<string, Value>): (extra: map<string, Value>)
    ensures forall k :: k in extra <==> k in kwargs && k !in ReservedKeys
    ensures forall k :: k in extra ==> extra[k] == kwargs[k]
  {
    Pop(Pop(Pop(Pop(kwargs, "connection_name"), "fetch_inserted"), "db"), "autocommit")
  }

  /**
   * `self._template` as `create_connection` builds it: the fixed entries,
   * overlaid by the extra options.
   */
  function Template(host: string, port: int, user: string, database: string, withDb: bool,
                    extra: map<string, Value>): map<string, Value>
  {
    map["host" := Str(host), "port" := Int(port), "user" := Str(user),
        "db" := (if withDb then Str(database) else Null), "autocommit" := Bool(true)] + extra
  }

  /**
   * For options filtered from keyword arguments, the template never holds the
   * password, `db` is the database exactly when `with_db`, `autocommit` is on,
   * host, port and user are the client's own, and every extra option is passed
   * on unchanged.
   */
  lemma TemplateOfFilteredOptions(host: string, port: int, user: string, database: string, withDb: bool,
                                  kwargs: map<string, Value>)
    requires NamedParams !! kwargs.Keys
    ensures var t := Template(host, port, user, database, withDb, ExtraOptions(kwargs));
            && "password" !in t
            && t["db"] == (if withDb then Str(database) else Null)
            && t["autocommit"] == Bool(true)
            && t["host"] == Str(host) && t["port"] == Int(port) && t["user"] == Str(user)
            && (forall k :: k in kwargs && k !in ReservedKeys ==> k in t && t[k] == kwargs[k])
            && (forall k :: k in t ==> k in kwargs || k in {"host", "port", "user", "db", "autocommit"})
  {
    var extra := ExtraOptions(kwargs);
    assert "password" !in extra && "host" !in extra && "port" !in extra && "user" !in extra;
    assert "db" !in extra && "autocommit" !in extra;
  }

  // ---------------------------------------------------------------------
  // The two wrappers, as functions of the driver outcomes

  /**
   * The exceptions after which `retry_connection` reconnects and calls again:
   * `RuntimeError` with its subclass `NotImplementedError`, and three pymysql classes.
   */
  predicate Retryable(e: Error)
  {
    || e == RuntimeError || e == NotImplementedError
    || e == Driver(PyOperationalError) || e == Driver(PyInternalError) || e == Driver(PyInterfaceError)
  }

  /** The outcome `retry_connection` returns: the first call's, or after a retryable failure the second call's. */
  function Retried<T>(first: Result<T, Error>, second: Result<T, Error>): (r: Result<T, Error>)
    ensures first.Ok? ==> r == first
    ensures first.Err? && !Retryable(first.error) ==> r == first
    ensures first.Err? && Retryable(first.error) ==> r == second
  {
    if first.Err? && Retryable(first.error) then second else first
  }

  /** Whether `retry_connection` makes a second attempt after this first outcome. */
  predicate RetryHappens<T>(first: Result<T, Error>)
  {
    first.Err? && Retryable(first.error)
  }

  /** The connection open after a call made on connection `conn`: the reconnected one if a reconnect succeeded. */
  function ConnAfter<T>(conn: nat, first: Result<T, Error>, reconnect: Result<nat, Error>): nat
  {
    if RetryHappens(first) && reconnect.Ok? then reconnect.value else conn
  }

  /** The events of one call made on connection `conn`: the single call, or the retry. */
  function CallEvents<T>(conn: Option<nat>, first: Result<T, Error>, reconnect: Result<nat, Error>): seq<Event>
  {
    if RetryHappens(first) then RetryTrace(conn, reconnect) else [Called]
  }

  /** The exception `translate_exceptions` raises in place of `e`. */
  function Translate(e: Error): (t: Error)
    ensures e in {Driver(PyOperationalError), Driver(PyProgrammingError), Driver(PyDataError),
                  Driver(PyInternalError), Driver(PyNotSupportedError)}
            ==> t == OperationalError(Cause(e.driver))
    ensures e == Driver(PyIntegrityError) ==> t == IntegrityError(PyIntegrityError)
    ensures !(e.Driver? && e.driver in {PyOperationalError, PyProgrammingError, PyDataError,
                                        PyInternalError, PyNotSupportedError, PyIntegrityError})
            ==> t == e
  {
    match e
    case Driver(d) =>
      (match d
       case PyOperationalError => OperationalError(Cause(d))
       case PyProgrammingError => OperationalError(Cause(d))
       case PyDataError => OperationalError(Cause(d))
       case PyInternalError => OperationalError(Cause(d))
       case PyNotSupportedError => OperationalError(Cause(d))
       case PyIntegrityError => IntegrityError(d)
       case _ => e)
    case _ => e
  }

  function TranslateResult<T>(r: Result<T, Error>): Result<T, Error>
  {
    if r.Err? then Err(Translate(r.error)) else r
  }

  /** Translating twice changes nothing more: the translated exceptions are ORM exceptions. */
  lemma TranslateIdempotent(e: Error)
    ensures Translate(Translate(e)) == Translate(e)
  {
  }

  /**
   * After translation the only pymysql exceptions left are `DatabaseError`
   * itself and `InterfaceError`.
   */
  lemma TranslatedDriverErrors(e: Error)
    ensures Translate(e).Driver? <==> e == Driver(PyDatabaseError) || e == Driver(PyInterfaceError)
  {
  }

  /** The exceptions `db_delete` swallows around its DROP: pymysql `DatabaseError` and its subclasses. */
  predicate Swallowed(e: Error)
  {
    e.Driver? && IsDatabaseErrorClass(e.driver)
  }

  /**
   * Because `execute_script` translates before `db_delete` catches, the only
   * failure `db_delete` swallows is a bare pymysql `DatabaseError`: an
   * `OperationalError` from the DROP (an unknown database, say) escapes as the
   * ORM's `OperationalError`.
   */
  lemma SwallowedAfterTranslation(e: Error)
    ensures Swallowed(Translate(e)) <==> e == Driver(PyDatabaseError)
    ensures e == Driver(PyOperationalError) ==> Translate(e) == OperationalError(Cause(PyOperationalError))
  {
  }

  // ---------------------------------------------------------------------
  // The client

  /** What the client did, in order. */
  datatype Event =
    | Called                 // the wrapped statement was sent
    | Acquired               // `self._lock.acquire()`
    | Released               // `self._lock.release()`
    | Closed(conn: nat)      // `self._connection.close()`
    | Connected(conn: nat)   // `aiomysql.connect` returned this connection
    | ConnectFailed          // `aiomysql.connect` raised

  /** The events `_close` records: a close of the current connection, if there is one. */
  function CloseEvents(connection: Option<nat>): seq<Event>
  {
    if connection.Some? then [Closed(connection.value)] else []
  }

  /** The event `create_connection` records for the outcome of `aiomysql.connect`. */
  function ConnectEvent(outcome: Result<nat, Error>): Event
  {
    if outcome.Ok? then Connected(outcome.value) else ConnectFailed
  }

  /** The number of statements sent in a trace. */
  function CallCount(events: seq<Event>): (n: nat)
    ensures n <= |events|
  {
    if events == [] then 0 else CallCount(events[..|events| - 1]) + (if events[|events| - 1] == Called then 1 else 0)
  }

  /** Counting distributes over concatenation. */
  lemma {:induction false} CallCountAppend(a: seq<Event>, b: seq<Event>)
    ensures CallCount(a + b) == CallCount(a) + CallCount(b)
    decreases |b|
  {
    if b == [] {
      assert a + b == a;
    } else {
      assert (a + b)[..|a + b| - 1] == a + b[..|b| - 1];
      CallCountAppend(a, b[..|b| - 1]);
    }
  }

  /** The lock is balanced in a trace: acquisitions and releases alternate, starting with an acquisition. */
  predicate LockBalanced(events: seq<Event>)
  {
    forall i :: 0 <= i < |events| && events[i] in {Acquired, Released} ==>
      (events[i] == Acquired <==> LockDepth(events[..i]) == 0)
  }

  /** How many acquisitions are not yet released in a trace. */
  function LockDepth(events: seq<Event>): int
  {
    if events == [] then 0
    else LockDepth(events[..|events| - 1]) +
         (if events[|events| - 1] == Acquired then 1 else if events[|events| - 1] == Released then -1 else 0)
  }

  /** A one-event trace sends a statement exactly when the event is one. */
  lemma CallCountSingle(e: Event)
    ensures CallCount([e]) == (if e == Called then 1 else 0)
  {
    assert [e][..0] == [];
  }

  /** Appending one event moves the lock depth by that event's step. */
  lemma LockDepthSnoc(t: seq<Event>, e: Event)
    ensures LockDepth(t + [e]) == LockDepth(t) + (if e == Acquired then 1 else if e == Released then -1 else 0)
  {
    assert (t + [e])[..|t|] == t;
  }

  /**
   * The events of a retry after a retryable first failure: the first call,
   * the lock taken, the connection closed, one reconnect attempted, the lock
   * released, the second call.
   */
  function RetryTrace(connection: Option<nat>, outcome: Result<nat, Error>): seq<Event>
  {
    [Called, Acquired] + CloseEvents(connection) + [ConnectEvent(outcome), Released, Called]
  }

  /** A retry sends exactly two statements. */
  lemma RetryTraceCalls(connection: Option<nat>, outcome: Result<nat, Error>)
    ensures CallCount(RetryTrace(connection, outcome)) == 2
  {
    var c := CloseEvents(connection);
    var t0 := [Called];
    var t1 := t0 + [Acquired];
    var t2 := t1 + c;
    var t3 := t2 + [ConnectEvent(outcome)];
    var t4 := t3 + [Released];
    var t5 := t4 + [Called];
    assert t5 == RetryTrace(connection, outcome);
    CallCountSingle(Called);
    CallCountSingle(Acquired);
    CallCountSingle(ConnectEvent(outcome));
    CallCountSingle(Released);
    CallCountAppend(t0, [Acquired]);
    CallCountAppend(t1, c);
    if connection.Some? {
      CallCountSingle(c[0]);
      assert c == [c[0]];
    }
    CallCountAppend(t2, [ConnectEvent(outcome)]);
    CallCountAppend(t3, [Released]);
    CallCountAppend(t4, [Called]);
  }

  /**
   * A retry takes the lock once and releases it once, balanced, so the lock
   * ends as it started.
   */
  lemma RetryTraceLock(connection: Option<nat>, outcome: Result<nat, Error>)
    ensures LockDepth(RetryTrace(connection, outcome)) == 0
    ensures LockBalanced(RetryTrace(connection, outcome))
  {
    var c := CloseEvents(connection);
    var t0 := [Called];
    var t1 := t0 + [Acquired];
    var t2 := t1 + c;
    var t3 := t2 + [ConnectEvent(outcome)];
    var t4 := t3 + [Released];
    var t5 := t4 + [Called];
    assert t5 == RetryTrace(connection, outcome);
    LockDepthSnoc([], Called);
    assert [] + [Called] == t0;
    LockDepthSnoc(t0, Acquired);
    assert LockDepth(t2) == 1 by {
      if connection.Some? {
        LockDepthSnoc(t1, c[0]);
        assert t2 == t1 + [c[0]];
      } else {
        assert t2 == t1;
      }
    }
    LockDepthSnoc(t2, ConnectEvent(outcome));
    LockDepthSnoc(t3, Released);
    LockDepthSnoc(t4, Called);
    assert t5[..1] == t0 && t5[..|t3|] == t3;
    forall i | 0 <= i < |t5| && t5[i] in {Acquired, Released}
      ensures t5[i] == Acquired <==> LockDepth(t5[..i]) == 0
    {
      assert i == 1 || i == |t3|;
    }
  }

  class Client {
    const user: string
    const password: string
    const database: string
    const host: string
    const port: int
    const extra: map<string, Value>
    const connectionName: string

    var template: map<string, Value>
    var connection: Option<nat>
    var locked: bool
    ghost var events: seq<Event>

    /**
     * `__init__`: the port as an integer, the extra options filtered from the
     * keyword arguments, an empty template and no connection.
     */
    constructor (connectionName: string, user: string, password: string, database: string, host: string,
                 port: int, kwargs: map<string, Value>)
      requires NamedParams !! kwargs.Keys
      ensures this.connectionName == connectionName
      ensures this.user == user && this.password == password && this.database == database
      ensures this.host == host && this.port == port
      ensures extra == ExtraOptions(kwargs)
      ensures template == map[] && connection == None && !locked && events == []
    {
      this.connectionName := connectionName;
      this.user := user;
      this.password := password;
      this.database := database;
      this.host := host;
      this.port := port;
      extra := ExtraOptions(kwargs);
      template := map[];
      connection := None;
      locked := false;
      events := [];
    }

    /** The template `create_connection(with_db)` installs. */
    function TemplateFor(withDb: bool): map<string, Value>
    {
      Template(host, port, user, database, withDb, extra)
    }

    /**
     * `create_connection`: the template is rebuilt first, then the connection
     * attempted; a pymysql `OperationalError` becomes a `DBConnectionError`
     * carrying the template, any other failure propagates unchanged.
     */
    method CreateConnection(withDb: bool, outcome: Result<nat, Error>) returns (r: Result<(), Error>)
      modifies this
      ensures template == TemplateFor(withDb)
      ensures outcome.Ok? ==> r.Ok? && connection == Some(outcome.value)
      ensures outcome.Err? ==> connection == old(connection)
      ensures outcome.Err? && outcome.error == Driver(PyOperationalError) ==> r == Err(DBConnectionError(template))
      ensures outcome.Err? && outcome.error != Driver(PyOperationalError) ==> r == Err(outcome.error)
      ensures events == old(events) + [ConnectEvent(outcome)]
      ensures locked == old(locked)
    {
      template := TemplateFor(withDb);
      events := events + [ConnectEvent(outcome)];
      if outcome.Ok? {
        connection := Some(outcome.value);
        r := Ok(());
      } else if outcome.error == Driver(PyOperationalError) {
        r := Err(DBConnectionError(template));
      } else {
        r := Err(outcome.error);
      }
    }

    /** `_close`: closes the connection if there is one and only then clears the template; the reference stays. */
    method Close_()
      modifies this
      ensures connection == old(connection)
      ensures template == (if old(connection).Some? then map[] else old(template))
      ensures events == old(events) + CloseEvents(old(connection))
      ensures locked == old(locked)
    {
      if connection.Some? {
        events := events + [Closed(connection.value)];
        template := map[];
      }
    }

    /** `close`: `_close`, then the connection is forgotten. */
    method Close()
      modifies this
      ensures connection == None
      ensures template == (if old(connection).Some? then map[] else old(template))
      ensures events == old(events) + CloseEvents(old(connection))
      ensures locked == old(locked)
    {
      Close_();
      connection := None;
    }

    /**
     * `retry_connection` around one call. `first` and `second` are what the
     * call yields on its first and (if made) second attempt, `reconnect` what
     * `aiomysql.connect` yields on the reconnect. After a retryable failure the
     * lock is taken, the connection closed and re-created with the database,
     * any failure of that swallowed, the lock released and the call made once
     * more, whose outcome is returned as it is.
     */
    method RetryConnection<T>(first: Result<T, Error>, reconnect: Result<nat, Error>, second: Result<T, Error>)
      returns (r: Result<T, Error>)
      requires !locked
      modifies this
      ensures r == Retried(first, second)
      ensures !locked
      ensures first.Ok? || !Retryable(first.error) ==>
                && events == old(events) + [Called]
                && connection == old(connection) && template == old(template)
      ensures first.Err? && Retryable(first.error) ==>
                && events == old(events) + RetryTrace(old(connection), reconnect)
                && template == TemplateFor(true)
                && connection == (if reconnect.Ok? then Some(reconnect.value) else old(connection))
    {
      events := events + [Called];
      if first.Ok? || !Retryable(first.error) {
        return first;
      }
      locked := true;
      events := events + [Acquired];
      Close_();
      var reconnected := CreateConnection(true, reconnect);
      locked := false;
      events := events + [Released];
      events := events + [Called];
      r := second;
    }

    /**
     * `execute_insert`, `execute_query` and `execute_script`: the retrying
     * call, with its exception translated.
     */
    method Execute<T>(first: Result<T, Error>, reconnect: Result<nat, Error>, second: Result<T, Error>)
      returns (r: Result<T, Error>)
      requires !locked
      modifies this
      ensures r == TranslateResult(Retried(first, second))
      ensures !locked
      ensures first.Ok? || !Retryable(first.error) ==>
                events == old(events) + [Called] && connection == old(connection) && template == old(template)
      ensures first.Err? && Retryable(first.error) ==>
                && events == old(events) + RetryTrace(old(connection), reconnect)
                && template == TemplateFor(true)
                && connection == (if reconnect.Ok? then Some(reconnect.value) else old(connection))
    {
      var raw := RetryConnection(first, reconnect, second);
      r := TranslateResult(raw);
    }

    /**
     * `db_create`: connect without a database, run the CREATE, close. A failed
     * connect propagates with the client as it was apart from the template; a
     * failed CREATE propagates and leaves the client connected, to the
     * connection made here or, after a retry, to the one the reconnect made.
     */
    method DbCreate(connect: Result<nat, Error>,
                    first: Result<(), Error>, reconnect: Result<nat, Error>, second: Result<(), Error>)
      returns (r: Result<(), Error>)
      requires !locked
      modifies this
      ensures !locked
      ensures connect.Err? ==>
                && r == Err(if connect.error == Driver(PyOperationalError)
                            then DBConnectionError(TemplateFor(false)) else connect.error)
                && connection == old(connection) && template == TemplateFor(false)
                && events == old(events) + [ConnectEvent(connect)]
      ensures connect.Ok? ==> r == TranslateResult(Retried(first, second))
      ensures connect.Ok? ==>
                (var live := ConnAfter(connect.value, first, reconnect);
                 var called := old(events) + [ConnectEvent(connect)] + CallEvents(Some(connect.value), first, reconnect);
                 if r.Ok? then
                   connection == None && template == map[] && events == called + [Closed(live)]
                 else
                   && connection == Some(live)
                   && template == TemplateFor(RetryHappens(first))
                   && events == called)
    {
      r := CreateConnection(false, connect);
      if r.Err? {
        return;
      }
      r := Execute(first, reconnect, second);
      if r.Err? {
        return;
      }
      Close();
    }

    /**
     * `db_delete`: connect without a database, run the DROP swallowing
     * pymysql `DatabaseError`, close. The DROP's failure is seen after
     * translation, so only a bare `DatabaseError` is swallowed; any other
     * failure propagates and leaves the client connected.
     */
    method DbDelete(connect: Result<nat, Error>,
                    first: Result<(), Error>, reconnect: Result<nat, Error>, second: Result<(), Error>)
      returns (r: Result<(), Error>)
      requires !locked
      modifies this
      ensures !locked
      ensures connect.Err? ==>
                && r == Err(if connect.error == Driver(PyOperationalError)
                            then DBConnectionError(TemplateFor(false)) else connect.error)
                && connection == old(connection) && template == TemplateFor(false)
                && events == old(events) + [ConnectEvent(connect)]
      ensures connect.Ok? ==>
                (var dropped := TranslateResult(Retried(first, second));
                 r == (if dropped.Err? && !Swallowed(dropped.error) then dropped else Ok(())))
      ensures connect.Ok? ==>
                (var live := ConnAfter(connect.value, first, reconnect);
                 var called := old(events) + [ConnectEvent(connect)] + CallEvents(Some(connect.value), first, reconnect);
                 if r.Ok? then
                   connection == None && template == map[] && events == called + [Closed(live)]
                 else
                   && connection == Some(live)
                   && template == TemplateFor(RetryHappens(first))
                   && events == called)
    {
      r := CreateConnection(false, connect);
      if r.Err? {
        return;
      }
      var dropped := Execute(first, reconnect, second);
      if dropped.Err? && !Swallowed(dropped.error) {
        return dropped;
      }
      Close();
      r := Ok(());
    }

    /** `_in_transaction`: a wrapper sharing this client's connection name and connection. */
    method InTransaction(id: nat) returns (t: TransactionWrapper)
      ensures fresh(t) && t.Valid()
      ensures t.id == id && t.connectionName == connectionName && t.connection == connection
      ensures !t.finalized && t.oldContextValue == None && t.issued == [] && !t.sharedClosed
    {
      t := new TransactionWrapper(id, connectionName, connection);
    }
  }

  // ---------------------------------------------------------------------
  // Transactions

  /** `current_transaction_map`: per connection name, the current transaction (by identity) or `None`. */
  class TransactionContext {
    var current: map<string, Option<nat>>

    constructor (current: map<string, Option<nat>>)
      ensures this.current == current
    {
      this.current := current;
    }
  }

  /** The statements a transaction sends. */
  datatype TxStatement = BeginStmt | CommitStmt | RollbackStmt

  /** The number of COMMIT or ROLLBACK statements in a trace. */
  function FinishCount(issued: seq<TxStatement>): (n: nat)
    ensures n <= |issued|
  {
    if issued == [] then 0
    else FinishCount(issued[..|issued| - 1]) + (if issued[|issued| - 1] == BeginStmt then 0 else 1)
  }

  /** Sending BEGIN leaves the count of finishing statements as it was. */
  lemma FinishCountBegin(issued: seq<TxStatement>)
    ensures FinishCount(issued + [BeginStmt]) == FinishCount(issued)
  {
    assert (issued + [BeginStmt])[..|issued|] == issued;
  }

  /** The BEGIN statements `start` sends: one, or two when the first is retried. */
  function Begins(retried: bool): (b: seq<TxStatement>)
    ensures forall i :: 0 <= i < |b| ==> b[i] == BeginStmt
  {
    if retried then [BeginStmt, BeginStmt] else [BeginStmt]
  }

  /** Sending the BEGINs of `start` leaves the count of finishing statements as it was. */
  lemma FinishCountBegins(issued: seq<TxStatement>, retried: bool)
    ensures FinishCount(issued + Begins(retried)) == FinishCount(issued)
  {
    FinishCountBegin(issued);
    if retried {
      FinishCountBegin(issued + [BeginStmt]);
      assert issued + [BeginStmt] + [BeginStmt] == issued + Begins(retried);
    }
  }

  /** Sending COMMIT or ROLLBACK adds one. */
  lemma FinishCountFinish(issued: seq<TxStatement>, s: TxStatement)
    requires s != BeginStmt
    ensures FinishCount(issued + [s]) == FinishCount(issued) + 1
  {
    assert (issued + [s])[..|issued|] == issued;
  }

  class TransactionWrapper {
    const id: nat
    const connectionName: string
    const connection: Option<nat>
    var finalized: bool
    var oldContextValue: Option<nat>
    ghost var issued: seq<TxStatement>
    ghost var sharedClosed: bool      // the connection shared with the client was closed by a retry

    /** At most one COMMIT or ROLLBACK is ever sent, and one has been exactly when the transaction is finalised. */
    ghost predicate Valid()
      reads this
    {
      FinishCount(issued) == (if finalized then 1 else 0)
    }

    constructor (id: nat, connectionName: string, connection: Option<nat>)
      ensures Valid()
      ensures this.id == id && this.connectionName == connectionName && this.connection == connection
      ensures !finalized && oldContextValue == None && issued == [] && !sharedClosed
    {
      this.id := id;
      this.connectionName := connectionName;
      this.connection := connection;
      finalized := false;
      oldContextValue := None;
      issued := [];
      sharedClosed := false;
    }

    /**
     * The BEGIN of `start` under `retry_connection`: sent once, or after a
     * retryable failure, with the shared connection closed, sent again.
     */
    method Begin(begin: Result<(), Error>, again: Result<(), Error>) returns (began: Result<(), Error>)
      requires Valid()
      modifies this
      ensures Valid() && finalized == old(finalized) && oldContextValue == old(oldContextValue)
      ensures began == Retried(begin, again)
      ensures issued == old(issued) + Begins(RetryHappens(begin))
      ensures sharedClosed == (old(sharedClosed) || (RetryHappens(begin) && connection.Some?))
    {
      FinishCountBegins(issued, RetryHappens(begin));
      issued := issued + Begins(RetryHappens(begin));
      if RetryHappens(begin) {
        sharedClosed := sharedClosed || connection.Some?;
        began := again;
      } else {
        began := begin;
      }
    }

    /**
     * `start` under `retry_connection`: BEGIN, then the current transaction
     * of this connection name is saved and replaced by this one; an unknown
     * connection name raises `KeyError`. After a retryable BEGIN failure the
     * wrapper's `_close` closes the shared connection and then fails on the
     * wrapper's missing `_template`; that failure is swallowed, so no
     * reconnect happens and BEGIN is sent once more, with outcome `again`.
     */
    method Start(ctx: TransactionContext, begin: Result<(), Error>, again: Result<(), Error>)
      returns (r: Result<(), Error>)
      requires Valid()
      modifies this, ctx
      ensures Valid() && finalized == old(finalized)
      ensures issued == old(issued) + Begins(RetryHappens(begin))
      ensures sharedClosed == (old(sharedClosed) || (RetryHappens(begin) && connection.Some?))
      ensures Retried(begin, again).Err? ==>
                r == Retried(begin, again) && unchanged(ctx) && oldContextValue == old(oldContextValue)
      ensures Retried(begin, again).Ok? && connectionName !in old(ctx.current) ==>
                r == Err(KeyError(connectionName)) && unchanged(ctx) && oldContextValue == old(oldContextValue)
      ensures Retried(begin, again).Ok? && connectionName in old(ctx.current) ==>
                && r.Ok?
                && oldContextValue == old(ctx.current)[connectionName]
                && ctx.current == old(ctx.current)[connectionName := Some(id)]
    {
      var began := Begin(begin, again);
      if began.Err? {
        return began;
      }
      if connectionName !in ctx.current {
        return Err(KeyError(connectionName));
      }
      oldContextValue := ctx.current[connectionName];
      ctx.current := ctx.current[connectionName := Some(id)];
      r := Ok(());
    }

    /**
     * The shared body of `commit` and `rollback`: refuse a finalised
     * transaction; otherwise mark it finalised, send the statement, and on
     * success restore the saved current transaction.
     */
    method Finish(ctx: TransactionContext, stmt: TxStatement, outcome: Result<(), Error>) returns (r: Result<(), Error>)
      requires Valid() && stmt != BeginStmt
      modifies this, ctx
      ensures Valid() && finalized
      ensures oldContextValue == old(oldContextValue)
      ensures old(finalized) ==>
                && r == Err(TransactionManagementError("Transaction already finalised"))
                && issued == old(issued) && unchanged(ctx)
      ensures !old(finalized) ==> issued == old(issued) + [stmt]
      ensures !old(finalized) && outcome.Err? ==> r == outcome && unchanged(ctx)
      ensures !old(finalized) && outcome.Ok? && connectionName !in old(ctx.current) ==>
                r == Err(KeyError(connectionName)) && unchanged(ctx)
      ensures !old(finalized) && outcome.Ok? && connectionName in old(ctx.current) ==>
                r.Ok? && ctx.current == old(ctx.current)[connectionName := oldContextValue]
    {
      if finalized {
        return Err(TransactionManagementError("Transaction already finalised"));
      }
      finalized := true;
      FinishCountFinish(issued, stmt);
      issued := issued + [stmt];
      if outcome.Err? {
        return outcome;
      }
      if connectionName !in ctx.current {
        return Err(KeyError(connectionName));
      }
      ctx.current := ctx.current[connectionName := oldContextValue];
      r := Ok(());
    }

    /** `commit`. */
    method Commit(ctx: TransactionContext, outcome: Result<(), Error>) returns (r: Result<(), Error>)
      requires Valid()
      modifies this, ctx
      ensures Valid() && finalized
      ensures oldContextValue == old(oldContextValue)
      ensures old(finalized) ==>
                r == Err(TransactionManagementError("Transaction already finalised")) && issued == old(issued) && unchanged(ctx)
      ensures !old(finalized) ==> issued == old(issued) + [CommitStmt]
      ensures !old(finalized) && outcome.Err? ==> r == outcome && unchanged(ctx)
      ensures !old(finalized) && outcome.Ok? && connectionName !in old(ctx.current) ==>
                r == Err(KeyError(connectionName)) && unchanged(ctx)
      ensures !old(finalized) && outcome.Ok? && connectionName in old(ctx.current) ==>
                r.Ok? && ctx.current == old(ctx.current)[connectionName := oldContextValue]
    {
      r := Finish(ctx, CommitStmt, outcome);
    }

    /** `rollback`. */
    method Rollback(ctx: TransactionContext, outcome: Result<(), Error>) returns (r: Result<(), Error>)
      requires Valid()
      modifies this, ctx
      ensures Valid() && finalized
      ensures oldContextValue == old(oldContextValue)
      ensures old(finalized) ==>
                r == Err(TransactionManagementError("Transaction already finalised")) && issued == old(issued) && unchanged(ctx)
      ensures !old(finalized) ==> issued == old(issued) + [RollbackStmt]
      ensures !old(finalized) && outcome.Err? ==> r == outcome && unchanged(ctx)
      ensures !old(finalized) && outcome.Ok? && connectionName !in old(ctx.current) ==>
                r == Err(KeyError(connectionName)) && unchanged(ctx)
      ensures !old(finalized) && outcome.Ok? && connectionName in old(ctx.current) ==>
                r.Ok? && ctx.current == old(ctx.current)[connectionName := oldContextValue]
    {
      r := Finish(ctx, RollbackStmt, outcome);
    }
  }

  /**
   * A transaction that was started and then committed restores the current
   * transaction the start displaced, and a later rollback is refused.
   */
  method StartCommitRollback(ctx: TransactionContext, t: TransactionWrapper, name: string)
    returns (started: Result<(), Error>, committed: Result<(), Error>, rolled: Result<(), Error>)
    requires t.Valid() && !t.finalized && t.connectionName == name && name in ctx.current
    modifies t, ctx
    ensures started.Ok? && committed.Ok?
    ensures ctx.current == old(ctx.current)
    ensures rolled == Err(TransactionManagementError("Transaction already finalised"))
    ensures FinishCount(t.issued) == 1
  {
    ghost var before := ctx.current;
    started := t.Start(ctx, Ok(()), Ok(()));
    assert t.oldContextValue == before[name];
    committed := t.Commit(ctx, Ok(()));
    assert ctx.current == before[name := Some(t.id)][name := before[name]];
    assert ctx.current == before;
    rolled := t.Rollback(ctx, Ok(()));
  }
}
