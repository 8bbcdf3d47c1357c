/** The multi-tenant migration orchestrator stated on values. The datasource, Liquibase and its
    database handle are an environment that records every effect in an event trace; a fault oracle
    says which of their operations fail. The class in module MultiTenant runs these steps in place;
    its update methods are proved to produce exactly the states described here, and its session
    build the states described here up to the order of parameter events. */
module Orchestration {
  import opened LiquibaseConfig

  /** A JDBC connection, identified by the order in which the datasource handed it out. */
  datatype Conn = Conn(id: nat)

  /** The two ways of asking the datasource for a connection. */
  datatype Credentials = DefaultCredentials | UserPassword(user: string, password: string)

  /** The exceptions the orchestrator lets escape or wraps. */
  datatype Exception =
    | SQLException
    | DatabaseException(cause: Option<Exception>)
    | LiquibaseException
    | NullPointerException
    | UnexpectedLiquibaseException(wrapped: Exception)

  /** The effects the orchestrator has on its environment. */
  datatype Event =
    | Open(credentials: Credentials, conn: Conn)    // getConnection returned conn
    | OpenFailed(credentials: Credentials)          // getConnection threw SQLException
    | Detect(conn: Conn)                            // DatabaseFactory built a database handle on conn
    | DetectFailed(conn: Conn)
    | SetConn(conn: Conn)                           // the handle is rebound to conn
    | SetSchema(schema: Option<string>)             // setDefaultSchemaName on the handle
    | Update(schema: Option<string>)                // Liquibase.update returned normally
    | UpdateFailed(schema: Option<string>)          // Liquibase.update threw
    | CloseHandle(conn: Conn)                       // close was called on the handle holding conn
    | Rollback(conn: Conn)                          // raw cleanup of a connection no handle holds
    | Close(conn: Conn)
    | SetParam(key: string, value: string)          // setChangeLogParameter

  /** Liquibase's database handle: the connection it holds and its default schema. */
  datatype Database = Database(connection: Conn, defaultSchema: Option<string>)

  /** A Liquibase session: the changelog, the database handle and the changelog parameters. */
  datatype Session = Session(changeLog: string, database: Database, parameters: map<string, string>)

  /** Everything the orchestrator changes: its session (null until built), the datasource's count of
      connections handed out, and the trace of effects. */
  datatype World = World(liquibase: Option<Session>, nextConn: nat, trace: seq<Event>)

  /** A world after a step, and the exception the step threw, if any. */
  datatype Step = Step(world: World, thrown: Option<Exception>)

  /** Which operations fail during one schema pass. `closeFails` is the handle's close. */
  datatype PassFaults = PassFaults(openFails: bool, updateFails: bool, closeFails: bool, rollbackFails: bool)

  /** Which operations fail during a whole update, by the index of the pass. */
  datatype UpdateFaults = UpdateFaults(openFails: set<nat>, updateFails: set<nat>, closeFails: set<nat>, rollbackFails: set<nat>)
  {
    function At(i: nat): PassFaults
    {
      PassFaults(i in openFails, i in updateFails, i in closeFails, i in rollbackFails)
    }
  }

  /** Which operations fail while the session is built. `closeFails` is the bootstrap close. */
  datatype StartupFaults = StartupFaults(openFails: bool, detectFails: bool, closeFails: bool)

  /** The credentials a pass asks the datasource for: the configured pair when an entry for the
      schema exists and has exactly two elements, the datasource's default otherwise. */
  function ChooseCredentials(credentials: map<string, seq<string>>, schema: Option<string>): (c: Credentials)
    ensures c.UserPassword? <==> HasWellFormedCredentials(credentials, schema)
    ensures c.UserPassword? ==>
      c.user == credentials[schema.value][0] && c.password == credentials[schema.value][1]
  {
    if HasWellFormedCredentials(credentials, schema) then
      UserPassword(credentials[schema.value][0], credentials[schema.value][1])
    else
      DefaultCredentials
  }

  /** The schemas a run updates: the configured list in its own order, a null name included, or
      the default schema alone (even when it is null) when the list is empty. */
  function Targets(cfg: Config): (t: seq<Option<string>>)
    ensures cfg.schemas == [] ==> t == [cfg.defaultSchema]
    ensures cfg.schemas != [] ==>
      |t| == |cfg.schemas| && forall i :: 0 <= i < |t| ==> t[i] == cfg.schemas[i]
  {
    if cfg.schemas == [] then [cfg.defaultSchema] else cfg.schemas
  }

  /** The `finally` block of a pass. With a session, its handle closes the connection it holds, and
      a failing close replaces whatever was thrown before; without one, a raw connection is rolled
      back and then closed, the close being skipped when the rollback fails, and every error there
      is swallowed. */
  function Cleanup(w: World, conn: Option<Conn>, f: PassFaults, pending: Option<Exception>): (r: Step)
    ensures w.trace <= r.world.trace && |r.world.trace| <= |w.trace| + 2
    ensures r.world.liquibase == w.liquibase && r.world.nextConn == w.nextConn
  {
    if w.liquibase.Some? then
      Step(w.(trace := w.trace + [CloseHandle(w.liquibase.value.database.connection)]),
           if f.closeFails then Some(DatabaseException(None)) else pending)
    else if conn.Some? then
      var rolledBack := w.trace + [Rollback(conn.value)];
      Step(w.(trace := if f.rollbackFails then rolledBack else rolledBack + [Close(conn.value)]), pending)
    else
      Step(w, pending)
  }

  /** One pass of the per-schema update: open a connection with the chosen credentials, rebind
      the handle to it, set the handle's default schema, run the update, and clean up. A failing
      open is thrown as a DatabaseException wrapping the SQLException; without a session the first
      use of it throws a NullPointerException. */
  function SchemaPass(cfg: Config, w: World, schema: Option<string>, f: PassFaults): (r: Step)
    ensures w.trace < r.world.trace
    ensures r.world.liquibase.Some? <==> w.liquibase.Some?
    ensures r.thrown.None? <==> w.liquibase.Some? && !f.openFails && !f.updateFails && !f.closeFails
  {
    var creds := ChooseCredentials(cfg.schemaCredentials, schema);
    if f.openFails then
      Cleanup(w.(trace := w.trace + [OpenFailed(creds)]), None, f, Some(DatabaseException(Some(SQLException))))
    else
      var c := Conn(w.nextConn);
      var acquired := w.(nextConn := w.nextConn + 1, trace := w.trace + [Open(creds, c)]);
      if acquired.liquibase.None? then
        Cleanup(acquired, Some(c), f, Some(NullPointerException))
      else
        var bound := acquired.(liquibase := Some(acquired.liquibase.value.(database := Database(c, schema))),
                             trace := acquired.trace + [SetConn(c)] + [SetSchema(schema)]);
        var migrated := bound.(trace := bound.trace + [if f.updateFails then UpdateFailed(schema) else Update(schema)]);
        Cleanup(migrated, Some(c), f, if f.updateFails then Some(LiquibaseException) else None)
  }

  /** The first k passes over the targets, in order, stopping at the first pass that throws. */
  function RunPasses(cfg: Config, w: World, targets: seq<Option<string>>, f: UpdateFaults, k: nat): (r: Step)
    requires k <= |targets|
    ensures w.trace <= r.world.trace
    ensures r.world.liquibase.Some? <==> w.liquibase.Some?
    decreases k
  {
    if k == 0 then Step(w, None)
    else
      var before := RunPasses(cfg, w, targets, f, k - 1);
      if before.thrown.Some? then before
      else SchemaPass(cfg, before.world, targets[k - 1], f.At(k - 1))
  }

  /** The whole update an application-ready event triggers: nothing when the run-gate is off,
      otherwise every pass over the targets. */
  function UpdateRun(cfg: Config, shouldRun: bool, w: World, f: UpdateFaults): (r: Step)
    ensures w.trace <= r.world.trace
    ensures !shouldRun ==> r == Step(w, None)
  {
    if !shouldRun then Step(w, None)
    else RunPasses(cfg, w, Targets(cfg), f, |Targets(cfg)|)
  }

  /** The handle createDatabase returns for the bootstrap connection. */
  function NewDatabase(cfg: Config, c: Conn): (d: Database)
  {
    Database(c, cfg.defaultSchema)
  }

  /** The effects of createDatabase: detection, then the default schema only when it is set. */
  function DatabaseEvents(cfg: Config, c: Conn): (ev: seq<Event>)
  {
    [Detect(c)] + (if cfg.defaultSchema.Some? then [SetSchema(cfg.defaultSchema)] else [])
  }

  /** createLiquibase up to the parameters: open a bootstrap connection, build the handle and the
      session on it, and close the bootstrap connection (try-with-resources), also when detection
      throws. A failing close is thrown after the session has been stored. */
  function Bootstrap(cfg: Config, w: World, f: StartupFaults): (r: Step)
    ensures w.trace < r.world.trace
    ensures r.thrown.None? ==> r.world.liquibase.Some?
  {
    if f.openFails then
      Step(w.(trace := w.trace + [OpenFailed(DefaultCredentials)]), Some(SQLException))
    else
      var c := Conn(w.nextConn);
      var acquired := w.(nextConn := w.nextConn + 1, trace := w.trace + [Open(DefaultCredentials, c)]);
      if f.detectFails then
        Step(acquired.(trace := acquired.trace + [DetectFailed(c)] + [Close(c)]), Some(DatabaseException(None)))
      else
        Step(acquired.(liquibase := Some(Session(cfg.changeLog, NewDatabase(cfg, c), map[])),
                     trace := acquired.trace + DatabaseEvents(cfg, c) + [Close(c)]),
             if f.closeFails then Some(SQLException) else None)
  }

  /** `applied` sets every key of `keys` to its value in `params`, each key exactly once and in
      some order: its last event sets one of the keys, and the events before it apply the rest. */
  predicate ParametersApplied(applied: seq<Event>, params: map<string, string>, keys: set<string>)
    decreases |applied|
  {
    if applied == [] then keys == {}
    else
      var last := applied[|applied| - 1];
      last.SetParam? && last.key in keys && last.key in params && last.value == params[last.key] &&
      ParametersApplied(applied[..|applied| - 1], params, keys - {last.key})
  }

  /** The parameters createLiquibase applies: all of them, or none when the map is null. */
  function ParameterMap(cfg: Config): (params: map<string, string>)
  {
    if cfg.parameters.Some? then cfg.parameters.value else map[]
  }

  /** The credentials of every connection request, in order. */
  function OpenAttempts(ev: seq<Event>): (opens: seq<Credentials>)
  {
    if ev == [] then []
    else (if ev[0].Open? || ev[0].OpenFailed? then [ev[0].credentials] else []) + OpenAttempts(ev[1..])
  }

  /** The schemas of every update that returned normally, in order. */
  function UpdatedSchemas(ev: seq<Event>): (done: seq<Option<string>>)
  {
    if ev == [] then []
    else (if ev[0].Update? then [ev[0].schema] else []) + UpdatedSchemas(ev[1..])
  }

  /** The schemas of every update that was started, in order. */
  function UpdateCalls(ev: seq<Event>): (calls: seq<Option<string>>)
  {
    if ev == [] then []
    else (if ev[0].Update? || ev[0].UpdateFailed? then [ev[0].schema] else []) + UpdateCalls(ev[1..])
  }

  /** The ordering guarantee of the first k passes, stated on the projections of their trace:
      `opens` the connection requests, `calls` the updates started, `done` the updates that
      returned, `failed` whether a pass threw. With n the number of requests: they are those of the
      first n targets, with their chosen credentials; the updates started are a prefix of those n
      targets and the updates that returned a prefix of the ones started. When nothing was thrown,
      all k passes ran and each target was updated once, in order; when something was thrown, every
      target before the n-th was updated and nothing after the n-th was requested or updated. */
  ghost predicate Ordered(cfg: Config, targets: seq<Option<string>>, k: nat,
                          opens: seq<Credentials>, calls: seq<Option<string>>, done: seq<Option<string>>,
                          failed: bool)
    requires k <= |targets|
  {
    var n := |opens|;
    n <= k &&
    (forall i :: 0 <= i < n ==> opens[i] == ChooseCredentials(cfg.schemaCredentials, targets[i])) &&
    calls <= targets[..n] && done <= calls &&
    (!failed ==> n == k && done == targets[..k] && calls == targets[..k]) &&
    (failed ==> 1 <= n && targets[..n - 1] <= done)
  }

  /** Every connection opened in `ev` is closed later in `ev`, by the handle or directly: a close
      is called on it, whether or not that close succeeds. */
  predicate EveryOpenClosed(ev: seq<Event>)
  {
    forall j :: 0 <= j < |ev| && ev[j].Open? ==>
      exists l :: j < l < |ev| && (ev[l] == CloseHandle(ev[j].conn) || ev[l] == Close(ev[j].conn))
  }
}
