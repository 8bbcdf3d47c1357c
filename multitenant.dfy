/** The orchestrator as the source has it: an object whose `liquibase` and `shouldRun` fields are
    set by its startup hook and read by its update hook. The datasource and Liquibase are the
    environment: `nextConn` counts the connections the datasource has handed out and `trace`
    records every effect. PerformUpdate, PerformSchemaUpdate and CreateDatabase are proved to leave
    exactly the state their function of module Orchestration describes; OnStartup and
    CreateLiquibase are tied to BuiltWith and ApplyChangeLogParameters to ParametersApplied, both of
    which leave the order of parameter events open; the constructor and CheckIfLiquibaseShouldRun
    state their new fields directly. */
module MultiTenant {
  import opened LiquibaseConfig
  import opened Orchestration
  import OrchestrationProofs

  /** The state of startup after the session build: what Bootstrap left when it threw (wrapped
      by onStartup), or else the session with every parameter applied, each once. */
  ghost predicate BuiltWith(cfg: Config, w0: World, f: StartupFaults, w: World, thrown: Option<Exception>)
  {
    var b := Bootstrap(cfg, w0, f);
    if b.thrown.Some? then
      w == b.world && thrown == b.thrown
    else
      thrown == None && b.world.liquibase.Some? && w.nextConn == b.world.nextConn &&
      w.liquibase == Some(b.world.liquibase.value.(parameters := ParameterMap(cfg))) &&
      b.world.trace <= w.trace &&
      ParametersApplied(w.trace[|b.world.trace|..], ParameterMap(cfg), ParameterMap(cfg).Keys)
  }

  /** Applying one more key keeps ParametersApplied. */
  lemma ParameterStep(applied: seq<Event>, params: map<string, string>, done: set<string>, key: string)
    requires key in params && key !in done
    requires ParametersApplied(applied, params, done)
    ensures ParametersApplied(applied + [SetParam(key, params[key])], params, done + {key})
  {
    var next := applied + [SetParam(key, params[key])];
    assert next[..|next| - 1] == applied;
    assert (done + {key}) - {key} == done;
  }

  lemma AppendOne<T>(a: seq<T>, b: seq<T>, x: T)
    ensures a + (b + [x]) == (a + b) + [x]
  {
  }

  /** A map whose keys and values are those of `base` overridden by `update` is `base + update`. */
  lemma OverrideEquals<K, V>(m: map<K, V>, base: map<K, V>, update: map<K, V>)
    requires m.Keys == base.Keys + update.Keys
    requires forall k :: k in m ==> m[k] == if k in update then update[k] else base[k]
    ensures m == base + update
  {
  }

  class LiquibaseMultiTenant {
    const config: Config
    var liquibase: Option<Session>
    var shouldRun: bool
    var nextConn: nat
    var trace: seq<Event>

    /** The injected configuration; nothing built, the gate closed, no effect yet. */
    constructor (config: Config)
      ensures this.config == config && liquibase == None && !shouldRun
      ensures nextConn == 0 && trace == []
    {
      this.config := config;
      liquibase := None;
      shouldRun := false;
      nextConn := 0;
      trace := [];
    }

    function State(): (w: World)
      reads this
    {
      World(liquibase, nextConn, trace)
    }

    /** Resolves the run-gate; `gate` is the value the global Liquibase configuration holds. */
    method CheckIfLiquibaseShouldRun(gate: bool)
      modifies this`shouldRun
      ensures shouldRun == gate
    {
      shouldRun := gate;
    }

    /** The startup hook: resolve the gate and, only when it is on, build the session. Any
        failure of the build is rethrown wrapped in an UnexpectedLiquibaseException. */
    method OnStartup(gate: bool, f: StartupFaults) returns (thrown: Option<Exception>)
      modifies this
      ensures shouldRun == gate
      ensures !gate ==> State() == old(State()) && thrown == None
      ensures gate ==> exists e :: BuiltWith(config, old(State()), f, State(), e) &&
                                   thrown == (if e.Some? then Some(UnexpectedLiquibaseException(e.value)) else None)
    {
      CheckIfLiquibaseShouldRun(gate);
      thrown := None;
      if shouldRun {
        var e := CreateLiquibase(f);
        if e.Some? {
          thrown := Some(UnexpectedLiquibaseException(e.value));
        }
      }
    }

    /** The update hook: nothing when the gate is off; otherwise one pass against the default
        schema when no schema list is configured, or one pass per listed schema in list order,
        the first exception ending the loop. */
    method PerformUpdate(f: UpdateFaults) returns (thrown: Option<Exception>)
      modifies this
      ensures shouldRun == old(shouldRun)
      ensures !shouldRun ==> State() == old(State()) && thrown == None
      ensures Step(State(), thrown) == UpdateRun(config, shouldRun, old(State()), f)
    {
      if !shouldRun {
        return None;
      }
      ghost var w0 := State();
      ghost var targets := Targets(config);
      if config.schemas == [] {
        thrown := PerformSchemaUpdate(config.defaultSchema, f.At(0));
        assert RunPasses(config, w0, targets, f, 0) == Step(w0, None);
      } else {
        var i := 0;
        while i < |config.schemas|
          invariant 0 <= i <= |config.schemas| == |targets|
          invariant shouldRun
          invariant Step(State(), None) == RunPasses(config, w0, targets, f, i)
        {
          var e := PerformSchemaUpdate(config.schemas[i], f.At(i));
          if e.Some? {
            OrchestrationProofs.RunStopsAtFirstFailure(config, w0, targets, f, i + 1, |targets|);
            return e;
          }
          i := i + 1;
        }
        thrown := None;
      }
    }

    /** One pass against `schema`, with its try/finally written out: `conn` is the raw
        connection and `pending` the exception in flight when the finally block starts. */
    method PerformSchemaUpdate(schema: Option<string>, f: PassFaults) returns (thrown: Option<Exception>)
      modifies this`liquibase, this`nextConn, this`trace
      ensures Step(State(), thrown) == SchemaPass(config, old(State()), schema, f)
    {
      var conn: Option<Conn> := None;
      var pending: Option<Exception> := None;
      var credentials := ChooseCredentials(config.schemaCredentials, schema);
      if f.openFails {
        trace := trace + [OpenFailed(credentials)];
        pending := Some(DatabaseException(Some(SQLException)));
      } else {
        var c := Conn(nextConn);
        nextConn := nextConn + 1;
        trace := trace + [Open(credentials, c)];
        conn := Some(c);
        if liquibase.None? {
          pending := Some(NullPointerException);
        } else {
          liquibase := Some(liquibase.value.(database := liquibase.value.database.(connection := c)));
          trace := trace + [SetConn(c)];
          liquibase := Some(liquibase.value.(database := liquibase.value.database.(defaultSchema := schema)));
          trace := trace + [SetSchema(schema)];
          if f.updateFails {
            trace := trace + [UpdateFailed(schema)];
            pending := Some(LiquibaseException);
          } else {
            trace := trace + [Update(schema)];
          }
        }
      }
      // finally
      if liquibase.Some? {
        trace := trace + [CloseHandle(liquibase.value.database.connection)];
        if f.closeFails {
          pending := Some(DatabaseException(None));
        }
      } else if conn.Some? {
        trace := trace + [Rollback(conn.value)];
        if !f.rollbackFails {
          trace := trace + [Close(conn.value)];
        }
      }
      thrown := pending;
    }

    /** Builds the session on a bootstrap connection, closes that connection, then applies every
        changelog parameter when the parameter map is not null. The map's keys are visited in an
        order the model leaves open. */
    method CreateLiquibase(f: StartupFaults) returns (thrown: Option<Exception>)
      modifies this`liquibase, this`nextConn, this`trace
      ensures BuiltWith(config, old(State()), f, State(), thrown)
    {
      if f.openFails {
        trace := trace + [OpenFailed(DefaultCredentials)];
        return Some(SQLException);
      }
      var conn := Conn(nextConn);
      nextConn := nextConn + 1;
      trace := trace + [Open(DefaultCredentials, conn)];
      var database, e := CreateDatabase(conn, f.detectFails);
      if e.Some? {
        trace := trace + [Close(conn)];
        return e;
      }
      liquibase := Some(Session(config.changeLog, database, map[]));
      trace := trace + [Close(conn)];
      if f.closeFails {
        return Some(SQLException);
      }
      ghost var built := State();
      var params := ParameterMap(config);
      if config.parameters.Some? {
        ApplyChangeLogParameters(params);
        assert map[] + params == params;
      } else {
        assert trace[|built.trace|..] == [];
      }
      thrown := None;
    }

    /** The loop over the changelog parameters: each entry is set on the session once, in an
        order the model leaves open. */
    method ApplyChangeLogParameters(params: map<string, string>)
      requires liquibase.Some?
      modifies this`liquibase, this`trace
      ensures liquibase == Some(old(liquibase).value.(parameters := old(liquibase).value.parameters + params))
      ensures old(trace) <= trace
      ensures ParametersApplied(trace[|old(trace)|..], params, params.Keys)
    {
      ghost var start := liquibase.value;
      ghost var applied: seq<Event> := [];
      ghost var done: set<string> := {};
      var remaining := params.Keys;
      while remaining != {}
        invariant remaining <= params.Keys && done == params.Keys - remaining
        invariant liquibase.Some? && liquibase.value.(parameters := start.parameters) == start
        invariant liquibase.value.parameters.Keys == start.parameters.Keys + done
        invariant forall k :: k in liquibase.value.parameters ==>
                    liquibase.value.parameters[k] == if k in done then params[k] else start.parameters[k]
        invariant trace == old(trace) + applied
        invariant ParametersApplied(applied, params, done)
        decreases remaining
      {
        var key :| key in remaining;
        ParameterStep(applied, params, done, key);
        liquibase := Some(liquibase.value.(parameters := liquibase.value.parameters[key := params[key]]));
        AppendOne(old(trace), applied, SetParam(key, params[key]));
        trace := trace + [SetParam(key, params[key])];
        applied := applied + [SetParam(key, params[key])];
        remaining := remaining - {key};
        done := done + {key};
      }
      OverrideEquals(liquibase.value.parameters, start.parameters, params);
      assert trace[|old(trace)|..] == applied;
      assert done == params.Keys;
    }

    /** Detects the database implementation for `conn` and sets its default schema, only when
        the configured one is not null. */
    method CreateDatabase(conn: Conn, detectFails: bool) returns (database: Database, thrown: Option<Exception>)
      modifies this`trace
      ensures detectFails ==> trace == old(trace) + [DetectFailed(conn)] && thrown == Some(DatabaseException(None))
      ensures !detectFails ==>
        trace == old(trace) + DatabaseEvents(config, conn) && database == NewDatabase(config, conn) && thrown == None
    {
      if detectFails {
        trace := trace + [DetectFailed(conn)];
        return Database(conn, None), Some(DatabaseException(None));
      }
      trace := trace + [Detect(conn)];
      database := Database(conn, None);
      if config.defaultSchema.Some? {
        database := database.(defaultSchema := config.defaultSchema);
        trace := trace + [SetSchema(config.defaultSchema)];
      }
      thrown := None;
    }
  }
}
