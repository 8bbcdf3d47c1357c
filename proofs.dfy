/** What the orchestrator guarantees: credential choice and schema-list fallback, the order of
    effects within a pass, ordering and fail-fast across passes, cleanup, and session build. */
module OrchestrationProofs {
  import opened LiquibaseConfig
  import opened Orchestration

  /** The projections distribute over concatenation. */
  lemma {:induction false} OpenAttemptsAppend(a: seq<Event>, b: seq<Event>)
    ensures OpenAttempts(a + b) == OpenAttempts(a) + OpenAttempts(b)
  {
    if a == [] {
      assert a + b == b;
    } else {
      var ab := a + b;
      assert ab[0] == a[0] && ab[1..] == a[1..] + b;
      OpenAttemptsAppend(a[1..], b);
      var h := if a[0].Open? || a[0].OpenFailed? then [a[0].credentials] else [];
      assert OpenAttempts(ab) == h + OpenAttempts(ab[1..]);
      assert OpenAttempts(a) == h + OpenAttempts(a[1..]);
    }
  }

  lemma {:induction false} UpdatedSchemasAppend(a: seq<Event>, b: seq<Event>)
    ensures UpdatedSchemas(a + b) == UpdatedSchemas(a) + UpdatedSchemas(b)
  {
    if a == [] {
      assert a + b == b;
    } else {
      var ab := a + b;
      assert ab[0] == a[0] && ab[1..] == a[1..] + b;
      UpdatedSchemasAppend(a[1..], b);
      var h := if a[0].Update? then [a[0].schema] else [];
      assert UpdatedSchemas(ab) == h + UpdatedSchemas(ab[1..]);
      assert UpdatedSchemas(a) == h + UpdatedSchemas(a[1..]);
    }
  }

  lemma {:induction false} UpdateCallsAppend(a: seq<Event>, b: seq<Event>)
    ensures UpdateCalls(a + b) == UpdateCalls(a) + UpdateCalls(b)
  {
    if a == [] {
      assert a + b == b;
    } else {
      var ab := a + b;
      assert ab[0] == a[0] && ab[1..] == a[1..] + b;
      UpdateCallsAppend(a[1..], b);
      var h := if a[0].Update? || a[0].UpdateFailed? then [a[0].schema] else [];
      assert UpdateCalls(ab) == h + UpdateCalls(ab[1..]);
      assert UpdateCalls(a) == h + UpdateCalls(a[1..]);
    }
  }

  lemma ProjectionsAppend(a: seq<Event>, b: seq<Event>)
    ensures OpenAttempts(a + b) == OpenAttempts(a) + OpenAttempts(b)
    ensures UpdatedSchemas(a + b) == UpdatedSchemas(a) + UpdatedSchemas(b)
    ensures UpdateCalls(a + b) == UpdateCalls(a) + UpdateCalls(b)
  {
    OpenAttemptsAppend(a, b);
    UpdatedSchemasAppend(a, b);
    UpdateCallsAppend(a, b);
  }

  /** The three projections of a trace extended by one event. */
  lemma ProjectionsSnoc(t: seq<Event>, e: Event)
    ensures OpenAttempts(t + [e]) == OpenAttempts(t) + (if e.Open? || e.OpenFailed? then [e.credentials] else [])
    ensures UpdatedSchemas(t + [e]) == UpdatedSchemas(t) + (if e.Update? then [e.schema] else [])
    ensures UpdateCalls(t + [e]) == UpdateCalls(t) + (if e.Update? || e.UpdateFailed? then [e.schema] else [])
  {
    ProjectionsAppend(t, [e]);
    assert [e][1..] == [];
  }

  /** The projections of the events of a pass before its cleanup, once the connection is held. */
  lemma BoundProjections(creds: Credentials, c: Conn, schema: Option<string>, u: Event)
    requires u == Update(schema) || u == UpdateFailed(schema)
    ensures Projects([Open(creds, c), SetConn(c), SetSchema(schema), u], [creds], [schema],
                     if u.Update? then [schema] else [])
  {
    var e1: seq<Event> := [] + [Open(creds, c)];
    var e2 := e1 + [SetConn(c)];
    var e3 := e2 + [SetSchema(schema)];
    var e4 := e3 + [u];
    ProjectionsSnoc([], Open(creds, c));
    ProjectionsSnoc(e1, SetConn(c));
    ProjectionsSnoc(e2, SetSchema(schema));
    ProjectionsSnoc(e3, u);
    assert e4 == [Open(creds, c), SetConn(c), SetSchema(schema), u];
  }

  /** A pass whose only effect is a trace of events `ev` after the old trace. */
  predicate Projects(ev: seq<Event>, opens: seq<Credentials>, calls: seq<Option<string>>, updated: seq<Option<string>>)
  {
    OpenAttempts(ev) == opens && UpdateCalls(ev) == calls && UpdatedSchemas(ev) == updated
  }

  /** The events the `finally` block adds: one handle close, a rollback and a close, or nothing;
      none of them requests a connection or starts an update. */
  lemma CleanupEvents(w: World, conn: Option<Conn>, f: PassFaults, pending: Option<Exception>)
    ensures var r := Cleanup(w, conn, f, pending);
      w.trace <= r.world.trace && r.world.liquibase == w.liquibase && r.world.nextConn == w.nextConn &&
      Projects(r.world.trace[|w.trace|..], [], [], [])
  {
    var r := Cleanup(w, conn, f, pending);
    var ev := r.world.trace[|w.trace|..];
    if w.liquibase.Some? {
      assert ev == [] + [CloseHandle(w.liquibase.value.database.connection)];
      ProjectionsSnoc([], CloseHandle(w.liquibase.value.database.connection));
    } else if conn.Some? {
      if f.rollbackFails {
        assert ev == [] + [Rollback(conn.value)];
        ProjectionsSnoc([], Rollback(conn.value));
      } else {
        assert ev == [Rollback(conn.value)] + [Close(conn.value)];
        ProjectionsSnoc([Rollback(conn.value)], Close(conn.value));
        ProjectionsSnoc([], Rollback(conn.value));
      }
    } else {
      assert ev == [];
    }
  }

  /** What one pass does, read off its trace: it asks for exactly one connection, with the chosen
      credentials; it starts the update of its schema exactly when the connection was obtained and
      a session exists; it returns normally exactly when nothing failed; and it keeps a session. */
  lemma {:induction false} PassProjections(cfg: Config, w: World, schema: Option<string>, f: PassFaults)
    ensures var p := SchemaPass(cfg, w, schema, f);
      var ev := p.world.trace[|w.trace|..];
      var reached := !f.openFails && w.liquibase.Some?;
      w.trace <= p.world.trace &&
      (p.world.liquibase.Some? <==> w.liquibase.Some?) &&
      p.world.nextConn == w.nextConn + (if f.openFails then 0 else 1) &&
      Projects(ev, [ChooseCredentials(cfg.schemaCredentials, schema)],
               if reached then [schema] else [],
               if reached && !f.updateFails then [schema] else []) &&
      (p.thrown.None? <==> reached && !f.updateFails && !f.closeFails)
  {
    var creds := ChooseCredentials(cfg.schemaCredentials, schema);
    var p := SchemaPass(cfg, w, schema, f);
    if f.openFails {
      var w1 := w.(trace := w.trace + [OpenFailed(creds)]);
      CleanupEvents(w1, None, f, Some(DatabaseException(Some(SQLException))));
      assert [] + [OpenFailed(creds)] == [OpenFailed(creds)];
      ProjectionsSnoc([], OpenFailed(creds));
      SplitProjections(w.trace, [OpenFailed(creds)], p.world.trace);
    } else {
      var c := Conn(w.nextConn);
      var w1 := w.(nextConn := w.nextConn + 1, trace := w.trace + [Open(creds, c)]);
      if w.liquibase.None? {
        CleanupEvents(w1, Some(c), f, Some(NullPointerException));
        assert [] + [Open(creds, c)] == [Open(creds, c)];
        ProjectionsSnoc([], Open(creds, c));
        SplitProjections(w.trace, [Open(creds, c)], p.world.trace);
      } else {
        var u := if f.updateFails then UpdateFailed(schema) else Update(schema);
        var mid := [Open(creds, c), SetConn(c), SetSchema(schema), u];
        var w2 := w1.(liquibase := Some(w1.liquibase.value.(database := Database(c, schema))),
                      trace := w.trace + mid);
        assert w1.trace + [SetConn(c)] + [SetSchema(schema)] + [u] == w.trace + mid;
        CleanupEvents(w2, Some(c), f, if f.updateFails then Some(LiquibaseException) else None);
        BoundProjections(creds, c, schema, u);
        SplitProjections(w.trace, mid, p.world.trace);
      }
    }
  }

  /** When `t` extends `old + mid` by a trace with no requests and no updates, the projections of
      the new part of `t` are those of `mid`. */
  lemma SplitProjections(old0: seq<Event>, mid: seq<Event>, t: seq<Event>)
    requires old0 + mid <= t
    requires Projects(t[|old0 + mid|..], [], [], [])
    ensures old0 <= t
    ensures Projects(t[|old0|..], OpenAttempts(mid), UpdateCalls(mid), UpdatedSchemas(mid))
  {
    var rest := t[|old0 + mid|..];
    assert t[|old0|..] == mid + rest;
    ProjectionsAppend(mid, rest);
  }

  /** Within a pass that returns normally the effects come in this order: open with the chosen
      credentials, rebind the handle, set its default schema to this schema, update, and close
      the handle, which then holds this pass's connection. */
  lemma PassSuccessOrder(cfg: Config, w: World, schema: Option<string>, f: PassFaults)
    ensures var p := SchemaPass(cfg, w, schema, f);
      var c := Conn(w.nextConn);
      p.thrown.None? ==>
        w.liquibase.Some? &&
        p.world.trace == w.trace + [Open(ChooseCredentials(cfg.schemaCredentials, schema), c),
                                    SetConn(c), SetSchema(schema), Update(schema), CloseHandle(c)] &&
        p.world.liquibase == Some(w.liquibase.value.(database := Database(c, schema)))
  {
  }

  /** The exception a failing pass throws. A failing open is wrapped as a DatabaseException of the
      SQLException, a failing update propagates, and a failing close of the handle replaces both. */
  lemma PassFailure(cfg: Config, w: World, schema: Option<string>, f: PassFaults)
    ensures var p := SchemaPass(cfg, w, schema, f);
      (w.liquibase.Some? && f.closeFails ==> p.thrown == Some(DatabaseException(None))) &&
      (w.liquibase.Some? && !f.closeFails && f.openFails ==> p.thrown == Some(DatabaseException(Some(SQLException)))) &&
      (w.liquibase.Some? && !f.closeFails && !f.openFails && f.updateFails ==> p.thrown == Some(LiquibaseException)) &&
      (w.liquibase.None? && f.openFails ==> p.thrown == Some(DatabaseException(Some(SQLException)))) &&
      (w.liquibase.None? && !f.openFails ==> p.thrown == Some(NullPointerException))
  {
  }

  /** The cleanup of a pass. With a session, its last effect is a close of the handle: of this
      pass's connection when one was obtained, of whatever the handle held before otherwise.
      Without a session, an obtained connection is rolled back and, unless the rollback fails,
      closed. */
  lemma PassCleanup(cfg: Config, w: World, schema: Option<string>, f: PassFaults)
    ensures var p := SchemaPass(cfg, w, schema, f);
      var t := p.world.trace;
      var c := Conn(w.nextConn);
      (w.liquibase.Some? ==>
         |t| > |w.trace| &&
         t[|t| - 1] == CloseHandle(if f.openFails then w.liquibase.value.database.connection else c)) &&
      (w.liquibase.None? && !f.openFails ==>
         t == w.trace + [Open(ChooseCredentials(cfg.schemaCredentials, schema), c), Rollback(c)] +
              (if f.rollbackFails then [] else [Close(c)])) &&
      (w.liquibase.None? && f.openFails ==>
         t == w.trace + [OpenFailed(ChooseCredentials(cfg.schemaCredentials, schema))])
  {
  }

  /** A pass closes the connection it opened, unless it had no session and its rollback failed. */
  lemma PassClosesWhatItOpens(cfg: Config, w: World, schema: Option<string>, f: PassFaults)
    requires w.liquibase.Some? || !f.rollbackFails
    ensures var p := SchemaPass(cfg, w, schema, f);
      w.trace <= p.world.trace && EveryOpenClosed(p.world.trace[|w.trace|..])
  {
    var p := SchemaPass(cfg, w, schema, f);
    var ev := p.world.trace[|w.trace|..];
    var creds := ChooseCredentials(cfg.schemaCredentials, schema);
    var c := Conn(w.nextConn);
    if f.openFails {
      var tail := if w.liquibase.Some? then [CloseHandle(w.liquibase.value.database.connection)] else [];
      assert p.world.trace == w.trace + ([OpenFailed(creds)] + tail);
      assert ev == [OpenFailed(creds)] + tail;
      assert forall j :: 0 <= j < |ev| ==> !ev[j].Open?;
    } else if w.liquibase.Some? {
      var u := if f.updateFails then UpdateFailed(schema) else Update(schema);
      assert p.world.trace == w.trace + [Open(creds, c), SetConn(c), SetSchema(schema), u, CloseHandle(c)];
      assert ev == [Open(creds, c), SetConn(c), SetSchema(schema), u, CloseHandle(c)];
      assert ev[4] == CloseHandle(ev[0].conn);
    } else {
      assert p.world.trace == w.trace + [Open(creds, c), Rollback(c), Close(c)];
      assert ev == [Open(creds, c), Rollback(c), Close(c)];
      assert ev[2] == Close(ev[0].conn);
    }
  }

  lemma {:induction false} EveryOpenClosedAppend(a: seq<Event>, b: seq<Event>)
    requires EveryOpenClosed(a) && EveryOpenClosed(b)
    ensures EveryOpenClosed(a + b)
  {
    var ab := a + b;
    forall j | 0 <= j < |ab| && ab[j].Open?
      ensures exists l :: j < l < |ab| && (ab[l] == CloseHandle(ab[j].conn) || ab[l] == Close(ab[j].conn))
    {
      if j < |a| {
        assert a[j] == ab[j];
        var l :| j < l < |a| && (a[l] == CloseHandle(a[j].conn) || a[l] == Close(a[j].conn));
        assert ab[l] == a[l];
      } else {
        var i := j - |a|;
        assert b[i] == ab[j];
        var l :| i < l < |b| && (b[l] == CloseHandle(b[i].conn) || b[l] == Close(b[i].conn));
        assert ab[l + |a|] == b[l];
      }
    }
  }

  /** The part of `c` after `a` is the part of `b` after `a` followed by the part of `c` after `b`. */
  lemma SliceSplit(a: seq<Event>, b: seq<Event>, c: seq<Event>)
    requires a <= b <= c
    ensures c[|a|..] == b[|a|..] + c[|b|..]
  {
  }

  /** Once a pass throws, no later pass runs: the state stays what that pass left. */
  lemma {:induction false} RunStopsAtFirstFailure(cfg: Config, w: World, targets: seq<Option<string>>, f: UpdateFaults, j: nat, k: nat)
    requires j <= k <= |targets|
    requires RunPasses(cfg, w, targets, f, j).thrown.Some?
    ensures RunPasses(cfg, w, targets, f, k) == RunPasses(cfg, w, targets, f, j)
    decreases k
  {
    if k > j {
      RunStopsAtFirstFailure(cfg, w, targets, f, j, k - 1);
    }
  }

  /** One more pass keeps the ordering guarantee. */
  lemma OrderStep(cfg: Config, targets: seq<Option<string>>, k: nat,
                  opens: seq<Credentials>, calls: seq<Option<string>>, done: seq<Option<string>>,
                  opens': seq<Credentials>, calls': seq<Option<string>>, done': seq<Option<string>>,
                  reached: bool, updated: bool, failed0: bool, failed: bool)
    requires 0 < k <= |targets|
    requires !failed0 && Ordered(cfg, targets, k - 1, opens, calls, done, failed0)
    requires opens' == opens + [ChooseCredentials(cfg.schemaCredentials, targets[k - 1])]
    requires calls' == calls + (if reached then [targets[k - 1]] else [])
    requires done' == done + (if updated then [targets[k - 1]] else [])
    requires updated ==> reached
    requires !failed ==> updated
    ensures Ordered(cfg, targets, k, opens', calls', done', failed)
  {
    assert targets[..k] == targets[..k - 1] + [targets[k - 1]];
  }

  /** The effects of the first k passes. */
  ghost function RunEvents(cfg: Config, w: World, targets: seq<Option<string>>, f: UpdateFaults, k: nat): (ev: seq<Event>)
    requires k <= |targets|
  {
    RunPasses(cfg, w, targets, f, k).world.trace[|w.trace|..]
  }

  /** The k-th pass, run after k - 1 passes that returned normally, extends the projections of
      the run's trace by those of the pass. */
  lemma RunStep(cfg: Config, w: World, targets: seq<Option<string>>, f: UpdateFaults, k: nat)
    requires 0 < k <= |targets|
    requires RunPasses(cfg, w, targets, f, k - 1).thrown.None?
    ensures OpenAttempts(RunEvents(cfg, w, targets, f, k)) ==
      OpenAttempts(RunEvents(cfg, w, targets, f, k - 1)) + [ChooseCredentials(cfg.schemaCredentials, targets[k - 1])]
    ensures UpdateCalls(RunEvents(cfg, w, targets, f, k)) ==
      UpdateCalls(RunEvents(cfg, w, targets, f, k - 1)) +
      (if !f.At(k - 1).openFails && w.liquibase.Some? then [targets[k - 1]] else [])
    ensures UpdatedSchemas(RunEvents(cfg, w, targets, f, k)) ==
      UpdatedSchemas(RunEvents(cfg, w, targets, f, k - 1)) +
      (if !f.At(k - 1).openFails && w.liquibase.Some? && !f.At(k - 1).updateFails then [targets[k - 1]] else [])
    ensures RunPasses(cfg, w, targets, f, k).thrown.None? ==>
      !f.At(k - 1).openFails && w.liquibase.Some? && !f.At(k - 1).updateFails
  {
    var before := RunPasses(cfg, w, targets, f, k - 1);
    var pf := f.At(k - 1);
    var p := SchemaPass(cfg, before.world, targets[k - 1], pf);
    PassProjections(cfg, before.world, targets[k - 1], pf);
    var ev0 := before.world.trace[|w.trace|..];
    var pev := p.world.trace[|before.world.trace|..];
    SliceSplit(w.trace, before.world.trace, p.world.trace);
    ProjectionsAppend(ev0, pev);
  }

  /** Ordering and fail-fast over the first k passes, read off the trace they produce. */
  lemma {:induction false} RunOrder(cfg: Config, w: World, targets: seq<Option<string>>, f: UpdateFaults, k: nat)
    requires k <= |targets|
    ensures Ordered(cfg, targets, k, OpenAttempts(RunEvents(cfg, w, targets, f, k)),
                    UpdateCalls(RunEvents(cfg, w, targets, f, k)), UpdatedSchemas(RunEvents(cfg, w, targets, f, k)),
                    RunPasses(cfg, w, targets, f, k).thrown.Some?)
    decreases k
  {
    var r := RunPasses(cfg, w, targets, f, k);
    if k == 0 {
      assert r.world.trace[|w.trace|..] == [];
    } else {
      RunOrder(cfg, w, targets, f, k - 1);
      var before := RunPasses(cfg, w, targets, f, k - 1);
      if before.thrown.None? {
        var ev0 := RunEvents(cfg, w, targets, f, k - 1);
        var pf := f.At(k - 1);
        var reached := !pf.openFails && w.liquibase.Some?;
        RunStep(cfg, w, targets, f, k);
        var ev := RunEvents(cfg, w, targets, f, k);
        OrderStep(cfg, targets, k, OpenAttempts(ev0), UpdateCalls(ev0), UpdatedSchemas(ev0),
                  OpenAttempts(ev), UpdateCalls(ev), UpdatedSchemas(ev),
                  reached, reached && !pf.updateFails, before.thrown.Some?, r.thrown.Some?);
      }
    }
  }

  /** A run requests at most one connection per pass, and exactly one per pass when it returns
      normally. */
  lemma RequestCount(cfg: Config, w: World, targets: seq<Option<string>>, f: UpdateFaults, k: nat)
    requires k <= |targets|
    ensures |OpenAttempts(RunEvents(cfg, w, targets, f, k))| <= k
    ensures RunPasses(cfg, w, targets, f, k).thrown.None? ==> |OpenAttempts(RunEvents(cfg, w, targets, f, k))| == k
  {
    RunOrder(cfg, w, targets, f, k);
  }

  /** A run that throws has a first pass that threw. */
  lemma {:induction false} FirstFailingPass(cfg: Config, w: World, targets: seq<Option<string>>, f: UpdateFaults, k: nat)
    requires k <= |targets|
    requires RunPasses(cfg, w, targets, f, k).thrown.Some?
    ensures exists j :: 0 <= j < k && RunPasses(cfg, w, targets, f, j).thrown.None? &&
                        RunPasses(cfg, w, targets, f, j + 1).thrown.Some?
    decreases k
  {
    if RunPasses(cfg, w, targets, f, k - 1).thrown.Some? {
      FirstFailingPass(cfg, w, targets, f, k - 1);
    } else {
      assert RunPasses(cfg, w, targets, f, (k - 1) + 1).thrown.Some?;
    }
  }

  /** When pass j is the first to throw, the first j + 1 passes requested j + 1 connections,
      started updates only of the first j + 1 targets, and updated every target before the j-th. */
  lemma FailingPassEvents(cfg: Config, w: World, targets: seq<Option<string>>, f: UpdateFaults, j: nat)
    requires j < |targets|
    requires RunPasses(cfg, w, targets, f, j).thrown.None?
    requires RunPasses(cfg, w, targets, f, j + 1).thrown.Some?
    ensures |OpenAttempts(RunEvents(cfg, w, targets, f, j + 1))| == j + 1
    ensures UpdateCalls(RunEvents(cfg, w, targets, f, j + 1)) <= targets[..j + 1]
    ensures targets[..j] <= UpdatedSchemas(RunEvents(cfg, w, targets, f, j + 1))
  {
    RequestCount(cfg, w, targets, f, j);
    assert RunPasses(cfg, w, targets, f, j + 1 - 1) == RunPasses(cfg, w, targets, f, j);
    RunStep(cfg, w, targets, f, j + 1);
    RunOrder(cfg, w, targets, f, j + 1);
  }

  /** Fail-fast: once pass j throws, the run ends in the state that pass left. Exactly j + 1
      connections were requested, the updates started are a prefix of the first j + 1 targets,
      and every target before the j-th was updated. */
  lemma FailFast(cfg: Config, w: World, targets: seq<Option<string>>, f: UpdateFaults, j: nat, k: nat)
    requires j < k <= |targets|
    requires RunPasses(cfg, w, targets, f, j).thrown.None?
    requires RunPasses(cfg, w, targets, f, j + 1).thrown.Some?
    ensures RunPasses(cfg, w, targets, f, k) == RunPasses(cfg, w, targets, f, j + 1)
    ensures |OpenAttempts(RunEvents(cfg, w, targets, f, k))| == j + 1
    ensures UpdateCalls(RunEvents(cfg, w, targets, f, k)) <= targets[..j + 1]
    ensures targets[..j] <= UpdatedSchemas(RunEvents(cfg, w, targets, f, k))
  {
    RunStopsAtFirstFailure(cfg, w, targets, f, j + 1, k);
    assert RunEvents(cfg, w, targets, f, k) == RunEvents(cfg, w, targets, f, j + 1);
    FailingPassEvents(cfg, w, targets, f, j);
  }

  /** Every connection a run opens is closed later in the same run, provided no raw rollback
      fails where the session is missing. */
  lemma {:induction false} RunClosesEveryConnection(cfg: Config, w: World, targets: seq<Option<string>>, f: UpdateFaults, k: nat)
    requires k <= |targets|
    requires w.liquibase.Some? || f.rollbackFails == {}
    ensures EveryOpenClosed(RunEvents(cfg, w, targets, f, k))
    decreases k
  {
    var r := RunPasses(cfg, w, targets, f, k);
    if k == 0 {
      assert r.world.trace[|w.trace|..] == [];
    } else {
      RunClosesEveryConnection(cfg, w, targets, f, k - 1);
      var before := RunPasses(cfg, w, targets, f, k - 1);
      if before.thrown.None? {
        var p := SchemaPass(cfg, before.world, targets[k - 1], f.At(k - 1));
        PassClosesWhatItOpens(cfg, before.world, targets[k - 1], f.At(k - 1));
        assert r == p;
        var ev0 := before.world.trace[|w.trace|..];
        var pev := p.world.trace[|before.world.trace|..];
        SliceSplit(w.trace, before.world.trace, p.world.trace);
        EveryOpenClosedAppend(ev0, pev);
      }
    }
  }

  /** With a session and no failing operation, no pass throws. */
  lemma {:induction false} RunWithoutFaultsReturns(cfg: Config, w: World, targets: seq<Option<string>>, k: nat)
    requires k <= |targets|
    requires w.liquibase.Some?
    ensures RunPasses(cfg, w, targets, UpdateFaults({}, {}, {}, {}), k).thrown.None?
    decreases k
  {
    if k > 0 {
      RunWithoutFaultsReturns(cfg, w, targets, k - 1);
    }
  }

  /** With a session and no failing operation, every target is updated once, in order. */
  lemma RunWithoutFaultsUpdatesAll(cfg: Config, w: World, targets: seq<Option<string>>)
    requires w.liquibase.Some?
    ensures var r := RunPasses(cfg, w, targets, UpdateFaults({}, {}, {}, {}), |targets|);
      r.thrown.None? && UpdatedSchemas(r.world.trace[|w.trace|..]) == targets
  {
    RunWithoutFaultsReturns(cfg, w, targets, |targets|);
    RunOrder(cfg, w, targets, UpdateFaults({}, {}, {}, {}), |targets|);
    assert targets[..|targets|] == targets;
  }

  /** A whole update run: the gate off means no effect at all; otherwise the passes run over the
      targets and the ordering and fail-fast guarantees cover all of them. */
  lemma UpdateRunGate(cfg: Config, shouldRun: bool, w: World, f: UpdateFaults)
    ensures !shouldRun ==> UpdateRun(cfg, shouldRun, w, f) == Step(w, None)
    ensures var r := UpdateRun(cfg, shouldRun, w, f);
      var ev := r.world.trace[|w.trace|..];
      w.trace <= r.world.trace &&
      UpdateCalls(ev) <= Targets(cfg) &&
      (r.thrown.None? ==> shouldRun ==> UpdatedSchemas(ev) == Targets(cfg))
  {
    var targets := Targets(cfg);
    RunOrder(cfg, w, targets, f, |targets|);
    var r := UpdateRun(cfg, shouldRun, w, f);
    var ev := r.world.trace[|w.trace|..];
    if shouldRun {
      var n := |OpenAttempts(ev)|;
      assert targets[..n] <= targets;
      assert targets[..|targets|] == targets;
    } else {
      assert ev == [];
    }
  }

  /** An empty schema list gives exactly one pass, against the default schema, even when that is
      null; with a session and no failure, that pass updates it and closes its connection. */
  lemma DefaultSchemaFallback(cfg: Config, w: World, f: UpdateFaults)
    requires cfg.schemas == []
    ensures Targets(cfg) == [cfg.defaultSchema]
    ensures var r := UpdateRun(cfg, true, w, f);
      r == SchemaPass(cfg, w, cfg.defaultSchema, f.At(0)) &&
      |OpenAttempts(r.world.trace[|w.trace|..])| == 1
  {
    PassProjections(cfg, w, cfg.defaultSchema, f.At(0));
  }

  /** A schema list overrides the default schema: the targets do not depend on it, and they are
      the listed names themselves, a null name included (its pass runs on the null schema). */
  lemma SchemasOverrideDefault(cfg: Config, d: Option<string>)
    requires cfg.schemas != []
    ensures Targets(cfg.(defaultSchema := d)) == Targets(cfg)
    ensures Targets(cfg) == cfg.schemas
  {
  }

  /** An entry with any length other than two, or no entry, leads to the default credentials. */
  lemma MalformedCredentialsIgnored(credentials: map<string, seq<string>>, schema: string)
    requires schema !in credentials || |credentials[schema]| != 2
    ensures ChooseCredentials(credentials, Some(schema)) == DefaultCredentials
  {
  }

  /** Session build: the bootstrap connection is requested with the default credentials and, once
      obtained, is the last thing closed; detection failure leaves no session; otherwise the
      session holds a handle on the bootstrap connection whose default schema is set only when
      the configured one is not null, and no parameter is set yet. */
  lemma BootstrapShape(cfg: Config, w: World, f: StartupFaults)
    ensures var b := Bootstrap(cfg, w, f);
      var t := b.world.trace;
      var c := Conn(w.nextConn);
      w.trace <= t &&
      (f.openFails ==> b.world.liquibase == w.liquibase && t == w.trace + [OpenFailed(DefaultCredentials)] &&
                       b.thrown == Some(SQLException)) &&
      (!f.openFails ==> t[|w.trace|] == Open(DefaultCredentials, c) && t[|t| - 1] == Close(c) &&
                        EveryOpenClosed(t[|w.trace|..])) &&
      (!f.openFails && f.detectFails ==> b.world.liquibase == w.liquibase && b.thrown == Some(DatabaseException(None))) &&
      (!f.openFails && !f.detectFails ==>
         b.world.liquibase == Some(Session(cfg.changeLog, Database(c, cfg.defaultSchema), map[])) &&
         (SetSchema(cfg.defaultSchema) in t[|w.trace|..] <==> cfg.defaultSchema.Some?) &&
         (b.thrown.None? <==> !f.closeFails))
  {
    var b := Bootstrap(cfg, w, f);
    var t := b.world.trace;
    var ev := t[|w.trace|..];
    var c := Conn(w.nextConn);
    if !f.openFails {
      if f.detectFails {
        assert ev == [Open(DefaultCredentials, c), DetectFailed(c), Close(c)];
        assert ev[2] == Close(ev[0].conn);
      } else if cfg.defaultSchema.Some? {
        assert ev == [Open(DefaultCredentials, c), Detect(c), SetSchema(cfg.defaultSchema), Close(c)];
        assert ev[3] == Close(ev[0].conn);
      } else {
        assert ev == [Open(DefaultCredentials, c), Detect(c), Close(c)];
        assert ev[2] == Close(ev[0].conn);
      }
    }
  }

  /** Parameters applied one key at a time cover exactly the map's entries: every entry is set
      once, and nothing else is set. */
  lemma {:induction false} ParametersAppliedExactly(applied: seq<Event>, params: map<string, string>, keys: set<string>)
    requires ParametersApplied(applied, params, keys)
    ensures |applied| == |keys|
    ensures forall e: Event :: e in applied <==> e.SetParam? && e.key in keys && e.key in params && params[e.key] == e.value
    ensures forall j, l :: 0 <= j < l < |applied| ==> applied[j].key != applied[l].key
    decreases |applied|
  {
    if applied != [] {
      var prefix := applied[..|applied| - 1];
      var last := applied[|applied| - 1];
      var rest := keys - {last.key};
      ParametersAppliedExactly(prefix, params, rest);
      assert applied == prefix + [last];
      assert keys == rest + {last.key};
      forall e: Event
        ensures e in applied <==> e.SetParam? && e.key in keys && e.key in params && params[e.key] == e.value
      {
        assert e in applied <==> e in prefix || e == last;
      }
      forall j, l | 0 <= j < l < |applied|
        ensures applied[j].key != applied[l].key
      {
        assert applied[j] == prefix[j];
        assert applied[j] in prefix;
        if l < |prefix| {
          assert applied[l] == prefix[l];
        }
      }
    }
  }

  /** A configuration that keeps every default: one pass with the default credentials against
      the database's own default schema, no parameter to apply, no label expression and no
      context, and drop-first off. */
  lemma DefaultsRunOnePass(changeLog: string, w: World)
    requires w.liquibase.Some?
    ensures var cfg := Defaults(changeLog);
      var c := Conn(w.nextConn);
      cfg.defaultSchema == None && cfg.schemas == [] && cfg.schemaCredentials == map[] &&
      cfg.parameters == Some(map[]) && Targets(cfg) == [None] &&
      ParameterMap(cfg) == map[] && cfg.labels == None && cfg.contexts == [] && !cfg.dropFirst &&
      UpdateRun(cfg, true, w, UpdateFaults({}, {}, {}, {})).world.trace ==
        w.trace + [Open(DefaultCredentials, c), SetConn(c), SetSchema(None), Update(None), CloseHandle(c)]
  {
    var cfg := Defaults(changeLog);
    var f := UpdateFaults({}, {}, {}, {});
    assert f.At(0) == PassFaults(false, false, false, false);
    assert Targets(cfg) == [None];
    assert RunPasses(cfg, w, [None], f, 0) == Step(w, None);
    assert RunPasses(cfg, w, [None], f, 1) == SchemaPass(cfg, w, None, f.At(0));
    assert ChooseCredentials(cfg.schemaCredentials, None) == DefaultCredentials;
    PassSuccessOrder(cfg, w, None, f.At(0));
  }

  /** The five tenants of the H2 integration fixture are updated in list order when nothing fails. */
  lemma FiveTenantsInOrder(cfg: Config, w: World)
    requires cfg.schemas == [Some("tenant1"), Some("tenant2"), Some("tenant3"), Some("tenant4"), Some("tenant5")]
    requires w.liquibase.Some?
    ensures var r := UpdateRun(cfg, true, w, UpdateFaults({}, {}, {}, {}));
      r.thrown.None? &&
      UpdatedSchemas(r.world.trace[|w.trace|..]) ==
        [Some("tenant1"), Some("tenant2"), Some("tenant3"), Some("tenant4"), Some("tenant5")]
  {
    RunWithoutFaultsUpdatesAll(cfg, w, Targets(cfg));
  }
}
