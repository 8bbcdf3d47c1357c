# Liquibase CDI multi-tenancy: a verified model of the orchestrator

This project models `CDILiquibaseMultiTenant`, the CDI extension that runs Liquibase
changelog migrations at application start. It also models `CDILiquibaseConfig`, the
configuration class an application extends to drive it.

- At startup the orchestrator resolves the Liquibase run-gate. When the gate is on, it builds
  one Liquibase session on a short-lived bootstrap connection and sets the changelog
  parameters on it.
- When the application is ready, it runs one update pass per configured schema, in list order.
  With no schema list, it runs a single pass against the default schema. The first pass that
  throws ends the run.
- Each pass opens a connection, with per-schema credentials when a well-formed pair is
  configured. It rebinds the session's database handle to that connection, sets the handle's
  default schema, and runs the update. A `finally` block then closes the handle, or, without a
  session, rolls back and closes the raw connection.

The model is organised in four modules:

- `LiquibaseConfig` (`config.dfy`): the configuration as a value, with the defaults of every
  overridable accessor.
- `Orchestration` (`orchestration.dfy`): each step stated as a function on a `World`. A `World`
  holds:
  - the session, `None` while Java's field is null;
  - the number of connections the datasource has handed out;
  - a trace of every effect on the environment (connection requests, handle rebinding,
    default-schema changes, updates, closes, rollbacks, parameter settings).

  The datasource, the database handle and Liquibase are this environment. Which of their
  operations fail is given by a fault oracle (`PassFaults`, `UpdateFaults`, `StartupFaults`).
  An exception the Java code throws is the `thrown` part of a `Step`.
- `MultiTenant` (`multitenant.dfy`): the class `LiquibaseMultiTenant`. Its fields are as in the
  source (`liquibase`, `shouldRun`) plus the environment (`nextConn`, `trace`). Its methods
  follow the Java methods statement by statement, with the `try`/`finally` blocks written out.
  Each of `PerformUpdate`, `PerformSchemaUpdate` and `CreateDatabase` is proved to leave
  exactly the state its `Orchestration` function describes. `OnStartup` and `CreateLiquibase`
  are tied to the predicate `BuiltWith`, and `ApplyChangeLogParameters` to `ParametersApplied`:
  both leave the order of parameter events open. The constructor and
  `CheckIfLiquibaseShouldRun` state their new fields directly.
- `OrchestrationProofs` (`proofs.dfy`) proves what the run guarantees about those functions:
  - credential choice and the schema-list fallback;
  - the order of effects within a pass, and the exception each failure produces;
  - ordering and fail-fast across passes;
  - every connection a run opens is closed later;
  - the shape of the session build;
  - each changelog parameter is applied exactly once.

## Model

| member | source | states |
|---|---|---|
| `LiquibaseConfig.Defaults` | src/main/java/de/cofinpro/liquibase/CDILiquibaseConfig.java:44-119 | an implementation overriding only the abstract accessors answers: the given changelog, a null default schema (57-59), no schemas (75-77), no schema credentials (88-90), an empty but non-null parameter map (95-97), a null label expression (103-105), no contexts (110-112) and drop-first off (117-119) |
| `Orchestration.ChooseCredentials` | src/main/java/de/cofinpro/liquibase/CDILiquibaseMultiTenant.java:89-94 | the configured user/password pair is used exactly when an entry for the schema exists and has two elements, element 0 as user and 1 as password; otherwise the datasource's default credentials |
| `Orchestration.Targets` | src/main/java/de/cofinpro/liquibase/CDILiquibaseMultiTenant.java:61-66 | an empty schema list yields the default schema alone (also when null); otherwise one target per listed schema, same length, same order, a null name included |
| `Orchestration.Cleanup` | src/main/java/de/cofinpro/liquibase/CDILiquibaseMultiTenant.java:100-111 | the `finally` block only appends to the trace, at most two events, and never changes the session or the connection count |
| `Orchestration.SchemaPass` | src/main/java/de/cofinpro/liquibase/CDILiquibaseMultiTenant.java:86-112 | a pass always leaves effects, keeps a session if there was one, and returns normally exactly when a session exists and neither the open, the update nor the handle's close failed |
| `Orchestration.RunPasses` | src/main/java/de/cofinpro/liquibase/CDILiquibaseMultiTenant.java:64-66 | the passes only extend the trace and never create or drop the session |
| `Orchestration.UpdateRun` | src/main/java/de/cofinpro/liquibase/CDILiquibaseMultiTenant.java:56-68 | with the gate off the update has no effect and throws nothing; otherwise it only extends the trace |
| `Orchestration.Bootstrap` | src/main/java/de/cofinpro/liquibase/CDILiquibaseMultiTenant.java:114-117 | the session build always leaves effects, and stores a session whenever it returns normally |
| `OrchestrationProofs.PassProjections` | src/main/java/de/cofinpro/liquibase/CDILiquibaseMultiTenant.java:86-112 | a pass requests exactly one connection, with the chosen credentials; it starts the update of its schema exactly when the open succeeded and a session exists; it consumes a connection number exactly when the open succeeded; it returns normally exactly when a session exists and nothing failed |
| `OrchestrationProofs.PassSuccessOrder` | src/main/java/de/cofinpro/liquibase/CDILiquibaseMultiTenant.java:89-102 | a pass that returns normally did exactly: open with the chosen credentials, rebind the handle, set its default schema to this schema, update, close the handle; the handle then holds this pass's connection and schema |
| `OrchestrationProofs.PassFailure` | src/main/java/de/cofinpro/liquibase/CDILiquibaseMultiTenant.java:95-102 | the exception of each failure: a failing open becomes a DatabaseException wrapping the SQLException; a failing update propagates its LiquibaseException; a failing handle close replaces both; without a session the pass throws a NullPointerException |
| `OrchestrationProofs.PassCleanup` | src/main/java/de/cofinpro/liquibase/CDILiquibaseMultiTenant.java:100-111 | with a session the last effect is the handle's close, of this pass's connection or, after a failed open, of the one it held before; without a session an obtained connection is rolled back and then closed unless the rollback failed |
| `OrchestrationProofs.PassClosesWhatItOpens` | src/main/java/de/cofinpro/liquibase/CDILiquibaseMultiTenant.java:100-111 | every connection a pass opens is closed later in the same pass, when a session exists or the raw rollback does not fail |
| `OrchestrationProofs.RunStopsAtFirstFailure` | src/main/java/de/cofinpro/liquibase/CDILiquibaseMultiTenant.java:64-66 | once a pass throws, running further passes changes nothing |
| `OrchestrationProofs.RunOrder` | src/main/java/de/cofinpro/liquibase/CDILiquibaseMultiTenant.java:64-66 | over the first k passes, connection requests follow the targets in order with each one's chosen credentials; updates started and finished are prefixes of those targets; a run that throws updated every target before the failing one; a run that does not throw requested, started and finished all k, in order |
| `OrchestrationProofs.RequestCount` | src/main/java/de/cofinpro/liquibase/CDILiquibaseMultiTenant.java:86-94 | k passes request at most k connections, and exactly k when none throws |
| `OrchestrationProofs.FirstFailingPass` | src/main/java/de/cofinpro/liquibase/CDILiquibaseMultiTenant.java:64-66 | a run that throws has a first pass j that throws after j passes that did not |
| `OrchestrationProofs.FailingPassEvents` | src/main/java/de/cofinpro/liquibase/CDILiquibaseMultiTenant.java:64-66 | when pass j is the first to throw, j + 1 connections were requested, updates were started only for the first j + 1 targets, and each of the first j targets was updated |
| `OrchestrationProofs.FailFast` | src/main/java/de/cofinpro/liquibase/CDILiquibaseConfig.java:67-68 | once pass j throws, the whole run ends in the state that pass left, with the request, start and completion guarantees of `FailingPassEvents` |
| `OrchestrationProofs.RunClosesEveryConnection` | src/main/java/de/cofinpro/liquibase/CDILiquibaseMultiTenant.java:100-111 | every connection opened during a run is closed later in the run, when a session exists or no raw rollback fails |
| `OrchestrationProofs.RunWithoutFaultsReturns` | src/main/java/de/cofinpro/liquibase/CDILiquibaseMultiTenant.java:64-66 | with a session and no failing operation, no pass throws |
| `OrchestrationProofs.RunWithoutFaultsUpdatesAll` | src/main/java/de/cofinpro/liquibase/CDILiquibaseMultiTenant.java:64-66 | with a session and no failing operation, every target is updated once, in list order, and nothing is thrown |
| `OrchestrationProofs.UpdateRunGate` | src/main/java/de/cofinpro/liquibase/CDILiquibaseMultiTenant.java:56-68 | with the gate off, the update has no effect; with it on, only targets get updates, and a run that throws nothing updates every target in order |
| `OrchestrationProofs.DefaultSchemaFallback` | src/main/java/de/cofinpro/liquibase/CDILiquibaseMultiTenant.java:61-62 | an empty schema list gives exactly one pass, against the default schema, requesting one connection |
| `OrchestrationProofs.SchemasOverrideDefault` | src/main/java/de/cofinpro/liquibase/CDILiquibaseConfig.java:48-77 | a non-empty schema list makes the targets independent of the default schema: they are the listed names themselves, and a null name is a pass against the null schema |
| `OrchestrationProofs.MalformedCredentialsIgnored` | src/main/java/de/cofinpro/liquibase/CDILiquibaseConfig.java:79-90 | a schema with no entry, or an entry whose length is not two, is opened with the datasource's default credentials |
| `OrchestrationProofs.BootstrapShape` | src/main/java/de/cofinpro/liquibase/CDILiquibaseMultiTenant.java:114-133 | the bootstrap connection is requested with the default credentials and, once obtained, is the last thing closed, also when detection fails; a failing open or detection leaves the session as it was; otherwise the session holds a handle on the bootstrap connection, its default schema set exactly when the configured one is not null, and no parameters; it returns normally exactly when the close succeeds |
| `OrchestrationProofs.ParametersAppliedExactly` | src/main/java/de/cofinpro/liquibase/CDILiquibaseMultiTenant.java:119-123 | applied parameters are exactly the map's entries: one event per key, no key twice, and an event is present exactly when it sets a key of the map to its value |
| `OrchestrationProofs.DefaultsRunOnePass` | src/main/java/de/cofinpro/liquibase/CDILiquibaseConfig.java:44-119 | with every accessor at its default and a session: the default schema is null, the schema list and the credentials map are empty, the parameter map is empty but not null, so there is one target, the null schema, and nothing to apply; no labels or contexts; drop-first off; and the update opens with the default credentials, rebinds the handle, sets the null schema, updates and closes the handle |
| `OrchestrationProofs.FiveTenantsInOrder` | src/test/java/de/cofinpro/liquibase/H2LiquibaseConfig.java:21-59 | with a session and no failing operation, the five tenants of the H2 fixture are updated in list order and nothing is thrown |
| `MultiTenant.LiquibaseMultiTenant.constructor` | src/main/java/de/cofinpro/liquibase/CDILiquibaseMultiTenant.java:34-41 | the injected configuration, no session, the gate closed, no effect yet |
| `MultiTenant.LiquibaseMultiTenant.CheckIfLiquibaseShouldRun` | src/main/java/de/cofinpro/liquibase/CDILiquibaseMultiTenant.java:70-83 | the gate field takes the value of the global Liquibase setting |
| `MultiTenant.LiquibaseMultiTenant.OnStartup` | src/main/java/de/cofinpro/liquibase/CDILiquibaseMultiTenant.java:43-54 | the gate is resolved; with it off nothing else changes; with it on the session is built as `Bootstrap` and the parameter loop describe, and a failure of the build is rethrown wrapped in an UnexpectedLiquibaseException |
| `MultiTenant.LiquibaseMultiTenant.PerformUpdate` | src/main/java/de/cofinpro/liquibase/CDILiquibaseMultiTenant.java:56-68 | the new state and the exception are exactly those of `UpdateRun`, so all run-level lemmas apply; the gate is unchanged, and with it off nothing changes |
| `MultiTenant.LiquibaseMultiTenant.PerformSchemaUpdate` | src/main/java/de/cofinpro/liquibase/CDILiquibaseMultiTenant.java:86-112 | the new state and the exception are exactly those of `SchemaPass`, so all pass-level lemmas apply |
| `MultiTenant.LiquibaseMultiTenant.CreateLiquibase` | src/main/java/de/cofinpro/liquibase/CDILiquibaseMultiTenant.java:114-124 | when `Bootstrap` throws, the state and exception are exactly its own; otherwise the session is Bootstrap's with the configured parameters (none when the map is null), the connection count is Bootstrap's, and the trace is Bootstrap's followed by each parameter applied exactly once |
| `MultiTenant.LiquibaseMultiTenant.ApplyChangeLogParameters` | src/main/java/de/cofinpro/liquibase/CDILiquibaseMultiTenant.java:120-122 | the session's parameters become the old ones overridden by the map, and the new trace events apply every entry exactly once |
| `MultiTenant.LiquibaseMultiTenant.CreateDatabase` | src/main/java/de/cofinpro/liquibase/CDILiquibaseMultiTenant.java:127-133 | a failing detection throws a DatabaseException; otherwise the handle is on the given connection with the configured default schema, and the schema is set on it only when the configured one is not null |

## Left out

- Logging and the hostname lookup (CDILiquibaseMultiTenant.java:45, 71-76, 80-82) have no effect
  on the state, so they are not modelled. The global Liquibase setting read at lines 78-79 is the
  `gate` parameter.
- CDI itself is not modelled: injection, `@PostConstruct`, and observing the application-scope
  initialisation event. The methods are called directly, and the ignored event argument is
  dropped.
- The resource accessor (CDILiquibaseConfig.java:44-46) is only handed to Liquibase, so it is
  not modelled. Changelog parsing and what an update does inside the database are Liquibase's,
  so an update is one `Update` or `UpdateFailed` event.
- `Update` events do not record the contexts and label expression that line 97 passes to the
  update; the configuration still carries them.
- `isDropFirst` (CDILiquibaseConfig.java:117-119) is never consulted by the orchestrator, so it
  is only a field of `Config`.
- The model has no null schema collection. The documentation at CDILiquibaseConfig.java:73 says
  null means the default schema. The code calls `isEmpty()` at CDILiquibaseMultiTenant.java:61,
  which would throw a NullPointerException on null.
- The model has no null credentials map. The lookup at line 89 would throw a
  NullPointerException on one.
- A credentials entry whose array is null is modelled as no entry, as line 90 treats it.
- A null user or password inside a two-element entry is not modelled. Line 91 passes it on
  unchanged, and the choice of credentials depends only on the entry's length.
- The model has no entry under a null key: a null schema, whether the default or a listed name,
  always finds no credentials.
- Only these operations can fail in the model: `getConnection`, database detection,
  `Liquibase.update`, the handle's close, the raw rollback, and the bootstrap connection's close.
  Rebinding the handle, setting its default schema, the `Liquibase` constructor and
  `setChangeLogParameter` are modelled as infallible.
- Only `LiquibaseException` is modelled as an update failure. The update's other runtime
  exceptions are not.
- A failing close of the handle is recorded as a `CloseHandle` like a successful one. So
  "closed" in `OrchestrationProofs.PassClosesWhatItOpens` and
  `OrchestrationProofs.RunClosesEveryConnection` means that close was called; whether it
  succeeded is not tracked.
- A failing raw close after a successful rollback is recorded as a `Close` like any other. Its
  exception is swallowed (lines 107-109), so nothing else follows from it.
- Exceptions that try-with-resources suppresses are not recorded: a failing bootstrap close
  after a failed detection is invisible.
- The order in which the parameter map's entries are visited is left open, since it is the
  map's iteration order. `MultiTenant.LiquibaseMultiTenant.ApplyChangeLogParameters` picks any
  remaining key at each step.
- `JdbcConnection` wrappers are not modelled: a connection is identified by the order in which
  the datasource handed it out.
- `OrchestrationProofs.RunClosesEveryConnection`: does not cover a pass without a session whose
  raw rollback fails. There the source skips the close (lines 104-106 share one `try`), so that
  connection is left open.
- `OrchestrationProofs.PassClosesWhatItOpens`: does not cover that same case, for the same reason.
- No connection is claimed to be closed only once. After a failed open, the `finally` block
  closes the handle, which still holds the connection of an earlier pass or of the bootstrap.
  That connection was already closed.
- The model is sequential: no concurrency is modelled.
