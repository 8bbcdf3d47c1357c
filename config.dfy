/** The configuration contract of the Liquibase CDI integration: one value per migration target.
    Java's nullable references become Option; collections become sequences and maps. */
module LiquibaseConfig {

  datatype Option<+T> = None | Some(value: T)

  /** What an implementation of the abstract configuration class answers. The datasource and the
      resource accessor are not fields: the datasource is the environment the orchestrator runs in,
      and the resource accessor is only handed on to Liquibase. */
  datatype Config = Config(
    changeLog: string,                             // path of the changelog, required
    defaultSchema: Option<string>,                 // None: the database picks its default schema
    schemas: seq<Option<string>>,                  // tenants, migrated in this order; None: a null name
    schemaCredentials: map<string, seq<string>>,   // schema -> [user, password]
    parameters: Option<map<string, string>>,       // changelog parameters (may be null)
    labels: Option<string>,                        // label expression
    contexts: seq<string>,
    dropFirst: bool)

  /** An implementation that overrides only the two abstract accessors: every other accessor
      answers its default. */
  function Defaults(changeLog: string): (cfg: Config)
    ensures cfg.changeLog == changeLog
    ensures cfg.defaultSchema == None && cfg.schemas == [] && cfg.schemaCredentials == map[]
    ensures cfg.parameters == Some(map[]) && cfg.labels == None && cfg.contexts == [] && !cfg.dropFirst
  {
    Config(changeLog, None, [], map[], Some(map[]), None, [], false)
  }

  /** The schema name used as the key into the credentials map: a null schema finds no entry. */
  predicate HasWellFormedCredentials(credentials: map<string, seq<string>>, schema: Option<string>)
  {
    schema.Some? && schema.value in credentials && |credentials[schema.value]| == 2
  }
}
