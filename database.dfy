/**
 * The database module: the connection URL, rewritten to the scheme
 * SQLAlchemy accepts; the engine, present only when a URL is configured;
 * and the two entry points that need the engine.
 */
module Database {
  import opened Common
  import opened Text

  const PostgresScheme: string := "postgres://"
  const PostgresqlScheme: string := "postgresql://"

  const NoDatabaseUrl: string := "DATABASE_URL is not set."

  /** The tables the models declare. */
  const ModelTables: set<string> := {"user", "session"}

  /** `db_url` after the load-time rewrite: a leading `postgres://` becomes `postgresql://`. */
  function NormalizeUrl(url: string): string {
    if StartsWith(url, PostgresScheme) then ReplaceFirst(url, PostgresScheme, PostgresqlScheme) else url
  }

  /** A URL in the old scheme gets the new scheme, and the rest of it is unchanged. */
  lemma NormalizeRewritesScheme(url: string)
    requires StartsWith(url, PostgresScheme)
    ensures NormalizeUrl(url) == PostgresqlScheme + url[|PostgresScheme|..]
  {
    ReplaceFirstAtStart(url, PostgresScheme, PostgresqlScheme);
  }

  /** Any other URL is kept as it is, in particular one already in the `postgresql://` scheme. */
  lemma NormalizeKeepsOtherUrls(url: string)
    requires !StartsWith(url, PostgresScheme) || StartsWith(url, PostgresqlScheme)
    ensures NormalizeUrl(url) == url
  {
    if StartsWith(url, PostgresqlScheme) {
      assert url[8] == 'q' != PostgresScheme[8];
    }
  }

  /** The rewritten URL never starts with the old scheme, so rewriting twice is rewriting once. */
  lemma NormalizeIdempotent(url: string)
    ensures !StartsWith(NormalizeUrl(url), PostgresScheme)
    ensures NormalizeUrl(NormalizeUrl(url)) == NormalizeUrl(url)
  {
    if StartsWith(url, PostgresScheme) {
      NormalizeRewritesScheme(url);
      var r := NormalizeUrl(url);
      assert r[8] == 'q' != PostgresScheme[8];
    }
  }

  /** A SQLAlchemy engine, known by the URL it was created with. */
  datatype Engine = Engine(url: string)

  /** A database session bound to an engine. */
  datatype DbSession = DbSession(engine: Engine)

  /** `engine`: created only when the URL is set and not empty, from the rewritten URL. */
  function EngineFor(databaseUrl: Option<string>): (engine: Option<Engine>)
    ensures engine.Some? <==> databaseUrl.Some? && databaseUrl.value != ""
    ensures engine.Some? ==> engine.value.url == NormalizeUrl(databaseUrl.value)
  {
    if databaseUrl.None? || databaseUrl.value == "" then None
    else
      var url := databaseUrl.value;
      var rewritten := if StartsWith(url, PostgresScheme) then ReplaceFirst(url, PostgresScheme, PostgresqlScheme) else url;
      Some(Engine(rewritten))
  }

  /** The database the module connects to: its engine, if any, and the tables created in it so far. */
  class Connection {
    const engine: Option<Engine>
    var tables: set<string>

    constructor (databaseUrl: Option<string>, tables: set<string>)
      ensures engine == EngineFor(databaseUrl) && this.tables == tables
    {
      engine := EngineFor(databaseUrl);
      this.tables := tables;
    }

    /** `init_db`: create the missing model tables; without an engine, do nothing. */
    method InitDb()
      modifies this
      ensures engine.Some? ==> tables == old(tables) + ModelTables
      ensures engine.None? ==> tables == old(tables)
    {
      if engine.Some? {
        tables := tables + ModelTables;
      }
    }

    /** `get_session`: a session on the engine, or the error raised when there is none. */
    method GetSession() returns (r: Result<DbSession, string>)
      ensures r.Err? <==> engine.None?
      ensures r.Err? ==> r.error == NoDatabaseUrl
      ensures r.Ok? ==> r.value.engine == engine.value
    {
      if engine.None? {
        return Err(NoDatabaseUrl);
      }
      return Ok(DbSession(engine.value));
    }
  }
}
