/**
 * Application settings (the defaults of backend/config.py) and the
 * per-request database connection configuration of backend/connection.py.
 */
module Settings {

  /** The settings the core reads. Values come from the environment; `Default` holds the shipped defaults. */
  datatype Settings = Settings(
    mysqlHost: string,
    mysqlPort: int,
    mysqlUser: string,
    mysqlPassword: string,
    mysqlDatabase: string,
    databaseType: string,
    llmModel: string,
    maxRowsLimit: int,
    readOnly: bool,
    redisHost: string,
    redisPassword: string)

  const DefaultMaxRowsLimit: int := 1000
  const DefaultReadOnly: bool := true

  const Default: Settings := Settings(
    "localhost", 3306, "root", "", "text2sql_db", "mysql",
    "llama-3.1-8b-instant", DefaultMaxRowsLimit, DefaultReadOnly, "", "")
}

module Connection {
  import opened Base
  import opened TextUtil
  import opened Settings

  datatype ConnectionConfig = ConnectionConfig(
    host: string,
    port: int,
    user: string,
    password: string,
    database: string,
    databaseType: string)

  /** The text the connection key is hashed from: host, port, user and database only. */
  function KeySource(c: ConnectionConfig): string {
    c.host + ":" + IntToString(c.port) + ":" + c.user + ":" + c.database
  }

  /** `connection_key`: the first 16 hex digits of the SHA-256 digest of `KeySource`. */
  function ConnectionKey(c: ConnectionConfig, sha256: string -> Sha256Hex): (k: string)
    ensures |k| == 16 && IsLowerHex(k)
    ensures StartsWith(sha256(KeySource(c)), k)
  {
    sha256(KeySource(c))[..16]
  }

  /**
   * The key is a function of host, port, user and database alone: two
   * configurations that agree on those four fields share their key whatever
   * their passwords and database types, for every hash function.
   */
  lemma ConnectionKeyIgnoresSecrets(c: ConnectionConfig, d: ConnectionConfig, sha256: string -> Sha256Hex)
    requires c.host == d.host && c.port == d.port && c.user == d.user && c.database == d.database
    ensures ConnectionKey(c, sha256) == ConnectionKey(d, sha256)
    ensures ConnectionKey(c.(password := d.password, databaseType := d.databaseType), sha256) == ConnectionKey(c, sha256)
  {
  }

  /** The part of a URL after its scheme: `user:password@host:port/database`. */
  function Authority(c: ConnectionConfig): string {
    c.user + ":" + c.password + "@" + c.host + ":" + IntToString(c.port) + "/" + c.database
  }

  function MysqlUrl(c: ConnectionConfig): string {
    "mysql+pymysql://" + Authority(c)
  }

  function PostgresUrl(c: ConnectionConfig): string {
    "postgresql://" + Authority(c)
  }

  /** `sqlalchemy_url`: the postgres URL exactly when the type is "postgres", the MySQL one otherwise. */
  function SqlAlchemyUrl(c: ConnectionConfig): (url: string)
    ensures c.databaseType == "postgres" ==> url == "postgresql://" + Authority(c)
    ensures c.databaseType != "postgres" ==> url == "mysql+pymysql://" + Authority(c)
    ensures StartsWith(url, "postgresql://") <==> c.databaseType == "postgres"
  {
    if c.databaseType == "postgres" then PostgresUrl(c)
    else
      var url := MysqlUrl(c);
      assert url[0] == 'm';
      url
  }

  /** Identifier quoting used for table names: double quotes for postgres, backticks otherwise. */
  function QuoteTable(name: string, databaseType: string): (q: string)
    ensures |q| == |name| + 2 && q[1..|q| - 1] == name
    ensures databaseType == "postgres" ==> q[0] == '"' && q[|q| - 1] == '"'
    ensures databaseType != "postgres" ==> q[0] == '`' && q[|q| - 1] == '`'
  {
    if databaseType == "postgres" then "\"" + name + "\"" else "`" + name + "`"
  }

  /**
   * The connection fields of a request body after the caller has dropped the
   * ones that were null; an absent field is `None`.
   */
  datatype RequestBody = RequestBody(
    host: Option<string>,
    port: Option<int>,
    user: Option<string>,
    password: Option<string>,
    database: Option<string>,
    databaseType: Option<string>)

  /** Python's `value or default` for a string field. */
  function OrString(v: Option<string>, default: string): (r: string)
    ensures v.Some? && v.value != "" ==> r == v.value
    ensures v.None? || v.value == "" ==> r == default
  {
    if v.Some? && v.value != "" then v.value else default
  }

  /** Python's `value or default` for an integer field. */
  function OrInt(v: Option<int>, default: int): (r: int)
    ensures v.Some? && v.value != 0 ==> r == v.value
    ensures v.None? || v.value == 0 ==> r == default
  {
    if v.Some? && v.value != 0 then v.value else default
  }

  /**
   * `connection_from_request`: no configuration when the body is absent or
   * names no database; otherwise every falsy field takes its default and the
   * database type is lower-cased.
   */
  function ConnectionFromRequest(body: Option<RequestBody>): (r: Option<ConnectionConfig>)
    ensures r.None? <==> body.None? || body.value.database.None? || body.value.database.value == ""
    ensures r.Some? ==> (
      && r.value.database == body.value.database.value
      && r.value.host == OrString(body.value.host, "localhost")
      && r.value.port == OrInt(body.value.port, 3306)
      && r.value.user == OrString(body.value.user, "root")
      && r.value.password == OrString(body.value.password, "")
      && r.value.databaseType == Lower(OrString(body.value.databaseType, "mysql")))
  {
    if body.None? || body.value.database.None? || body.value.database.value == "" then None
    else
      var b := body.value;
      Some(ConnectionConfig(
        OrString(b.host, "localhost"),
        OrInt(b.port, 3306),
        OrString(b.user, "root"),
        OrString(b.password, ""),
        b.database.value,
        Lower(OrString(b.databaseType, "mysql"))))
  }

  /** `connection_from_settings`. */
  function ConnectionFromSettings(s: Settings): ConnectionConfig {
    ConnectionConfig(s.mysqlHost, s.mysqlPort, s.mysqlUser, s.mysqlPassword, s.mysqlDatabase, s.databaseType)
  }

  /** `get_connection`: a given configuration unchanged, else the one built from settings. */
  function GetConnection(c: Option<ConnectionConfig>, s: Settings): (r: ConnectionConfig)
    ensures c.Some? ==> r == c.value
    ensures c.None? ==> (
      && r.host == s.mysqlHost && r.port == s.mysqlPort && r.user == s.mysqlUser
      && r.password == s.mysqlPassword && r.database == s.mysqlDatabase && r.databaseType == s.databaseType)
  {
    if c.Some? then c.value else ConnectionFromSettings(s)
  }

  /** A request body without a database never yields a configuration, whatever else it holds. */
  lemma RequestWithoutDatabaseUsesSettings(body: RequestBody, s: Settings)
    requires body.database.None? || body.database.value == ""
    ensures GetConnection(ConnectionFromRequest(Some(body)), s) == ConnectionFromSettings(s)
  {
  }

  /** A configuration built from a request always has a lower-case database type and a non-empty host and user. */
  lemma RequestConfigDefaults(body: RequestBody)
    requires body.database.Some? && body.database.value != ""
    ensures var c := ConnectionFromRequest(Some(body)).value;
      c.host != "" && c.user != "" && c.port != 0 && Lower(c.databaseType) == c.databaseType
  {
    var c := ConnectionFromRequest(Some(body)).value;
    assert Lower(c.databaseType) == c.databaseType by {
      var t := OrString(body.databaseType, "mysql");
      assert forall i :: 0 <= i < |t| ==> LowerChar(LowerChar(t[i])) == LowerChar(t[i]);
    }
  }
}
