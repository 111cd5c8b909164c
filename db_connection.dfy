/** How the database settings are found (`model.repositories.DBConnection`): the environment
    first, then the properties file, otherwise an error. The environment and the file's
    properties are maps from key to raw value; errors are the `SQLException` messages. */
module DbConnection {
  import opened Common
  import opened JavaString

  datatype DbConfig = DbConfig(host: string, port: string, dbName: string, user: string, password: string)

  /** `src/db.properties` as `loadFromPropertiesFile` meets it: absent, failing to load with an
      exception message, or loaded. */
  datatype PropsFile = NoFile | Unreadable(message: string) | Loaded(props: map<string, string>)

  const PROPS_PATH := "src/db.properties"
  const DEFAULT_HOST := "localhost"
  const DEFAULT_PORT := "5432"
  const ENV_SOURCE := "variáveis de ambiente"
  const FILE_SOURCE := "arquivo " + PROPS_PATH
  const READ_FAILED := "Erro ao ler configurações do banco em " + PROPS_PATH + ": "
  const NOT_CONFIGURED :=
    "Banco não configurado.\n"
    + "- Crie o arquivo: " + PROPS_PATH + "\n"
    + "  com as chaves DB_HOST, DB_PORT, DB_NAME, DB_USER, DB_PASSWORD\n"
    + "  (DB_HOST/DB_PORT podem ser opcionais se quiser localhost/5432)\n"
    + "- OU defina as variáveis de ambiente: DB_HOST, DB_PORT, DB_NAME, DB_USER, DB_PASSWORD"

  /** `"Configuração do banco incompleta em " + source + ...`. */
  function Incomplete(source: string): string {
    "Configuração do banco incompleta em " + source + ".\nObrigatório: DB_NAME, DB_USER, DB_PASSWORD."
  }

  /** `map.get(key)`, `null` for a missing key, then `trimToNull`. */
  function Value(m: map<string, string>, key: string): (r: Option<string>)
    ensures r.Some? ==> key in m && r.value == Trim(m[key]) && r.value != []
    ensures r.None? <==> key !in m || AllTrimmable(m[key])
  {
    TrimToNull(if key in m then Some(m[key]) else None)
  }

  /** The defaults for host and port, then `validateRequired(db, user, pass, source)`. */
  function Resolve(host: Option<string>, port: Option<string>, db: Option<string>, user: Option<string>,
                   pass: Option<string>, source: string): (r: Result<DbConfig, string>)
    ensures r.Ok? <==> db.Some? && user.Some? && pass.Some?
    ensures r.Err? ==> r.error == Incomplete(source)
    ensures r.Ok? ==>
      && r.value.host == (if host.Some? then host.value else DEFAULT_HOST)
      && r.value.port == (if port.Some? then port.value else DEFAULT_PORT)
      && r.value.dbName == db.value && r.value.user == user.value && r.value.password == pass.value
  {
    var h := if host.Some? then host.value else DEFAULT_HOST;
    var p := if port.Some? then port.value else DEFAULT_PORT;
    if db.None? || user.None? || pass.None? then Err(Incomplete(source))
    else Ok(DbConfig(h, p, db.value, user.value, pass.value))
  }

  /** The five settings of a source, blank ones as `None`. */
  function Settings(m: map<string, string>): seq<Option<string>> {
    [Value(m, "DB_HOST"), Value(m, "DB_PORT"), Value(m, "DB_NAME"), Value(m, "DB_USER"), Value(m, "DB_PASSWORD")]
  }

  /** Some setting of `m` is present and not blank. */
  predicate AnySet(m: map<string, string>) {
    exists i :: 0 <= i < 5 && Settings(m)[i].Some?
  }

  function ResolveFrom(m: map<string, string>, source: string): Result<DbConfig, string> {
    Resolve(Value(m, "DB_HOST"), Value(m, "DB_PORT"), Value(m, "DB_NAME"), Value(m, "DB_USER"), Value(m, "DB_PASSWORD"), source)
  }

  /** `loadFromEnv()`: `None` exactly when none of the five variables is set; otherwise the
      environment's own settings, complete, or the "incompleta" error naming the environment. */
  function LoadFromEnv(env: map<string, string>): (r: Result<Option<DbConfig>, string>)
    ensures r == Ok(None) <==> !AnySet(env)
    ensures r.Err? ==> r.error == Incomplete(ENV_SOURCE)
    ensures r.Ok? && r.value.Some? ==>
      r.value.value.dbName != [] && r.value.value.user != [] && r.value.value.password != []
  {
    if !AnySet(env) then Ok(None)
    else match ResolveFrom(env, ENV_SOURCE)
      case Err(m) => Err(m)
      case Ok(c) => Ok(Some(c))
  }

  /** `loadFromPropertiesFile()`: a missing file is `None`; every other exception inside the
      `try`, the incomplete-settings one included, is rethrown with the file's prefix. */
  function LoadFromPropertiesFile(file: PropsFile): (r: Result<Option<DbConfig>, string>)
    ensures r == Ok(None) <==> file.NoFile?
    ensures r.Err? ==> |READ_FAILED| <= |r.error| && r.error[..|READ_FAILED|] == READ_FAILED
    ensures r.Ok? && r.value.Some? ==>
      r.value.value.dbName != [] && r.value.value.user != [] && r.value.value.password != []
  {
    match file
    case NoFile => Ok(None)
    case Unreadable(m) => Err(READ_FAILED + m)
    case Loaded(props) =>
      match ResolveFrom(props, FILE_SOURCE)
      case Err(m) => Err(READ_FAILED + m)
      case Ok(c) => Ok(Some(c))
  }

  /** `loadConfigOrThrow()`: the environment when any variable is set, the file otherwise, and
      the "não configurado" error when there is neither; a configuration found has every
      setting non-blank. */
  function LoadConfig(env: map<string, string>, file: PropsFile): (r: Result<DbConfig, string>)
    ensures AnySet(env) ==> r == ResolveFrom(env, ENV_SOURCE)
    ensures !AnySet(env) && file.NoFile? ==> r == Err(NOT_CONFIGURED)
    ensures r.Ok? ==>
      r.value.host != [] && r.value.port != [] && r.value.dbName != [] && r.value.user != [] && r.value.password != []
  {
    match LoadFromEnv(env)
    case Err(m) => Err(m)
    case Ok(Some(c)) => Ok(c)
    case Ok(None) =>
      match LoadFromPropertiesFile(file)
      case Err(m) => Err(m)
      case Ok(Some(c)) => Ok(c)
      case Ok(None) => Err(NOT_CONFIGURED)
  }

  /** The JDBC URL `getConnection` builds: the PostgreSQL prefix, then the host, and the
      database name at the end. */
  function Url(c: DbConfig): (url: string)
    ensures |url| == 20 + |c.host| + |c.port| + |c.dbName|
    ensures url[..18] == "jdbc:postgresql://" && url[18..18 + |c.host|] == c.host
    ensures url[|url| - |c.dbName|..] == c.dbName
  {
    "jdbc:postgresql://" + c.host + ":" + c.port + "/" + c.dbName
  }

  // ----- What the configuration promises -----

  /** Once any variable is set the environment decides alone: the file is never read. */
  lemma EnvironmentWins(env: map<string, string>, file: PropsFile, other: PropsFile)
    requires AnySet(env)
    ensures LoadConfig(env, file) == LoadConfig(env, other)
    ensures LoadConfig(env, file) == ResolveFrom(env, ENV_SOURCE)
  {
  }

  /** With no variable set the file decides; with no file either, the call fails. */
  lemma FileWhenNoEnvironment(env: map<string, string>, file: PropsFile)
    requires !AnySet(env)
    ensures file.NoFile? ==> LoadConfig(env, file) == Err(NOT_CONFIGURED)
    ensures file.Unreadable? ==> LoadConfig(env, file) == Err(READ_FAILED + file.message)
    ensures file.Loaded? ==> (LoadConfig(env, file) ==
      match ResolveFrom(file.props, FILE_SOURCE)
      case Ok(c) => Ok(c)
      case Err(m) => Err(READ_FAILED + m))
  {
  }

  /** A blank value counts as missing, and kept values are trimmed. */
  lemma BlankIsMissing(m: map<string, string>, key: string, w: string)
    requires AllTrimmable(w)
    ensures Value(m[key := w], key) == None
    ensures key in m ==> Value(m, key) == TrimToNull(Some(m[key]))
  {
  }

  /** A configuration found names a database, a user and a password that are all non-blank
      and trimmed, and a host and port that are trimmed values or the defaults. */
  lemma ConfigIsComplete(env: map<string, string>, file: PropsFile)
    requires LoadConfig(env, file).Ok?
    ensures var c := LoadConfig(env, file).value;
      var m := if AnySet(env) then env else file.props;
      && c.dbName == Trim(m["DB_NAME"]) && c.dbName != []
      && c.user == Trim(m["DB_USER"]) && c.user != []
      && c.password == Trim(m["DB_PASSWORD"]) && c.password != []
      && c.host == (if Value(m, "DB_HOST").Some? then Trim(m["DB_HOST"]) else DEFAULT_HOST)
      && c.port == (if Value(m, "DB_PORT").Some? then Trim(m["DB_PORT"]) else DEFAULT_PORT)
  {
    if !AnySet(env) {
      assert file.Loaded? && LoadConfig(env, file) == ResolveFrom(file.props, FILE_SOURCE);
    }
  }

  /** A required setting missing is the "incompleta" error of the source that was chosen; from
      the file it carries the file's read-error prefix. */
  lemma MissingRequired(env: map<string, string>, file: PropsFile)
    requires AnySet(env) ==> Value(env, "DB_NAME").None? || Value(env, "DB_USER").None? || Value(env, "DB_PASSWORD").None?
    requires !AnySet(env) ==> (file.Loaded? &&
      (Value(file.props, "DB_NAME").None? || Value(file.props, "DB_USER").None? || Value(file.props, "DB_PASSWORD").None?))
    ensures AnySet(env) ==> LoadConfig(env, file) == Err(Incomplete(ENV_SOURCE))
    ensures !AnySet(env) ==> LoadConfig(env, file) == Err(READ_FAILED + Incomplete(FILE_SOURCE))
  {
  }

  /** Only the name is needed besides the credentials: with host and port unset (or blank)
      in the environment, the connection goes to `localhost:5432`. */
  lemma DefaultsInUrl(env: map<string, string>, file: PropsFile)
    requires Value(env, "DB_HOST").None? && Value(env, "DB_PORT").None?
    requires Value(env, "DB_NAME").Some? && Value(env, "DB_USER").Some? && Value(env, "DB_PASSWORD").Some?
    ensures LoadConfig(env, file)
      == Ok(DbConfig(DEFAULT_HOST, DEFAULT_PORT, Trim(env["DB_NAME"]), Trim(env["DB_USER"]), Trim(env["DB_PASSWORD"])))
    ensures Url(LoadConfig(env, file).value)
      == "jdbc:postgresql://" + DEFAULT_HOST + ":" + DEFAULT_PORT + "/" + Trim(env["DB_NAME"])
  {
    assert Settings(env)[2].Some?;
    EnvironmentWins(env, file, file);
  }
}
