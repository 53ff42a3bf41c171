/**
 * How `Historian.__init__` resolves its connection settings: an explicit
 * argument wins; otherwise the value comes from the process environment,
 * which is passed in here as a map.
 */
module Configuration {
  import opened Wrappers
  import opened Records

  const SERVER_KEY: string := "DATAPARC_SERVER"
  const USERNAME_KEY: string := "DATAPARC_USERNAME"
  const PASSWORD_KEY: string := "DATAPARC_PASSWORD"
  const ABBREVIATION_KEY: string := "DATAPARC_SITE_ABBREVIATION"
  const TIMEZONE_KEY: string := "DATAPARC_TIMEZONE"

  const DEFAULT_TIMEZONE: string := "UTC"
  const DEFAULT_DATABASE: string := "ctc_config"

  /** The constructor's parameters; `None` is Python's `None`. */
  datatype Arguments = Arguments(
    siteAbbreviation: Option<string>,
    server: Option<string>,
    user: Option<string>,
    password: Option<string>,
    timezone: Option<string>,
    database: string)

  /** `Historian()` with every parameter left at its default. */
  function DefaultArguments(): Arguments
  {
    Arguments(None, None, None, None, None, DEFAULT_DATABASE)
  }

  /** The settings a constructed client holds. */
  datatype Config = Config(
    server: string,
    user: string,
    password: string,
    database: string,
    abbreviation: string,
    timezone: TimeZone)

  /** `os.environ[key]` raising `KeyError(key)`. */
  datatype ConfigError = MissingEnvironmentKey(key: string)

  /** The environment lookup a parameter falls back on. */
  predicate Missing(explicit: Option<string>, env: map<string, string>, key: string)
  {
    explicit.None? && key !in env
  }

  /** `explicit if explicit is not None else os.environ[key]`. */
  function Lookup(explicit: Option<string>, env: map<string, string>, key: string): Result<string, ConfigError>
  {
    if explicit.Some? then Success(explicit.value)
    else if key in env then Success(env[key])
    else Failure(MissingEnvironmentKey(key))
  }

  /**
   * Fields are resolved in the constructor's order (server, user, password,
   * database, abbreviation, timezone), so the error names the first required
   * setting missing from both sources.
   */
  function ResolveConfig(args: Arguments, env: map<string, string>): (r: Result<Config, ConfigError>)
    ensures r.Success? <==>
      !Missing(args.server, env, SERVER_KEY) && !Missing(args.user, env, USERNAME_KEY) &&
      !Missing(args.password, env, PASSWORD_KEY) && !Missing(args.siteAbbreviation, env, ABBREVIATION_KEY)
    ensures Missing(args.server, env, SERVER_KEY) ==> r == Failure(MissingEnvironmentKey(SERVER_KEY))
    ensures (!Missing(args.server, env, SERVER_KEY) && Missing(args.user, env, USERNAME_KEY))
        ==> r == Failure(MissingEnvironmentKey(USERNAME_KEY))
    ensures (!Missing(args.server, env, SERVER_KEY) && !Missing(args.user, env, USERNAME_KEY) &&
             Missing(args.password, env, PASSWORD_KEY))
        ==> r == Failure(MissingEnvironmentKey(PASSWORD_KEY))
    ensures (!Missing(args.server, env, SERVER_KEY) && !Missing(args.user, env, USERNAME_KEY) &&
             !Missing(args.password, env, PASSWORD_KEY) && Missing(args.siteAbbreviation, env, ABBREVIATION_KEY))
        ==> r == Failure(MissingEnvironmentKey(ABBREVIATION_KEY))
    ensures r.Success? ==>
      && r.value.server == (if args.server.Some? then args.server.value else env[SERVER_KEY])
      && r.value.user == (if args.user.Some? then args.user.value else env[USERNAME_KEY])
      && r.value.password == (if args.password.Some? then args.password.value else env[PASSWORD_KEY])
      && r.value.database == args.database
      && r.value.abbreviation == (if args.siteAbbreviation.Some? then args.siteAbbreviation.value else env[ABBREVIATION_KEY])
      && r.value.timezone == TimeZone(
           if args.timezone.Some? then args.timezone.value
           else if TIMEZONE_KEY in env then env[TIMEZONE_KEY]
           else DEFAULT_TIMEZONE)
  {
    var server :- Lookup(args.server, env, SERVER_KEY);
    var user :- Lookup(args.user, env, USERNAME_KEY);
    var password :- Lookup(args.password, env, PASSWORD_KEY);
    var abbreviation :- Lookup(args.siteAbbreviation, env, ABBREVIATION_KEY);
    var zone := if args.timezone.Some? then args.timezone.value
                else if TIMEZONE_KEY in env then env[TIMEZONE_KEY]
                else DEFAULT_TIMEZONE;
    Success(Config(server, user, password, args.database, abbreviation, TimeZone(zone)))
  }

  /**
   * When the four required settings are given explicitly (the tests pass
   * empty strings), construction succeeds whatever the environment holds,
   * and the database is `ctc_config` unless one is given.
   */
  lemma ExplicitSettingsNeedNoEnvironment(abbreviation: string, server: string, user: string, password: string, env: map<string, string>)
    ensures var args := DefaultArguments().(siteAbbreviation := Some(abbreviation), server := Some(server),
                                            user := Some(user), password := Some(password));
      ResolveConfig(args, env) == Success(Config(server, user, password, DEFAULT_DATABASE, abbreviation,
        TimeZone(if TIMEZONE_KEY in env then env[TIMEZONE_KEY] else DEFAULT_TIMEZONE)))
  {
  }
}
