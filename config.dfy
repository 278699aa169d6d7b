/**
 * The checks the application settings apply to the environment name, the log level,
 * the token-signing algorithm and the secret key, and the environment predicates.
 */
module Config {
  import opened Wrappers

  /** The error a validator raises, with its message. */
  datatype ConfigError = ValueError(message: string)

  /** The validated settings the environment predicates read. */
  datatype Settings = Settings(environment: string, logLevel: string, jwtAlgorithm: string, secretKey: string)

  const Environments: seq<string> := ["development", "staging", "production"]
  const LogLevels: seq<string> := ["DEBUG", "INFO", "WARNING", "ERROR", "CRITICAL"]
  const JwtAlgorithms: seq<string> := ["HS256", "HS384", "HS512", "RS256", "RS384", "RS512"]
  const MinSecretKeyLength: nat := 32

  const DefaultEnvironment: string := "development"
  const DefaultLogLevel: string := "INFO"
  const DefaultJwtAlgorithm: string := "RS256"

  /** Accepts one of the three deployment environments and returns it unchanged. */
  function ValidateEnvironment(v: string): (r: Result<string, ConfigError>)
    ensures r.Ok? <==> v == "development" || v == "staging" || v == "production"
    ensures r.Ok? ==> r.value == v
    ensures r.Err? ==> r.error == ValueError("Environment must be development, staging, or production")
  {
    if v !in Environments then Err(ValueError("Environment must be development, staging, or production"))
    else Ok(v)
  }

  /** Accepts one of the five upper-case log level names and returns it unchanged. */
  function ValidateLogLevel(v: string): (r: Result<string, ConfigError>)
    ensures r.Ok? <==> v == "DEBUG" || v == "INFO" || v == "WARNING" || v == "ERROR" || v == "CRITICAL"
    ensures r.Ok? ==> r.value == v
    ensures r.Err? ==> r.error == ValueError("Log level must be DEBUG, INFO, WARNING, ERROR, or CRITICAL")
  {
    if v !in LogLevels then Err(ValueError("Log level must be DEBUG, INFO, WARNING, ERROR, or CRITICAL"))
    else Ok(v)
  }

  /** Accepts one of the six HMAC or RSA signing algorithms and returns it unchanged. */
  function ValidateJwtAlgorithm(v: string): (r: Result<string, ConfigError>)
    ensures r.Ok? <==> v == "HS256" || v == "HS384" || v == "HS512" || v == "RS256" || v == "RS384" || v == "RS512"
    ensures r.Ok? ==> r.value == v
    ensures r.Err? ==> r.error == ValueError("Invalid JWT algorithm")
  {
    if v !in JwtAlgorithms then Err(ValueError("Invalid JWT algorithm"))
    else Ok(v)
  }

  /** Accepts a secret key of at least 32 characters and returns it unchanged. */
  function ValidateSecretKey(v: string): (r: Result<string, ConfigError>)
    ensures r.Ok? <==> |v| >= 32
    ensures r.Ok? ==> r.value == v
    ensures r.Err? ==> r.error == ValueError("Secret key must be at least 32 characters long")
  {
    if |v| < MinSecretKeyLength then Err(ValueError("Secret key must be at least 32 characters long"))
    else Ok(v)
  }

  /** Whether the settings select the development environment. */
  predicate IsDevelopment(s: Settings)
    ensures IsDevelopment(s) <==> ValidateEnvironment(s.environment) == Ok("development")
  {
    s.environment == "development"
  }

  /** Whether the settings select the production environment. */
  predicate IsProduction(s: Settings)
    ensures IsProduction(s) <==> ValidateEnvironment(s.environment) == Ok("production")
  {
    s.environment == "production"
  }

  /** Whether the settings select the staging environment. */
  predicate IsStaging(s: Settings)
    ensures IsStaging(s) <==> ValidateEnvironment(s.environment) == Ok("staging")
  {
    s.environment == "staging"
  }

  /** At most one environment predicate holds. */
  lemma AtMostOneEnvironment(s: Settings)
    ensures !(IsDevelopment(s) && IsProduction(s))
    ensures !(IsDevelopment(s) && IsStaging(s))
    ensures !(IsProduction(s) && IsStaging(s))
  {
  }

  /** For an environment that passes validation, exactly one environment predicate holds. */
  lemma ValidEnvironmentIsExactlyOne(s: Settings)
    requires ValidateEnvironment(s.environment).Ok?
    ensures (if IsDevelopment(s) then 1 else 0) + (if IsProduction(s) then 1 else 0)
          + (if IsStaging(s) then 1 else 0) == 1
  {
  }

  /** The level check is case-sensitive: lower-case names are rejected. */
  lemma LogLevelCaseSensitive()
    ensures ValidateLogLevel("INFO") == Ok("INFO")
    ensures ValidateLogLevel("info").Err?
    ensures ValidateLogLevel("Debug").Err?
  {
  }

  /** A key of 32 characters passes and one of 31 fails. */
  lemma SecretKeyBoundary(long: string, short: string)
    requires |long| == 32 && |short| == 31
    ensures ValidateSecretKey(long) == Ok(long)
    ensures ValidateSecretKey(short).Err?
  {
  }

  /** The declared defaults pass their validators. */
  lemma DefaultsPass()
    ensures ValidateEnvironment(DefaultEnvironment) == Ok(DefaultEnvironment)
    ensures ValidateLogLevel(DefaultLogLevel) == Ok(DefaultLogLevel)
    ensures ValidateJwtAlgorithm(DefaultJwtAlgorithm) == Ok(DefaultJwtAlgorithm)
    ensures IsDevelopment(Settings(DefaultEnvironment, DefaultLogLevel, DefaultJwtAlgorithm, ""))
  {
  }
}
