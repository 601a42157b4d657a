/** The backend's configuration, built once from the process environment with a
    default for most settings, and the start-up check of the required settings. */
module Environment {
  import opened Json
  import opened Text

  /** The process environment: variable names to values. */
  type Env = map<string, string>

  /** `process.env[name]`. */
  function Var(env: Env, name: string): Option<string> {
    if name in env then Some(env[name]) else None
  }

  /** `process.env[name] || d`: the default also replaces an empty value. */
  function OrDefault(env: Env, name: string, d: string): (v: string)
    ensures Given(Var(env, name)) ==> v == env[name]
    ensures !Given(Var(env, name)) ==> v == d
  {
    if name in env && env[name] != "" then env[name] else d
  }

  /** `parseInt(process.env[name] || d, 10)`; None is NaN. */
  function NumberOr(env: Env, name: string, d: string): Option<int> {
    ParseInt(OrDefault(env, name, d), 10)
  }

  datatype Config = Config(
    nodeEnv: string,
    port: Option<int>,
    trustProxy: bool,
    databaseUrl: string,
    redisUrl: string,
    jwtSecret: string,
    jwtExpiresIn: string,
    jwtRefreshSecret: string,
    jwtRefreshExpiresIn: string,
    geminiApiKey: string,
    openaiApiKey: Option<string>,
    awsAccessKeyId: Option<string>,
    awsSecretAccessKey: Option<string>,
    awsRegion: string,
    awsS3Bucket: Option<string>,
    googleCloudProject: Option<string>,
    googleCloudKeyFile: Option<string>,
    googleCloudStorageBucket: Option<string>,
    sentryDsn: Option<string>,
    logLevel: string,
    corsOrigins: string,
    rateLimitWindowMs: Option<int>,
    rateLimitMaxRequests: Option<int>,
    maxFileSize: Option<int>,
    uploadDir: string)

  const DefaultJwtSecret := "your-super-secret-jwt-key-change-in-production"
  const DefaultRefreshSecret := "your-super-secret-refresh-key-change-in-production"
  const DefaultCorsOrigins :=
    "https://foto-video-creative.hafarnas-projects.vercel.app,http://localhost:5173,http://localhost:3000"

  /** The `config` object. */
  function LoadConfig(env: Env): (c: Config)
    ensures c.trustProxy <==> Var(env, "TRUST_PROXY") == Some("true")
    ensures c.jwtSecret != "" && c.jwtRefreshSecret != ""
    ensures c.geminiApiKey == "" <==> !Given(Var(env, "GEMINI_API_KEY"))
  {
    Config(
      OrDefault(env, "NODE_ENV", "development"),
      NumberOr(env, "PORT", "3001"),
      Var(env, "TRUST_PROXY") == Some("true"),
      OrDefault(env, "DATABASE_URL", "postgresql://localhost:5432/foto_video_suite"),
      OrDefault(env, "REDIS_URL", "redis://localhost:6379"),
      OrDefault(env, "JWT_SECRET", DefaultJwtSecret),
      OrDefault(env, "JWT_EXPIRES_IN", "24h"),
      OrDefault(env, "JWT_REFRESH_SECRET", DefaultRefreshSecret),
      OrDefault(env, "JWT_REFRESH_EXPIRES_IN", "7d"),
      OrDefault(env, "GEMINI_API_KEY", ""),
      Var(env, "OPENAI_API_KEY"),
      Var(env, "AWS_ACCESS_KEY_ID"),
      Var(env, "AWS_SECRET_ACCESS_KEY"),
      OrDefault(env, "AWS_REGION", "us-east-1"),
      Var(env, "AWS_S3_BUCKET"),
      Var(env, "GOOGLE_CLOUD_PROJECT"),
      Var(env, "GOOGLE_CLOUD_KEY_FILE"),
      Var(env, "GOOGLE_CLOUD_STORAGE_BUCKET"),
      Var(env, "SENTRY_DSN"),
      OrDefault(env, "LOG_LEVEL", "info"),
      OrDefault(env, "CORS_ORIGINS", DefaultCorsOrigins),
      NumberOr(env, "RATE_LIMIT_WINDOW_MS", "900000"),
      NumberOr(env, "RATE_LIMIT_MAX_REQUESTS", "100"),
      NumberOr(env, "MAX_FILE_SIZE", "52428800"),
      OrDefault(env, "UPLOAD_DIR", "uploads"))
  }

  /** The variables read without a `||` default. */
  const UndefaultedVars: set<string> := {
    "TRUST_PROXY", "OPENAI_API_KEY", "AWS_ACCESS_KEY_ID", "AWS_SECRET_ACCESS_KEY", "AWS_S3_BUCKET",
    "GOOGLE_CLOUD_PROJECT", "GOOGLE_CLOUD_KEY_FILE", "GOOGLE_CLOUD_STORAGE_BUCKET", "SENTRY_DSN"}

  /** Setting a variable to the empty string is the same as not setting it, for every
      variable except those read without a default (and those the config does not read
      at all). */
  lemma EmptyIsUnset(env: Env, name: string)
    requires name !in UndefaultedVars
    ensures LoadConfig(env[name := ""]) == LoadConfig(env - {name})
  {
    EmptyReadsAsUnset(env, name);
    SameReadsSameConfig(env[name := ""], env - {name});
  }

  /** Emptying a variable changes no `||`-defaulted read, and no plain read of another
      variable. */
  lemma EmptyReadsAsUnset(env: Env, name: string)
    requires name !in UndefaultedVars
    ensures forall other, d :: OrDefault(env[name := ""], other, d) == OrDefault(env - {name}, other, d)
    ensures forall other :: other in UndefaultedVars ==> Var(env[name := ""], other) == Var(env - {name}, other)
  {
  }

  /** Two environments on which every read `LoadConfig` makes agrees give one config. */
  lemma SameReadsSameConfig(e1: Env, e2: Env)
    requires OrDefault(e1, "NODE_ENV", "development") == OrDefault(e2, "NODE_ENV", "development")
    requires OrDefault(e1, "PORT", "3001") == OrDefault(e2, "PORT", "3001")
    requires OrDefault(e1, "DATABASE_URL", "postgresql://localhost:5432/foto_video_suite") == OrDefault(e2, "DATABASE_URL", "postgresql://localhost:5432/foto_video_suite")
    requires OrDefault(e1, "REDIS_URL", "redis://localhost:6379") == OrDefault(e2, "REDIS_URL", "redis://localhost:6379")
    requires OrDefault(e1, "JWT_SECRET", DefaultJwtSecret) == OrDefault(e2, "JWT_SECRET", DefaultJwtSecret)
    requires OrDefault(e1, "JWT_EXPIRES_IN", "24h") == OrDefault(e2, "JWT_EXPIRES_IN", "24h")
    requires OrDefault(e1, "JWT_REFRESH_SECRET", DefaultRefreshSecret) == OrDefault(e2, "JWT_REFRESH_SECRET", DefaultRefreshSecret)
    requires OrDefault(e1, "JWT_REFRESH_EXPIRES_IN", "7d") == OrDefault(e2, "JWT_REFRESH_EXPIRES_IN", "7d")
    requires OrDefault(e1, "GEMINI_API_KEY", "") == OrDefault(e2, "GEMINI_API_KEY", "")
    requires OrDefault(e1, "AWS_REGION", "us-east-1") == OrDefault(e2, "AWS_REGION", "us-east-1")
    requires OrDefault(e1, "LOG_LEVEL", "info") == OrDefault(e2, "LOG_LEVEL", "info")
    requires OrDefault(e1, "CORS_ORIGINS", DefaultCorsOrigins) == OrDefault(e2, "CORS_ORIGINS", DefaultCorsOrigins)
    requires OrDefault(e1, "RATE_LIMIT_WINDOW_MS", "900000") == OrDefault(e2, "RATE_LIMIT_WINDOW_MS", "900000")
    requires OrDefault(e1, "RATE_LIMIT_MAX_REQUESTS", "100") == OrDefault(e2, "RATE_LIMIT_MAX_REQUESTS", "100")
    requires OrDefault(e1, "MAX_FILE_SIZE", "52428800") == OrDefault(e2, "MAX_FILE_SIZE", "52428800")
    requires OrDefault(e1, "UPLOAD_DIR", "uploads") == OrDefault(e2, "UPLOAD_DIR", "uploads")
    requires Var(e1, "TRUST_PROXY") == Var(e2, "TRUST_PROXY")
    requires Var(e1, "OPENAI_API_KEY") == Var(e2, "OPENAI_API_KEY")
    requires Var(e1, "AWS_ACCESS_KEY_ID") == Var(e2, "AWS_ACCESS_KEY_ID")
    requires Var(e1, "AWS_SECRET_ACCESS_KEY") == Var(e2, "AWS_SECRET_ACCESS_KEY")
    requires Var(e1, "AWS_S3_BUCKET") == Var(e2, "AWS_S3_BUCKET")
    requires Var(e1, "GOOGLE_CLOUD_PROJECT") == Var(e2, "GOOGLE_CLOUD_PROJECT")
    requires Var(e1, "GOOGLE_CLOUD_KEY_FILE") == Var(e2, "GOOGLE_CLOUD_KEY_FILE")
    requires Var(e1, "GOOGLE_CLOUD_STORAGE_BUCKET") == Var(e2, "GOOGLE_CLOUD_STORAGE_BUCKET")
    requires Var(e1, "SENTRY_DSN") == Var(e2, "SENTRY_DSN")
    ensures LoadConfig(e1) == LoadConfig(e2)
  {
  }

  /** An optional setting without a default keeps the difference: an empty value is
      passed on as the empty string, an unset one as undefined. */
  lemma OptionalKeepsEmpty(env: Env)
    ensures LoadConfig(env["OPENAI_API_KEY" := ""]).openaiApiKey == Some("")
    ensures LoadConfig(env - {"OPENAI_API_KEY"}).openaiApiKey == None
  {
  }

  /** A numeric setting left unset is its default, read back from its decimal text. */
  lemma DefaultNumber(env: Env, name: string, d: nat, text: string)
    requires !Given(Var(env, name)) && text == NatToString(d)
    ensures NumberOr(env, name, text) == Some(d)
  {
    ParseIntOfDecimal(d, 10);
  }

  /** The decimal texts of the numeric defaults. */
  lemma PortText()
    ensures NatToString(3001) == "3001"
  {
    assert NatToString(30) == NatToString(3) + [DigitChar(0)];
    assert NatToString(300) == NatToString(30) + [DigitChar(0)];
    assert NatToString(3001) == NatToString(300) + [DigitChar(1)];
  }

  lemma WindowText()
    ensures NatToString(900000) == "900000"
  {
    assert NatToString(90) == NatToString(9) + [DigitChar(0)];
    assert NatToString(900) == NatToString(90) + [DigitChar(0)];
    assert NatToString(9000) == NatToString(900) + [DigitChar(0)];
    assert NatToString(90000) == NatToString(9000) + [DigitChar(0)];
    assert NatToString(900000) == NatToString(90000) + [DigitChar(0)];
  }

  lemma MaxRequestsText()
    ensures NatToString(100) == "100"
  {
    assert NatToString(10) == NatToString(1) + [DigitChar(0)];
    assert NatToString(100) == NatToString(10) + [DigitChar(0)];
  }

  lemma FileSizeText()
    ensures NatToString(52428800) == "52428800"
  {
    assert NatToString(52) == NatToString(5) + [DigitChar(2)];
    assert NatToString(524) == NatToString(52) + [DigitChar(4)];
    assert NatToString(5242) == NatToString(524) + [DigitChar(2)];
    assert NatToString(52428) == NatToString(5242) + [DigitChar(8)];
    assert NatToString(524288) == NatToString(52428) + [DigitChar(8)];
    assert NatToString(5242880) == NatToString(524288) + [DigitChar(0)];
    assert NatToString(52428800) == NatToString(5242880) + [DigitChar(0)];
  }

  /** The numeric defaults. */
  lemma NumericDefaults(env: Env)
    ensures !Given(Var(env, "PORT")) ==> LoadConfig(env).port == Some(3001)
    ensures !Given(Var(env, "RATE_LIMIT_WINDOW_MS")) ==> LoadConfig(env).rateLimitWindowMs == Some(900000)
    ensures !Given(Var(env, "RATE_LIMIT_MAX_REQUESTS")) ==> LoadConfig(env).rateLimitMaxRequests == Some(100)
    ensures !Given(Var(env, "MAX_FILE_SIZE")) ==> LoadConfig(env).maxFileSize == Some(52428800)
  {
    var c := LoadConfig(env);
    assert c.port == NumberOr(env, "PORT", "3001");
    assert c.rateLimitWindowMs == NumberOr(env, "RATE_LIMIT_WINDOW_MS", "900000");
    assert c.rateLimitMaxRequests == NumberOr(env, "RATE_LIMIT_MAX_REQUESTS", "100");
    assert c.maxFileSize == NumberOr(env, "MAX_FILE_SIZE", "52428800");
    if !Given(Var(env, "PORT")) {
      PortText();
      DefaultNumber(env, "PORT", 3001, "3001");
    }
    if !Given(Var(env, "RATE_LIMIT_WINDOW_MS")) {
      WindowText();
      DefaultNumber(env, "RATE_LIMIT_WINDOW_MS", 900000, "900000");
    }
    if !Given(Var(env, "RATE_LIMIT_MAX_REQUESTS")) {
      MaxRequestsText();
      DefaultNumber(env, "RATE_LIMIT_MAX_REQUESTS", 100, "100");
    }
    if !Given(Var(env, "MAX_FILE_SIZE")) {
      FileSizeText();
      DefaultNumber(env, "MAX_FILE_SIZE", 52428800, "52428800");
    }
  }

  /** A port written in decimal is the port the server listens on. */
  lemma PortRoundTrip(env: Env, port: nat)
    requires Var(env, "PORT") == Some(NatToString(port))
    ensures LoadConfig(env).port == Some(port)
  {
    ParseIntOfDecimal(port, 10);
  }

  /** The settings that must be truthy, checked in this order. */
  const RequiredVars: seq<string> := ["GEMINI_API_KEY", "JWT_SECRET", "JWT_REFRESH_SECRET"]

  /** `config[name]` for a required setting. */
  function Setting(c: Config, name: string): string
    requires name in RequiredVars
  {
    if name == "GEMINI_API_KEY" then c.geminiApiKey
    else if name == "JWT_SECRET" then c.jwtSecret
    else c.jwtRefreshSecret
  }

  /** The first required setting from position `k` on that is empty. */
  function FirstMissingFrom(c: Config, k: nat): (r: Option<string>)
    requires k <= |RequiredVars|
    ensures r.Some? ==> exists j :: k <= j < |RequiredVars| && RequiredVars[j] == r.value && Setting(c, r.value) == ""
    ensures r.None? <==> forall j :: k <= j < |RequiredVars| ==> Setting(c, RequiredVars[j]) != ""
    decreases |RequiredVars| - k
  {
    if k == |RequiredVars| then None
    else if Setting(c, RequiredVars[k]) == "" then Some(RequiredVars[k])
    else FirstMissingFrom(c, k + 1)
  }

  function FirstMissing(c: Config): Option<string> {
    FirstMissingFrom(c, 0)
  }

  /** The start-up loop over the required settings: the message of the error it
      throws, or None when all are set. */
  method Validate(c: Config) returns (error: Option<string>)
    ensures error == match FirstMissing(c)
                     case None => None
                     case Some(name) => Some("Missing required environment variable: " + name)
  {
    for i := 0 to |RequiredVars|
      invariant FirstMissingFrom(c, i) == FirstMissing(c)
    {
      if Setting(c, RequiredVars[i]) == "" {
        return Some("Missing required environment variable: " + RequiredVars[i]);
      }
    }
    return None;
  }

  /** Both JWT secrets have defaults, so the start-up check fails exactly when the
      Gemini key is unset or empty, and then names that key. */
  lemma OnlyGeminiKeyCanFail(env: Env)
    ensures FirstMissing(LoadConfig(env)).Some? <==> !Given(Var(env, "GEMINI_API_KEY"))
    ensures FirstMissing(LoadConfig(env)).Some? ==> FirstMissing(LoadConfig(env)) == Some("GEMINI_API_KEY")
  {
    var c := LoadConfig(env);
    assert Setting(c, RequiredVars[1]) != "" && Setting(c, RequiredVars[2]) != "";
  }
}
