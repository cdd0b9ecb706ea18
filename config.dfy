// Configuration checks of the two services. The API configuration
// collects every failing rule before raising; the embedder configuration
// raises at the first failing rule. Reading the environment is replaced
// by the settings values themselves.

module ApiConfig {
  import opened Records
  import opened PyText

  /** The settings AppConfig.__init__ reads; temperature and max_tokens
   *  are fixed there (0.7 and 1000) but kept as fields so that the rules
   *  on them can be stated. */
  datatype AppConfig = AppConfig(
    openaiApiKey: string,
    databaseUrl: string,
    modelName: string,
    temperature: real,
    maxTokens: int,
    port: int,
    maxHistory: int,
    topKResults: int,
    cacheEnabled: bool,
    cacheTtl: int,
    rerankEnabled: bool,
    rerankTopK: int,
    metricsEnabled: bool,
    metricsPort: int)

  /** A spelling of "true" in any mix of cases. */
  predicate TrueInAnyCase(v: string) {
    |v| == 4 && forall i :: 0 <= i < 4 ==> v[i] == "true"[i] || v[i] == "TRUE"[i]
  }

  lemma LowerIsTrue(v: string)
    ensures Lower(v) == "true" <==> TrueInAnyCase(v)
  {
    if |v| == 4 {
      if TrueInAnyCase(v) {
        assert forall i :: 0 <= i < 4 ==> LowerChar(v[i]) == "true"[i];
        assert Lower(v) == "true";
      }
    }
  }

  /** `os.getenv(name, default).lower() == "true"`: a flag is on exactly
   *  when the value, or the default for a missing variable, spells "true"
   *  in some mix of cases. */
  function ParseFlag(env: map<string, string>, name: string, default: string): (b: bool)
    ensures b <==> TrueInAnyCase(if name in env then env[name] else default)
  {
    var v := if name in env then env[name] else default;
    LowerIsTrue(v);
    Lower(v) == "true"
  }

  /** Examples: "TRUE" and "True" switch a flag on, while "1", "yes" and
   *  "on" all read as false. */
  lemma FlagSpellings(env: map<string, string>, name: string)
    requires name in env
    ensures env[name] == "TRUE" || env[name] == "True" ==> ParseFlag(env, name, "false")
    ensures env[name] == "1" || env[name] == "yes" || env[name] == "on" ==> !ParseFlag(env, name, "true")
  {
    var v := env[name];
    if v == "1" || v == "yes" || v == "on" {
      assert |Lower(v)| == |v| < 4;
    }
  }

  /** One failing rule of `validate`, carrying the value the message
   *  reports. */
  datatype ConfigError =
    | ApiKeyRequired
    | DatabaseUrlRequired
    | AppPortOutOfRange(port: int)
    | MetricsPortOutOfRange(metricsPort: int)
    | MaxHistoryNegative(maxHistory: int)
    | TopKNotPositive(topK: int)
    | RerankTopKNotPositive(rerankTopK: int)
    | TemperatureOutOfRange(temperature: real)
    | MaxTokensNotPositive(maxTokens: int)
    | CacheTtlNotPositive(cacheTtl: int)

  /** The position of each rule in `validate`. */
  function Rank(e: ConfigError): nat {
    match e
    case ApiKeyRequired => 0
    case DatabaseUrlRequired => 1
    case AppPortOutOfRange(_) => 2
    case MetricsPortOutOfRange(_) => 3
    case MaxHistoryNegative(_) => 4
    case TopKNotPositive(_) => 5
    case RerankTopKNotPositive(_) => 6
    case TemperatureOutOfRange(_) => 7
    case MaxTokensNotPositive(_) => 8
    case CacheTtlNotPositive(_) => 9
  }

  predicate PortOutOfRange(p: int) { p <= 0 || p > 65535 }

  const RuleCount: nat := 10

  /** Rule k of validate, as (fails, error it reports). */
  function Rule(c: AppConfig, k: nat): (r: (bool, ConfigError))
    requires k < RuleCount
    ensures Rank(r.1) == k
  {
    if k == 0 then (c.openaiApiKey == "", ApiKeyRequired)
    else if k == 1 then (c.databaseUrl == "", DatabaseUrlRequired)
    else if k == 2 then (PortOutOfRange(c.port), AppPortOutOfRange(c.port))
    else if k == 3 then (c.metricsEnabled && PortOutOfRange(c.metricsPort), MetricsPortOutOfRange(c.metricsPort))
    else if k == 4 then (c.maxHistory < 0, MaxHistoryNegative(c.maxHistory))
    else if k == 5 then (c.topKResults <= 0, TopKNotPositive(c.topKResults))
    else if k == 6 then (c.rerankTopK <= 0, RerankTopKNotPositive(c.rerankTopK))
    else if k == 7 then (c.temperature < 0.0 || c.temperature > 2.0, TemperatureOutOfRange(c.temperature))
    else if k == 8 then (c.maxTokens <= 0, MaxTokensNotPositive(c.maxTokens))
    else (c.cacheEnabled && c.cacheTtl <= 0, CacheTtlNotPositive(c.cacheTtl))
  }

  /** The errors of the failing rules among the first k, in rule order. */
  function ErrorsUpTo(c: AppConfig, k: nat): seq<ConfigError>
    requires k <= RuleCount
  {
    if k == 0 then []
    else ErrorsUpTo(c, k - 1) + (if Rule(c, k - 1).0 then [Rule(c, k - 1).1] else [])
  }

  function Errors(c: AppConfig): seq<ConfigError> {
    ErrorsUpTo(c, RuleCount)
  }

  /** The settings every rule accepts, stated on their own. */
  predicate Acceptable(c: AppConfig) {
    && c.openaiApiKey != "" && c.databaseUrl != ""
    && 1 <= c.port <= 65535
    && (c.metricsEnabled ==> 1 <= c.metricsPort <= 65535)
    && c.maxHistory >= 0 && c.topKResults >= 1 && c.rerankTopK >= 1
    && 0.0 <= c.temperature <= 2.0
    && c.maxTokens >= 1
    && (c.cacheEnabled ==> c.cacheTtl >= 1)
  }

  /** validate: every rule is checked, each failing one appends its
   *  error; the list is raised when not empty. The ten checks are
   *  walked through the rule table, in their order in validate. */
  method Validate(c: AppConfig) returns (errors: seq<ConfigError>)
    ensures errors == Errors(c)
  {
    errors := [];
    var k := 0;
    while k < RuleCount
      invariant 0 <= k <= RuleCount
      invariant errors == ErrorsUpTo(c, k)
    {
      var (fails, e) := Rule(c, k);
      if fails {
        errors := errors + [e];
      }
      k := k + 1;
    }
  }

  /** An error is reported exactly when some rule fails with it. */
  lemma {:induction false} ErrorsMembers(c: AppConfig, k: nat, e: ConfigError)
    requires k <= RuleCount
    ensures e in ErrorsUpTo(c, k) <==> Rank(e) < k && Rule(c, Rank(e)).0 && Rule(c, Rank(e)).1 == e
  {
    if k > 0 {
      ErrorsMembers(c, k - 1, e);
    }
  }

  /** Errors are listed in rule order, each below k. */
  lemma {:induction false} ErrorsOrdered(c: AppConfig, k: nat)
    requires k <= RuleCount
    ensures forall a, b :: 0 <= a < b < |ErrorsUpTo(c, k)| ==> Rank(ErrorsUpTo(c, k)[a]) < Rank(ErrorsUpTo(c, k)[b])
    ensures forall a :: 0 <= a < |ErrorsUpTo(c, k)| ==> Rank(ErrorsUpTo(c, k)[a]) < k
  {
    if k > 0 {
      ErrorsOrdered(c, k - 1);
    }
  }

  /** No error among the first k rules exactly when none of them fails. */
  lemma {:induction false} ErrorsEmpty(c: AppConfig, k: nat)
    requires k <= RuleCount
    ensures ErrorsUpTo(c, k) == [] <==> forall j :: 0 <= j < k ==> !Rule(c, j).0
  {
    if k > 0 {
      ErrorsEmpty(c, k - 1);
    }
  }

  /** validate raises exactly when some rule fails, listing the failing
   *  rules in rule order. */
  lemma ErrorsComplete(c: AppConfig)
    ensures Errors(c) == [] <==> Acceptable(c)
    ensures forall a, b :: 0 <= a < b < |Errors(c)| ==> Rank(Errors(c)[a]) < Rank(Errors(c)[b])
  {
    ErrorsOrdered(c, RuleCount);
    ErrorsEmpty(c, RuleCount);
    if !Acceptable(c) {
      if c.openaiApiKey == "" { assert Rule(c, 0).0; }
      else if c.databaseUrl == "" { assert Rule(c, 1).0; }
      else if PortOutOfRange(c.port) { assert Rule(c, 2).0; }
      else if c.metricsEnabled && PortOutOfRange(c.metricsPort) { assert Rule(c, 3).0; }
      else if c.maxHistory < 0 { assert Rule(c, 4).0; }
      else if c.topKResults <= 0 { assert Rule(c, 5).0; }
      else if c.rerankTopK <= 0 { assert Rule(c, 6).0; }
      else if c.temperature < 0.0 || c.temperature > 2.0 { assert Rule(c, 7).0; }
      else if c.maxTokens <= 0 { assert Rule(c, 8).0; }
      else { assert Rule(c, 9).0; }
    }
  }

  /** The metrics port only matters with metrics on, the cache TTL only
   *  with the cache on; a history size of 0 is accepted, top-k values of
   *  0 are not. */
  lemma ConditionalRules(c: AppConfig)
    ensures !c.metricsEnabled ==> MetricsPortOutOfRange(c.metricsPort) !in Errors(c)
    ensures !c.cacheEnabled ==> CacheTtlNotPositive(c.cacheTtl) !in Errors(c)
    ensures c.maxHistory == 0 ==> MaxHistoryNegative(0) !in Errors(c)
    ensures c.topKResults == 0 ==> TopKNotPositive(0) in Errors(c)
    ensures c.rerankTopK == 0 ==> RerankTopKNotPositive(0) in Errors(c)
  {
    ErrorsMembers(c, RuleCount, MetricsPortOutOfRange(c.metricsPort));
    ErrorsMembers(c, RuleCount, CacheTtlNotPositive(c.cacheTtl));
    ErrorsMembers(c, RuleCount, MaxHistoryNegative(0));
    ErrorsMembers(c, RuleCount, TopKNotPositive(0));
    ErrorsMembers(c, RuleCount, RerankTopKNotPositive(0));
  }

  /** The text of one error; the temperature is formatted by `fmtReal`
   *  (Python's float str() is not modelled). */
  function Message(e: ConfigError, fmtReal: real -> string): string {
    match e
    case ApiKeyRequired => "OPENAI_API_KEY is required"
    case DatabaseUrlRequired => "DATABASE_URL is required"
    case AppPortOutOfRange(p) => "APP_PORT must be between 1 and 65535 (got " + IntToString(p) + ")"
    case MetricsPortOutOfRange(p) => "METRICS_PORT must be between 1 and 65535 (got " + IntToString(p) + ")"
    case MaxHistoryNegative(h) => "APP_MAX_HISTORY must be non-negative (got " + IntToString(h) + ")"
    case TopKNotPositive(k) => "APP_TOP_K_RESULTS must be positive (got " + IntToString(k) + ")"
    case RerankTopKNotPositive(k) => "RERANK_TOP_K must be positive (got " + IntToString(k) + ")"
    case TemperatureOutOfRange(t) => "Temperature must be between 0 and 2 (got " + fmtReal(t) + ")"
    case MaxTokensNotPositive(m) => "Max tokens must be positive (got " + IntToString(m) + ")"
    case CacheTtlNotPositive(t) => "CACHE_TTL must be positive when cache is enabled (got " + IntToString(t) + ")"
  }

  function Bullets(errors: seq<ConfigError>, fmtReal: real -> string): (r: seq<string>)
    ensures |r| == |errors|
    ensures forall k :: 0 <= k < |errors| ==> r[k] == "  • " + Message(errors[k], fmtReal)
  {
    if errors == [] then [] else ["  • " + Message(errors[0], fmtReal)] + Bullets(errors[1..], fmtReal)
  }

  /** get_config: the configuration when it validates, otherwise the
   *  ValueError with every failing rule as a bullet line. */
  function GetConfig(c: AppConfig, fmtReal: real -> string): (r: Result<AppConfig>)
    ensures r.Success? <==> Acceptable(c)
    ensures r.Success? ==> r.value == c
    ensures r.Failure? ==> r.error == "Configuration validation failed:\n" + Join("\n", Bullets(Errors(c), fmtReal))
  {
    ErrorsComplete(c);
    var errors := Errors(c);
    if errors == [] then Success(c)
    else Failure("Configuration validation failed:\n" + Join("\n", Bullets(errors, fmtReal)))
  }
}

module EmbedderSettings {
  import opened Records

  /** The settings EmbedderConfig.__init__ reads. */
  datatype EmbedderConfig = EmbedderConfig(
    openaiApiKey: string,
    databaseUrl: string,
    inputDir: string,
    batchSize: int,
    chunkSize: int,
    chunkOverlap: int,
    embeddingModel: string,
    embeddingDimension: int)

  /** The settings ingestion can run with, stated on their own. */
  predicate Acceptable(c: EmbedderConfig, inputDirExists: bool) {
    && c.openaiApiKey != "" && c.databaseUrl != ""
    && c.batchSize > 0 && c.chunkSize > 0
    && 0 <= c.chunkOverlap < c.chunkSize
    && inputDirExists
  }

  /** The check that raised. */
  datatype EmbedderError =
    | ApiKeyRequired
    | DatabaseUrlRequired
    | BatchSizeNotPositive
    | ChunkSizeNotPositive
    | ChunkOverlapNegative
    | ChunkOverlapTooLarge
    | InputDirMissing(inputDir: string)

  function Message(e: EmbedderError): string {
    match e
    case ApiKeyRequired => "OPENAI_API_KEY is required"
    case DatabaseUrlRequired => "DATABASE_URL is required"
    case BatchSizeNotPositive => "EMBEDDER_BATCH_SIZE must be positive"
    case ChunkSizeNotPositive => "EMBEDDER_CHUNK_SIZE must be positive"
    case ChunkOverlapNegative => "EMBEDDER_CHUNK_OVERLAP must be non-negative"
    case ChunkOverlapTooLarge => "EMBEDDER_CHUNK_OVERLAP must be less than EMBEDDER_CHUNK_SIZE"
    case InputDirMissing(d) => "Input directory does not exist: " + d
  }

  /** validate: the checks run in a fixed order and the first failing one
   *  raises; whether the input directory exists is given. */
  function Validate(c: EmbedderConfig, inputDirExists: bool): (r: Option<EmbedderError>)
    ensures r.None? <==> Acceptable(c, inputDirExists)
    ensures c.openaiApiKey == "" ==> r == Some(ApiKeyRequired)
    ensures c.openaiApiKey != "" && c.databaseUrl == "" ==> r == Some(DatabaseUrlRequired)
    ensures r == Some(BatchSizeNotPositive) <==> c.openaiApiKey != "" && c.databaseUrl != "" && c.batchSize <= 0
    ensures r == Some(ChunkOverlapTooLarge) ==> c.batchSize > 0 && 0 <= c.chunkOverlap && 0 < c.chunkSize <= c.chunkOverlap
    ensures r.Some? && r.value.InputDirMissing? ==>
      !inputDirExists && r.value.inputDir == c.inputDir && c.batchSize > 0 && 0 <= c.chunkOverlap < c.chunkSize
  {
    if c.openaiApiKey == "" then Some(ApiKeyRequired)
    else if c.databaseUrl == "" then Some(DatabaseUrlRequired)
    else if c.batchSize <= 0 then Some(BatchSizeNotPositive)
    else if c.chunkSize <= 0 then Some(ChunkSizeNotPositive)
    else if c.chunkOverlap < 0 then Some(ChunkOverlapNegative)
    else if c.chunkOverlap >= c.chunkSize then Some(ChunkOverlapTooLarge)
    else if !inputDirExists then Some(InputDirMissing(c.inputDir))
    else None
  }

  /** get_config: only a configuration that passed validate comes back;
   *  otherwise the ValueError of the first failing check. */
  function GetConfig(c: EmbedderConfig, inputDirExists: bool): (r: Result<EmbedderConfig>)
    ensures r.Success? <==> Acceptable(c, inputDirExists)
    ensures r.Success? ==> r.value == c
    ensures r.Failure? ==> Validate(c, inputDirExists).Some? && r.error == Message(Validate(c, inputDirExists).value)
  {
    match Validate(c, inputDirExists)
    case None => Success(c)
    case Some(e) => Failure(Message(e))
  }
}
