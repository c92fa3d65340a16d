/**
 * Resolution of the process settings from the environment: every field is
 * read under its exact, case-sensitive variable name, falls back to its
 * declared default when the variable is unset, and the two topic names are
 * derived from the already-resolved organisation id in a second pass.
 */
module SettingsResolver {
  import opened Wrappers
  import IntLiteral

  /** The process environment: variable name to value. */
  type Env = map<string, string>

  /** Why a field could not be resolved; each error names its variable. */
  datatype SettingError =
    | MissingRequiredSetting(name: string)
    | InvalidConfigurationValue(name: string, given: string)

  datatype Settings = Settings(
    logLevel: string,
    streamerName: string,
    portOrgId: string,
    gitlabUrl: string,
    kafkaConsumerBrokers: string,
    kafkaConsumerSecurityProtocol: string,
    kafkaConsumerAuthenticationMechanism: string,
    kafkaConsumerUsername: string,
    kafkaConsumerPassword: string,
    kafkaConsumerSessionTimeoutMs: int,
    kafkaConsumerAutoOffsetReset: string,
    kafkaConsumerGroupId: string,
    kafkaRunsTopic: string,
    controlThePayloadConfigPath: Option<string>,
    kafkaChangeLogTopic: string,
    webhookInvokerTimeout: int,
    gitlabPipelineInvokerTimeout: int)

  const RunsSuffix := ".runs"
  const ChangeLogSuffix := ".change.log"

  /** The variable names the settings read, in declaration order. */
  const KnownNames: set<string> := {
    "LOG_LEVEL", "STREAMER_NAME", "PORT_ORG_ID", "GITLAB_URL",
    "KAFKA_CONSUMER_BROKERS", "KAFKA_CONSUMER_SECURITY_PROTOCOL",
    "KAFKA_CONSUMER_AUTHENTICATION_MECHANISM", "KAFKA_CONSUMER_USERNAME",
    "KAFKA_CONSUMER_PASSWORD", "KAFKA_CONSUMER_SESSION_TIMEOUT_MS",
    "KAFKA_CONSUMER_AUTO_OFFSET_RESET", "KAFKA_CONSUMER_GROUP_ID",
    "KAFKA_RUNS_TOPIC", "CONTROL_THE_PAYLOAD_CONFIG_PATH",
    "KAFKA_CHANGE_LOG_TOPIC", "WEBHOOK_INVOKER_TIMEOUT",
    "GITLAB_PIPELINE_INVOKER_TIMEOUT"
  }

  const RequiredNames: set<string> := {"STREAMER_NAME", "PORT_ORG_ID"}
  const IntNames: set<string> :=
    {"KAFKA_CONSUMER_SESSION_TIMEOUT_MS", "WEBHOOK_INVOKER_TIMEOUT", "GITLAB_PIPELINE_INVOKER_TIMEOUT"}

  // ---- single fields ----

  /** A string field: the value verbatim when the variable is set (even to ""), else the default. */
  function StrSetting(env: Env, name: string, default: string): string {
    if name in env then env[name] else default
  }

  /** A required string field: an error naming the variable when it is unset. */
  function RequiredSetting(env: Env, name: string): Result<string, SettingError> {
    if name in env then Success(env[name]) else Failure(MissingRequiredSetting(name))
  }

  /** An int field: the default when unset, else the value read as a Python int literal. */
  function IntSetting(env: Env, name: string, default: int): Result<int, SettingError> {
    if name !in env then Success(default)
    else match IntLiteral.ParseInt(env[name])
      case Some(n) => Success(n)
      case None => Failure(InvalidConfigurationValue(name, env[name]))
  }

  /** An optional string field whose default is None. */
  function OptionalSetting(env: Env, name: string): Option<string> {
    if name in env then Some(env[name]) else None
  }

  function ErrorsOf<T>(r: Result<T, SettingError>): seq<SettingError> {
    if r.Failure? then [r.error] else []
  }

  /** True when an int-typed variable is unset or holds a readable integer. */
  predicate IntReadable(env: Env, name: string) {
    name !in env || IntLiteral.ParseInt(env[name]).Some?
  }

  // ---- first pass: independent fields ----

  /** An error that a field of `env` really has: a required variable unset, or an int variable unreadable. */
  predicate Justified(env: Env, e: SettingError) {
    match e
    case MissingRequiredSetting(name) => name in RequiredNames && name !in env
    case InvalidConfigurationValue(name, given) =>
      name in IntNames && name in env && given == env[name] && !IntReadable(env, name)
  }

  /** The error of one required field. */
  function RequiredErrors(env: Env, name: string): (errors: seq<SettingError>)
    requires name in RequiredNames
    ensures errors == [] <==> name in env
    ensures name !in env ==> errors == [MissingRequiredSetting(name)]
    ensures forall e | e in errors :: Justified(env, e)
  {
    ErrorsOf(RequiredSetting(env, name))
  }

  /** The error of one int field. */
  function IntErrors(env: Env, name: string, default: int): (errors: seq<SettingError>)
    requires name in IntNames
    ensures errors == [] <==> IntReadable(env, name)
    ensures !IntReadable(env, name) ==> errors == [InvalidConfigurationValue(name, env[name])]
    ensures forall e | e in errors :: Justified(env, e)
  {
    ErrorsOf(IntSetting(env, name, default))
  }

  /**
   * The errors of the fields that cannot be resolved, in declaration order:
   * a missing required variable, or an int variable that is not an integer.
   */
  function SettingErrors(env: Env): (errors: seq<SettingError>)
    ensures errors == [] <==>
      && "STREAMER_NAME" in env && "PORT_ORG_ID" in env
      && IntReadable(env, "KAFKA_CONSUMER_SESSION_TIMEOUT_MS")
      && IntReadable(env, "WEBHOOK_INVOKER_TIMEOUT")
      && IntReadable(env, "GITLAB_PIPELINE_INVOKER_TIMEOUT")
    // only real faults are reported
    ensures forall e | e in errors :: Justified(env, e)
  {
    var streamer := RequiredErrors(env, "STREAMER_NAME");
    var org := RequiredErrors(env, "PORT_ORG_ID");
    var session := IntErrors(env, "KAFKA_CONSUMER_SESSION_TIMEOUT_MS", 45000);
    var webhook := IntErrors(env, "WEBHOOK_INVOKER_TIMEOUT", 5);
    var pipeline := IntErrors(env, "GITLAB_PIPELINE_INVOKER_TIMEOUT", 5);
    streamer + org + session + webhook + pipeline
  }

  /** Every faulty field is reported, under its variable name. */
  lemma SettingErrorsComplete(env: Env)
    ensures "STREAMER_NAME" !in env ==> MissingRequiredSetting("STREAMER_NAME") in SettingErrors(env)
    ensures "PORT_ORG_ID" !in env ==> MissingRequiredSetting("PORT_ORG_ID") in SettingErrors(env)
    ensures forall name | name in IntNames && !IntReadable(env, name) ::
      InvalidConfigurationValue(name, env[name]) in SettingErrors(env)
  {
    var streamer := RequiredErrors(env, "STREAMER_NAME");
    var org := RequiredErrors(env, "PORT_ORG_ID");
    var session := IntErrors(env, "KAFKA_CONSUMER_SESSION_TIMEOUT_MS", 45000);
    var webhook := IntErrors(env, "WEBHOOK_INVOKER_TIMEOUT", 5);
    var pipeline := IntErrors(env, "GITLAB_PIPELINE_INVOKER_TIMEOUT", 5);
    assert SettingErrors(env) == streamer + org + session + webhook + pipeline;
  }

  /**
   * Every field read on its own, in declaration order. The two topic fields
   * hold their raw value here (declared default ""); all errors are reported
   * together.
   */
  function ResolveFields(env: Env): (r: Result<Settings, seq<SettingError>>)
    ensures r.Failure? ==> r.error == SettingErrors(env) && r.error != []
    ensures r.Success? ==> SettingErrors(env) == []
    ensures r.Success? ==> r.value.portOrgId == env["PORT_ORG_ID"]
    ensures r.Success? ==> r.value.kafkaRunsTopic == StrSetting(env, "KAFKA_RUNS_TOPIC", "")
    ensures r.Success? ==> r.value.kafkaChangeLogTopic == StrSetting(env, "KAFKA_CHANGE_LOG_TOPIC", "")
  {
    var errors := SettingErrors(env);
    if errors != [] then Failure(errors)
    else Success(Settings(
      logLevel := StrSetting(env, "LOG_LEVEL", "INFO"),
      streamerName := env["STREAMER_NAME"],
      portOrgId := env["PORT_ORG_ID"],
      gitlabUrl := StrSetting(env, "GITLAB_URL", "https://gitlab.com/"),
      kafkaConsumerBrokers := StrSetting(env, "KAFKA_CONSUMER_BROKERS", "localhost:9092"),
      kafkaConsumerSecurityProtocol := StrSetting(env, "KAFKA_CONSUMER_SECURITY_PROTOCOL", "plaintext"),
      kafkaConsumerAuthenticationMechanism := StrSetting(env, "KAFKA_CONSUMER_AUTHENTICATION_MECHANISM", "none"),
      kafkaConsumerUsername := StrSetting(env, "KAFKA_CONSUMER_USERNAME", "local"),
      kafkaConsumerPassword := StrSetting(env, "KAFKA_CONSUMER_PASSWORD", ""),
      kafkaConsumerSessionTimeoutMs := IntSetting(env, "KAFKA_CONSUMER_SESSION_TIMEOUT_MS", 45000).value,
      kafkaConsumerAutoOffsetReset := StrSetting(env, "KAFKA_CONSUMER_AUTO_OFFSET_RESET", "earliest"),
      kafkaConsumerGroupId := StrSetting(env, "KAFKA_CONSUMER_GROUP_ID", ""),
      kafkaRunsTopic := StrSetting(env, "KAFKA_RUNS_TOPIC", ""),
      controlThePayloadConfigPath := OptionalSetting(env, "CONTROL_THE_PAYLOAD_CONFIG_PATH"),
      kafkaChangeLogTopic := StrSetting(env, "KAFKA_CHANGE_LOG_TOPIC", ""),
      webhookInvokerTimeout := IntSetting(env, "WEBHOOK_INVOKER_TIMEOUT", 5).value,
      gitlabPipelineInvokerTimeout := IntSetting(env, "GITLAB_PIPELINE_INVOKER_TIMEOUT", 5).value))
  }

  // ---- second pass: derived fields ----

  /**
   * The topic validator: a non-empty supplied value is kept verbatim, an
   * empty one is replaced by the organisation id followed by `suffix`.
   */
  function DeriveTopic(supplied: string, portOrgId: string, suffix: string): (topic: string)
    requires suffix != ""
    ensures topic != ""
    ensures supplied != "" ==> topic == supplied
    ensures supplied == "" ==>
      && |topic| == |portOrgId| + |suffix|
      && topic[..|portOrgId|] == portOrgId
      && topic[|portOrgId|..] == suffix
  {
    if supplied != "" then supplied else portOrgId + suffix
  }

  /**
   * The derivation pass, run after every independent field is resolved:
   * both topics are derived from the resolved organisation id and nothing
   * else changes.
   */
  function ApplyDerivations(s: Settings): (d: Settings)
    ensures d.kafkaRunsTopic != "" && d.kafkaChangeLogTopic != ""
    ensures d.kafkaRunsTopic == DeriveTopic(s.kafkaRunsTopic, s.portOrgId, RunsSuffix)
    ensures d.kafkaChangeLogTopic == DeriveTopic(s.kafkaChangeLogTopic, s.portOrgId, ChangeLogSuffix)
    ensures d.(kafkaRunsTopic := s.kafkaRunsTopic, kafkaChangeLogTopic := s.kafkaChangeLogTopic) == s
  {
    var runs := DeriveTopic(s.kafkaRunsTopic, s.portOrgId, RunsSuffix);
    s.(kafkaRunsTopic := runs,
       kafkaChangeLogTopic := DeriveTopic(s.kafkaChangeLogTopic, s.portOrgId, ChangeLogSuffix))
  }

  /** `Settings()`: both passes, failing with every field error when any field cannot be resolved. */
  function Resolve(env: Env): (r: Result<Settings, seq<SettingError>>)
    // when construction succeeds
    ensures r.Success? <==>
      && "STREAMER_NAME" in env && "PORT_ORG_ID" in env
      && IntReadable(env, "KAFKA_CONSUMER_SESSION_TIMEOUT_MS")
      && IntReadable(env, "WEBHOOK_INVOKER_TIMEOUT")
      && IntReadable(env, "GITLAB_PIPELINE_INVOKER_TIMEOUT")
    // the errors are those of the individual fields
    ensures r.Failure? ==> r.error == SettingErrors(env)
    // derived topics: verbatim when supplied non-empty, else from the resolved organisation id
    ensures r.Success? && "KAFKA_RUNS_TOPIC" in env && env["KAFKA_RUNS_TOPIC"] != "" ==>
      r.value.kafkaRunsTopic == env["KAFKA_RUNS_TOPIC"]
    ensures r.Success? && ("KAFKA_RUNS_TOPIC" !in env || env["KAFKA_RUNS_TOPIC"] == "") ==>
      r.value.kafkaRunsTopic == env["PORT_ORG_ID"] + RunsSuffix
    ensures r.Success? && "KAFKA_CHANGE_LOG_TOPIC" in env && env["KAFKA_CHANGE_LOG_TOPIC"] != "" ==>
      r.value.kafkaChangeLogTopic == env["KAFKA_CHANGE_LOG_TOPIC"]
    ensures r.Success? && ("KAFKA_CHANGE_LOG_TOPIC" !in env || env["KAFKA_CHANGE_LOG_TOPIC"] == "") ==>
      r.value.kafkaChangeLogTopic == env["PORT_ORG_ID"] + ChangeLogSuffix
    ensures r.Success? ==> r.value.kafkaRunsTopic != "" && r.value.kafkaChangeLogTopic != ""
    // declared defaults for unset variables
    ensures r.Success? && "LOG_LEVEL" !in env ==> r.value.logLevel == "INFO"
    ensures r.Success? && "GITLAB_URL" !in env ==> r.value.gitlabUrl == "https://gitlab.com/"
    ensures r.Success? && "KAFKA_CONSUMER_BROKERS" !in env ==> r.value.kafkaConsumerBrokers == "localhost:9092"
    ensures r.Success? && "KAFKA_CONSUMER_SECURITY_PROTOCOL" !in env ==>
      r.value.kafkaConsumerSecurityProtocol == "plaintext"
    ensures r.Success? && "KAFKA_CONSUMER_AUTHENTICATION_MECHANISM" !in env ==>
      r.value.kafkaConsumerAuthenticationMechanism == "none"
    ensures r.Success? && "KAFKA_CONSUMER_USERNAME" !in env ==> r.value.kafkaConsumerUsername == "local"
    ensures r.Success? && "KAFKA_CONSUMER_PASSWORD" !in env ==> r.value.kafkaConsumerPassword == ""
    ensures r.Success? && "KAFKA_CONSUMER_SESSION_TIMEOUT_MS" !in env ==>
      r.value.kafkaConsumerSessionTimeoutMs == 45000
    ensures r.Success? && "KAFKA_CONSUMER_AUTO_OFFSET_RESET" !in env ==>
      r.value.kafkaConsumerAutoOffsetReset == "earliest"
    ensures r.Success? && "KAFKA_CONSUMER_GROUP_ID" !in env ==> r.value.kafkaConsumerGroupId == ""
    ensures r.Success? && "CONTROL_THE_PAYLOAD_CONFIG_PATH" !in env ==> r.value.controlThePayloadConfigPath == None
    ensures r.Success? && "WEBHOOK_INVOKER_TIMEOUT" !in env ==> r.value.webhookInvokerTimeout == 5
    ensures r.Success? && "GITLAB_PIPELINE_INVOKER_TIMEOUT" !in env ==> r.value.gitlabPipelineInvokerTimeout == 5
    // set variables are read: strings verbatim, ints as Python int literals
    ensures r.Success? ==> r.value.streamerName == env["STREAMER_NAME"] && r.value.portOrgId == env["PORT_ORG_ID"]
    ensures r.Success? && "LOG_LEVEL" in env ==> r.value.logLevel == env["LOG_LEVEL"]
    ensures r.Success? && "GITLAB_URL" in env ==> r.value.gitlabUrl == env["GITLAB_URL"]
    ensures r.Success? && "KAFKA_CONSUMER_BROKERS" in env ==>
      r.value.kafkaConsumerBrokers == env["KAFKA_CONSUMER_BROKERS"]
    ensures r.Success? && "KAFKA_CONSUMER_SECURITY_PROTOCOL" in env ==>
      r.value.kafkaConsumerSecurityProtocol == env["KAFKA_CONSUMER_SECURITY_PROTOCOL"]
    ensures r.Success? && "KAFKA_CONSUMER_AUTHENTICATION_MECHANISM" in env ==>
      r.value.kafkaConsumerAuthenticationMechanism == env["KAFKA_CONSUMER_AUTHENTICATION_MECHANISM"]
    ensures r.Success? && "KAFKA_CONSUMER_USERNAME" in env ==>
      r.value.kafkaConsumerUsername == env["KAFKA_CONSUMER_USERNAME"]
    ensures r.Success? && "KAFKA_CONSUMER_PASSWORD" in env ==>
      r.value.kafkaConsumerPassword == env["KAFKA_CONSUMER_PASSWORD"]
    ensures r.Success? && "KAFKA_CONSUMER_SESSION_TIMEOUT_MS" in env ==>
      Some(r.value.kafkaConsumerSessionTimeoutMs) == IntLiteral.ParseInt(env["KAFKA_CONSUMER_SESSION_TIMEOUT_MS"])
    ensures r.Success? && "KAFKA_CONSUMER_AUTO_OFFSET_RESET" in env ==>
      r.value.kafkaConsumerAutoOffsetReset == env["KAFKA_CONSUMER_AUTO_OFFSET_RESET"]
    ensures r.Success? && "KAFKA_CONSUMER_GROUP_ID" in env ==>
      r.value.kafkaConsumerGroupId == env["KAFKA_CONSUMER_GROUP_ID"]
    ensures r.Success? && "CONTROL_THE_PAYLOAD_CONFIG_PATH" in env ==>
      r.value.controlThePayloadConfigPath == Some(env["CONTROL_THE_PAYLOAD_CONFIG_PATH"])
    ensures r.Success? && "WEBHOOK_INVOKER_TIMEOUT" in env ==>
      Some(r.value.webhookInvokerTimeout) == IntLiteral.ParseInt(env["WEBHOOK_INVOKER_TIMEOUT"])
    ensures r.Success? && "GITLAB_PIPELINE_INVOKER_TIMEOUT" in env ==>
      Some(r.value.gitlabPipelineInvokerTimeout) == IntLiteral.ParseInt(env["GITLAB_PIPELINE_INVOKER_TIMEOUT"])
  {
    match ResolveFields(env)
    case Success(s) => Success(ApplyDerivations(s))
    case Failure(errors) => Failure(errors)
  }

  /** A missing required variable or an unreadable int variable makes resolution fail, naming it. */
  lemma ResolveReportsFaultyFields(env: Env)
    ensures "STREAMER_NAME" !in env ==>
      Resolve(env).Failure? && MissingRequiredSetting("STREAMER_NAME") in Resolve(env).error
    ensures "PORT_ORG_ID" !in env ==>
      Resolve(env).Failure? && MissingRequiredSetting("PORT_ORG_ID") in Resolve(env).error
    ensures forall name | name in IntNames && !IntReadable(env, name) ::
      Resolve(env).Failure? && InvalidConfigurationValue(name, env[name]) in Resolve(env).error
  {
  }

  /** Variables outside the seventeen the settings declare have no effect on the outcome. */
  lemma ResolveReadsOnlyKnownNames(env: Env, env': Env)
    requires forall n | n in KnownNames :: (n in env <==> n in env') && (n in env ==> env[n] == env'[n])
    ensures Resolve(env) == Resolve(env')
  {
    assert SettingErrors(env) == SettingErrors(env');
  }

  // ---- partners ----

  /** The environment that spells out every field of `s` under its own variable name. */
  function EnvOf(s: Settings): Env {
    var env := map[
      "LOG_LEVEL" := s.logLevel,
      "STREAMER_NAME" := s.streamerName,
      "PORT_ORG_ID" := s.portOrgId,
      "GITLAB_URL" := s.gitlabUrl,
      "KAFKA_CONSUMER_BROKERS" := s.kafkaConsumerBrokers,
      "KAFKA_CONSUMER_SECURITY_PROTOCOL" := s.kafkaConsumerSecurityProtocol,
      "KAFKA_CONSUMER_AUTHENTICATION_MECHANISM" := s.kafkaConsumerAuthenticationMechanism,
      "KAFKA_CONSUMER_USERNAME" := s.kafkaConsumerUsername,
      "KAFKA_CONSUMER_PASSWORD" := s.kafkaConsumerPassword,
      "KAFKA_CONSUMER_SESSION_TIMEOUT_MS" := IntLiteral.IntToString(s.kafkaConsumerSessionTimeoutMs),
      "KAFKA_CONSUMER_AUTO_OFFSET_RESET" := s.kafkaConsumerAutoOffsetReset,
      "KAFKA_CONSUMER_GROUP_ID" := s.kafkaConsumerGroupId,
      "KAFKA_RUNS_TOPIC" := s.kafkaRunsTopic,
      "KAFKA_CHANGE_LOG_TOPIC" := s.kafkaChangeLogTopic,
      "WEBHOOK_INVOKER_TIMEOUT" := IntLiteral.IntToString(s.webhookInvokerTimeout),
      "GITLAB_PIPELINE_INVOKER_TIMEOUT" := IntLiteral.IntToString(s.gitlabPipelineInvokerTimeout)];
    match s.controlThePayloadConfigPath
    case None => env
    case Some(p) => env["CONTROL_THE_PAYLOAD_CONFIG_PATH" := p]
  }

  /** What the identity and upstream variables of `EnvOf(s)` hold. */
  lemma EnvOfIdentityLookups(s: Settings)
    ensures OptionalSetting(EnvOf(s), "LOG_LEVEL") == Some(s.logLevel)
    ensures OptionalSetting(EnvOf(s), "STREAMER_NAME") == Some(s.streamerName)
    ensures OptionalSetting(EnvOf(s), "PORT_ORG_ID") == Some(s.portOrgId)
    ensures OptionalSetting(EnvOf(s), "GITLAB_URL") == Some(s.gitlabUrl)
    ensures OptionalSetting(EnvOf(s), "KAFKA_CONSUMER_BROKERS") == Some(s.kafkaConsumerBrokers)
    ensures OptionalSetting(EnvOf(s), "KAFKA_CONSUMER_SECURITY_PROTOCOL") == Some(s.kafkaConsumerSecurityProtocol)
  {
  }

  /** What the broker consumer variables of `EnvOf(s)` hold. */
  lemma EnvOfConsumerLookups(s: Settings)
    ensures OptionalSetting(EnvOf(s), "KAFKA_CONSUMER_AUTHENTICATION_MECHANISM") == Some(s.kafkaConsumerAuthenticationMechanism)
    ensures OptionalSetting(EnvOf(s), "KAFKA_CONSUMER_USERNAME") == Some(s.kafkaConsumerUsername)
    ensures OptionalSetting(EnvOf(s), "KAFKA_CONSUMER_PASSWORD") == Some(s.kafkaConsumerPassword)
    ensures OptionalSetting(EnvOf(s), "KAFKA_CONSUMER_SESSION_TIMEOUT_MS") == Some(IntLiteral.IntToString(s.kafkaConsumerSessionTimeoutMs))
    ensures OptionalSetting(EnvOf(s), "KAFKA_CONSUMER_AUTO_OFFSET_RESET") == Some(s.kafkaConsumerAutoOffsetReset)
    ensures OptionalSetting(EnvOf(s), "KAFKA_CONSUMER_GROUP_ID") == Some(s.kafkaConsumerGroupId)
  {
  }

  /** What the topic, mapping-path and invoker variables of `EnvOf(s)` hold. */
  lemma EnvOfTopicAndInvokerLookups(s: Settings)
    ensures OptionalSetting(EnvOf(s), "KAFKA_RUNS_TOPIC") == Some(s.kafkaRunsTopic)
    ensures OptionalSetting(EnvOf(s), "KAFKA_CHANGE_LOG_TOPIC") == Some(s.kafkaChangeLogTopic)
    ensures OptionalSetting(EnvOf(s), "WEBHOOK_INVOKER_TIMEOUT") == Some(IntLiteral.IntToString(s.webhookInvokerTimeout))
    ensures OptionalSetting(EnvOf(s), "GITLAB_PIPELINE_INVOKER_TIMEOUT") == Some(IntLiteral.IntToString(s.gitlabPipelineInvokerTimeout))
    ensures OptionalSetting(EnvOf(s), "CONTROL_THE_PAYLOAD_CONFIG_PATH") == s.controlThePayloadConfigPath
  {
  }

  /** An environment that holds every field of `s` under its own name resolves to `s`. */
  lemma ResolveFromLookups(env: Env, s: Settings)
    requires s.kafkaRunsTopic != "" && s.kafkaChangeLogTopic != ""
    requires
      && OptionalSetting(env, "LOG_LEVEL") == Some(s.logLevel)
      && OptionalSetting(env, "STREAMER_NAME") == Some(s.streamerName)
      && OptionalSetting(env, "PORT_ORG_ID") == Some(s.portOrgId)
      && OptionalSetting(env, "GITLAB_URL") == Some(s.gitlabUrl)
      && OptionalSetting(env, "KAFKA_CONSUMER_BROKERS") == Some(s.kafkaConsumerBrokers)
      && OptionalSetting(env, "KAFKA_CONSUMER_SECURITY_PROTOCOL") == Some(s.kafkaConsumerSecurityProtocol)
      && OptionalSetting(env, "KAFKA_CONSUMER_AUTHENTICATION_MECHANISM") == Some(s.kafkaConsumerAuthenticationMechanism)
      && OptionalSetting(env, "KAFKA_CONSUMER_USERNAME") == Some(s.kafkaConsumerUsername)
      && OptionalSetting(env, "KAFKA_CONSUMER_PASSWORD") == Some(s.kafkaConsumerPassword)
      && "KAFKA_CONSUMER_SESSION_TIMEOUT_MS" in env && IntLiteral.ParseInt(env["KAFKA_CONSUMER_SESSION_TIMEOUT_MS"]) == Some(s.kafkaConsumerSessionTimeoutMs)
      && OptionalSetting(env, "KAFKA_CONSUMER_AUTO_OFFSET_RESET") == Some(s.kafkaConsumerAutoOffsetReset)
      && OptionalSetting(env, "KAFKA_CONSUMER_GROUP_ID") == Some(s.kafkaConsumerGroupId)
      && OptionalSetting(env, "KAFKA_RUNS_TOPIC") == Some(s.kafkaRunsTopic)
      && OptionalSetting(env, "KAFKA_CHANGE_LOG_TOPIC") == Some(s.kafkaChangeLogTopic)
      && "WEBHOOK_INVOKER_TIMEOUT" in env && IntLiteral.ParseInt(env["WEBHOOK_INVOKER_TIMEOUT"]) == Some(s.webhookInvokerTimeout)
      && "GITLAB_PIPELINE_INVOKER_TIMEOUT" in env && IntLiteral.ParseInt(env["GITLAB_PIPELINE_INVOKER_TIMEOUT"]) == Some(s.gitlabPipelineInvokerTimeout)
      && OptionalSetting(env, "CONTROL_THE_PAYLOAD_CONFIG_PATH") == s.controlThePayloadConfigPath
    ensures Resolve(env) == Success(s)
  {
  }

  /**
   * Every resolved settings record is reproduced exactly from its own
   * environment: each field is read from its own variable and nothing is lost.
   */
  lemma ResolveEnvOf(s: Settings)
    requires s.kafkaRunsTopic != "" && s.kafkaChangeLogTopic != ""
    ensures Resolve(EnvOf(s)) == Success(s)
  {
    EnvOfIdentityLookups(s);
    EnvOfConsumerLookups(s);
    EnvOfTopicAndInvokerLookups(s);
    IntLiteral.ParseIntToString(s.kafkaConsumerSessionTimeoutMs);
    IntLiteral.ParseIntToString(s.webhookInvokerTimeout);
    IntLiteral.ParseIntToString(s.gitlabPipelineInvokerTimeout);
    ResolveFromLookups(EnvOf(s), s);
  }

  /** Resolution is a fixed point of the derivation pass: re-deriving changes nothing. */
  lemma DerivationIdempotent(s: Settings)
    ensures ApplyDerivations(ApplyDerivations(s)) == ApplyDerivations(s)
  {
  }

  /** Names match case-sensitively: a lower-case `streamer_name` does not provide STREAMER_NAME. */
  lemma ResolveIsCaseSensitive()
    ensures Resolve(map["streamer_name" := "s", "PORT_ORG_ID" := "org"])
      == Failure([MissingRequiredSetting("STREAMER_NAME")])
  {
    var env := map["streamer_name" := "s", "PORT_ORG_ID" := "org"];
    var e := [MissingRequiredSetting("STREAMER_NAME")];
    assert RequiredErrors(env, "STREAMER_NAME") == e;
    assert RequiredErrors(env, "PORT_ORG_ID") == [];
    assert IntErrors(env, "KAFKA_CONSUMER_SESSION_TIMEOUT_MS", 45000) == [];
    assert IntErrors(env, "WEBHOOK_INVOKER_TIMEOUT", 5) == [];
    assert IntErrors(env, "GITLAB_PIPELINE_INVOKER_TIMEOUT", 5) == [];
    assert e + [] + [] + [] + [] == e;
    assert ResolveFields(env) == Failure([MissingRequiredSetting("STREAMER_NAME")]);
  }

  /** With only the required variables set, the topics are "<org>.runs" and "<org>.change.log". */
  lemma ResolveMinimalEnv(streamer: string, org: string)
    ensures Resolve(map["STREAMER_NAME" := streamer, "PORT_ORG_ID" := org]).Success?
    ensures Resolve(map["STREAMER_NAME" := streamer, "PORT_ORG_ID" := org]).value.kafkaRunsTopic == org + ".runs"
    ensures Resolve(map["STREAMER_NAME" := streamer, "PORT_ORG_ID" := org]).value.kafkaChangeLogTopic
      == org + ".change.log"
  {
  }
}
