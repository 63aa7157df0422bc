/**
 * pkg/config: settings read once from the process environment. The
 * environment is a map from variable names to values; a panic of the package
 * initialiser is a `Fail` outcome carrying the panic text.
 */
module Config {
  import opened Wrappers
  import opened Strings
  import KubeApi

  /** The zerolog levels the configuration can select. Go's zero value is Debug. */
  datatype Level = Debug | Info | Warn | Error

  const MandatoryEnvironmentVariables: seq<string> := ["K8S_CLUSTER_NAME", "PORT"]

  const MissingVariablePrefix: string := "missing mandatory environment variable: "

  const InvalidPortMessage: string := "PORT env variable must be valid int between 1-65535"

  /** os.Getenv: "" for an unset variable, as for any missing map key. */
  function Getenv(env: map<string, string>, name: string): string
  {
    KubeApi.Lookup(env, name)
  }

  /** The home directory: HOME when set, else USERPROFILE. */
  function HomeDir(env: map<string, string>): (home: string)
    ensures Getenv(env, "HOME") != "" ==> home == Getenv(env, "HOME")
    ensures Getenv(env, "HOME") == "" ==> home == Getenv(env, "USERPROFILE")
  {
    var h := Getenv(env, "HOME");
    if h != "" then h else Getenv(env, "USERPROFILE")
  }

  /** K8S_CONF_FILE_PATH when set, else the .kube/config file of the home directory. */
  function KubeConfigPath(env: map<string, string>): (path: string)
    ensures Getenv(env, "K8S_CONF_FILE_PATH") != "" ==> path == Getenv(env, "K8S_CONF_FILE_PATH")
    ensures Getenv(env, "K8S_CONF_FILE_PATH") == "" ==> path == HomeDir(env) + "/.kube/config"
  {
    var confFile := Getenv(env, "K8S_CONF_FILE_PATH");
    if confFile != "" then confFile else HomeDir(env) + "/.kube" + "/config"
  }

  /** A comma-separated list setting: empty for an empty value, else the comma-separated pieces. */
  function CommaList(value: string): (list: seq<string>)
    ensures value == "" ==> list == []
    ensures value != "" ==>
      && |list| == multiset(value)[','] + 1
      && (forall i :: 0 <= i < |list| ==> ',' !in list[i])
      && Join(list, ',') == value
  {
    JoinSplit(value, ',');
    if value == "" then [] else Split(value, ',')
  }

  /** The level a LOG_LEVEL value names, matched ignoring case. */
  function LevelNamed(value: string): Option<Level>
  {
    match ToLower(value)
    case "debug" => Some(Debug)
    case "info" => Some(Info)
    case "warn" => Some(Warn)
    case "error" => Some(Error)
    case _ => None
  }

  /** The level after setLogLevel: Info for an empty value, unchanged for an unknown one. */
  function ConfiguredLevel(value: string, current: Level): (level: Level)
  {
    if value == "" then Info
    else match LevelNamed(value)
      case Some(l) => l
      case None => current
  }

  /** Matching is case-insensitive: a value names the same level as its lower-case form. */
  lemma LevelNamedIgnoresCase(value: string)
    ensures LevelNamed(ToLower(value)) == LevelNamed(value)
  {
    ToLowerIdempotent(value);
  }

  /** The PORT setting: a decimal integer from 1 to 65535. */
  function ParsePort(value: string): (port: Option<int>)
    ensures port.Some? <==> Atoi(value).Some? && 1 <= Atoi(value).value <= 65535
    ensures port.Some? ==> port.value == Atoi(value).value
  {
    match Atoi(value)
    case Some(p) => if p < 1 || p > 65535 then None else Some(p)
    case None => None
  }

  /** Every valid port, written in decimal, is accepted as itself. */
  lemma PortRoundTrip(p: int)
    requires 1 <= p <= 65535
    ensures ParsePort(Decimal(p)) == Some(p)
  {
    DecimalRoundTrip(p);
  }

  /** True when every mandatory variable is set to a non-empty value. */
  predicate MandatorySet(env: map<string, string>)
  {
    forall i :: 0 <= i < |MandatoryEnvironmentVariables| ==> Getenv(env, MandatoryEnvironmentVariables[i]) != ""
  }

  /**
   * verifyMandatoryVariables: fails, naming the variable, at the first
   * mandatory variable that is unset or empty.
   */
  method VerifyMandatoryVariables(env: map<string, string>) returns (outcome: Outcome)
    ensures outcome.Pass? <==> MandatorySet(env)
    ensures outcome.Fail? ==>
      exists i :: 0 <= i < |MandatoryEnvironmentVariables|
        && Getenv(env, MandatoryEnvironmentVariables[i]) == ""
        && (forall j :: 0 <= j < i ==> Getenv(env, MandatoryEnvironmentVariables[j]) != "")
        && outcome.error == MissingVariablePrefix + MandatoryEnvironmentVariables[i]
  {
    var k := 0;
    while k < |MandatoryEnvironmentVariables|
      invariant 0 <= k <= |MandatoryEnvironmentVariables|
      invariant forall j :: 0 <= j < k ==> Getenv(env, MandatoryEnvironmentVariables[j]) != ""
    {
      var envVar := MandatoryEnvironmentVariables[k];
      if Getenv(env, envVar) == "" {
        return Fail(MissingVariablePrefix + envVar);
      }
      k := k + 1;
    }
    return Pass;
  }

  /** The package-level settings, with the getters that read them. */
  class Config {
    var clusterName: string
    var kubeConfigFilePath: string
    var logLevel: Level
    var excludePodNamePatterns: seq<string>
    var slackChannelNames: seq<string>
    var slackToken: string
    var defaultReceiver: string
    var port: int

    /** The Go zero values of the package variables, before init runs. */
    constructor ()
      ensures clusterName == "" && kubeConfigFilePath == "" && logLevel == Debug
      ensures excludePodNamePatterns == [] && slackChannelNames == []
      ensures slackToken == "" && defaultReceiver == "" && port == 0
    {
      clusterName, kubeConfigFilePath, logLevel := "", "", Debug;
      excludePodNamePatterns, slackChannelNames := [], [];
      slackToken, defaultReceiver, port := "", "", 0;
    }

    function Port(): int reads this { port }
    function LogLevel(): Level reads this { logLevel }
    function ClusterName(): string reads this { clusterName }
    function ExcludePodNamePatterns(): seq<string> reads this { excludePodNamePatterns }
    function SlackChannelNames(): seq<string> reads this { slackChannelNames }
    function DefaultReceiver(): string reads this { defaultReceiver }
    function KubeConfFilePath(): string reads this { kubeConfigFilePath }
    function SlackToken(): string reads this { slackToken }

    /** setLogLevel: Info when LOG_LEVEL is empty, the named level, or no change. */
    method SetLogLevel(env: map<string, string>)
      modifies this`logLevel
      ensures logLevel == ConfiguredLevel(Getenv(env, "LOG_LEVEL"), old(logLevel))
      ensures Getenv(env, "LOG_LEVEL") == "" ==> logLevel == Info
      ensures LevelNamed(Getenv(env, "LOG_LEVEL")) == None ==> Getenv(env, "LOG_LEVEL") != "" ==> logLevel == old(logLevel)
    {
      var logLevelStr := Getenv(env, "LOG_LEVEL");
      if logLevelStr == "" {
        logLevel := Info;
        return;
      }
      var lower := ToLower(logLevelStr);
      if lower == "debug" {
        logLevel := Debug;
      } else if lower == "info" {
        logLevel := Info;
      } else if lower == "warn" {
        logLevel := Warn;
      } else if lower == "error" {
        logLevel := Error;
      }
    }

    /** The settings init reads after the mandatory check, in the order it reads them. */
    method ReadSettings(env: map<string, string>)
      modifies this`clusterName, this`slackToken, this`excludePodNamePatterns, this`slackChannelNames,
        this`kubeConfigFilePath, this`defaultReceiver
      ensures clusterName == Getenv(env, "K8S_CLUSTER_NAME")
      ensures slackToken == Getenv(env, "SLACK_TOKEN")
      ensures excludePodNamePatterns == CommaList(Getenv(env, "EXCLUDE_POD_NAME_PATTERNS"))
      ensures slackChannelNames == CommaList(Getenv(env, "SLACK_CHANNEL_NAMES"))
      ensures kubeConfigFilePath == KubeConfigPath(env)
      ensures defaultReceiver == (if Getenv(env, "DEFAULT_RECEIVER") == "" then "slack" else Getenv(env, "DEFAULT_RECEIVER"))
    {
      clusterName := Getenv(env, "K8S_CLUSTER_NAME");
      slackToken := Getenv(env, "SLACK_TOKEN");

      if Getenv(env, "EXCLUDE_POD_NAME_PATTERNS") == "" {
        excludePodNamePatterns := [];
      } else {
        excludePodNamePatterns := Split(Getenv(env, "EXCLUDE_POD_NAME_PATTERNS"), ',');
      }

      if Getenv(env, "SLACK_CHANNEL_NAMES") == "" {
        slackChannelNames := [];
      } else {
        slackChannelNames := Split(Getenv(env, "SLACK_CHANNEL_NAMES"), ',');
      }

      var confFile := Getenv(env, "K8S_CONF_FILE_PATH");
      if confFile != "" {
        kubeConfigFilePath := confFile;
      } else {
        var home := HomeDir(env);
        kubeConfigFilePath := home + "/.kube" + "/config";
      }

      defaultReceiver := Getenv(env, "DEFAULT_RECEIVER");
      if defaultReceiver == "" {
        defaultReceiver := "slack";
      }

    }

    /**
     * The package initialiser: the log level first, then the mandatory check,
     * then every other setting, and the PORT check last. A `Fail` outcome is
     * the panic that stops the process.
     */
    method Init(env: map<string, string>) returns (outcome: Outcome)
      modifies this
      ensures logLevel == ConfiguredLevel(Getenv(env, "LOG_LEVEL"), old(logLevel))
      ensures !MandatorySet(env) ==>
        && outcome.Fail?
        && outcome.error == MissingVariablePrefix
             + (if Getenv(env, "K8S_CLUSTER_NAME") == "" then "K8S_CLUSTER_NAME" else "PORT")
        && clusterName == old(clusterName) && kubeConfigFilePath == old(kubeConfigFilePath)
        && excludePodNamePatterns == old(excludePodNamePatterns)
        && slackChannelNames == old(slackChannelNames) && slackToken == old(slackToken)
        && defaultReceiver == old(defaultReceiver) && port == old(port)
      ensures MandatorySet(env) ==>
        && clusterName == Getenv(env, "K8S_CLUSTER_NAME")
        && slackToken == Getenv(env, "SLACK_TOKEN")
        && excludePodNamePatterns == CommaList(Getenv(env, "EXCLUDE_POD_NAME_PATTERNS"))
        && slackChannelNames == CommaList(Getenv(env, "SLACK_CHANNEL_NAMES"))
        && kubeConfigFilePath == KubeConfigPath(env)
        && defaultReceiver == (if Getenv(env, "DEFAULT_RECEIVER") == "" then "slack" else Getenv(env, "DEFAULT_RECEIVER"))
        && (outcome.Pass? <==> ParsePort(Getenv(env, "PORT")).Some?)
        && (outcome.Pass? ==> port == ParsePort(Getenv(env, "PORT")).value)
        && (outcome.Fail? ==> outcome.error == InvalidPortMessage && port == old(port))
    {
      SetLogLevel(env);
      outcome := VerifyMandatoryVariables(env);
      if outcome.Fail? {
        ghost var i :| 0 <= i < |MandatoryEnvironmentVariables|
          && Getenv(env, MandatoryEnvironmentVariables[i]) == ""
          && (forall j :: 0 <= j < i ==> Getenv(env, MandatoryEnvironmentVariables[j]) != "")
          && outcome.error == MissingVariablePrefix + MandatoryEnvironmentVariables[i];
        assert i == 1 ==> Getenv(env, MandatoryEnvironmentVariables[0]) != "";
        return;
      }

      ReadSettings(env);

      var parsed := Atoi(Getenv(env, "PORT"));
      if parsed.Some? {
        if parsed.value < 1 || parsed.value > 65535 {
          return Fail(InvalidPortMessage);
        }
        port := parsed.value;
      } else {
        return Fail(InvalidPortMessage);
      }
    }
  }
}
