/**
 * Command-line and environment resolution of the adapter's arguments
 * (initialize.go, `adapterArgs` and `ParseArguments`).
 *
 * `flag.Parse` and `os.LookupEnv` are not modelled: the flags the command line
 * set are a map from flag name to value, the environment a map from variable
 * name to value. The package-level `Args` is the first out-parameter.
 */
module Args {
  import opened Wrappers

  const DEFAULT_LOG_LEVEL := "info"
  const DEFAULT_PLATFORM_URL := "http://localhost:9000"
  const DEFAULT_MESSAGING_URL := "localhost:1883"
  const DEFAULT_ADAPTER_CONFIG_COLLECTION := "adapter_config"
  const DEFAULT_FATAL_ON_DISCONNECT := "false"

  datatype AdapterArgs = AdapterArgs(
    LogLevel: string,
    SystemKey: string,
    DeviceName: string,
    EdgeName: string,
    ActiveKey: string,
    PlatformURL: string,
    MessagingURL: string,
    AdapterConfigCollection: string,
    ServiceAccount: string,
    ServiceAccountToken: string,
    FatalOnDisconnect: string)

  /** The three ways validation can refuse the arguments, in the order they are checked. */
  datatype ArgError = MissingSystemKey | MissingPassword | MissingServiceAccountToken
  {
    function Message(): string
    {
      match this
      case MissingSystemKey =>
        "System Key is required, can be supplied with --systemKey flag or CB_SYSTEM_KEY environment variable"
      case MissingPassword =>
        "Device Password is required when not using a Service Account, can be supplied with --password flag"
      case MissingServiceAccountToken =>
        "Service Account Token is required when a Service Account is specified, this should have automatically been supplied. Check for typos then try again"
    }
  }

  /** The value a `flag.StringVar` leaves behind: the command-line value if the flag was given, else its default. */
  function FlagOr(flags: map<string, string>, name: string, default: string): string
  {
    if name in flags then flags[name] else default
  }

  /** The arguments are complete enough to authenticate. */
  predicate Complete(a: AdapterArgs)
  {
    && a.SystemKey != ""
    && (a.ActiveKey != "" || a.ServiceAccount != "")
    && (a.ServiceAccount == "" || a.ServiceAccountToken != "")
  }

  /**
   * Builds the arguments from their defaults, then the flags, then the four
   * environment variables, and validates them. The arguments are returned
   * whether or not validation fails, as the Go code leaves them in `Args`.
   */
  method ParseArguments(adapterName: string, flags: map<string, string>, env: map<string, string>)
    returns (args: AdapterArgs, err: Option<ArgError>)
    // with nothing on the command line and nothing in the environment, the defaults
    ensures flags == map[] && env == map[] ==>
              && args == AdapterArgs("info", "", adapterName, "", "", "http://localhost:9000", "localhost:1883",
                                     "adapter_config", "", "", "false")
              && err == Some(MissingSystemKey)
    // fields only the command line can set: the flag's value, else the default
    ensures args.LogLevel == FlagOr(flags, "logLevel", DEFAULT_LOG_LEVEL)
    ensures args.DeviceName == FlagOr(flags, "deviceName", adapterName)
    ensures args.ActiveKey == FlagOr(flags, "password", "")
    ensures args.PlatformURL == FlagOr(flags, "platformURL", DEFAULT_PLATFORM_URL)
    ensures args.MessagingURL == FlagOr(flags, "messagingURL", DEFAULT_MESSAGING_URL)
    ensures args.AdapterConfigCollection == FlagOr(flags, "adapterConfigCollection", DEFAULT_ADAPTER_CONFIG_COLLECTION)
    ensures args.FatalOnDisconnect == FlagOr(flags, "fatalOnDisconnect", DEFAULT_FATAL_ON_DISCONNECT)
    // the system key: a non-empty flag wins, CB_SYSTEM_KEY fills it in otherwise
    ensures FlagOr(flags, "systemKey", "") != "" ==> args.SystemKey == flags["systemKey"]
    ensures FlagOr(flags, "systemKey", "") == "" && "CB_SYSTEM_KEY" in env ==> args.SystemKey == env["CB_SYSTEM_KEY"]
    ensures FlagOr(flags, "systemKey", "") == "" && "CB_SYSTEM_KEY" !in env ==> args.SystemKey == ""
    // the service account and its token come only from the environment, even when empty there
    ensures args.ServiceAccount == (if "CB_SERVICE_ACCOUNT" in env then env["CB_SERVICE_ACCOUNT"] else "")
    ensures args.ServiceAccountToken == (if "CB_SERVICE_ACCOUNT_TOKEN" in env then env["CB_SERVICE_ACCOUNT_TOKEN"] else "")
    // no flag sets the edge name, so CB_EDGE_NAME always applies when present
    ensures args.EdgeName == (if "CB_EDGE_NAME" in env then env["CB_EDGE_NAME"] else "")
    // validation: success exactly when complete, and only the first failing check is reported
    ensures err.None? <==> Complete(args)
    ensures err == Some(MissingSystemKey) <==> args.SystemKey == ""
    ensures err == Some(MissingPassword) <==> args.SystemKey != "" && args.ActiveKey == "" && args.ServiceAccount == ""
    ensures err == Some(MissingServiceAccountToken) <==>
              args.SystemKey != "" && args.ServiceAccount != "" && args.ServiceAccountToken == ""
  {
    args := AdapterArgs(
      LogLevel := DEFAULT_LOG_LEVEL,
      SystemKey := "",
      DeviceName := adapterName,
      EdgeName := "",
      ActiveKey := "",
      PlatformURL := DEFAULT_PLATFORM_URL,
      MessagingURL := DEFAULT_MESSAGING_URL,
      AdapterConfigCollection := DEFAULT_ADAPTER_CONFIG_COLLECTION,
      ServiceAccount := "",
      ServiceAccountToken := "",
      FatalOnDisconnect := DEFAULT_FATAL_ON_DISCONNECT);

    args := args.(SystemKey := FlagOr(flags, "systemKey", ""));
    args := args.(DeviceName := FlagOr(flags, "deviceName", adapterName));
    args := args.(ActiveKey := FlagOr(flags, "password", ""));
    args := args.(PlatformURL := FlagOr(flags, "platformURL", DEFAULT_PLATFORM_URL));
    args := args.(MessagingURL := FlagOr(flags, "messagingURL", DEFAULT_MESSAGING_URL));
    args := args.(LogLevel := FlagOr(flags, "logLevel", DEFAULT_LOG_LEVEL));
    args := args.(AdapterConfigCollection := FlagOr(flags, "adapterConfigCollection", DEFAULT_ADAPTER_CONFIG_COLLECTION));
    args := args.(FatalOnDisconnect := FlagOr(flags, "fatalOnDisconnect", DEFAULT_FATAL_ON_DISCONNECT));

    if "CB_SYSTEM_KEY" in env && args.SystemKey == "" {
      args := args.(SystemKey := env["CB_SYSTEM_KEY"]);
    }
    if "CB_SERVICE_ACCOUNT" in env {
      args := args.(ServiceAccount := env["CB_SERVICE_ACCOUNT"]);
    }
    if "CB_SERVICE_ACCOUNT_TOKEN" in env {
      args := args.(ServiceAccountToken := env["CB_SERVICE_ACCOUNT_TOKEN"]);
    }
    if "CB_EDGE_NAME" in env && args.EdgeName == "" {
      args := args.(EdgeName := env["CB_EDGE_NAME"]);
    }

    if args.SystemKey == "" {
      return args, Some(MissingSystemKey);
    }
    if args.ActiveKey == "" && args.ServiceAccount == "" {
      return args, Some(MissingPassword);
    }
    if args.ServiceAccount != "" && args.ServiceAccountToken == "" {
      return args, Some(MissingServiceAccountToken);
    }
    err := None;
  }
}
