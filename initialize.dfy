/**
 * The start-up sequence of initialize.go: authenticate along the path the
 * arguments select, then fetch the adapter configuration.
 *
 * The configuration fetch it calls is not defined among these sources, so
 * its `(config, error)` answer is an input, either half of which may be nil.
 * So is the error the device path's `Authenticate` call returns. Seeding the
 * random source is left out.
 */
module Initialization {
  import opened Wrappers
  import opened Args
  import opened ClearBlade

  /**
   * Authenticates as the service account when one is configured, else as the
   * device; stops at an authentication error; otherwise hands back the fetch's
   * `(config, error)` answer, `fetchedConfig` and `fetchErr`, untouched except
   * that an error drops the config. `fetchAttempted` says whether the fetch ran.
   */
  method Initialize(args: AdapterArgs, authenticateErr: Option<string>,
                    fetchedConfig: Option<AdapterConfig>, fetchErr: Option<string>)
    returns (client: DeviceClient, config: Option<AdapterConfig>, err: Option<string>, fetchAttempted: bool)
    ensures client.credentials.ServiceAccountCredentials? <==> args.ServiceAccount != ""
    ensures args.ServiceAccount != "" ==>
              client.credentials == ServiceAccountCredentials(args.ServiceAccount, args.ServiceAccountToken)
    ensures args.ServiceAccount == "" ==> client.credentials == DeviceCredentials(args.DeviceName, args.ActiveKey)
    // the service-account path cannot fail; the device path stops at its error
    ensures fetchAttempted <==> args.ServiceAccount != "" || authenticateErr.None?
    ensures !fetchAttempted ==> config.None? && err == authenticateErr && err.Some?
    // a fetch error comes back with no config; otherwise the fetched config, unchanged, even when it is nil
    ensures fetchAttempted && fetchErr.Some? ==> config.None? && err == fetchErr
    ensures fetchAttempted && fetchErr.None? ==> config == fetchedConfig && err.None?
    // a config never comes back together with an error
    ensures config.Some? ==> err.None?
  {
    var authErr;
    if args.ServiceAccount != "" {
      client, authErr := AuthWithServiceAccount(args);
      if authErr.Some? {
        return client, None, authErr, false;
      }
    } else {
      client, authErr := AuthWithDevice(args, authenticateErr);
      if authErr.Some? {
        return client, None, authErr, false;
      }
    }

    fetchAttempted := true;
    if fetchErr.Some? {
      return client, None, fetchErr, fetchAttempted;
    }
    config, err := fetchedConfig, None;
  }
}
