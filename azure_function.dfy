/**
 * Host and route composition for an HTTP-triggered function app, and the
 * `code` header that carries the function key.
 */
module AzureFunctions {
  import opened Strings
  import opened Requests

  /** The local development host. */
  const Localhost: string := "http://localhost:7071"

  /** The settings of one function: the account it is deployed under, the
      route prefix, the function name and the function key (`Code`). */
  datatype AzureConfig = AzureConfig(account: string, routePrefix: string, functionName: string, code: string)

  /** An account that means "run locally": empty, `localhost` or
      `127.0.0.1`, in any letter case. */
  predicate IsLocalAccount(account: string) {
    account == "" || EqualsIgnoreCase(account, "localhost") || EqualsIgnoreCase(account, "127.0.0.1")
  }

  /** `GetHost(accountName)`: whether the host is local is decided by the
      configured `account`, but a remote host is named after the argument. */
  function GetHost(account: string, accountName: string): (host: string)
    ensures IsLocalAccount(account) ==> host == Localhost
    ensures !IsLocalAccount(account) ==> host == "https://" + accountName + ".azurewebsites.net"
  {
    if IsLocalAccount(account) then Localhost
    else "https://" + accountName + ".azurewebsites.net"
  }

  /** Every host starts with `http` and, when the account name has no `?`,
      contains none. */
  lemma HostShape(account: string, accountName: string)
    ensures "http" <= GetHost(account, accountName)
    ensures '?' !in accountName ==> '?' !in GetHost(account, accountName)
  {
  }

  /** The local account names are recognised whatever their letter case. */
  lemma LocalhostIgnoresCase(accountName: string)
    ensures GetHost("LocalHost", accountName) == Localhost
  {
  }

  /** `ConfigureApi`: a non-empty `URLEndpoint` is the api as it is;
      otherwise the host, then `/prefix/` and the function name, or the
      function name straight after the host when the prefix is empty. */
  function ConfigureApi(urlEndpoint: string, config: AzureConfig): (api: string)
    ensures urlEndpoint != "" ==> api == urlEndpoint
    ensures urlEndpoint == "" ==> GetHost(config.account, config.account) <= api
    ensures urlEndpoint == "" && config.routePrefix == "" ==>
      api == GetHost(config.account, config.account) + config.functionName
    ensures urlEndpoint == "" && config.routePrefix != "" ==>
      api == GetHost(config.account, config.account) + "/" + config.routePrefix + "/" + config.functionName
  {
    if urlEndpoint != "" then urlEndpoint
    else
      var host := GetHost(config.account, config.account);
      var functionPath := if config.routePrefix == "" then config.functionName
                          else "/" + config.routePrefix + "/" + config.functionName;
      host + functionPath
  }

  /** With no `URLEndpoint`, the request goes to the function's route with a
      `/` and the query string appended. */
  lemma FunctionRouteUri(config: AzureConfig, query: string)
    requires config.routePrefix != ""
    requires '?' !in config.account + config.routePrefix + config.functionName
    ensures UriString(ConfigureApi("", config), "", query)
            == GetHost(config.account, config.account) + "/" + config.routePrefix + "/" + config.functionName + "/" + query
  {
  }

  /** `CustomRequest`: when a function key is configured, it is sent,
      trimmed, as the `code` header; otherwise the request is untouched. */
  function CustomRequest(code: string, www: Outgoing): (o: Outgoing)
    ensures code == "" ==> o == www
    ensures code != "" ==> o == www.(headers := www.headers + [KeyValue("code", Trim(code))])
  {
    if code != "" then www.(headers := www.headers + [KeyValue("code", Trim(code))]) else www
  }
}
