/** What a client is pointed at: the service URL and the token. */
module ClientTarget {
  import opened Text

  datatype Target = Target(baseUrl: string, token: string)

  /** `serverUrl` without one trailing slash, plus `/v1`. */
  function ToBaseUrl(serverUrl: string): string {
    (if serverUrl != "" && Last(serverUrl) == '/' then Init(serverUrl) else serverUrl) + "/v1"
  }

  predicate BreakFree(target: Target) {
    NoBreak(target.baseUrl) && NoBreak(target.token)
  }

  /** A server URL as it is configured: it does not end in a slash. */
  predicate NoSlashEnd(h: string) {
    h == "" || Last(h) != '/'
  }

  /** One slash at the end of the server URL is dropped, no more. */
  lemma WrittenUrl(h: string)
    requires NoSlashEnd(h)
    ensures ToBaseUrl(h) == h + "/v1" && ToBaseUrl(h + "/") == h + "/v1" && ToBaseUrl(h + "//") == h + "//v1"
  {
    assert Init(h + "/") == h;
    assert Init(h + "//") == h + "/" && h + "/" + "/v1" == h + "//v1";
  }
}
