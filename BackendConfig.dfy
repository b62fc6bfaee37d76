/** The compiled-in backend endpoints. The Swift `#if DEBUG` switch is the
    parameter `debug`: true for a debug build, false for a release build. */
module BackendConfig {

  /** The release-build server placeholder. */
  const ProductionURL: string := "http://YOUR_LINODE_IP"

  /** The debug-build server on the development machine. */
  const DebugURL: string := "http://localhost:48395"

  /** `BackendConfig.baseURL` for the given build mode: a plain-http server,
      a different one in each mode. */
  function BaseURL(debug: bool): (r: string)
    ensures |r| > 7 && r[..7] == "http://"
    ensures (r == DebugURL) == debug
  {
    if debug then DebugURL else ProductionURL
  }

  /** `BackendConfig.apiURL`: the root of the AI routes, on the base server. */
  function ApiURL(debug: bool): (r: string)
    ensures |r| > |BaseURL(debug)| && r[..|BaseURL(debug)|] == BaseURL(debug)
  {
    BaseURL(debug) + "/api/ai"
  }

  /** `BackendConfig.healthURL`, on the base server. */
  function HealthURL(debug: bool): (r: string)
    ensures |r| > |BaseURL(debug)| && r[..|BaseURL(debug)|] == BaseURL(debug)
  {
    BaseURL(debug) + "/health"
  }

  /** `BackendConfig.getServiceURL(for:)`: the chat route of one service,
      under the AI root. */
  function GetServiceURL(debug: bool, service: string): (r: string)
    ensures |r| > |ApiURL(debug)| && r[..|ApiURL(debug)|] == ApiURL(debug)
  {
    ApiURL(debug) + "/chat/" + service
  }

  /** `BackendConfig.getServicesURL()`: the route listing the services,
      under the AI root. */
  function GetServicesURL(debug: bool): (r: string)
    ensures |r| > |ApiURL(debug)| && r[..|ApiURL(debug)|] == ApiURL(debug)
  {
    ApiURL(debug) + "/services"
  }

  /** `sub` occurs in `s` starting at index `i`. */
  predicate OccursAt(s: string, sub: string, i: int) {
    0 <= i && i + |sub| <= |s| && s[i..i + |sub|] == sub
  }

  /** `String.contains`: `sub` occurs in `s` as a contiguous run. */
  function Contains(s: string, sub: string): (r: bool)
    ensures r <==> exists i :: OccursAt(s, sub, i)
    decreases |s|
  {
    if |sub| > |s| then false
    else if s[..|sub|] == sub then assert OccursAt(s, sub, 0); true
    else
      var r := Contains(s[1..], sub);
      assert r ==> exists i :: OccursAt(s, sub, i) by {
        if r {
          var j :| OccursAt(s[1..], sub, j);
          assert s[j + 1..j + 1 + |sub|] == s[1..][j..j + |sub|];
          assert OccursAt(s, sub, j + 1);
        }
      }
      assert (exists i :: OccursAt(s, sub, i)) ==> r by {
        if exists i :: OccursAt(s, sub, i) {
          var i :| OccursAt(s, sub, i);
          assert i != 0;
          assert s[1..][i - 1..i - 1 + |sub|] == s[i..i + |sub|];
          assert OccursAt(s[1..], sub, i - 1);
        }
      }
      r
  }

  /** A string lacking one of `sub`'s characters cannot contain `sub`. */
  lemma MissingCharNotContained(s: string, sub: string, c: char)
    requires c in sub && c !in s
    ensures !Contains(s, sub)
  {
  }

  /** `BackendConfig.isLocalhost()`: the debug server is on the loopback
      host, and the release placeholder names neither loopback host. */
  function IsLocalhost(debug: bool): (r: bool)
    ensures r <==> debug
  {
    var u := BaseURL(debug);
    if debug then
      assert OccursAt(u, "localhost", 7);
      Contains(u, "localhost") || Contains(u, "127.0.0.1")
    else
      assert 'l' !in u && '1' !in u;
      MissingCharNotContained(u, "localhost", 'l');
      MissingCharNotContained(u, "127.0.0.1", '1');
      Contains(u, "localhost") || Contains(u, "127.0.0.1")
  }

  /** Every derived endpoint is the base URL followed by its own path. */
  lemma {:induction false} EndpointsExtendBase(debug: bool, service: string)
    ensures ApiURL(debug)[..|BaseURL(debug)|] == BaseURL(debug)
    ensures ApiURL(debug)[|BaseURL(debug)|..] == "/api/ai"
    ensures HealthURL(debug)[..|BaseURL(debug)|] == BaseURL(debug)
    ensures HealthURL(debug)[|BaseURL(debug)|..] == "/health"
    ensures GetServiceURL(debug, service)[..|BaseURL(debug)|] == BaseURL(debug)
    ensures GetServiceURL(debug, service)[|BaseURL(debug)|..] == "/api/ai/chat/" + service
    ensures GetServicesURL(debug)[..|BaseURL(debug)|] == BaseURL(debug)
    ensures GetServicesURL(debug)[|BaseURL(debug)|..] == "/api/ai/services"
  {
    var b := BaseURL(debug);
    assert GetServiceURL(debug, service) == b + ("/api/ai/chat/" + service);
    assert GetServicesURL(debug) == b + "/api/ai/services";
  }

  /** The four kinds of route never coincide, and no service name makes a
      chat route equal to the services listing. */
  lemma RoutesDistinct(debug: bool, service: string)
    ensures ApiURL(debug) != HealthURL(debug)
    ensures ApiURL(debug) != GetServicesURL(debug) && HealthURL(debug) != GetServicesURL(debug)
    ensures GetServiceURL(debug, service) != GetServicesURL(debug)
    ensures GetServiceURL(debug, service) != ApiURL(debug) && GetServiceURL(debug, service) != HealthURL(debug)
  {
    var b := BaseURL(debug);
    var n := |b|;
    EndpointsExtendBase(debug, service);
    assert ApiURL(debug)[n + 1] == 'a' && HealthURL(debug)[n + 1] == 'h';
    assert GetServicesURL(debug)[n + 1] == 'a' && |GetServicesURL(debug)| > |ApiURL(debug)|;
    assert GetServiceURL(debug, service)[n + 8] == 'c' && GetServicesURL(debug)[n + 8] == 's';
    assert |GetServiceURL(debug, service)| > |ApiURL(debug)|;
  }

  /** Distinct services are reached at distinct URLs. */
  lemma ServiceURLInjective(debug: bool, s: string, t: string)
    ensures GetServiceURL(debug, s) == GetServiceURL(debug, t) ==> s == t
  {
    var n := |ApiURL(debug) + "/chat/"|;
    if GetServiceURL(debug, s) == GetServiceURL(debug, t) {
      assert s == GetServiceURL(debug, s)[n..];
      assert t == GetServiceURL(debug, t)[n..];
    }
  }
}
