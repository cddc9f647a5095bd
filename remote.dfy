/** The remote status service as the command sees it: a fixed host, four
    endpoints, the requests the command issues and the response it reads. The
    transport and the decoding of the response body are not modelled: a
    response is its status code and the text found at `data.massage`. */
module Remote {
  import opened Text

  datatype Option<T> = None | Some(value: T)

  /** The `hostYoutrackPM` field; note the trailing slash. */
  const Host: string := "https://youtrack-pm.theinvaders.pro/"

  const StartEndpoint: string := "youtrack_start"
  const StopEndpoint: string := "youtrack_stop"
  const StatusEndpoint: string := "youtrack_status"
  const TokenEndpoint: string := "set_youtrack_token"

  /** The only status code read as success (a strict `=== 200`). */
  const SuccessStatus: int := 200

  /** What the command reads from the remote's answer: the status code and the
      already extracted `data.massage` text. */
  datatype Response = Response(statusCode: int, massage: string)

  /** A GET carries the user id in its URL; the token POST carries the
      parameters `{token, id}`, where `token` is absent (`undefined`) when the
      command had no second argument. */
  datatype Request =
    | Get(url: string)
    | Post(url: string, token: Option<string>, id: string)

  /** The template `${host}/<endpoint>`: the host already ends in `/`, so the
      path begins with `//`. */
  function EndpointUrl(host: string, endpoint: string): (url: string)
    ensures |url| == |host| + 1 + |endpoint|
    ensures url[..|host|] == host && url[|host|] == '/' && url[|host| + 1..] == endpoint
  {
    assert (host + "/" + endpoint)[..|host|] == host;
    host + "/" + endpoint
  }

  /** The template `${host}/<endpoint>?id=<id>` of the three GET requests. */
  function QueryUrl(host: string, endpoint: string, id: string): (url: string)
    ensures var path := EndpointUrl(host, endpoint);
      |url| == |path| + 4 + |id| && url[..|path|] == path && url[|path|..|path| + 4] == "?id=" && url[|path| + 4..] == id
  {
    var path := EndpointUrl(host, endpoint);
    assert (path + "?id=" + id)[..|path|] == path;
    assert (path + "?id=" + id)[|path|..] == "?id=" + id;
    path + "?id=" + id
  }

  /** The path of every request begins with a doubled slash right after the
      host name. */
  lemma DoubleSlash(endpoint: string)
    ensures EndpointUrl(Host, endpoint)[..|Host| + 1] == "https://youtrack-pm.theinvaders.pro//"
  {
    assert EndpointUrl(Host, endpoint)[..|Host| + 1] == Host + "/";
  }

  /** How the receiving side reads a GET URL back: the host and the extra
      slash, the endpoint up to the first `?`, then `?id=` and the user id. */
  function ParseQueryUrl(host: string, url: string): (r: Option<(string, string)>)
    ensures r.Some? ==> '?' !in r.value.0 && QueryUrl(host, r.value.0, r.value.1) == url
  {
    var prefix := host + "/";
    if |url| < |prefix| || url[..|prefix|] != prefix then None
    else
      var rest := url[|prefix|..];
      var p := SplitAt(rest, '?');
      var query := p.1;
      if |query| < 4 || query[..4] != "?id=" then None
      else
        var id := query[4..];
        assert query == query[..4] + id;
        assert url == prefix + rest;
        assert prefix + (p.0 + (query[..4] + id)) == prefix + p.0 + query[..4] + id;
        Some((p.0, id))
  }

  /** Every GET URL the command builds names its endpoint and user id, and
      reading it back recovers both. */
  lemma QueryUrlRoundTrip(host: string, endpoint: string, id: string)
    requires '?' !in endpoint
    ensures ParseQueryUrl(host, QueryUrl(host, endpoint, id)) == Some((endpoint, id))
  {
    var prefix := host + "/";
    var url := QueryUrl(host, endpoint, id);
    assert url == prefix + (endpoint + ("?id=" + id));
    assert url[..|prefix|] == prefix;
    assert url[|prefix|..] == endpoint + ("?id=" + id);
    SplitAtConcat(endpoint, "?id=" + id, '?');
    assert ("?id=" + id)[4..] == id;
  }

  /** Two GET requests are the same exactly when they go to the same endpoint
      for the same user. */
  lemma QueryUrlInjective(host: string, e1: string, i1: string, e2: string, i2: string)
    requires '?' !in e1 && '?' !in e2
    ensures QueryUrl(host, e1, i1) == QueryUrl(host, e2, i2) <==> e1 == e2 && i1 == i2
  {
    QueryUrlRoundTrip(host, e1, i1);
    QueryUrlRoundTrip(host, e2, i2);
  }

  /** The three GET endpoints are distinct and none contains a `?`. */
  lemma GetEndpointsDistinct()
    ensures '?' !in StartEndpoint && '?' !in StopEndpoint && '?' !in StatusEndpoint
    ensures StartEndpoint != StopEndpoint && StopEndpoint != StatusEndpoint
    ensures StartEndpoint != StatusEndpoint
  {
  }
}
