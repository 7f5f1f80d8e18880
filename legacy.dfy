/**
 * The older client of package sentry (sentry/client.go). It posts an already built
 * release or deploy to a project's endpoint, with an URL made by one path.Join over the
 * whole server string, and counts only 201 (created) and 208 (already exists) as success.
 * The Release and Deploy payloads are opaque: what json.Marshal makes of them is an input.
 */
module Legacy {
  import opened GoTypes
  import opened GoPath
  import opened UrlBuilder
  import opened JsonEncoding
  import opened Http

  const DefaultServer: string := "https://sentry.io"
  /** The second element of both calls' path.Join. */
  const ProjectsPath: string := "api/0/projects/"
  const ReleasesSegment: string := "releases"
  const DeploysSegment: string := "deploys"
  /** The Content-Type this client sends, without a charset. */
  const PlainJsonType: string := "application/json"
  const Created: int := 201
  const AlreadyExists: int := 208

  /** The client's four settings, fixed when it is made. */
  datatype Client = Client(sentryServer: string, org: string, project: string, apiKey: string)

  /** What the server sent back: its status code and the text of its body. */
  datatype Response = Response(statusCode: int, body: string)

  /** The collaborators' verdicts: whether http.NewRequest fails, and what the transport gives. */
  datatype Env = Env(newRequestError: Option<string>, transport: Attempt<Response>)

  /** An error a collaborator returned as is, or the client's own error for a rejected status. */
  datatype Error = Failure(cause: string) | ApiError(statusCode: int, body: string)

  /**
   * NewClient: an empty server becomes https://sentry.io, any other is kept; the key,
   * organization and project are stored as given, whatever order they are passed in.
   */
  function NewClient(sentryServer: string, apiKey: string, org: string, project: string): (c: Client)
    ensures c.sentryServer != ""
    ensures sentryServer != "" ==> c.sentryServer == sentryServer
    ensures sentryServer == "" ==> c.sentryServer == DefaultServer
    ensures c.apiKey == apiKey && c.org == org && c.project == project
  {
    var server := if sentryServer == "" then DefaultServer else sentryServer;
    Client(server, org, project, apiKey)
  }

  /** The elements CreateRelease joins. */
  function ReleasePaths(c: Client): seq<string> {
    [c.sentryServer, ProjectsPath, c.org, c.project, ReleasesSegment]
  }

  /** The elements CreateDeploy joins, with the deploy's name in place of a release version. */
  function DeployPaths(c: Client, name: string): seq<string> {
    [c.sentryServer, ProjectsPath, c.org, c.project, ReleasesSegment, name, DeploysSegment]
  }

  /** path.Join over the whole server string, then one slash. */
  function ReleaseURL(c: Client): string {
    Join(ReleasePaths(c)) + "/"
  }

  function DeployURL(c: Client, name: string): string {
    Join(DeployPaths(c, name)) + "/"
  }

  /** The headers set on every request: both always, whatever the key. */
  function Headers(apiKey: string): (h: map<string, string>)
    ensures h.Keys == {ContentTypeHeader, AuthorizationHeader}
    ensures h[ContentTypeHeader] == PlainJsonType
    ensures h[AuthorizationHeader] == "Bearer " + apiKey
  {
    map[ContentTypeHeader := PlainJsonType, AuthorizationHeader := "Bearer " + apiKey]
  }

  /** The statuses this client accepts. */
  predicate Accepted(statusCode: int) {
    statusCode == Created || statusCode == AlreadyExists
  }

  /**
   * One call as a function of its inputs: the error it returns, and the request handed to
   * the transport, if one was built. A payload that does not encode is sent as an empty
   * body (None), since the encoder's error is discarded.
   */
  function Post(url: string, encoded: Option<Json>, apiKey: string, env: Env): (Option<Error>, Option<Sent>) {
    if env.newRequestError.Some? then
      (Some(Failure(env.newRequestError.value)), None)
    else
      var sent := Sent("POST", url, encoded, Headers(apiKey));
      match env.transport
      case Fail(e) => (Some(Failure(e)), Some(sent))
      case Ok(resp) =>
        if resp.statusCode != Created && resp.statusCode != AlreadyExists then
          (Some(ApiError(resp.statusCode, resp.body)), Some(sent))
        else (None, Some(sent))
  }

  /**
   * The request itself: build it, set its two headers one at a time, send it, and check
   * the status, returning early at each failure.
   */
  method Send(url: string, encoded: Option<Json>, apiKey: string, env: Env) returns (err: Option<Error>, sent: Option<Sent>)
    ensures (err, sent) == Post(url, encoded, apiKey, env)
  {
    if env.newRequestError.Some? {
      return Some(Failure(env.newRequestError.value)), None;
    }
    var req := new Request("POST", url, encoded);
    req.Set(ContentTypeHeader, PlainJsonType);
    req.Set(AuthorizationHeader, "Bearer " + apiKey);
    sent := Some(req.Snapshot());
    if env.transport.Fail? {
      return Some(Failure(env.transport.cause)), sent;
    }
    var resp := env.transport.value;
    if resp.statusCode != Created && resp.statusCode != AlreadyExists {
      return Some(ApiError(resp.statusCode, resp.body)), sent;
    }
    err := None;
  }

  /** CreateRelease: post the encoded release to the project's releases URL. */
  method CreateRelease(c: Client, encoded: Option<Json>, env: Env) returns (err: Option<Error>, sent: Option<Sent>)
    ensures (err, sent) == Post(ReleaseURL(c), encoded, c.apiKey, env)
  {
    err, sent := Send(ReleaseURL(c), encoded, c.apiKey, env);
  }

  /** CreateDeploy: post the encoded deploy to the deploys URL of the release its name gives. */
  method CreateDeploy(c: Client, name: string, encoded: Option<Json>, env: Env) returns (err: Option<Error>, sent: Option<Sent>)
    ensures (err, sent) == Post(DeployURL(c, name), encoded, c.apiKey, env)
  {
    err, sent := Send(DeployURL(c, name), encoded, c.apiKey, env);
  }

  // ---------------------------------------------------------------------------------------
  // The status rule and the request.

  /**
   * A call succeeds exactly when the request is built and sent and the status is 201 or
   * 208; any other status, 200 included, is an ApiError carrying the status and the body.
   */
  lemma PostSucceeds(url: string, encoded: Option<Json>, apiKey: string, env: Env)
    ensures var (err, _) := Post(url, encoded, apiKey, env);
      && (err.None? <==> env.newRequestError.None? && env.transport.Ok? && Accepted(env.transport.value.statusCode))
      && (env.newRequestError.None? && env.transport.Ok? && !Accepted(env.transport.value.statusCode) ==>
            err == Some(ApiError(env.transport.value.statusCode, env.transport.value.body)))
  {
  }

  /**
   * A request is built unless http.NewRequest fails; it carries the encoded payload and
   * both headers, the Authorization one even for an empty key.
   */
  lemma PostSends(url: string, encoded: Option<Json>, apiKey: string, env: Env)
    ensures var (_, sent) := Post(url, encoded, apiKey, env);
      && (sent.Some? <==> env.newRequestError.None?)
      && (sent.Some? ==>
            && sent.value.verb == "POST" && sent.value.url == url && sent.value.body == encoded
            && sent.value.header[ContentTypeHeader] == PlainJsonType
            && sent.value.header[AuthorizationHeader] == "Bearer " + apiKey)
  {
  }

  /** The errors of the collaborators are returned unwrapped. */
  lemma PostFailures(url: string, encoded: Option<Json>, apiKey: string, env: Env)
    ensures var (err, _) := Post(url, encoded, apiKey, env);
      && (env.newRequestError.Some? ==> err == Some(Failure(env.newRequestError.value)))
      && (env.newRequestError.None? && env.transport.Fail? ==> err == Some(Failure(env.transport.cause)))
  {
  }

  // ---------------------------------------------------------------------------------------
  // URLs.

  /** A segment with a trailing slash has the components of the segment without it. */
  lemma TrailingSlashComponents(x: string)
    requires Plain([x])
    ensures Plain([x + "/"]) && Components([x + "/"]) == Components([x])
  {
    SplitAllSingle(x);
    SplitAllSingle(x + "/");
    assert x + "/" == x + "/" + "";
    SplitAtSlash(x, "");
    ElementsConcat(Split(x), [""]);
    assert Elements([""]) == [] by {
      assert [""][1..] == [];
    }
  }

  /** The projects prefix is three plain components and contributes itself. */
  lemma ProjectsSlashed()
    ensures Plain([ProjectsPath]) && Slashed(Components([ProjectsPath])) == ProjectsPath
  {
    var p := "api" + "/" + "0" + "/" + "projects";
    assert ProjectsPath == p + "/";
    ThreeSlashed("api", "0", "projects");
    TrailingSlashComponents(p);
  }

  /**
   * A server written `scheme//host` yields the components `scheme` and `host`: the empty
   * piece between the two slashes is dropped, and with it one of the slashes.
   */
  lemma SchemeHostSlashed(scheme: string, host: string)
    requires Simple(scheme) && Simple(host)
    ensures Plain([scheme + "//" + host])
    ensures Slashed(Components([scheme + "//" + host])) == scheme + "/" + host + "/"
  {
    var s := scheme + "//" + host;
    SplitSchemeHost(scheme, host);
    SplitAllSingle(s);
    ElementsSchemeHost(scheme, host);
    assert [scheme, host][1..] == [host] && [host][1..] == [];
    assert Slashed([host]) == host + "/" + Slashed([]);
    assert Slashed([scheme, host]) == scheme + "/" + Slashed([host]);
  }

  lemma SplitSchemeHost(scheme: string, host: string)
    requires '/' !in scheme && '/' !in host
    ensures Split(scheme + "//" + host) == [scheme, "", host]
  {
    assert scheme + "//" + host == scheme + "/" + ("" + "/" + host);
    SplitAtSlash(scheme, "" + "/" + host);
    SplitAtSlash("", host);
    SplitWord(scheme);
    SplitWord(host);
  }

  lemma ElementsSchemeHost(scheme: string, host: string)
    requires Simple(scheme) && Simple(host)
    ensures Elements([scheme, "", host]) == [scheme, host]
  {
    var xs := [scheme, "", host];
    assert xs[1..] == ["", host] && xs[1..][1..] == [host] && xs[1..][1..][1..] == [];
    assert Elements([host]) == [host] + Elements([]);
    assert Elements(["", host]) == Elements([host]);
    assert Elements(xs) == [scheme] + Elements(["", host]);
  }

  /**
   * path.Join of plain elements led by a non-empty element that does not start with a
   * slash, then one slash: the components, each followed by a slash.
   */
  lemma JoinedSlashed(elems: seq<string>, path: string)
    requires Plain(elems) && elems != [] && elems[0] != "" && elems[0][0] != '/'
    requires Slashed(Components(elems)) == path
    ensures Join(elems) + "/" == path
  {
    DropLeadingEmptyKeeps(elems);
    JoinPlain(elems);
    SlashedUnsplit(Components(elems));
  }

  /** The release elements' components: the server's, the prefix, the organization's, the project's, `releases`. */
  lemma ReleaseRunSlashed(c: Client, paths: seq<string>)
    requires Plain([c.sentryServer]) && Plain([c.org]) && Plain([c.project])
    requires paths == [c.sentryServer] + [ProjectsPath] + [c.org] + [c.project] + [ReleasesSegment]
    ensures Plain(paths)
    ensures Slashed(Components(paths)) == Slashed(Components([c.sentryServer])) + ProjectsPath
            + Slashed(Components([c.org])) + Slashed(Components([c.project])) + ReleasesSegment + "/"
  {
    ProjectsSlashed();
    SlashedRuns([c.sentryServer], [ProjectsPath], [c.org]);
    ExtendedSlashed([c.sentryServer] + [ProjectsPath] + [c.org],
                    Slashed(Components([c.sentryServer])) + ProjectsPath + Slashed(Components([c.org])),
                    c.project, ReleasesSegment);
  }

  /**
   * For a server, organization and project without `.` or `..` pieces, and a server that
   * starts with neither a slash nor an empty string, the release URL is the server's
   * components, `api/0/projects/`, the organization's and the project's components, each
   * followed by one slash, and `releases/`: every run of slashes in the server, the one
   * after its scheme included, becomes a single slash.
   */
  lemma ReleaseURLPlain(c: Client)
    requires Plain([c.sentryServer]) && Plain([c.org]) && Plain([c.project])
    requires c.sentryServer != "" && c.sentryServer[0] != '/'
    ensures ReleaseURL(c) == Slashed(Components([c.sentryServer])) + ProjectsPath
            + Slashed(Components([c.org])) + Slashed(Components([c.project])) + ReleasesSegment + "/"
  {
    ReleaseRunSlashed(c, ReleasePaths(c));
    JoinedSlashed(ReleasePaths(c), Slashed(Components([c.sentryServer])) + ProjectsPath
                  + Slashed(Components([c.org])) + Slashed(Components([c.project])) + ReleasesSegment + "/");
  }

  lemma SpliceRelease(scheme: string, host: string, org: string, project: string, r: string)
    ensures scheme + "/" + host + "/" + ProjectsPath + (org + "/") + (project + "/") + r + "/" ==
            scheme + "/" + host + "/" + ProjectsPath + org + "/" + project + "/" + r + "/"
  {
  }

  /**
   * With a server written `scheme//host`, one of the scheme's slashes is lost:
   * `https://sentry.io` gives `https:/sentry.io/api/0/projects/{org}/{project}/releases/`.
   */
  lemma ReleaseURLSchemeCollapses(scheme: string, host: string, apiKey: string, org: string, project: string)
    requires Simple(scheme) && Simple(host) && Simple(org) && Simple(project)
    ensures ReleaseURL(NewClient(scheme + "//" + host, apiKey, org, project)) ==
            scheme + "/" + host + "/" + ProjectsPath + org + "/" + project + "/" + ReleasesSegment + "/"
  {
    var c := NewClient(scheme + "//" + host, apiKey, org, project);
    assert c.sentryServer[0] == scheme[0] && scheme[0] in scheme;
    SchemeHostSlashed(scheme, host);
    SimpleSlashed(org);
    SimpleSlashed(project);
    ReleaseURLPlain(c);
    SpliceRelease(scheme, host, org, project, ReleasesSegment);
  }

  lemma DefaultServerParts()
    ensures DefaultServer == "https:" + "//" + "sentry.io"
    ensures Simple("https:") && Simple("sentry.io")
  {
  }

  lemma DefaultPrefix()
    ensures "https:" + "/" + "sentry.io" + "/" + ProjectsPath == "https:/sentry.io/api/0/projects/"
  {
  }

  lemma RegroupDefault(prefix: string, org: string, project: string, r: string)
    ensures prefix + org + "/" + project + "/" + r + "/" == prefix + (org + "/" + project + "/" + r + "/")
  {
  }

  /**
   * A client made with an empty server posts releases to
   * `https:/sentry.io/api/0/projects/{org}/{project}/releases/`, with a single slash
   * after the scheme.
   */
  lemma DefaultReleaseURL(apiKey: string, org: string, project: string)
    requires Simple(org) && Simple(project)
    ensures ReleaseURL(NewClient("", apiKey, org, project)) ==
            "https:/sentry.io/api/0/projects/" + org + "/" + project + "/" + ReleasesSegment + "/"
  {
    DefaultServerParts();
    DefaultPrefix();
    assert NewClient("", apiKey, org, project) == NewClient("https:" + "//" + "sentry.io", apiKey, org, project);
    ReleaseURLSchemeCollapses("https:", "sentry.io", apiKey, org, project);
    RegroupDefault("https:" + "/" + "sentry.io" + "/" + ProjectsPath, org, project, ReleasesSegment);
  }

  /** The deploy elements' components: the release elements', then the name's, then `deploys`. */
  lemma DeployRunSlashed(c: Client, name: string, paths: seq<string>)
    requires Plain([c.sentryServer]) && Plain([c.org]) && Plain([c.project]) && Plain([name])
    requires paths == ReleasePaths(c) + [name] + [DeploysSegment]
    ensures Plain(paths)
    ensures Slashed(Components(paths)) == Slashed(Components([c.sentryServer])) + ProjectsPath
            + Slashed(Components([c.org])) + Slashed(Components([c.project])) + ReleasesSegment + "/"
            + Slashed(Components([name])) + DeploysSegment + "/"
  {
    ReleaseRunSlashed(c, ReleasePaths(c));
    ExtendedSlashed(ReleasePaths(c),
                    Slashed(Components([c.sentryServer])) + ProjectsPath + Slashed(Components([c.org]))
                    + Slashed(Components([c.project])) + ReleasesSegment + "/",
                    name, DeploysSegment);
  }

  /** The deploy URL: the release URL's pieces, then the name's components and `deploys/`. */
  lemma DeployURLPlain(c: Client, name: string)
    requires Plain([c.sentryServer]) && Plain([c.org]) && Plain([c.project]) && Plain([name])
    requires c.sentryServer != "" && c.sentryServer[0] != '/'
    ensures DeployURL(c, name) == Slashed(Components([c.sentryServer])) + ProjectsPath
            + Slashed(Components([c.org])) + Slashed(Components([c.project])) + ReleasesSegment + "/"
            + Slashed(Components([name])) + DeploysSegment + "/"
  {
    assert DeployPaths(c, name) == ReleasePaths(c) + [name] + [DeploysSegment];
    DeployRunSlashed(c, name, DeployPaths(c, name));
    JoinedSlashed(DeployPaths(c, name), Slashed(Components([c.sentryServer])) + ProjectsPath
                  + Slashed(Components([c.org])) + Slashed(Components([c.project])) + ReleasesSegment + "/"
                  + Slashed(Components([name])) + DeploysSegment + "/");
  }
}
