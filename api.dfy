/**
 * The plugin's API client (client.go, release.go, deploy.go): a client over a caller-owned
 * configuration, the request it sends for each call, and the two calls that create a
 * release and a deploy after defaulting their timestamps in place. The current time and
 * the collaborators of the exchange are parameters.
 */
module Api {
  import opened GoTypes
  import opened GoStrings
  import opened GoPath
  import opened UrlBuilder
  import opened JsonEncoding
  import opened Utils
  import opened Http
  import opened Releases
  import opened Deploys

  const DefaultServer: string := "https://app.getsentry.com"
  /** The first segment of both API calls' paths. */
  const OrganizationsPath: string := "api/0/organizations"
  const ReleasesSegment: string := "releases"
  const DeploysSegment: string := "deploys"
  const ReleaseFailed: string := "failed to create new release"
  const DeployFailed: string := "failed to create new deploy"

  /** The caller's configuration, which NewClient updates in place. */
  class ClientConfig {
    var server: string
    var organization: string
    var token: string

    constructor(server: string, organization: string, token: string)
      ensures this.server == server && this.organization == organization && this.token == token
    {
      this.server := server;
      this.organization := organization;
      this.token := token;
    }
  }

  /**
   * A client over `config`: an empty server in the caller's configuration is replaced by
   * the default, any other is kept, and nothing else in the configuration changes.
   */
  method NewClient(config: ClientConfig) returns (c: Client)
    modifies config
    ensures fresh(c) && c.config == config
    ensures config.server == DefaultString(old(config.server), DefaultServer)
    ensures config.organization == old(config.organization) && config.token == old(config.token)
  {
    if config.server == "" {
      config.server := DefaultServer;
    }
    c := new Client(config);
  }

  /** The segments buildURL is given for creating a release. */
  function ReleasePaths(organization: string): seq<string> {
    [OrganizationsPath, organization, ReleasesSegment]
  }

  /** The segments buildURL is given for creating a deploy of `version`. */
  function DeployPaths(organization: string, version: string): seq<string> {
    [OrganizationsPath, organization, ReleasesSegment, version, DeploysSegment]
  }

  /** `t`, or `now` when `t` is the zero time. */
  function DefaultTime(t: Time, now: Time): (r: Time)
    ensures r == t || r == now
    ensures r.IsZero() <==> t.IsZero() && now.IsZero()
    ensures !t.IsZero() ==> r == t
  {
    if t.IsZero() then now else t
  }

  /**
   * NewDeploy's two defaulting steps, in order: the start defaults to now, then the finish
   * defaults to the start as just defaulted.
   */
  function DeployDates(started: Time, finished: Time, now: Time): (Time, Time) {
    var s := DefaultTime(started, now);
    (s, DefaultTime(finished, s))
  }

  class Client {
    const config: ClientConfig

    constructor(config: ClientConfig)
      ensures this.config == config
    {
      this.config := config;
    }

    /**
     * client.request: encode the payload, build the request, set its headers one at a time,
     * send it and read the response, returning early at each failure. The reply and the
     * request handed to the transport are what Exchange gives.
     */
    method Request(verb: string, url: string, payload: Option<GoValue>, env: Env) returns (reply: Reply, sent: Option<Sent>)
      ensures (reply, sent) == Exchange(verb, url, payload, config.token, env)
    {
      var body: Option<Json> := None;
      if payload.Some? {
        if env.encodeError.Some? {
          return Reply(NoOutput, Some(Wrapped(EncodeFailed, Cause(env.encodeError.value)))), None;
        }
        body := Some(Marshal(payload.value));
      }
      if env.newRequestError.Some? {
        return Reply(NoOutput, Some(Wrapped(CreateFailed, Cause(env.newRequestError.value)))), None;
      }
      var req := new Request(verb, url, body);
      if body.Some? {
        req.Set(ContentTypeHeader, JsonContentType);
      }
      if config.token != "" {
        req.Set(AuthorizationHeader, "Bearer " + config.token);
      }
      sent := Some(req.Snapshot());
      match env.transport {
        case Fail(e) =>
          reply := Reply(NoOutput, Some(Wrapped(SendFailed, Cause(e))));
        case Ok(res) =>
          reply := Receive(res);
      }
    }

    /**
     * NewRelease: a zero release date becomes `now` (no other field of `details` changes),
     * then the release is posted to the organization's releases URL and a failure is
     * wrapped, with the output passed through either way.
     */
    method NewRelease(details: ReleaseDetails, now: Time, env: Env) returns (reply: Reply, sent: Option<Sent>)
      modifies details
      ensures details.dateReleased == DefaultTime(old(details.dateReleased), now)
      ensures details.version == old(details.version) && details.ref == old(details.ref)
      ensures details.url == old(details.url) && details.projects == old(details.projects)
      ensures details.commits == old(details.commits) && details.refs == old(details.refs)
      ensures var (r, s) := Exchange("POST", BuildURL(config.server, ReleasePaths(config.organization)),
                                     Some(details.Value()), config.token, env);
              reply == WrapReply(r, ReleaseFailed) && sent == s
    {
      if details.dateReleased.IsZero() {
        details.dateReleased := now;
      }
      var url := BuildURL(config.server, ReleasePaths(config.organization));
      var result;
      result, sent := Request("POST", url, Some(details.Value()), env);
      reply := result;
      if result.err.Some? {
        reply := Reply(result.output, Some(Wrapped(ReleaseFailed, result.err.value)));
      }
    }

    /**
     * NewDeploy: a zero start becomes `now`, then a zero finish becomes the start (no other
     * field of `details` changes); the deploy is posted to its release's deploys URL and a
     * failure is wrapped, with the output passed through either way.
     */
    method NewDeploy(details: DeployDetails, now: Time, env: Env) returns (reply: Reply, sent: Option<Sent>)
      modifies details
      ensures (details.dateStarted, details.dateFinished) ==
              DeployDates(old(details.dateStarted), old(details.dateFinished), now)
      ensures details.version == old(details.version) && details.environment == old(details.environment)
      ensures details.name == old(details.name) && details.url == old(details.url)
      ensures var (r, s) := Exchange("POST", BuildURL(config.server, DeployPaths(config.organization, details.version)),
                                     Some(details.Value()), config.token, env);
              reply == WrapReply(r, DeployFailed) && sent == s
    {
      if details.dateStarted.IsZero() {
        details.dateStarted := now;
      }
      if details.dateFinished.IsZero() {
        details.dateFinished := details.dateStarted;
      }
      var url := BuildURL(config.server, DeployPaths(config.organization, details.version));
      var result;
      result, sent := Request("POST", url, Some(details.Value()), env);
      reply := result;
      if result.err.Some? {
        reply := Reply(result.output, Some(Wrapped(DeployFailed, result.err.value)));
      }
    }
  }

  // ---------------------------------------------------------------------------------------
  // Timestamps.

  /** With both dates unset, the deploy starts and finishes at `now`. */
  lemma DeployDatesBothUnset(now: Time)
    ensures DeployDates(ZeroTime, ZeroTime, now) == (now, now)
  {
  }

  /**
   * A set start is kept, a set finish is kept, and an unset finish becomes the (defaulted)
   * start; with a non-zero `now`, neither date is left zero.
   */
  lemma DeployDatesDefaults(started: Time, finished: Time, now: Time)
    ensures var (s, f) := DeployDates(started, finished, now);
      && (!started.IsZero() ==> s == started)
      && (started.IsZero() ==> s == now)
      && (!finished.IsZero() ==> f == finished)
      && (finished.IsZero() ==> f == s)
      && (!now.IsZero() ==> !s.IsZero() && !f.IsZero())
  {
  }

  /** Nothing orders the dates: a finish set before the start is sent unchanged. */
  lemma DeployDatesUnordered()
    ensures var (s, f) := DeployDates(Time(5), Time(3), Time(9));
      s == Time(5) && f == Time(3) && f.instant < s.instant
  {
  }

  /** Defaulting twice with the same `now` changes nothing more. */
  lemma DeployDatesIdempotent(started: Time, finished: Time, now: Time)
    ensures var (s, f) := DeployDates(started, finished, now);
      DeployDates(s, f, now) == (s, f)
  {
  }

  // ---------------------------------------------------------------------------------------
  // URLs.

  /** The organizations prefix is three plain components, so it contributes itself and a slash. */
  lemma OrganizationsSlashed()
    ensures Plain([OrganizationsPath]) && Slashed(Components([OrganizationsPath])) == OrganizationsPath + "/"
  {
    assert OrganizationsPath == "api" + "/" + "0" + "/" + "organizations";
    ThreeSlashed("api", "0", "organizations");
  }

  /** The release path's components: the prefix, the organization's components, `releases`. */
  lemma ReleaseComponents(organization: string)
    requires Plain([organization])
    ensures Plain(ReleasePaths(organization))
    ensures Slashed(Components(ReleasePaths(organization))) ==
            OrganizationsPath + "/" + Slashed(Components([organization])) + ReleasesSegment + "/"
  {
    ReleaseRunSlashed(organization, ReleasePaths(organization));
  }

  lemma ReleaseRunSlashed(organization: string, paths: seq<string>)
    requires Plain([organization]) && paths == [OrganizationsPath] + [organization] + [ReleasesSegment]
    ensures Plain(paths)
    ensures Slashed(Components(paths)) == OrganizationsPath + "/" + Slashed(Components([organization])) + ReleasesSegment + "/"
  {
    OrganizationsSlashed();
    FramedSlashed(OrganizationsPath, [organization], ReleasesSegment);
  }

  lemma RegroupFive(t: string, s: string, a: string, b: string, c: string, d: string, e: string)
    ensures t + s + a + b + c + d + e == t + s + (a + b + c + d + e)
  {
  }

  lemma RegroupEight(t: string, s: string, a: string, b: string, c: string, d: string, e: string,
                     f: string, g: string, h: string)
    ensures t + s + a + b + c + d + e + f + g + h == t + s + (a + b + c + d + e + f + g + h)
  {
  }

  lemma SpliceRelease(t: string, o: string, org: string, r: string)
    ensures t + "/" + o + "/" + (org + "/") + r + "/" == t + "/" + o + "/" + org + "/" + r + "/"
  {
  }

  lemma SpliceDeploy(t: string, o: string, org: string, r: string, v: string, d: string)
    ensures t + "/" + o + "/" + (org + "/") + r + "/" + (v + "/") + d + "/" ==
            t + "/" + o + "/" + org + "/" + r + "/" + v + "/" + d + "/"
  {
  }

  /**
   * The release URL: the server without its trailing slashes, then
   * `/api/0/organizations/`, the organization's path components each followed by a slash,
   * and `releases/`. An organization made only of slashes adds nothing.
   */
  lemma ReleaseURL(server: string, organization: string)
    requires Plain([organization])
    ensures BuildURL(server, ReleasePaths(organization)) ==
            TrimRightSlashes(server) + "/" + OrganizationsPath + "/" + Slashed(Components([organization]))
            + ReleasesSegment + "/"
  {
    var org := Slashed(Components([organization]));
    ReleaseComponents(organization);
    PlainURL(server, ReleasePaths(organization), OrganizationsPath + "/" + org + ReleasesSegment + "/");
    RegroupFive(TrimRightSlashes(server), "/", OrganizationsPath, "/", org, ReleasesSegment, "/");
  }

  /** For a one-segment organization: `{server}/api/0/organizations/{org}/releases/`. */
  lemma ReleaseURLSimple(server: string, organization: string)
    requires Simple(organization)
    ensures BuildURL(server, ReleasePaths(organization)) ==
            TrimRightSlashes(server) + "/" + OrganizationsPath + "/" + organization + "/" + ReleasesSegment + "/"
  {
    SimpleSlashed(organization);
    ReleaseURL(server, organization);
    SpliceRelease(TrimRightSlashes(server), OrganizationsPath, organization, ReleasesSegment);
  }

  /** An empty organization drops out of the path. */
  lemma ReleaseURLNoOrganization(server: string)
    ensures BuildURL(server, ReleasePaths("")) ==
            TrimRightSlashes(server) + "/" + OrganizationsPath + "/" + ReleasesSegment + "/"
  {
    EmptySlashed();
    ReleaseURL(server, "");
    DropEmptyPiece(TrimRightSlashes(server), OrganizationsPath, Slashed(Components([""])), ReleasesSegment);
  }

  lemma DropEmptyPiece(t: string, o: string, e: string, r: string)
    requires e == ""
    ensures t + "/" + o + "/" + e + r + "/" == t + "/" + o + "/" + r + "/"
  {
  }

  /** The deploy path's components: the release path's, the version's, then `deploys`. */
  lemma DeployRunSlashed(organization: string, version: string, paths: seq<string>)
    requires Plain([organization]) && Plain([version])
    requires paths == ReleasePaths(organization) + [version] + [DeploysSegment]
    ensures Plain(paths)
    ensures Slashed(Components(paths)) == OrganizationsPath + "/" + Slashed(Components([organization]))
            + ReleasesSegment + "/" + Slashed(Components([version])) + DeploysSegment + "/"
  {
    ReleaseComponents(organization);
    DeploysSimple();
    var path := OrganizationsPath + "/" + Slashed(Components([organization])) + ReleasesSegment + "/";
    ExtendedSlashed(ReleasePaths(organization), path, version, DeploysSegment);
  }

  lemma DeploysSimple()
    ensures Simple(DeploysSegment)
  {
  }

  /**
   * The deploy URL: as the release URL, then the version's path components each followed
   * by a slash, and `deploys/`.
   */
  lemma DeployURL(server: string, organization: string, version: string)
    requires Plain([organization]) && Plain([version])
    ensures BuildURL(server, DeployPaths(organization, version)) ==
            TrimRightSlashes(server) + "/" + OrganizationsPath + "/" + Slashed(Components([organization]))
            + ReleasesSegment + "/" + Slashed(Components([version])) + DeploysSegment + "/"
  {
    var org, ver := Slashed(Components([organization])), Slashed(Components([version]));
    DeployRunSlashed(organization, version, DeployPaths(organization, version));
    PlainURL(server, DeployPaths(organization, version),
             OrganizationsPath + "/" + org + ReleasesSegment + "/" + ver + DeploysSegment + "/");
    RegroupEight(TrimRightSlashes(server), "/", OrganizationsPath, "/", org, ReleasesSegment, "/", ver, DeploysSegment, "/");
  }

  /** For one-segment organization and version: `{server}/api/0/organizations/{org}/releases/{version}/deploys/`. */
  lemma DeployURLSimple(server: string, organization: string, version: string)
    requires Simple(organization) && Simple(version)
    ensures BuildURL(server, DeployPaths(organization, version)) ==
            TrimRightSlashes(server) + "/" + OrganizationsPath + "/" + organization + "/" + ReleasesSegment + "/"
            + version + "/" + DeploysSegment + "/"
  {
    SimpleSlashed(organization);
    SimpleSlashed(version);
    DeployURL(server, organization, version);
    SpliceDeploy(TrimRightSlashes(server), OrganizationsPath, organization, ReleasesSegment, version, DeploysSegment);
  }
}
