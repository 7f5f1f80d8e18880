# drone-sentry: a Dafny model of the release and deploy client

drone-sentry is a Drone CI plugin. It creates a release on a Sentry server and records deploys of that release. This project models the plugin's client and proves properties of the model:

- **URL building.** `client.buildURL` joins the configured server with path segments using Go's `path.Join`. It trims slashes from the server's right end and from the path's left end, and always ends the URL with one slash.
- **One HTTP exchange.** `client.request` can fail at the encoder, at `http.NewRequest` or at the transport. Otherwise it sets the `Content-Type` and `Authorization` headers, reads the response body as JSON or as text depending on the response's Content-Type, and fails on a status of 400 or more while still returning what it read.
- **Release and deploy calls.** `NewRelease` and `NewDeploy` fill unset timestamps in place with the current time, post their details to the organization's release or deploy URL, and wrap any error.
- **Wire shapes.** The `json` tags of `Commit`, `Project`, `Ref`, `ReleaseDetails` and `DeployDetails` decide which keys are written: renames, `-` exclusion, and `omitempty` on strings and slices. A `time.Time` field is never empty to encoding/json, so those fields are always written.
- **Utilities.** `DefaultString`, and `StripEmptyStrings`, the loop that drops empty strings.
- **Legacy client** (`sentry/client.go`). It has its own server default. It builds URLs with `path.Join` over the whole server string, so `https://host` becomes `https:/host`. It sends fixed headers, and it succeeds only on status 201 (Created) or 208 (Already Exists).

The modules:

| module | file | contents |
|---|---|---|
| GoTypes | go_types.dfy | Option, Attempt (a Go `(value, error)` pair), GoSlice (nil or a sequence), Time with IsZero |
| GoStrings | go_strings.dfy | `strings.Contains`, `strings.TrimLeft`/`TrimRight` with the cut set "/" |
| GoPath | go_path.dfy | `path.Clean` and `path.Join`, written from Go's documented rules |
| UrlBuilder | url_builder.dfy | `client.buildURL` and what it produces |
| JsonEncoding | json_encoding.dfy | struct tags, `omitempty`, and a marshaller from Go values to JSON values |
| Releases, Deploys | release.dfy, deploy.dfy | the payload structs and the JSON objects written for them |
| Utils | utils.dfy | `DefaultString`, `StripEmptyStrings` |
| Http | http.dfy | `client.request`: a `Request` class whose headers are set one at a time, the response branch, wrapped errors |
| Api | api.dfy | `ClientConfig`, `NewClient`, the `Client` class with `Request`, `NewRelease` and `NewDeploy` |
| Legacy | legacy.dfy | `sentry/client.go` |

The imperative parts keep the source's form:
- `NewClient` overwrites the caller's `ClientConfig.server`.
- `NewRelease` and `NewDeploy` update the details objects in place and in the source's order.
- `Client.Request` and `Legacy.Send` build a `Request` object and set its headers step by step, returning early at each failure.
- `StripEmptyStrings` is a loop that appends to its result.

Each imperative method is tied to a pure function by its contract (`Exchange`, `Post`, `DefaultTime`, `DeployDates`, `NonEmpty`), and the properties are proved about those functions.

The collaborators are inputs:
- An `Http.Env` gives the encoder's verdict, `http.NewRequest`'s verdict and what the transport returns.
- An `Http.Response` gives the status code and text, the Content-Type, and the results of decoding the body as JSON and of reading it as text.
- The current time is a parameter `now`.

## Model

| member | source | states |
|---|---|---|
| Api.NewClient | client.go:27-35 | the caller's config now holds the default server `https://app.getsentry.com` exactly when its server was empty, and otherwise keeps it; organization and token unchanged; the client refers to that same config |
| Utils.DefaultString | utils.go:3-9 | the result is the default exactly when the value is empty or equals it; a non-empty value is returned unchanged |
| Utils.DefaultStringNonEmpty | utils.go:3-9 | with a non-empty default the result is never empty |
| Utils.DefaultStringIdempotent | utils.go:3-9 | defaulting twice is defaulting once |
| Utils.NonEmpty | utils.go:17-21 | the filter is no longer than its input and holds no empty string |
| Utils.StripEmptyStrings | utils.go:11-24 | the result is never nil (a nil input gives an empty slice) and holds the input's non-empty strings in order (the filter NonEmpty) |
| Utils.NonEmptyMultiplicity | utils.go:17-21 | every non-empty string occurs in the result exactly as often as in the input; the empty string never does |
| Utils.NonEmptyConcat | utils.go:17-21 | filtering a concatenation concatenates the filtered parts, so order is kept |
| Utils.NonEmptySingle | utils.go:18-20 | one string is kept exactly when it is non-empty |
| Utils.NonEmptyKeeps | utils.go:17-21 | a slice without empty strings comes back unchanged |
| Utils.NonEmptyIdempotent | utils.go:11-24 | stripping twice is stripping once |
| GoStrings.TrimRightSlashes | client.go:95 | the result is a prefix of the server that does not end in '/', and only slashes were cut |
| GoStrings.TrimLeftSlashes | client.go:95 | the result is a suffix that does not start with '/', and only slashes were cut |
| GoStrings.TrimRightIdempotent | client.go:95 | trimming twice is trimming once |
| GoStrings.ContainsAt | client.go:74 | `strings.Contains` holds exactly when the substring occurs at some index |
| GoPath.UnsplitSplit | client.go:95 | splitting at '/' and joining with '/' gives the string back |
| GoPath.SplitUnsplit | client.go:95 | joining slash-free pieces and splitting gives the pieces back |
| GoPath.CleanShape | client.go:95 | `path.Clean` never returns "", keeps a leading slash exactly when the input had one, never has two slashes in a row, and ends in '/' only as the root "/" |
| GoPath.CleanPlain | client.go:95 | without `.` or `..`, Clean keeps the root and joins the non-empty pieces with single slashes |
| GoPath.ResolveWithoutDotDot | client.go:95 | without `..`, the lexical resolution keeps every name |
| GoPath.JoinPlain | client.go:95 | `path.Join` of plain elements skips leading empty elements, gives "" when all are empty, and otherwise joins all non-empty pieces with single slashes |
| UrlBuilder.BuildURLShape | client.go:94-96 | the URL is the server with all trailing slashes cut, one '/', then a path part that is empty or does not start with '/', ends in '/' and has no double slash; the URL always ends in '/' |
| UrlBuilder.BuildURLPlain | client.go:95 | for plain segments, the path part is each non-empty piece of every segment followed by one '/' |
| UrlBuilder.BuildURLSlashEnded | client.go:95 | segments "a", "b/", "c" give server + "/a/b/c/" |
| UrlBuilder.BuildURLEmptySegment | client.go:95 | an empty segment disappears: "a", "", "c" give server + "/a/c/" |
| UrlBuilder.BuildURLFixpoint | client.go:95 | a built URL with no further segments is itself, and cutting its trailing slashes and adding one gives it back |
| UrlBuilder.BuildURLNoSegments | client.go:95 | with no segments the URL is the trimmed server and one '/' |
| UrlBuilder.BuildURLAppend | client.go:95 | building from a built URL with more plain segments is building with all the segments at once |
| UrlBuilder.BuildURLConcatenated | client.go:95 | the path part of two runs of plain segments is the concatenation of their pieces |
| Api.ReleaseURL | release.go:46 | the release URL is trimmed server + "/api/0/organizations/" + the organization's pieces + "releases/" |
| Api.ReleaseURLSimple | release.go:46 | for an organization without slashes, `{server}/api/0/organizations/{org}/releases/` |
| Api.ReleaseURLNoOrganization | release.go:46 | an empty organization drops out: `{server}/api/0/organizations/releases/` |
| Api.DeployURL | deploy.go:30 | the deploy URL is the release URL + the version's pieces + "deploys/" |
| Api.DeployURLSimple | deploy.go:30 | `{server}/api/0/organizations/{org}/releases/{version}/deploys/` |
| Http.Request.Set | client.go:60-66 | the header now maps the key to the value; no other header changes |
| Http.Headers | client.go:60-66 | `Content-Type: application/json; charset=utf8` is set exactly when there is a body, `Authorization: Bearer <token>` exactly when the token is non-empty, and no other header |
| Http.Receive | client.go:73-91 | a JSON Content-Type is decoded, any other is read as text; a failed read gives nil output and the matching wrapped error; after a read, status ≥ 400 gives the output with a status error and status < 400 the output with no error |
| Http.ExchangeEncodeFailure | client.go:43-49 | a payload the encoder rejects gives nil output and the wrapped encode error, and no request is built |
| Http.ExchangeSends | client.go:41-66 | a request is built exactly when encoding (if there is a payload) and `http.NewRequest` succeed; it has the given method and URL, the payload's encoding as body, and the headers Headers gives |
| Http.ExchangeSucceeds | client.go:41-92 | the call has no error exactly when a request was sent, the response was read and the status is below 400 |
| Http.ExchangeFailureOutput | client.go:48-91 | a failed call returns nil output, except when only the status failed, where it returns what was read beside the status error |
| Http.WrapReply | release.go:47-51 | errors.Wrap keeps the output, keeps a nil error nil, and wraps a non-nil one with the message |
| Http.MessageKeepsCause | release.go:48 | a wrapped error's text is the message, ": ", and the cause's text |
| Api.Client.Request | client.go:41-92 | the imperative request returns exactly what Exchange gives for the client's token, and sends exactly the request Exchange describes |
| Api.DefaultTime | release.go:41-43 | a set time is kept; an unset one becomes now; the result is unset only if both are |
| Api.Client.NewRelease | release.go:40-52 | dateReleased becomes now only when it was zero; no other field changes; the details, with the defaulted date, are posted to the release URL; the reply is the exchange's reply with its error wrapped as "failed to create new release" |
| Api.DeployDatesDefaults | deploy.go:21-27 | a set start is kept and an unset start becomes now; a set finish is kept and an unset finish becomes the already-defaulted start; with a set now neither stays unset |
| Api.DeployDatesBothUnset | deploy.go:21-27 | when both are unset, both become now |
| Api.DeployDatesUnordered | deploy.go:25-27 | a set finish earlier than the start is left as it is: there is no ordering check |
| Api.DeployDatesIdempotent | deploy.go:21-27 | defaulting already-defaulted dates changes nothing |
| Api.Client.NewDeploy | deploy.go:20-36 | dateStarted and then dateFinished are defaulted in that order (DeployDates); no other field changes; the details are posted to the deploy URL for their version; the error is wrapped as "failed to create new deploy" |
| JsonEncoding.IndexOfSpec | release.go:11-37 | the tag's name ends at the first comma, or at the end of the tag |
| JsonEncoding.TagName | release.go:11 | a tag that is a bare name writes the field under that name, always |
| JsonEncoding.TagNameOmitEmpty | release.go:12-16 | a tag `name,omitempty` writes the field under that name and omits it when empty |
| JsonEncoding.StringField | release.go:12-15 | a string field is written under its key unless it is `omitempty` and "" |
| JsonEncoding.TimeField | release.go:16 | a time.Time field is always written, `omitempty` or not |
| JsonEncoding.SliceField | release.go:34-37 | a slice field is written unless it is `omitempty` and nil or empty |
| JsonEncoding.SkippedField | deploy.go:11 | a field tagged "-" adds nothing |
| JsonEncoding.MarshalSlice | release.go:34 | a nil slice is written as null, any other as an array of its elements' encodings, in order |
| JsonEncoding.MarshalFieldsMembers | release.go:10-38 | with distinct keys, a key is in the object exactly when some field is written under it, and holds that field's encoding |
| Releases.CommitTags | release.go:11-14 | Commit's tags: SHA goes under "id" always; repository, message and author_name are `omitempty` |
| Releases.CommitAuthorTags | release.go:15-16 | author_email and timestamp are `omitempty` |
| Releases.CommitWire | release.go:10-17 | a commit is an object with "id" and "timestamp" always, and repository, message, author_name and author_email exactly when non-empty, each holding its field |
| Releases.ProjectTags | release.go:20-21 | name and slug are bare names |
| Releases.ProjectWire | release.go:19-22 | a project is exactly {"name", "slug"} with its two strings |
| Releases.RefTags | release.go:25-27 | commit and repository are bare; previousCommit is `omitempty` |
| Releases.RefWire | release.go:24-28 | a ref has "commit" and "repository" always and "previousCommit" exactly when non-empty |
| Releases.ReleaseTags | release.go:31-35 | version and projects are bare; ref, url and dateReleased are `omitempty` |
| Releases.ReleaseListTags | release.go:36-37 | commits and refs are `omitempty` |
| Releases.ReleaseWire | release.go:30-38 | the release object has version, projects and dateReleased always, ref and url exactly when non-empty, commits and refs exactly when non-empty slices, each with its field's encoding; nil projects are written as null |
| Releases.ProjectsWire | release.go:34 | a non-nil projects slice is an array of {"name", "slug"} objects, in order |
| Deploys.DeployTags | deploy.go:11-15 | Version is tagged "-"; environment is bare; name and url are `omitempty` |
| Deploys.DeployDateTags | deploy.go:16-17 | dateStarted and dateFinished are `omitempty` |
| Deploys.DeployWire | deploy.go:10-18 | the deploy object has environment, dateStarted and dateFinished always, name and url exactly when non-empty, and never the version |
| Legacy.NewClient | sentry/client.go:23-34 | an empty server becomes `https://sentry.io` and any other is kept; key, organization and project are placed in their fields |
| Legacy.Headers | sentry/client.go:47-48 | exactly two headers: `Content-Type: application/json`, and `Authorization: Bearer ` + key, even for an empty key |
| Legacy.Send | sentry/client.go:41-62 | the imperative send gives exactly the error and request Post describes |
| Legacy.CreateRelease | sentry/client.go:36-63 | posts the encoded release to the release URL with the client's key: the result is Post's |
| Legacy.CreateDeploy | sentry/client.go:65-91 | posts the encoded deploy to the deploy URL for the deploy's name: the result is Post's |
| Legacy.PostSucceeds | sentry/client.go:56-60 | no error exactly when the request was built, sent, and answered 201 or 208; any other status gives an Error carrying the status code and the body text |
| Legacy.PostSends | sentry/client.go:41-48 | a request is built exactly when `http.NewRequest` succeeds; it is a POST to the URL with the encoded body and the fixed headers |
| Legacy.PostFailures | sentry/client.go:44-54 | a failure of `http.NewRequest` or of the transport is returned as it is |
| Legacy.ReleaseURLPlain | sentry/client.go:42 | the release URL is the pieces of the server, "api/0/projects/", the organization's and the project's pieces, and "releases/", each piece followed by one '/' |
| Legacy.ReleaseURLSchemeCollapses | sentry/client.go:42 | for a server `scheme://host` the URL is `scheme:/host/api/0/projects/{org}/{project}/releases/`: the double slash after the scheme collapses |
| Legacy.DefaultReleaseURL | sentry/client.go:24-42 | with the default server the URL is `https:/sentry.io/api/0/projects/{org}/{project}/releases/` |
| Legacy.DeployURLPlain | sentry/client.go:71 | the deploy URL is the release URL followed by the name's pieces and "deploys/" |

## Left out

- main.go is not part of this model. It defines the command-line flags and environment variables, runs the checks before each command, and prints results. The "at least one project" rule there rests on `StripEmptyStrings`, which is modelled.
- `net/http` is left out: request construction, `http.DefaultClient.Do` and reading the body. Their verdicts are inputs, as an `Env` and a `Response`.
- `time.Now().UTC()` is left out. The current time is a parameter, and the UTC conversion is not modelled. Time is an abstract instant whose zero value is the unset time.
- The JSON byte layout is not modelled: indentation, the trailing newline the encoder writes, and the generic decoder. Payloads are values mapped to `Json` trees, and a decoded response is an input.
- The encoder's own failures are not derived from the value. Whether encoding fails is an input.
- `log.Println` output is left out.
- Error text is modelled only as `Http.Message`, which renders a wrapped error as its message, ": " and the cause.
- The `Release`, `Deploy` and `Error` types of `sentry/client.go` are not part of this model. The legacy calls take the encoded body as an input and the deploy's `Name` as a parameter. `Error` is its (status code, body) pair.
- `Legacy.CreateRelease`: `json.Marshal`'s error is discarded by the source. An encoding that failed is modelled as an absent body, which the source would send empty.
- `Legacy.PostSucceeds`: the source ignores `ioutil.ReadAll`'s error on the error path. The body text in the error is an input.
- `Api.Client.Request`: with no payload, the source passes a nil `*bytes.Buffer` that is wrapped in a non-nil `io.Reader`. That is a net/http detail. The model sends no body, and every caller passes a payload.
- `JsonEncoding.ParseTag` covers the tag shapes this code uses: a name, `-`, and a name followed by options. A quoted name, the `string` option and tag keys other than `json` are not modelled.
- `UrlBuilder.BuildURLPlain` and the URL lemmas built on it are stated for plain segments, that is, segments without `.` or `..` pieces. With `.` or `..`, `path.Clean` is modelled (GoPath.Clean) and BuildURLShape still holds, but the exact URL is not spelled out.
- `Api.ReleaseURL` and `Api.DeployURL` are stated for an organization and a version without `.` or `..` pieces, for the same reason.
- `Legacy.ReleaseURLPlain` and `Legacy.DeployURLPlain` need a server that is non-empty, does not start with '/' and has no `.` or `..` pieces.
- A validation step before the call, and an ordering check that the finish time is not before the start, are not in the code, so the model has neither. Api.DeployDatesUnordered shows that an earlier finish is kept.
