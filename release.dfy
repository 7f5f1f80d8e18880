/**
 * The payload of the create-release call (release.go): the Commit, Project, Ref and
 * ReleaseDetails structs and the JSON object encoding/json writes for each, following
 * their `json` tags.
 */
module Releases {
  import opened GoTypes
  import opened JsonEncoding

  datatype Commit = Commit(
    sha: string,
    repository: string,
    message: string,
    authorName: string,
    authorEmail: string,
    timestamp: Time)

  datatype Project = Project(name: string, slug: string)

  datatype Ref = Ref(commitSha: string, repository: string, previousCommitSha: string)

  function CommitValue(c: Commit): GoValue {
    GoStruct([
      Field(Key("id", false), GoString(c.sha)),
      Field(Key("repository", true), GoString(c.repository)),
      Field(Key("message", true), GoString(c.message)),
      Field(Key("author_name", true), GoString(c.authorName)),
      Field(Key("author_email", true), GoString(c.authorEmail)),
      Field(Key("timestamp", true), GoTime(c.timestamp))
    ])
  }

  /** The rules CommitValue gives its fields are what Commit's tags say. */
  lemma CommitTags()
    ensures ParseTag("SHA", "id") == Key("id", false)
    ensures ParseTag("Repository", "repository" + OmitEmpty) == Key("repository", true)
    ensures ParseTag("Message", "message" + OmitEmpty) == Key("message", true)
    ensures ParseTag("AuthorName", "author_name" + OmitEmpty) == Key("author_name", true)
  {
    TagName("SHA", "id");
    TagNameOmitEmpty("Repository", "repository", "repository" + OmitEmpty);
    TagNameOmitEmpty("Message", "message", "message" + OmitEmpty);
    TagNameOmitEmpty("AuthorName", "author_name", "author_name" + OmitEmpty);
  }

  lemma CommitAuthorTags()
    ensures ParseTag("AuthorEmail", "author_email" + OmitEmpty) == Key("author_email", true)
    ensures ParseTag("Timestamp", "timestamp" + OmitEmpty) == Key("timestamp", true)
  {
    TagNameOmitEmpty("AuthorEmail", "author_email", "author_email" + OmitEmpty);
    TagNameOmitEmpty("Timestamp", "timestamp", "timestamp" + OmitEmpty);
  }

  /** The commit's members as MarshalFields assembles them, last field first. */
  function CommitMembers(c: Commit): map<string, Json> {
    PutString(PutString(PutString(PutString(map["timestamp" := JTime(c.timestamp)],
      "author_email", c.authorEmail), "author_name", c.authorName), "message", c.message),
      "repository", c.repository)["id" := JString(c.sha)]
  }

  lemma CommitChain(c: Commit)
    ensures Marshal(CommitValue(c)) == JObject(CommitMembers(c))
  {
    var v := CommitValue(c);
    LastField(v);
    TimeField(v, 5, "timestamp", true, c.timestamp);
    StringField(v, 4, "author_email", true, c.authorEmail);
    StringField(v, 3, "author_name", true, c.authorName);
    StringField(v, 2, "message", true, c.message);
    StringField(v, 1, "repository", true, c.repository);
    StringField(v, 0, "id", false, c.sha);
  }

  /** A commit is written under the keys CommitWire names, each with its field's encoding. */
  predicate CommitShape(c: Commit, m: map<string, Json>) {
    && m.Keys == {"id", "timestamp"} + Optional("repository", c.repository)
         + Optional("message", c.message) + Optional("author_name", c.authorName)
         + Optional("author_email", c.authorEmail)
    && m["id"] == JString(c.sha)
    && m["timestamp"] == JTime(c.timestamp)
    && (c.repository != "" ==> m["repository"] == JString(c.repository))
    && (c.message != "" ==> m["message"] == JString(c.message))
    && (c.authorName != "" ==> m["author_name"] == JString(c.authorName))
    && (c.authorEmail != "" ==> m["author_email"] == JString(c.authorEmail))
  }

  lemma CommitMembersShape(c: Commit)
    ensures CommitShape(c, CommitMembers(c))
  {
  }

  /**
   * A commit is written with its SHA under "id" and its timestamp always (a time.Time is
   * never empty); repository, message and the author's name and e-mail only when non-empty.
   */
  lemma CommitWire(c: Commit)
    ensures Marshal(CommitValue(c)).JObject?
    ensures CommitShape(c, Marshal(CommitValue(c)).members)
  {
    CommitChain(c);
    CommitMembersShape(c);
  }

  function ProjectValue(p: Project): GoValue {
    GoStruct([
      Field(Key("name", false), GoString(p.name)),
      Field(Key("slug", false), GoString(p.slug))
    ])
  }

  lemma ProjectTags()
    ensures ParseTag("Name", "name") == Key("name", false)
    ensures ParseTag("Slug", "slug") == Key("slug", false)
  {
    TagName("Name", "name");
    TagName("Slug", "slug");
  }

  /** A project is written with both its name and its slug, empty or not. */
  lemma ProjectWire(p: Project)
    ensures Marshal(ProjectValue(p)) == JObject(map["name" := JString(p.name), "slug" := JString(p.slug)])
  {
    var v := ProjectValue(p);
    LastField(v);
    StringField(v, 1, "slug", false, p.slug);
    StringField(v, 0, "name", false, p.name);
  }

  function RefValue(r: Ref): GoValue {
    GoStruct([
      Field(Key("commit", false), GoString(r.commitSha)),
      Field(Key("repository", false), GoString(r.repository)),
      Field(Key("previousCommit", true), GoString(r.previousCommitSha))
    ])
  }

  lemma RefTags()
    ensures ParseTag("CommitSHA", "commit") == Key("commit", false)
    ensures ParseTag("Repository", "repository") == Key("repository", false)
    ensures ParseTag("PreviousCommitSHA", "previousCommit" + OmitEmpty) == Key("previousCommit", true)
  {
    TagName("CommitSHA", "commit");
    TagName("Repository", "repository");
    TagNameOmitEmpty("PreviousCommitSHA", "previousCommit", "previousCommit" + OmitEmpty);
  }

  /** A ref is written with its commit and repository always, its previous commit only when set. */
  lemma RefWire(r: Ref)
    ensures var j := Marshal(RefValue(r));
      && j.JObject?
      && j.members.Keys == {"commit", "repository"} + Optional("previousCommit", r.previousCommitSha)
      && j.members["commit"] == JString(r.commitSha)
      && j.members["repository"] == JString(r.repository)
      && (r.previousCommitSha != "" ==> j.members["previousCommit"] == JString(r.previousCommitSha))
  {
    var v := RefValue(r);
    LastField(v);
    StringField(v, 2, "previousCommit", true, r.previousCommitSha);
    StringField(v, 1, "repository", false, r.repository);
    StringField(v, 0, "commit", false, r.commitSha);
  }

  /** The details of a release, which the create-release call updates in place. */
  class ReleaseDetails {
    var version: string
    var ref: string
    var url: string
    var projects: GoSlice<Project>
    var dateReleased: Time
    var commits: GoSlice<Commit>
    var refs: GoSlice<Ref>

    constructor(version: string, ref: string, url: string, projects: GoSlice<Project>,
                dateReleased: Time, commits: GoSlice<Commit>, refs: GoSlice<Ref>)
      ensures this.version == version && this.ref == ref && this.url == url
      ensures this.projects == projects && this.dateReleased == dateReleased
      ensures this.commits == commits && this.refs == refs
    {
      this.version := version;
      this.ref := ref;
      this.url := url;
      this.projects := projects;
      this.dateReleased := dateReleased;
      this.commits := commits;
      this.refs := refs;
    }

    /** The struct as encoding/json sees it. */
    function Value(): GoValue
      reads this
    {
      GoStruct([
        Field(Key("version", false), GoString(version)),
        Field(Key("ref", true), GoString(ref)),
        Field(Key("url", true), GoString(url)),
        Field(Key("projects", false), GoList(SliceOf(projects, ProjectValue))),
        Field(Key("dateReleased", true), GoTime(dateReleased)),
        Field(Key("commits", true), GoList(SliceOf(commits, CommitValue))),
        Field(Key("refs", true), GoList(SliceOf(refs, RefValue)))
      ])
    }

    /** The members as MarshalFields assembles them, last field first. */
    function Members(): map<string, Json>
      reads this
    {
      PutString(PutString(PutSlice(PutSlice(map[], "refs", SliceOf(refs, RefValue)),
        "commits", SliceOf(commits, CommitValue))
        ["dateReleased" := JTime(dateReleased)]
        ["projects" := Marshal(GoList(SliceOf(projects, ProjectValue)))],
        "url", url), "ref", ref)["version" := JString(version)]
    }

    /** The keys the object is written under. */
    predicate ShapeKeys(m: map<string, Json>)
      reads this
    {
      m.Keys == {"version", "projects", "dateReleased"}
        + Optional("ref", ref) + Optional("url", url)
        + OptionalSlice("commits", commits) + OptionalSlice("refs", refs)
    }

    /** Each key holds its field's encoding. */
    predicate ShapeValues(m: map<string, Json>)
      reads this
      requires ShapeKeys(m)
    {
      && m["version"] == JString(version)
      && m["dateReleased"] == JTime(dateReleased)
      && m["projects"] == Marshal(GoList(SliceOf(projects, ProjectValue)))
      && (ref != "" ==> m["ref"] == JString(ref))
      && (url != "" ==> m["url"] == JString(url))
      && (commits.Items() != [] ==> m["commits"] == Marshal(GoList(SliceOf(commits, CommitValue))))
      && (refs.Items() != [] ==> m["refs"] == Marshal(GoList(SliceOf(refs, RefValue))))
    }
  }

  lemma ReleaseTags()
    ensures ParseTag("Version", "version") == Key("version", false)
    ensures ParseTag("Ref", "ref" + OmitEmpty) == Key("ref", true)
    ensures ParseTag("URL", "url" + OmitEmpty) == Key("url", true)
    ensures ParseTag("Projects", "projects") == Key("projects", false)
    ensures ParseTag("DateReleased", "dateReleased" + OmitEmpty) == Key("dateReleased", true)
  {
    TagName("Version", "version");
    TagNameOmitEmpty("Ref", "ref", "ref" + OmitEmpty);
    TagNameOmitEmpty("URL", "url", "url" + OmitEmpty);
    TagName("Projects", "projects");
    TagNameOmitEmpty("DateReleased", "dateReleased", "dateReleased" + OmitEmpty);
  }

  lemma ReleaseListTags()
    ensures ParseTag("Commits", "commits" + OmitEmpty) == Key("commits", true)
    ensures ParseTag("Refs", "refs" + OmitEmpty) == Key("refs", true)
  {
    TagNameOmitEmpty("Commits", "commits", "commits" + OmitEmpty);
    TagNameOmitEmpty("Refs", "refs", "refs" + OmitEmpty);
  }

  lemma ReleaseChain(d: ReleaseDetails)
    ensures Marshal(d.Value()) == JObject(d.Members())
  {
    var v := d.Value();
    LastField(v);
    SliceField(v, 6, "refs", true, SliceOf(d.refs, RefValue));
    SliceField(v, 5, "commits", true, SliceOf(d.commits, CommitValue));
    TimeField(v, 4, "dateReleased", true, d.dateReleased);
    SliceField(v, 3, "projects", false, SliceOf(d.projects, ProjectValue));
    StringField(v, 2, "url", true, d.url);
    StringField(v, 1, "ref", true, d.ref);
    StringField(v, 0, "version", false, d.version);
  }

  lemma ReleaseMembersKeys(d: ReleaseDetails)
    ensures d.ShapeKeys(d.Members())
  {
  }

  lemma ReleaseMembersValues(d: ReleaseDetails)
    requires d.ShapeKeys(d.Members())
    ensures d.ShapeValues(d.Members())
  {
    ReleaseMembersAlways(d);
    ReleaseMembersStrings(d);
    ReleaseMembersLists(d);
  }

  lemma ReleaseMembersAlways(d: ReleaseDetails)
    ensures var m := d.Members();
      && "version" in m && m["version"] == JString(d.version)
      && "dateReleased" in m && m["dateReleased"] == JTime(d.dateReleased)
      && "projects" in m && m["projects"] == Marshal(GoList(SliceOf(d.projects, ProjectValue)))
  {
  }

  lemma ReleaseMembersStrings(d: ReleaseDetails)
    ensures var m := d.Members();
      && (d.ref != "" ==> "ref" in m && m["ref"] == JString(d.ref))
      && (d.url != "" ==> "url" in m && m["url"] == JString(d.url))
  {
  }

  lemma ReleaseMembersLists(d: ReleaseDetails)
    ensures var m := d.Members();
      && (d.commits.Items() != [] ==>
            "commits" in m && m["commits"] == Marshal(GoList(SliceOf(d.commits, CommitValue))))
      && (d.refs.Items() != [] ==> "refs" in m && m["refs"] == Marshal(GoList(SliceOf(d.refs, RefValue))))
  {
  }

  /**
   * A release is written with its version, projects and release date always, a nil
   * projects slice as null. Ref and url are left out when empty; commits and refs when
   * they have no elements, whether nil or not.
   */
  lemma ReleaseWire(d: ReleaseDetails)
    ensures Marshal(d.Value()).JObject?
    ensures d.ShapeKeys(Marshal(d.Value()).members)
    ensures d.ShapeValues(Marshal(d.Value()).members)
    ensures d.projects.Nil? ==> Marshal(d.Value()).members["projects"] == JNull
  {
    ReleaseChain(d);
    ReleaseMembersKeys(d);
    ReleaseMembersValues(d);
    MarshalSlice(d.projects, ProjectValue);
  }

  /** The projects of a non-nil slice are written as an array of project objects, in order. */
  lemma ProjectsWire(projects: GoSlice<Project>)
    requires projects.Of?
    ensures var j := Marshal(GoList(SliceOf(projects, ProjectValue)));
      && j.JArray? && |j.items| == |projects.elems|
      && forall k :: 0 <= k < |projects.elems| ==>
           j.items[k] == JObject(map["name" := JString(projects.elems[k].name),
                                     "slug" := JString(projects.elems[k].slug)])
  {
    MarshalSlice(projects, ProjectValue);
    forall k | 0 <= k < |projects.elems|
      ensures Marshal(ProjectValue(projects.elems[k])) ==
              JObject(map["name" := JString(projects.elems[k].name), "slug" := JString(projects.elems[k].slug)])
    {
      ProjectWire(projects.elems[k]);
    }
  }
}
