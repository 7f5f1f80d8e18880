/**
 * The payload of the create-deploy call (deploy.go): the DeployDetails struct and the
 * JSON object encoding/json writes for it. Its Version is tagged "-": it names the
 * release in the URL and never appears in the body.
 */
module Deploys {
  import opened GoTypes
  import opened JsonEncoding

  /** The details of a deploy, which the create-deploy call updates in place. */
  class DeployDetails {
    var version: string
    var environment: string
    var name: string
    var url: string
    var dateStarted: Time
    var dateFinished: Time

    constructor(version: string, environment: string, name: string, url: string,
                dateStarted: Time, dateFinished: Time)
      ensures this.version == version && this.environment == environment
      ensures this.name == name && this.url == url
      ensures this.dateStarted == dateStarted && this.dateFinished == dateFinished
    {
      this.version := version;
      this.environment := environment;
      this.name := name;
      this.url := url;
      this.dateStarted := dateStarted;
      this.dateFinished := dateFinished;
    }

    /** The struct as encoding/json sees it. */
    function Value(): GoValue
      reads this
    {
      GoStruct([
        Field(Skipped, GoString(version)),
        Field(Key("environment", false), GoString(environment)),
        Field(Key("name", true), GoString(name)),
        Field(Key("url", true), GoString(url)),
        Field(Key("dateStarted", true), GoTime(dateStarted)),
        Field(Key("dateFinished", true), GoTime(dateFinished))
      ])
    }

    /** The members as MarshalFields assembles them, last field first. */
    function Members(): map<string, Json>
      reads this
    {
      PutString(PutString(map["dateFinished" := JTime(dateFinished)]["dateStarted" := JTime(dateStarted)],
        "url", url), "name", name)["environment" := JString(environment)]
    }

    /** The object is written under the keys DeployWire names, each with its field's encoding. */
    predicate Shape(m: map<string, Json>)
      reads this
    {
      && m.Keys == {"environment", "dateStarted", "dateFinished"} + Optional("name", name) + Optional("url", url)
      && m["environment"] == JString(environment)
      && m["dateStarted"] == JTime(dateStarted)
      && m["dateFinished"] == JTime(dateFinished)
      && (name != "" ==> m["name"] == JString(name))
      && (url != "" ==> m["url"] == JString(url))
    }
  }

  /** The rules Value gives the fields are what DeployDetails' tags say. */
  lemma DeployTags()
    ensures ParseTag("Version", "-") == Skipped
    ensures ParseTag("Environment", "environment") == Key("environment", false)
    ensures ParseTag("Name", "name" + OmitEmpty) == Key("name", true)
    ensures ParseTag("URL", "url" + OmitEmpty) == Key("url", true)
  {
    TagName("Environment", "environment");
    TagNameOmitEmpty("Name", "name", "name" + OmitEmpty);
    TagNameOmitEmpty("URL", "url", "url" + OmitEmpty);
  }

  lemma DeployDateTags()
    ensures ParseTag("DateStarted", "dateStarted" + OmitEmpty) == Key("dateStarted", true)
    ensures ParseTag("DateFinished", "dateFinished" + OmitEmpty) == Key("dateFinished", true)
  {
    TagNameOmitEmpty("DateStarted", "dateStarted", "dateStarted" + OmitEmpty);
    TagNameOmitEmpty("DateFinished", "dateFinished", "dateFinished" + OmitEmpty);
  }

  lemma DeployChain(d: DeployDetails)
    ensures Marshal(d.Value()) == JObject(d.Members())
  {
    var v := d.Value();
    LastField(v);
    TimeField(v, 5, "dateFinished", true, d.dateFinished);
    TimeField(v, 4, "dateStarted", true, d.dateStarted);
    StringField(v, 3, "url", true, d.url);
    StringField(v, 2, "name", true, d.name);
    StringField(v, 1, "environment", false, d.environment);
    SkippedField(v, 0);
  }

  lemma DeployMembersShape(d: DeployDetails)
    ensures d.Shape(d.Members())
  {
  }

  /**
   * A deploy is written with its environment and both dates always (a time.Time is never
   * empty, so omitempty does not drop a zero date); name and url only when non-empty. The
   * version is never written, under any key.
   */
  lemma DeployWire(d: DeployDetails)
    ensures Marshal(d.Value()).JObject?
    ensures d.Shape(Marshal(d.Value()).members)
    ensures "version" !in Marshal(d.Value()).members && "Version" !in Marshal(d.Value()).members
  {
    DeployChain(d);
    DeployMembersShape(d);
  }
}
