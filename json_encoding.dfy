/**
 * The part of Go's `encoding/json` that decides the wire shape of the plugin's structs:
 * a struct becomes an object whose keys come from the fields' `json:"…"` tags.
 * A tag "-" leaves the field out; the tag's name (before the first comma) is the key, the
 * Go field name when the tag has none; the option `omitempty` leaves the field out when
 * its value is empty, where a string is empty when it is "", a slice when it has no
 * elements, and a struct (time.Time included) never.
 */
module JsonEncoding {
  import opened GoTypes

  /** A JSON value; a time.Time is kept as the abstract RFC 3339 string its MarshalJSON writes. */
  datatype Json =
    | JNull
    | JBool(b: bool)
    | JNumber(literal: string)
    | JString(s: string)
    | JTime(t: Time)
    | JArray(items: seq<Json>)
    | JObject(members: map<string, Json>)

  /** The Go values the plugin's structs are made of, as encoding/json sees them. */
  datatype GoValue =
    | GoString(s: string)
    | GoTime(t: Time)
    | GoList(slice: GoSlice<GoValue>)
    | GoStruct(fields: seq<Field>)

  /**
   * A struct field as encoding/json caches it for the struct's type: the rule its tag
   * gives (see ParseTag) and its value.
   */
  datatype Field = Field(rule: TagRule, value: GoValue)

  /** What a tag says: leave the field out, or write it under a key, perhaps only when non-empty. */
  datatype TagRule = Skipped | Key(key: string, omitEmpty: bool)

  /** The index of the first `c` in `s`, or |s| when there is none. */
  function IndexOf(s: string, c: char): (i: nat)
  {
    IndexFrom(s, c, 0)
  }

  /** IndexOf finds the first `c`: none occurs before the index, and `c` is there. */
  lemma IndexOfSpec(s: string, c: char)
    ensures var i := IndexOf(s, c); i <= |s| && c !in s[..i] && (i < |s| ==> s[i] == c)
  {
    IndexFromSpec(s, c, 0);
  }

  /** The index of the first `c` in `s` at or after `k`, or |s|. */
  function IndexFrom(s: string, c: char, k: nat): (i: nat)
    requires k <= |s|
    ensures k <= i <= |s|
    decreases |s| - k
  {
    if k == |s| || s[k] == c then k
    else IndexFrom(s, c, k + 1)
  }

  lemma {:induction false} IndexFromSpec(s: string, c: char, k: nat)
    requires k <= |s|
    ensures var i := IndexFrom(s, c, k); c !in s[k..i] && (i < |s| ==> s[i] == c)
    decreases |s| - k
  {
    if k < |s| && s[k] != c {
      IndexFromSpec(s, c, k + 1);
      var i := IndexFrom(s, c, k + 1);
      assert s[k..i] == [s[k]] + s[k + 1..i];
    }
  }

  /** The comma-separated options after a tag's name contain `option`. */
  predicate HasOption(options: string, option: string)
    decreases |options|
  {
    var i := IndexOf(options, ',');
    options[..i] == option || (i < |options| && HasOption(options[i + 1..], option))
  }

  function ParseTag(fieldName: string, tag: string): TagRule {
    if tag == "-" then Skipped
    else
      var i := IndexOf(tag, ',');
      var name := tag[..i];
      var options := if i < |tag| then tag[i + 1..] else "";
      Key(if name == "" then fieldName else name, i < |tag| && HasOption(options, "omitempty"))
  }

  lemma IndexOfAbsent(s: string, c: char)
    requires c !in s
    ensures IndexOf(s, c) == |s|
  {
    IndexOfSpec(s, c);
  }

  lemma IndexOfFirst(a: string, c: char, b: string)
    requires c !in a
    ensures IndexOf(a + [c] + b, c) == |a|
  {
    var s := a + [c] + b;
    IndexOfSpec(s, c);
    var i := IndexOf(s, c);
    assert s[|a|] == c;
  }

  /** The option that follows the key in a tag such as `json:"name,omitempty"`. */
  const OmitEmpty: string := ",omitempty"

  /** A tag that is a bare name: written under that name, always. */
  lemma TagName(fieldName: string, name: string)
    requires name != "" && name != "-" && ',' !in name
    ensures ParseTag(fieldName, name) == Key(name, false)
  {
    IndexOfAbsent(name, ',');
  }

  /** A tag `name,omitempty`: written under that name unless the value is empty. */
  lemma TagNameOmitEmpty(fieldName: string, name: string, tag: string)
    requires name != "" && ',' !in name && tag == name + OmitEmpty
    ensures ParseTag(fieldName, tag) == Key(name, true)
  {
    assert tag == name + [','] + "omitempty";
    IndexOfFirst(name, ',', "omitempty");
    assert tag[|name| + 1..] == "omitempty";
    assert tag[..|name|] == name;
    IndexOfAbsent("omitempty", ',');
    assert HasOption("omitempty", "omitempty");
  }

  /** encoding/json's isEmptyValue for the kinds of value the plugin uses. */
  predicate IsEmptyValue(v: GoValue) {
    match v
    case GoString(s) => s == ""
    case GoTime(_) => false
    case GoList(sl) => |sl.Items()| == 0
    case GoStruct(_) => false
  }

  /** The field is written: its tag is not "-", and it is not an empty omitempty field. */
  predicate Emitted(f: Field) {
    f.rule.Key? && !(f.rule.omitEmpty && IsEmptyValue(f.value))
  }

  function KeyOf(f: Field): string
    requires f.rule.Key?
  {
    f.rule.key
  }

  function Marshal(v: GoValue): Json
    decreases v, 1
  {
    match v
    case GoString(s) => JString(s)
    case GoTime(t) => JTime(t)
    case GoList(sl) => if sl.Nil? then JNull else JArray(MarshalElems(v, 0))
    case GoStruct(_) => JObject(MarshalFields(v, 0))
  }

  /** The encodings of the slice elements from index i on. */
  function MarshalElems(v: GoValue, i: nat): (js: seq<Json>)
    requires v.GoList? && i <= |v.slice.Items()|
    ensures |js| == |v.slice.Items()| - i
    ensures forall j :: 0 <= j < |js| ==> js[j] == Marshal(v.slice.Items()[i + j])
    decreases v, 0, |v.slice.Items()| - i
  {
    var es := v.slice.Items();
    if i == |es| then []
    else
      assert es[i] in v.slice.elems;
      [Marshal(es[i])] + MarshalElems(v, i + 1)
  }

  /** The object members written for the struct fields from index i on. */
  function MarshalFields(v: GoValue, i: nat): map<string, Json>
    requires v.GoStruct? && i <= |v.fields|
    decreases v, 0, |v.fields| - i
  {
    if i == |v.fields| then map[]
    else
      var f := v.fields[i];
      assert f in v.fields;
      var rest := MarshalFields(v, i + 1);
      if Emitted(f) then rest[KeyOf(f) := Marshal(f.value)] else rest
  }

  // One field's contribution to the object, by the field's kind and what its tag says.

  lemma LastField(v: GoValue)
    requires v.GoStruct?
    ensures MarshalFields(v, |v.fields|) == map[]
  {
  }

  /** A field tagged "-" is never written. */
  lemma SkippedField(v: GoValue, i: nat)
    requires v.GoStruct? && i < |v.fields|
    requires v.fields[i].rule == Skipped
    ensures MarshalFields(v, i) == MarshalFields(v, i + 1)
  {
  }

  /** A string field: always written without omitempty, written only when non-empty with it. */
  lemma StringField(v: GoValue, i: nat, key: string, omitEmpty: bool, s: string)
    requires v.GoStruct? && i < |v.fields|
    requires v.fields[i].rule == Key(key, omitEmpty)
    requires v.fields[i].value == GoString(s)
    ensures MarshalFields(v, i) ==
      if omitEmpty && s == "" then MarshalFields(v, i + 1)
      else MarshalFields(v, i + 1)[key := JString(s)]
  {
  }

  /** A time.Time field is a struct, which is never empty: it is written, omitempty or not. */
  lemma TimeField(v: GoValue, i: nat, key: string, omitEmpty: bool, t: Time)
    requires v.GoStruct? && i < |v.fields|
    requires v.fields[i].rule == Key(key, omitEmpty)
    requires v.fields[i].value == GoTime(t)
    ensures MarshalFields(v, i) == MarshalFields(v, i + 1)[key := JTime(t)]
  {
  }

  /** A slice field: with omitempty it is left out when it has no elements, nil or not. */
  lemma SliceField(v: GoValue, i: nat, key: string, omitEmpty: bool, sl: GoSlice<GoValue>)
    requires v.GoStruct? && i < |v.fields|
    requires v.fields[i].rule == Key(key, omitEmpty)
    requires v.fields[i].value == GoList(sl)
    ensures MarshalFields(v, i) ==
      if omitEmpty && sl.Items() == [] then MarshalFields(v, i + 1)
      else MarshalFields(v, i + 1)[key := Marshal(GoList(sl))]
  {
  }

  /** A Go slice of some record type, as the slice of values encoding/json walks. */
  function SliceOf<T>(sl: GoSlice<T>, enc: T -> GoValue): (r: GoSlice<GoValue>)
    ensures r.Nil? <==> sl.Nil?
    ensures |r.Items()| == |sl.Items()|
    ensures forall k :: 0 <= k < |r.Items()| ==> r.Items()[k] == enc(sl.Items()[k])
  {
    match sl
    case Nil => Nil
    case Of(xs) => Of(seq(|xs|, k requires 0 <= k < |xs| => enc(xs[k])))
  }

  /** A nil slice is written as null, any other as an array of its elements' encodings. */
  lemma MarshalSlice<T>(sl: GoSlice<T>, enc: T -> GoValue)
    ensures var j := Marshal(GoList(SliceOf(sl, enc)));
      && (sl.Nil? ==> j == JNull)
      && (sl.Of? ==>
            j.JArray? && |j.items| == |sl.elems| &&
            forall k :: 0 <= k < |sl.elems| ==> j.items[k] == Marshal(enc(sl.elems[k])))
  {
  }

  // Object members as the field lemmas above add them, for stating a struct's wire shape.

  /** The members with an omitempty string field added: nothing when the string is empty. */
  function PutString(m: map<string, Json>, key: string, s: string): map<string, Json> {
    if s == "" then m else m[key := JString(s)]
  }

  /** The members with an omitempty slice field added: nothing when it has no elements. */
  function PutSlice(m: map<string, Json>, key: string, sl: GoSlice<GoValue>): map<string, Json> {
    if sl.Items() == [] then m else m[key := Marshal(GoList(sl))]
  }

  /** The key an omitempty string field adds: none when the string is empty. */
  function Optional(key: string, s: string): set<string> {
    if s == "" then {} else {key}
  }

  /** The key an omitempty slice field adds: none when the slice has no elements. */
  function OptionalSlice<T>(key: string, sl: GoSlice<T>): set<string> {
    if sl.Items() == [] then {} else {key}
  }

  /** No two fields of the struct are written under the same key. */
  predicate DistinctKeys(fs: seq<Field>) {
    forall i, j :: 0 <= i < j < |fs| && Emitted(fs[i]) && Emitted(fs[j]) ==> KeyOf(fs[i]) != KeyOf(fs[j])
  }

  /** The field is written, under key `k`. */
  predicate WrittenAs(f: Field, k: string) {
    Emitted(f) && KeyOf(f) == k
  }

  /** A field that is written appears under its key with its encoding, unless a later field reuses the key. */
  lemma {:induction false} MarshalFieldsWritten(v: GoValue, i: nat, j: nat)
    requires v.GoStruct? && i <= j < |v.fields| && DistinctKeys(v.fields) && Emitted(v.fields[j])
    ensures KeyOf(v.fields[j]) in MarshalFields(v, i)
    ensures MarshalFields(v, i)[KeyOf(v.fields[j])] == Marshal(v.fields[j].value)
    decreases j - i
  {
    if i < j {
      MarshalFieldsWritten(v, i + 1, j);
      var f := v.fields[i];
      if Emitted(f) {
        assert KeyOf(f) != KeyOf(v.fields[j]);
      }
    }
  }

  /** A key that no field from index i on is written under is absent. */
  lemma {:induction false} MarshalFieldsAbsent(v: GoValue, i: nat, k: string)
    requires v.GoStruct? && i <= |v.fields|
    requires forall j :: i <= j < |v.fields| ==> !WrittenAs(v.fields[j], k)
    ensures k !in MarshalFields(v, i)
    decreases |v.fields| - i
  {
    if i < |v.fields| {
      MarshalFieldsAbsent(v, i + 1, k);
      assert !WrittenAs(v.fields[i], k);
    }
  }

  /**
   * The tag rules, for a struct whose written fields have distinct keys: a key is present
   * exactly when some field is written under it, and it then holds that field's encoding.
   */
  lemma MarshalFieldsMembers(v: GoValue, k: string)
    requires v.GoStruct? && DistinctKeys(v.fields)
    ensures k in MarshalFields(v, 0) <==> exists j :: 0 <= j < |v.fields| && WrittenAs(v.fields[j], k)
    ensures forall j :: 0 <= j < |v.fields| && WrittenAs(v.fields[j], k) ==>
              MarshalFields(v, 0)[k] == Marshal(v.fields[j].value)
  {
    if exists j :: 0 <= j < |v.fields| && WrittenAs(v.fields[j], k) {
      forall j | 0 <= j < |v.fields| && WrittenAs(v.fields[j], k)
        ensures k in MarshalFields(v, 0) && MarshalFields(v, 0)[k] == Marshal(v.fields[j].value)
      {
        MarshalFieldsWritten(v, 0, j);
      }
    } else {
      MarshalFieldsAbsent(v, 0, k);
    }
  }
}
