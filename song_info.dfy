/** `SongInfo`: the structured song details the language model is asked to return, and the
    shape check applied to a parsed JSON reply. */
module SongInfoDto {

  /** A value `JSON.parse` can produce. */
  datatype Json =
    | JNull
    | JBool(b: bool)
    | JNumber(n: real)
    | JString(s: string)
    | JArray(items: seq<Json>)
    | JObject(fields: map<string, Json>)

  /** A cleaned title and the artists in the order they appear in the original query. */
  datatype SongInfo = SongInfo(title: string, artist: seq<string>)

  /** JavaScript truthiness of a parsed value. */
  predicate Truthy(v: Json) {
    match v
    case JNull => false
    case JBool(b) => b
    case JNumber(n) => n != 0.0
    case JString(s) => s != ""
    case _ => true
  }

  /** `SongInfo.validate(obj)`: `obj.title` is a string, `obj.artist` is an array, and every
      element of it is a string. Reading a property of null throws, so null is excluded; on
      every other value a missing property reads as undefined and fails the check. */
  predicate Validate(obj: Json)
    requires obj != JNull
    ensures Validate(obj) ==> obj.JObject? && "title" in obj.fields && "artist" in obj.fields
  {
    && obj.JObject?
    && "title" in obj.fields && obj.fields["title"].JString?
    && "artist" in obj.fields && obj.fields["artist"].JArray?
    && forall i :: 0 <= i < |obj.fields["artist"].items| ==> obj.fields["artist"].items[i].JString?
  }

  /** `new SongInfo(obj.title, obj.artist)` on a validated object: both fields are taken over
      unchanged, the artists in their order. */
  function FromValidated(obj: Json): (info: SongInfo)
    requires obj != JNull && Validate(obj)
    ensures obj.fields["title"] == JString(info.title)
    ensures |info.artist| == |obj.fields["artist"].items|
    ensures forall i :: 0 <= i < |info.artist| ==> obj.fields["artist"].items[i] == JString(info.artist[i])
  {
    var items := obj.fields["artist"].items;
    SongInfo(obj.fields["title"].s, seq(|items|, i requires 0 <= i < |items| => items[i].s))
  }

  /** The JSON object a SongInfo stands for. */
  function ToJson(info: SongInfo): Json {
    JObject(map[
      "title" := JString(info.title),
      "artist" := JArray(seq(|info.artist|, i requires 0 <= i < |info.artist| => JString(info.artist[i])))])
  }

  /** An object validates exactly when its `title` and `artist` fields are those of some SongInfo. */
  lemma ValidIffSongInfoFields(obj: Json)
    requires obj != JNull
    ensures Validate(obj) <==>
      && obj.JObject? && "title" in obj.fields && "artist" in obj.fields
      && exists info :: obj.fields["title"] == ToJson(info).fields["title"] && obj.fields["artist"] == ToJson(info).fields["artist"]
  {
    if Validate(obj) {
      var info := FromValidated(obj);
      ToFromValidated(obj);
      assert obj.fields["title"] == ToJson(info).fields["title"];
      assert obj.fields["artist"] == ToJson(info).fields["artist"];
    }
  }

  /** Every SongInfo passes validation, including one with an empty title and one with no artists. */
  lemma ToJsonValidates(info: SongInfo)
    ensures ToJson(info) != JNull && Validate(ToJson(info))
  {
  }

  /** Reading a SongInfo back from its JSON gives the same SongInfo. */
  lemma FromToJson(info: SongInfo)
    ensures ToJson(info) != JNull && Validate(ToJson(info)) && FromValidated(ToJson(info)) == info
  {
    var back := FromValidated(ToJson(info));
    assert back.artist == info.artist;
  }

  /** A validated object is the JSON of the SongInfo read from it, apart from any extra fields. */
  lemma ToFromValidated(obj: Json)
    requires obj != JNull && Validate(obj)
    ensures ToJson(FromValidated(obj)).fields == map k | k in obj.fields && k in {"title", "artist"} :: obj.fields[k]
  {
    var info := FromValidated(obj);
    var items := obj.fields["artist"].items;
    var back := ToJson(info).fields["artist"].items;
    assert |back| == |items|;
    assert forall i :: 0 <= i < |items| ==> back[i] == items[i];
    assert back == items;
  }
}
