/** The shape of a JSON document, abstracted from its bytes: strings,
    objects keyed by member name, and arrays. */
module JsonValues {
  import opened Wrappers

  datatype Json =
    | JString(str: string)
    | JObject(members: map<string, Json>)
    | JArray(items: seq<Json>)

  /** A string-to-string map as a JSON object. */
  function StringMapToJson(m: map<string, string>): (j: Json)
    ensures j.JObject? && j.members.Keys == m.Keys
    ensures forall k :: k in m ==> j.members[k] == JString(m[k])
  {
    JObject(map k | k in m :: JString(m[k]))
  }

  /** The inverse of StringMapToJson: an object whose every member is a string. */
  function StringMapFromJson(j: Json): (r: Option<map<string, string>>)
    ensures r.Some? ==> j.JObject? && r.value.Keys == j.members.Keys
  {
    if j.JObject? && forall k :: k in j.members ==> j.members[k].JString? then
      Some(map k | k in j.members :: j.members[k].str)
    else
      None
  }

  lemma StringMapRoundTrip(m: map<string, string>)
    ensures StringMapFromJson(StringMapToJson(m)) == Some(m)
  {
    var j := StringMapToJson(m);
    var back := map k | k in j.members :: j.members[k].str;
    assert back == m;
  }
}
