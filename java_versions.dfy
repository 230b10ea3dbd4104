/**
 * The one concrete setting item: the Java installations found, each a path and a
 * version, with the index of the selected one.  Its persisted and sent forms are the
 * serde-derived JSON of the struct.
 */
module JavaVersions {
  import opened Wrappers
  import Json
  import Files
  import opened Versions
  import opened Items

  type u8 = x: int | 0 <= x < 256

  datatype JavaVersion = JavaVersion(path: string, version: Version)

  datatype JavaVersions = JavaVersions(versions: seq<JavaVersion>, select: u8)

  /** `JavaVersions::new()`. */
  function New(): (r: JavaVersions)
    ensures r.versions == [] && r.select == 0
  {
    JavaVersions([], 0)
  }

  /** `add_version`: pushes one entry at the end of `versions`. */
  function AddVersion(java: JavaVersions, path: string, version: Version): (r: JavaVersions)
    ensures |r.versions| == |java.versions| + 1
    ensures r.versions[..|java.versions|] == java.versions
    ensures r.versions[|java.versions|] == JavaVersion(path, version)
    ensures r.select == java.select
  {
    java.(versions := java.versions + [JavaVersion(path, version)])
  }

  // ---------------------------------------------------------------------------
  // The serde derive encoding of the structs (object form).

  function EncodeOptionalNumber(o: Option<u32>): Json.Value {
    match o
    case None => Json.Null
    case Some(n) => Json.Number(n)
  }

  function EncodeVersion(v: Version): Json.Value {
    Json.Object(map[
      "major" := Json.Number(v.major),
      "minor" := EncodeOptionalNumber(v.minor),
      "patch" := EncodeOptionalNumber(v.patch),
      "pre_release" := match v.preRelease case None => Json.Null case Some(s) => Json.Str(s)])
  }

  function EncodeEntry(e: JavaVersion): Json.Value {
    Json.Object(map["path" := Json.Str(e.path), "version" := EncodeVersion(e.version)])
  }

  function EncodeEntries(entries: seq<JavaVersion>): (r: seq<Json.Value>)
    ensures |r| == |entries|
  {
    if entries == [] then [] else [EncodeEntry(entries[0])] + EncodeEntries(entries[1..])
  }

  /** `serde_json::to_value(self)`. */
  function Encode(java: JavaVersions): (r: Json.Value)
    ensures r.Object? && r.fields.Keys == {"versions", "select"}
    ensures r.fields["versions"].Array? && |r.fields["versions"].elems| == |java.versions|
  {
    Json.Object(map["versions" := Json.Array(EncodeEntries(java.versions)), "select" := Json.Number(java.select)])
  }

  /** A struct field that serde requires to be present. */
  function Required(fields: map<string, Json.Value>, key: string): Result<Json.Value, Error> {
    if key in fields then Ok(fields[key]) else Err(Deserialize("missing field `" + key + "`"))
  }

  function DecodeU32(j: Json.Value): Result<u32, Error> {
    if j.Number? && 0 <= j.n < 0x1_0000_0000 then Ok(j.n) else Err(Deserialize("invalid type: expected u32"))
  }

  /** An `Option<u32>` field: missing or `null` is `None`. */
  function DecodeOptionalNumber(fields: map<string, Json.Value>, key: string): Result<Option<u32>, Error> {
    if key !in fields || fields[key].Null? then Ok(None)
    else var n :- DecodeU32(fields[key]); Ok(Some(n))
  }

  function DecodeOptionalString(fields: map<string, Json.Value>, key: string): Result<Option<string>, Error> {
    if key !in fields || fields[key].Null? then Ok(None)
    else if fields[key].Str? then Ok(Some(fields[key].s))
    else Err(Deserialize("invalid type: expected a string"))
  }

  function DecodeVersion(j: Json.Value): Result<Version, Error> {
    if !j.Object? then Err(Deserialize("invalid type: expected struct Version"))
    else
      var majorValue :- Required(j.fields, "major");
      var major :- DecodeU32(majorValue);
      var minor :- DecodeOptionalNumber(j.fields, "minor");
      var patch :- DecodeOptionalNumber(j.fields, "patch");
      var pre :- DecodeOptionalString(j.fields, "pre_release");
      Ok(Version(major, minor, patch, pre))
  }

  function DecodeEntry(j: Json.Value): Result<JavaVersion, Error> {
    if !j.Object? then Err(Deserialize("invalid type: expected struct JavaVersion"))
    else
      var pathValue :- Required(j.fields, "path");
      if !pathValue.Str? then Err(Deserialize("invalid type: expected a string"))
      else
        var versionValue :- Required(j.fields, "version");
        var version :- DecodeVersion(versionValue);
        Ok(JavaVersion(pathValue.s, version))
  }

  function DecodeEntries(elems: seq<Json.Value>): (r: Result<seq<JavaVersion>, Error>)
    ensures r.Ok? ==> |r.value| == |elems|
  {
    if elems == [] then Ok([])
    else
      var head :- DecodeEntry(elems[0]);
      var tail :- DecodeEntries(elems[1..]);
      Ok([head] + tail)
  }

  /** `serde_json::from_value::<JavaVersions>`. */
  function Decode(j: Json.Value): (r: Result<JavaVersions, Error>)
    ensures r.Ok? ==> j.Object? && "versions" in j.fields && "select" in j.fields
    ensures r.Ok? ==> j.fields["versions"].Array? && |r.value.versions| == |j.fields["versions"].elems|
    ensures r.Ok? ==> j.fields["select"] == Json.Number(r.value.select)
  {
    if !j.Object? then Err(Deserialize("invalid type: expected struct JavaVersions"))
    else
      var versionsValue :- Required(j.fields, "versions");
      if !versionsValue.Array? then Err(Deserialize("invalid type: expected a sequence"))
      else
        var versions :- DecodeEntries(versionsValue.elems);
        var selectValue :- Required(j.fields, "select");
        if selectValue.Number? && 0 <= selectValue.n < 256 then Ok(JavaVersions(versions, selectValue.n))
        else Err(Deserialize("invalid type: expected u8"))
  }

  lemma VersionRoundTrip(v: Version)
    ensures DecodeVersion(EncodeVersion(v)) == Ok(v)
  {
  }

  lemma {:induction false} EntriesRoundTrip(entries: seq<JavaVersion>)
    ensures DecodeEntries(EncodeEntries(entries)) == Ok(entries)
  {
    if entries != [] {
      var elems := EncodeEntries(entries);
      assert elems[0] == EncodeEntry(entries[0]) && elems[1..] == EncodeEntries(entries[1..]);
      VersionRoundTrip(entries[0].version);
      EntriesRoundTrip(entries[1..]);
      assert [entries[0]] + entries[1..] == entries;
    }
  }

  /** The serde round trip: decoding what was encoded gives back the same value. */
  lemma RoundTrip(java: JavaVersions)
    ensures Decode(Encode(java)) == Ok(java)
  {
    EntriesRoundTrip(java.versions);
  }

  // ---------------------------------------------------------------------------
  // First-run loading, with the environment as an oracle.

  /**
   * What `read(None)` consults: the config directory (`dirs::get_config_dirs`), the
   * files, `which("java")` as a lossy path string, the first stderr line of
   * `java -version` for a path, and `Version::from_string(line, Some(&['"']))`.
   */
  datatype Environment = Environment(
    configDir: Result<Files.Path, Error>,
    files: Files.FileSystem,
    whichJava: Option<string>,
    probe: string -> Result<string, Error>,
    parseVersion: string -> Result<Version, Error>)

  /**
   * `load_path_versions`: the `java` on PATH, its version probed and parsed; any failure
   * along the way gives the empty list.
   */
  function LoadPathVersions(env: Environment): (r: JavaVersions)
    ensures |r.versions| <= 1 && r.select == 0
    ensures |r.versions| == 1 <==>
              && env.whichJava.Some?
              && env.probe(env.whichJava.value).Ok?
              && env.parseVersion(env.probe(env.whichJava.value).value).Ok?
    ensures |r.versions| == 1 ==>
              r.versions[0] == JavaVersion(env.whichJava.value, env.parseVersion(env.probe(env.whichJava.value).value).value)
  {
    var versions := New();
    match env.whichJava
    case None => versions
    case Some(path) =>
      match env.probe(path)
      case Err(_) => versions
      case Ok(line) =>
        match env.parseVersion(line)
        case Err(_) => versions
        case Ok(version) => AddVersion(versions, path, version)
  }

  /** `load_file_version`: `java_versions.json` in the config directory if it exists, else PATH. */
  function LoadFileVersion(env: Environment): (r: Result<JavaVersions, Error>)
    ensures env.configDir.Err? ==> r == Err(env.configDir.error)
    ensures env.configDir.Ok? && Files.Join(env.configDir.value, "java_versions.json") !in env.files ==>
              r == Ok(LoadPathVersions(env))
    ensures env.configDir.Ok? && Files.Join(env.configDir.value, "java_versions.json") in env.files ==>
              match env.files[Files.Join(env.configDir.value, "java_versions.json")]
              case Text(j) => r == Decode(j)
              case Unparseable => r.Err?
  {
    var dir :- env.configDir;
    var path := Files.Join(dir, "java_versions.json");
    if path in env.files then
      match env.files[path]
      case Text(j) => Decode(j)
      case Unparseable => Err(Deserialize("java_versions.json is not valid JSON"))
    else Ok(LoadPathVersions(env))
  }

  /** `SettingTrait::read`: deserialise a given value, or load on first run. */
  function Read(env: Environment, json: Option<Json.Value>): (r: Result<JavaVersions, Error>)
    ensures json.Some? ==> r == Decode(json.value)
    ensures json.None? ==> r == LoadFileVersion(env)
  {
    match json
    case Some(value) => Decode(value)
    case None => LoadFileVersion(env)
  }

  /** `write` and `send`: both `serde_json::to_value(self)`, which cannot fail for this struct. */
  function Write(java: JavaVersions): (r: Result<Json.Value, Error>)
    ensures r.Ok? && Decode(r.value) == Ok(java)
  {
    RoundTrip(java);
    Ok(Encode(java))
  }

  /**
   * The item's methods.  `receive` is `todo!()` in the source, so it is a parameter
   * here: the model assumes nothing of it.
   */
  function Ops(env: Environment, receive: (JavaVersions, seq<string>) -> Received<JavaVersions>): ItemOps<JavaVersions> {
    ItemOps(json => Read(env, json), Write, Write, receive)
  }

  /** `write` and `send` give the same JSON, and it reads back as the same value. */
  lemma OpsRereads(env: Environment, receive: (JavaVersions, seq<string>) -> Received<JavaVersions>, java: JavaVersions)
    ensures Ops(env, receive).write(java) == Ops(env, receive).send(java)
    ensures Rereads(Ops(env, receive), java)
  {
    RoundTrip(java);
  }
}
