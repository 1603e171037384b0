/** `RemoteConfigManager`: downloads a YAML device configuration, converts
    the SnakeYAML tree into a `kotlinx.serialization` JSON tree
    (`valueToJsonElement`), decodes it, and only then saves it. */
module RemoteConfig {
  import opened Wrappers
  import opened Text
  import opened Values
  import opened DeviceConfiguration

  // ---------------------------------------------------------------------------
  // The YAML tree

  /** A scalar map key as SnakeYAML loads it; `toString` gives its text. */
  datatype YamlKey =
    | KeyNull
    | KeyBool(b: bool)
    | KeyInt(i: int)
    | KeyStr(s: string)
      /** Any other scalar (a date, a timestamp, ...), with its `toString`. */
    | KeyOther(text: string)

  /** What `Yaml.load` returns: `null`, `Boolean`, an integral `Number`, a
      `Double` (kept as its bit pattern), `String`, an insertion-ordered
      `Map`, a `List`, or another object with its `toString`. */
  datatype Yaml =
    | YNull
    | YBool(b: bool)
    | YInt(i: int)
    | YDouble(bits: nat)
    | YStr(s: string)
    | YMap(entries: seq<(YamlKey, Yaml)>)
    | YList(items: seq<Yaml>)
    | YOther(text: string)

  /** Kotlin `key.toString()`. */
  function KeyText(k: YamlKey): string {
    match k
    case KeyNull => "null"
    case KeyBool(b) => if b then "true" else "false"
    case KeyInt(i) => IntToString(i)
    case KeyStr(s) => s
    case KeyOther(t) => t
  }

  /** Kotlin `List<Pair<String, JsonElement>>.toMap()`: pairs are inserted in
      order, so a later pair overrides an earlier one with the same key. */
  function ToMap(pairs: seq<(string, Value)>): map<string, Value> {
    if pairs == [] then map[]
    else ToMap(pairs[..|pairs| - 1])[pairs[|pairs| - 1].0 := pairs[|pairs| - 1].1]
  }

  /** `valueToJsonElement`, by structural recursion over the tree. */
  function ToJson(y: Yaml): (r: Value)
    decreases y
    ensures y.YNull? <==> r.Null?
    ensures y.YList? <==> r.Arr?
    ensures y.YMap? <==> r.Obj?
    ensures y.YBool? ==> r == Bool(y.b)
    ensures y.YInt? ==> r == Num(y.i)
    ensures y.YStr? ==> r == Str(y.s)
    ensures y.YOther? ==> r == Str(y.text)
    ensures y.YList? ==> |r.items| == |y.items|
  {
    match y
    case YNull => Null
    case YBool(b) => Bool(b)
    case YInt(i) => Num(i)
    case YDouble(bits) => DoubleBits(bits)
    case YStr(s) => Str(s)
    case YMap(es) => Obj(ToMap(seq(|es|, i requires 0 <= i < |es| => (KeyText(es[i].0), ToJson(es[i].1)))))
    case YList(items) => Arr(seq(|items|, i requires 0 <= i < |items| => ToJson(items[i])))
    case YOther(t) => Str(t)
  }

  /** The pairs of a YAML map, each key stringified and each value converted. */
  function Pairs(es: seq<(YamlKey, Yaml)>): (r: seq<(string, Value)>)
    ensures |r| == |es|
    ensures forall i :: 0 <= i < |es| ==> r[i] == (KeyText(es[i].0), ToJson(es[i].1))
  {
    seq(|es|, i requires 0 <= i < |es| => (KeyText(es[i].0), ToJson(es[i].1)))
  }

  /** A list keeps its length and order, each element converted. */
  lemma ListConverted(items: seq<Yaml>)
    ensures ToJson(YList(items)).items == seq(|items|, i requires 0 <= i < |items| => ToJson(items[i]))
    ensures forall i :: 0 <= i < |items| ==> ToJson(YList(items)).items[i] == ToJson(items[i])
  {
  }

  /** A map becomes the object built from its stringified pairs. */
  lemma MapConverted(es: seq<(YamlKey, Yaml)>)
    ensures ToJson(YMap(es)) == Obj(ToMap(Pairs(es)))
  {
    assert Pairs(es) == seq(|es|, i requires 0 <= i < |es| => (KeyText(es[i].0), ToJson(es[i].1)));
  }

  /** The keys of `toMap` are exactly the keys of the pairs. */
  lemma {:induction false} ToMapKeys(pairs: seq<(string, Value)>)
    ensures forall k :: k in ToMap(pairs) <==> exists j :: 0 <= j < |pairs| && pairs[j].0 == k
  {
    if pairs != [] {
      var init := pairs[..|pairs| - 1];
      ToMapKeys(init);
      assert ToMap(pairs) == ToMap(init)[pairs[|pairs| - 1].0 := pairs[|pairs| - 1].1];
      forall k | k in ToMap(pairs) ensures exists j :: 0 <= j < |pairs| && pairs[j].0 == k {
        if k != pairs[|pairs| - 1].0 {
          assert k in ToMap(init);
          var j :| 0 <= j < |init| && init[j].0 == k;
          assert pairs[j] == init[j];
        }
      }
      forall k | exists j :: 0 <= j < |pairs| && pairs[j].0 == k ensures k in ToMap(pairs) {
        var j :| 0 <= j < |pairs| && pairs[j].0 == k;
        if j < |init| {
          assert init[j] == pairs[j];
        }
      }
    }
  }

  /** The later pair wins: the value under a key is the one of the last pair
      carrying that key. */
  lemma {:induction false} ToMapLastWins(pairs: seq<(string, Value)>, j: nat)
    requires j < |pairs|
    requires forall l :: j < l < |pairs| ==> pairs[l].0 != pairs[j].0
    ensures pairs[j].0 in ToMap(pairs) && ToMap(pairs)[pairs[j].0] == pairs[j].1
  {
    if j < |pairs| - 1 {
      var init := pairs[..|pairs| - 1];
      assert init[j] == pairs[j];
      forall l | j < l < |init| ensures init[l].0 != init[j].0 {
        assert init[l] == pairs[l];
      }
      ToMapLastWins(init, j);
    }
  }

  /** A YAML map becomes an object keyed by the texts of its keys, whose
      value under each key is the converted value of the last entry whose
      key has that text. */
  lemma ObjectOfMap(es: seq<(YamlKey, Yaml)>, j: nat)
    requires j < |es|
    requires forall l :: j < l < |es| ==> KeyText(es[l].0) != KeyText(es[j].0)
    ensures ToJson(YMap(es)).fields.Keys == set l | 0 <= l < |es| :: KeyText(es[l].0)
    ensures ToJson(YMap(es)).fields[KeyText(es[j].0)] == ToJson(es[j].1)
  {
    var ps := Pairs(es);
    MapConverted(es);
    ToMapKeys(ps);
    ToMapLastWins(ps, j);
    forall k | k in ToMap(ps) ensures k in set l | 0 <= l < |es| :: KeyText(es[l].0) {
      var l :| 0 <= l < |ps| && ps[l].0 == k;
      assert KeyText(es[l].0) == k;
    }
    forall k | k in set l | 0 <= l < |es| :: KeyText(es[l].0) ensures k in ToMap(ps) {
      var l :| 0 <= l < |es| && KeyText(es[l].0) == k;
      assert ps[l].0 == k;
    }
  }

  /** Two keys with the same text collapse into one entry, the later one's. */
  lemma DuplicateKeyLaterWins(k1: YamlKey, v1: Yaml, k2: YamlKey, v2: Yaml)
    requires KeyText(k1) == KeyText(k2)
    ensures ToJson(YMap([(k1, v1), (k2, v2)])) == Obj(map[KeyText(k2) := ToJson(v2)])
  {
    MapConverted([(k1, v1), (k2, v2)]);
    var ps := Pairs([(k1, v1), (k2, v2)]);
    assert ps[..1] == [(KeyText(k1), ToJson(v1))];
    assert ps[..1][..0] == [];
    assert ToMap(ps[..1]) == map[KeyText(k1) := ToJson(v1)];
    assert ToMap(ps) == map[KeyText(k1) := ToJson(v1)][KeyText(k2) := ToJson(v2)];
  }

  // ---------------------------------------------------------------------------
  // Download, parse, then save

  /** The foreign steps of `parseYamlConfig`: SnakeYAML's `load` and the JSON
      decoder, each `None` where the library throws. */
  datatype YamlLibrary = YamlLibrary(load: string -> Option<Yaml>, decode: Value -> Option<Configuration>)

  /** The outcome of the HTTP call: an exception, or a response with its
      status and its body, if any. */
  datatype HttpOutcome =
    | HttpThrew(message: string)
    | HttpResponse(successful: bool, code: int, body: Option<string>)

  /** `parseYamlConfig`: load, convert, decode; any exception gives `null`. */
  function ParseYamlConfig(lib: YamlLibrary, content: string): (r: Option<Configuration>)
    ensures r.Some? ==> lib.load(content).Some? && lib.decode(ToJson(lib.load(content).value)) == r
  {
    match lib.load(content)
    case None => None
    case Some(y) => lib.decode(ToJson(y))
  }

  /** What `downloadAndSaveConfig` decides before saving anything: the
      configuration and the raw YAML to save, or the failure's message. */
  function DownloadOutcome(lib: YamlLibrary, response: HttpOutcome): (r: Result<(Configuration, string), string>)
    ensures r.Ok? <==>
      && response.HttpResponse? && response.successful && response.body.Some?
      && ParseYamlConfig(lib, response.body.value).Some?
    ensures r.Ok? ==> r.value.1 == response.body.value && Some(r.value.0) == ParseYamlConfig(lib, r.value.1)
    ensures response.HttpResponse? && !response.successful ==> r == Err("HTTP " + IntToString(response.code))
    ensures response.HttpResponse? && response.successful && response.body.None? ==> r == Err("Empty body")
  {
    match response
    case HttpThrew(message) => Err(message)
    case HttpResponse(successful, code, body) =>
      if !successful then Err("HTTP " + IntToString(code))
      else if body.None? then Err("Empty body")
      else
        match ParseYamlConfig(lib, body.value)
        case None => Err("Parse failed")
        case Some(config) => Ok((config, body.value))
  }

  /** The text of a successful `downloadAndSaveConfig`; `devices.size`
      counts each device name once. */
  function UpdatedMessage(config: Configuration): string {
    "Config updated: " + NatToString(|DeviceKeys(config.devices)|) + " devices"
  }

  class RemoteConfigManager {
    const deviceConfigManager: DeviceConfigurationManager
    const lib: YamlLibrary
    /** The `raw_yaml` and `last_update` preferences. */
    var rawYaml: Option<string>
    var lastUpdate: int

    constructor(deviceConfigManager: DeviceConfigurationManager, lib: YamlLibrary, rawYaml: Option<string>, lastUpdate: int)
      ensures this.deviceConfigManager == deviceConfigManager && this.lib == lib
      ensures this.rawYaml == rawYaml && this.lastUpdate == lastUpdate
    {
      this.deviceConfigManager := deviceConfigManager;
      this.lib := lib;
      this.rawYaml := rawYaml;
      this.lastUpdate := lastUpdate;
    }

    /** `saveRawYaml`, with the clock's reading `now`. */
    method SaveRawYaml(yamlContent: string, now: int)
      modifies this
      ensures rawYaml == Some(yamlContent) && lastUpdate == now
    {
      rawYaml := Some(yamlContent);
      lastUpdate := now;
    }

    /** `downloadAndSaveConfig`: the configuration and the raw YAML are saved
        only after the body has parsed; every failure saves nothing. */
    method DownloadAndSaveConfig(response: HttpOutcome, now: int) returns (r: Result<string, string>)
      modifies this, deviceConfigManager
      ensures var o := DownloadOutcome(lib, response);
        && (o.Err? ==> r == Err(o.error))
        && (o.Ok? ==> r == Ok(UpdatedMessage(o.value.0)))
      ensures var o := DownloadOutcome(lib, response);
        if o.Ok? then
          && deviceConfigManager.currentConfig == Some(o.value.0)
          && deviceConfigManager.stored == Some(DeviceConfigurationManager.SerializeToJson(o.value.0))
          && rawYaml == Some(o.value.1) && lastUpdate == now
        else
          && deviceConfigManager.currentConfig == old(deviceConfigManager.currentConfig)
          && deviceConfigManager.stored == old(deviceConfigManager.stored)
          && rawYaml == old(rawYaml) && lastUpdate == old(lastUpdate)
    {
      if response.HttpThrew? {
        return Err(response.message);
      }
      if !response.successful {
        return Err("HTTP " + IntToString(response.code));
      }
      if response.body.None? {
        return Err("Empty body");
      }
      var yamlContent := response.body.value;
      var parsedConfig := ParseYamlConfig(lib, yamlContent);
      if parsedConfig.None? {
        return Err("Parse failed");
      }
      deviceConfigManager.SaveConfiguration(parsedConfig.value);
      SaveRawYaml(yamlContent, now);
      r := Ok(UpdatedMessage(parsedConfig.value));
    }
  }
}
