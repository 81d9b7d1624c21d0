/**
 * The persistent records of the tester and their JSON key mapping (src/data.h).
 *
 * A JSON object is a map from key to value; ArduinoJson reads a missing key
 * as null, and its is<T>() checks become the predicates below.
 */
module Records {
  import opened Wrappers

  type u8 = x: int | 0 <= x < 0x100
  type u32 = x: int | 0 <= x < 0x1_0000_0000

  /** Conversion of an int to uint32_t: the result of any unsigned 32-bit arithmetic. */
  function Wrap32(x: int): u32 {
    x % 0x1_0000_0000
  }

  datatype JValue =
    | JString(s: string)
    | JInt(i: int)
    | JReal(r: real)
    | JBool(b: bool)
    | JNull
    | JObject(fields: map<string, JValue>)

  type JsonObject = map<string, JValue>

  /** obj[key]: null when the key is missing. */
  function Get(obj: JsonObject, key: string): JValue {
    if key in obj then obj[key] else JNull
  }

  /** is<const char*>() */
  predicate IsString(v: JValue) {
    v.JString?
  }

  /** is<float>(): any number, integral or not. */
  predicate IsFloat(v: JValue) {
    v.JInt? || v.JReal?
  }

  function AsFloat(v: JValue): real
    requires IsFloat(v)
  {
    if v.JInt? then v.i as real else v.r
  }

  /** is<uint8_t>() */
  predicate IsU8(v: JValue) {
    v.JInt? && 0 <= v.i < 0x100
  }

  /** is<uint>() and is<uint32_t>() */
  predicate IsU32(v: JValue) {
    v.JInt? && 0 <= v.i < 0x1_0000_0000
  }

  // ---------------------------------------------------------------- Config

  /** setAdmin's guard: user name of at most 32 characters, password of at most 64. */
  predicate AdminFits(user: string, pass: string) {
    |user| <= 32 && |pass| <= 64
  }

  /** setWifi's guard: SSID of at most 32 characters, password of at most 64. */
  predicate WifiFits(ssid: string, pass: string) {
    |ssid| <= 32 && |pass| <= 64
  }

  datatype ConfigData = ConfigData(
    wifiSsid: string, wifiPass: string, wwwUser: string, wwwPass: string,
    screwPitch: real, microStep: u8, speed: real, accDesc: real)

  /** The initial values of the Config fields. */
  const DEFAULT_CONFIG := ConfigData("Zyxel_E49C", "^t!pcm774K", "admin", "admin", 2.0, 8, 8.0, 4.0)

  /** The keys serializeItem always writes, and the three secrets it writes only when extra is false. */
  const PUBLIC_KEYS: set<string> := {"wifi_ssid", "acc_desc", "speed", "screw_pitch", "micro_step"}
  const SECRET_KEYS: set<string> := {"wifi_pass", "www_pass", "www_user"}

  /** Config::serializeItem into an empty object. */
  function ConfigToJson(c: ConfigData, extra: bool): (obj: JsonObject)
    ensures obj.Keys == if extra then PUBLIC_KEYS else PUBLIC_KEYS + SECRET_KEYS
  {
    var secrets := if extra then map[] else
      map["wifi_pass" := JString(c.wifiPass), "www_pass" := JString(c.wwwPass), "www_user" := JString(c.wwwUser)];
    secrets + map["wifi_ssid" := JString(c.wifiSsid),
                  "acc_desc" := JReal(c.accDesc), "speed" := JReal(c.speed),
                  "screw_pitch" := JReal(c.screwPitch), "micro_step" := JInt(c.microStep)]
  }

  /** The type check at the head of Config::deserializeItem: all eight keys present with the expected types. */
  predicate ConfigShape(obj: JsonObject) {
    && IsString(Get(obj, "wifi_ssid")) && IsString(Get(obj, "wifi_pass"))
    && IsString(Get(obj, "www_user")) && IsString(Get(obj, "www_pass"))
    && IsU8(Get(obj, "micro_step")) && IsFloat(Get(obj, "speed"))
    && IsFloat(Get(obj, "screw_pitch")) && IsFloat(Get(obj, "acc_desc"))
  }

  /**
   * Config::deserializeItem applied to the config `cur`: None (reject, nothing
   * changes) unless the shape is right; otherwise setAdmin, setWifi, setSpeed
   * and setMotor in that order, where the first two may each refuse.
   */
  function ConfigFromJson(obj: JsonObject, cur: ConfigData): Option<ConfigData> {
    if !ConfigShape(obj) then None
    else
      var user, pass := Get(obj, "www_user").s, Get(obj, "www_pass").s;
      var ssid, wpass := Get(obj, "wifi_ssid").s, Get(obj, "wifi_pass").s;
      var c1 := if AdminFits(user, pass) then cur.(wwwUser := user, wwwPass := pass) else cur;
      var c2 := if WifiFits(ssid, wpass) then c1.(wifiSsid := ssid, wifiPass := wpass) else c1;
      Some(c2.(speed := AsFloat(Get(obj, "speed")), accDesc := AsFloat(Get(obj, "acc_desc")),
               screwPitch := AsFloat(Get(obj, "screw_pitch")), microStep := Get(obj, "micro_step").i))
  }

  /** A full serialization of a config whose strings pass the setters' guards reads back as that config, whatever it is read into. */
  lemma ConfigRoundTrip(c: ConfigData, cur: ConfigData)
    requires AdminFits(c.wwwUser, c.wwwPass) && WifiFits(c.wifiSsid, c.wifiPass)
    ensures ConfigFromJson(ConfigToJson(c, false), cur) == Some(c)
  {
    var obj := ConfigToJson(c, false);
    assert Get(obj, "www_user") == JString(c.wwwUser) && Get(obj, "www_pass") == JString(c.wwwPass);
    assert Get(obj, "wifi_ssid") == JString(c.wifiSsid) && Get(obj, "wifi_pass") == JString(c.wifiPass);
    assert Get(obj, "micro_step") == JInt(c.microStep) && Get(obj, "speed") == JReal(c.speed);
    assert Get(obj, "screw_pitch") == JReal(c.screwPitch) && Get(obj, "acc_desc") == JReal(c.accDesc);
  }

  /** The public serialization (extra = true) leaves out the secrets, so it cannot be read back as a config. */
  lemma ConfigPublicIsNotAConfig(c: ConfigData, cur: ConfigData)
    ensures ConfigFromJson(ConfigToJson(c, true), cur) == None
    ensures forall k :: k in SECRET_KEYS ==> k !in ConfigToJson(c, true)
  {
    assert "www_user" !in ConfigToJson(c, true);
  }

  /**
   * A well-typed object is accepted even when setAdmin or setWifi refuse its
   * strings: the refused pair keeps its old values, the rest is taken.
   */
  lemma ConfigAcceptsOverlongStrings(obj: JsonObject, cur: ConfigData)
    requires ConfigShape(obj)
    ensures ConfigFromJson(obj, cur).Some?
    ensures var c := ConfigFromJson(obj, cur).value;
      && (!AdminFits(Get(obj, "www_user").s, Get(obj, "www_pass").s) ==> c.wwwUser == cur.wwwUser && c.wwwPass == cur.wwwPass)
      && (!WifiFits(Get(obj, "wifi_ssid").s, Get(obj, "wifi_pass").s) ==> c.wifiSsid == cur.wifiSsid && c.wifiPass == cur.wifiPass)
      && c.speed == AsFloat(Get(obj, "speed")) && c.microStep == Get(obj, "micro_step").i
  {
  }

  /** The Config struct, whose setters update its fields in place. */
  class Config {
    var wifiSsid: string
    var wifiPass: string
    var wwwUser: string
    var wwwPass: string
    var screwPitch: real
    var microStep: u8
    var speed: real
    var accDesc: real

    function Value(): ConfigData
      reads this
    {
      ConfigData(wifiSsid, wifiPass, wwwUser, wwwPass, screwPitch, microStep, speed, accDesc)
    }

    constructor ()
      ensures Value() == DEFAULT_CONFIG
    {
      wifiSsid, wifiPass := "Zyxel_E49C", "^t!pcm774K";
      wwwUser, wwwPass := "admin", "admin";
      screwPitch, microStep, speed, accDesc := 2.0, 8, 8.0, 4.0;
    }

    /** setAdmin: copies both strings when they fit; otherwise refuses and changes nothing. */
    method SetAdmin(user: string, pass: string) returns (ok: bool)
      modifies this
      ensures ok <==> AdminFits(user, pass)
      ensures Value() == if ok then old(Value()).(wwwUser := user, wwwPass := pass) else old(Value())
    {
      if |user| > 32 || |pass| > 64 {
        return false;
      }
      wwwUser := user;
      wwwPass := pass;
      return true;
    }

    /** setWifi: copies both strings when they fit; otherwise refuses and changes nothing. */
    method SetWifi(ssid: string, pass: string) returns (ok: bool)
      modifies this
      ensures ok <==> WifiFits(ssid, pass)
      ensures Value() == if ok then old(Value()).(wifiSsid := ssid, wifiPass := pass) else old(Value())
    {
      if |ssid| > 32 || |pass| > 64 {
        return false;
      }
      wifiSsid := ssid;
      wifiPass := pass;
      return true;
    }

    /** setSpeed: always succeeds and stores exactly its arguments. */
    method SetSpeed(newSpeed: real, newAccDesc: real) returns (ok: bool)
      modifies this
      ensures ok && Value() == old(Value()).(speed := newSpeed, accDesc := newAccDesc)
    {
      accDesc := newAccDesc;
      speed := newSpeed;
      return true;
    }

    /** setMotor: always succeeds and stores exactly its arguments. */
    method SetMotor(newScrewPitch: real, newMicroStep: u8) returns (ok: bool)
      modifies this
      ensures ok && Value() == old(Value()).(screwPitch := newScrewPitch, microStep := newMicroStep)
    {
      screwPitch := newScrewPitch;
      microStep := newMicroStep;
      return true;
    }

    /** deserializeItem: rejects an ill-typed object without change, otherwise runs the four setters. */
    method DeserializeItem(obj: JsonObject) returns (ok: bool)
      modifies this
      ensures ok <==> ConfigShape(obj)
      ensures Value() == if ok then ConfigFromJson(obj, old(Value())).value else old(Value())
    {
      if !ConfigShape(obj) {
        return false;
      }
      var _ := SetAdmin(Get(obj, "www_user").s, Get(obj, "www_pass").s);
      var _ := SetWifi(Get(obj, "wifi_ssid").s, Get(obj, "wifi_pass").s);
      var _ := SetSpeed(AsFloat(Get(obj, "speed")), AsFloat(Get(obj, "acc_desc")));
      var _ := SetMotor(AsFloat(Get(obj, "screw_pitch")), Get(obj, "micro_step").i);
      return true;
    }
  }

  // ---------------------------------------------------------------- SensorItem

  /** SensorItem: one (distance, force, time) sample; SensorItem::set is its constructor. */
  datatype Sample = Sample(distance: real, force: real, time: u32)

  /** SensorItem::serializeItem into an empty object. */
  function SampleToJson(s: Sample): JsonObject {
    map["d" := JReal(s.distance), "f" := JReal(s.force), "t" := JInt(s.time)]
  }

  /** SensorItem::deserializeItem: d and f numbers, t an unsigned 32-bit integer, or None. */
  function SampleFromJson(obj: JsonObject): Option<Sample> {
    var d, f, t := Get(obj, "d"), Get(obj, "f"), Get(obj, "t");
    if IsFloat(d) && IsFloat(f) && IsU32(t) then Some(Sample(AsFloat(d), AsFloat(f), t.i))
    else None
  }

  lemma SampleRoundTrip(s: Sample)
    ensures SampleFromJson(SampleToJson(s)) == Some(s)
  {
    var obj := SampleToJson(s);
    assert Get(obj, "d") == JReal(s.distance) && Get(obj, "f") == JReal(s.force) && Get(obj, "t") == JInt(s.time);
  }

  /** Every key is needed: a missing d, f or t, a d or f that is not a number, or a t that is not an unsigned integer, is a rejection. */
  lemma SampleNeedsEveryKey(obj: JsonObject, key: string)
    requires key in {"d", "f", "t"}
    requires key !in obj || (key in {"d", "f"} && !IsFloat(obj[key])) || (key == "t" && !IsU32(obj[key]))
    ensures SampleFromJson(obj) == None
  {
  }

  /** Accepting an object means serializing the result gives back its fields, as numbers. */
  lemma SampleFromJsonAgrees(obj: JsonObject)
    requires SampleFromJson(obj).Some?
    ensures var s := SampleFromJson(obj).value;
      && s.distance == AsFloat(obj["d"]) && s.force == AsFloat(obj["f"])
      && SampleToJson(s)["t"] == obj["t"]
  {
  }

  // ---------------------------------------------------------------- ResultItem

  /** ResultItem: a saved result's file path, name, date and description; ResultItem::set is its constructor. */
  datatype ResultItem = ResultItem(path: string, name: string, date: string, description: string)

  /** The four char buffers of ResultItem hold a string and its terminator. */
  predicate FitsBuffers(r: ResultItem) {
    |r.path| + 1 <= 55 && |r.name| + 1 <= 40 && |r.date| + 1 <= 40 && |r.description| + 1 <= 200
  }

  /** ResultItem::isValide: path under 53 characters, name and date under 38, description under 198. */
  function IsValide(path: string, name: string, date: string, description: string): (ok: bool)
    ensures ok ==> FitsBuffers(ResultItem(path, name, date, description))
    ensures ok ==> |path| + 2 < 55 && |name| + 2 < 40 && |date| + 2 < 40 && |description| + 2 < 200
  {
    |path| < 53 && |name| < 38 && |date| < 38 && |description| < 198
  }

  /** ResultItem::serializeItem into an empty object. */
  function ResultToJson(r: ResultItem): JsonObject {
    map["path" := JString(r.path), "name" := JString(r.name),
        "date" := JString(r.date), "description" := JString(r.description)]
  }

  /** ResultItem::deserializeItem: all four keys must be strings. */
  function ResultFromJson(obj: JsonObject): Option<ResultItem> {
    var p, n, d, e := Get(obj, "path"), Get(obj, "name"), Get(obj, "date"), Get(obj, "description");
    if IsString(p) && IsString(n) && IsString(d) && IsString(e) then Some(ResultItem(p.s, n.s, d.s, e.s))
    else None
  }

  lemma ResultRoundTrip(r: ResultItem)
    ensures ResultFromJson(ResultToJson(r)) == Some(r)
  {
    var obj := ResultToJson(r);
    assert Get(obj, "path") == JString(r.path) && Get(obj, "name") == JString(r.name);
    assert Get(obj, "date") == JString(r.date) && Get(obj, "description") == JString(r.description);
  }

  /** Accepted objects serialize back to themselves on the four keys. */
  lemma ResultFromJsonAgrees(obj: JsonObject)
    requires ResultFromJson(obj).Some?
    ensures forall k :: k in ResultToJson(ResultFromJson(obj).value) ==> k in obj && obj[k] == ResultToJson(ResultFromJson(obj).value)[k]
  {
  }

  /** A missing or non-string key is a rejection. */
  lemma ResultNeedsEveryKey(obj: JsonObject, key: string)
    requires key in {"path", "name", "date", "description"} && !IsString(Get(obj, key))
    ensures ResultFromJson(obj) == None
  {
  }
}
