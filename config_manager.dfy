/** The configuration of the room notifier: a JSON object whose keys override a
    fixed set of defaults, and the validator that decides whether the service may
    start with it. */
module ConfigManager {
  import opened Wrappers

  /** A value as `json.load` produces it. Python's `bool` is a subclass of `int`,
      which matters to the validator below. */
  datatype Json =
    | JNull
    | JBool(b: bool)
    | JInt(i: int)
    | JFloat(r: real)
    | JString(s: string)
    | JArray(items: seq<Json>)
    | JObject(fields: map<string, Json>)

  type Config = map<string, Json>

  /** Python truthiness of a JSON value. */
  predicate Truthy(v: Json)
  {
    match v
    case JNull => false
    case JBool(b) => b
    case JInt(i) => i != 0
    case JFloat(r) => r != 0.0
    case JString(s) => s != []
    case JArray(xs) => xs != []
    case JObject(m) => m != map[]
  }

  /** `isinstance(v, int)`: true of integers and of booleans. */
  predicate IsPyInt(v: Json)
  {
    v.JInt? || v.JBool?
  }

  /** The integer value of an `int` or `bool`. */
  function PyIntValue(v: Json): int
    requires IsPyInt(v)
  {
    if v.JInt? then v.i else if v.b then 1 else 0
  }

  /** `len(v)`, or None where Python raises `TypeError`. */
  function PyLen(v: Json): Option<nat>
  {
    match v
    case JString(s) => Some(|s|)
    case JArray(xs) => Some(|xs|)
    case JObject(m) => Some(|m|)
    case _ => None
  }

  /** `config.get(key)`: the value, or None for a missing key. */
  function Get(config: Config, key: string): Json
  {
    if key in config then config[key] else JNull
  }

  const RoomEmail := "room@example.com"

  /** The shipped defaults: the four required keys and the three service
      settings. There is no `data_retention_days` entry. */
  function DefaultConfig(): (r: Config)
    ensures forall k :: k in RequiredKeys ==> k in r
    ensures "check_interval_minutes" in r && "db_file" in r && "session_name" in r
    ensures "data_retention_days" !in r
    ensures |r.Keys| == 7
  {
    map[
      "room_email" := JString(RoomEmail),
      "telegram_api_id" := JInt(0),
      "telegram_api_hash" := JString(""),
      "telegram_chat_id" := JInt(-1000000000000),
      "check_interval_minutes" := JInt(5),
      "db_file" := JString("room_bookings.db"),
      "session_name" := JString("room_notifier")
    ]
  }

  /** What reading `config.json` gave. */
  datatype ConfigFile =
    | Missing                  // os.path.exists is false
    | Unreadable(error: string)  // open or json.load raised
    | Parsed(document: Json)

  /** The entries the file contributes: those of a top-level JSON object, none otherwise. */
  function FileOverrides(file: ConfigFile): Config
  {
    if file.Parsed? && file.document.JObject? then file.document.fields else map[]
  }

  /** Copy the defaults, then let the file's entries replace them. The defaults
      are a value here, so the copy leaves `DefaultConfig()` itself untouched. */
  method LoadConfig(file: ConfigFile) returns (config: Config)
    ensures forall k :: k in DefaultConfig() ==> k in config
    ensures forall k :: k in config <==> k in DefaultConfig() || k in FileOverrides(file)
    ensures forall k :: k in FileOverrides(file) ==> config[k] == FileOverrides(file)[k]
    ensures forall k :: k in DefaultConfig() && k !in FileOverrides(file) ==> config[k] == DefaultConfig()[k]
    ensures !file.Parsed? ==> config == DefaultConfig()
  {
    config := DefaultConfig();
    if file.Parsed? && file.document.JObject? {
      config := config + file.document.fields;
    }
  }

  const RequiredKeys: seq<string> := ["room_email", "telegram_api_id", "telegram_api_hash", "telegram_chat_id"]

  /** The keys of `keys`, in order, whose value in `config` is missing or falsy. */
  function MissingKeys(config: Config, keys: seq<string>): (r: seq<string>)
    ensures forall k :: k in r <==> k in keys && !Truthy(Get(config, k))
    ensures |r| <= |keys|
  {
    if keys == [] then []
    else (if Truthy(Get(config, keys[0])) then [] else [keys[0]]) + MissingKeys(config, keys[1..])
  }

  /** The validator's verdict. Only `Accepted` makes `validate_config` return True;
      `HashNotSized` is the `TypeError` that `len()` raises on a number or `true`. */
  datatype Verdict =
    | Accepted(weakHash: bool)
    | Incomplete(missing: seq<string>)
    | BadApiId
    | HashNotSized
    | BadChatId

  /** The four required entries are present and truthy, the API id is a positive
      integer, the hash has a length and the chat id is an integer. */
  predicate Acceptable(config: Config)
  {
    && (forall k :: k in RequiredKeys ==> Truthy(Get(config, k)))
    && IsPyInt(Get(config, "telegram_api_id")) && PyIntValue(Get(config, "telegram_api_id")) > 0
    && PyLen(Get(config, "telegram_api_hash")).Some?
    && IsPyInt(Get(config, "telegram_chat_id"))
  }

  function ValidateConfig(config: Config): (v: Verdict)
    ensures v.Accepted? <==> Acceptable(config)
    ensures v.Incomplete? <==> exists k :: k in RequiredKeys && !Truthy(Get(config, k))
    ensures v.Accepted? ==> (v.weakHash <==> PyLen(Get(config, "telegram_api_hash")).value < 8)
  {
    var missing := MissingKeys(config, RequiredKeys);
    if missing != [] then
      assert missing[0] in missing;
      Incomplete(missing)
    else
      var apiId := Get(config, "telegram_api_id");
      var apiHash := Get(config, "telegram_api_hash");
      if !IsPyInt(apiId) || PyIntValue(apiId) <= 0 then BadApiId
      else if PyLen(apiHash).None? then HashNotSized
      else if !IsPyInt(Get(config, "telegram_chat_id")) then BadChatId
      else Accepted(PyLen(apiHash).value < 8)
  }

  /** A short hash only warns: changing the hash to another non-empty string
      never changes whether the configuration is accepted. */
  lemma HashLengthOnlyWarns(config: Config, h1: string, h2: string)
    requires h1 != [] && h2 != []
    ensures ValidateConfig(config["telegram_api_hash" := JString(h1)]).Accepted?
        == ValidateConfig(config["telegram_api_hash" := JString(h2)]).Accepted?
  {
    var c1, c2 := config["telegram_api_hash" := JString(h1)], config["telegram_api_hash" := JString(h2)];
    forall k | k in RequiredKeys
      ensures Truthy(Get(c1, k)) == Truthy(Get(c2, k))
    {
    }
  }

  /** The required entries of the shipped defaults. */
  lemma DefaultRequiredEntries()
    ensures Get(DefaultConfig(), "room_email") == JString(RoomEmail)
    ensures Get(DefaultConfig(), "telegram_api_id") == JInt(0)
    ensures Get(DefaultConfig(), "telegram_api_hash") == JString("")
    ensures Get(DefaultConfig(), "telegram_chat_id") == JInt(-1000000000000)
  {
  }

  /** With a truthy room and chat id, a falsy API id and hash are reported together, in order. */
  lemma MissingIdAndHash(config: Config)
    requires Truthy(Get(config, "room_email")) && Truthy(Get(config, "telegram_chat_id"))
    requires !Truthy(Get(config, "telegram_api_id")) && !Truthy(Get(config, "telegram_api_hash"))
    ensures ValidateConfig(config) == Incomplete(["telegram_api_id", "telegram_api_hash"])
  {
    assert MissingKeys(config, RequiredKeys[3..]) == [];
    assert MissingKeys(config, RequiredKeys[2..]) == ["telegram_api_hash"];
    assert MissingKeys(config, RequiredKeys[1..]) == ["telegram_api_id", "telegram_api_hash"];
  }

  /** The shipped defaults are rejected: the API id is 0 and the hash is empty. */
  lemma DefaultConfigRejected()
    ensures ValidateConfig(DefaultConfig()) == Incomplete(["telegram_api_id", "telegram_api_hash"])
  {
    DefaultRequiredEntries();
    MissingIdAndHash(DefaultConfig());
  }
}
