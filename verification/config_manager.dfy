/** `ConfigManager`: the training configuration, stored as one JSON document
    in the object store and cached in memory, with every missing setting
    filled in from the defaults when it is loaded. */
module ConfigManagement {
  import opened Wrappers
  import opened Artifacts
  import opened Storage

  const ConfigFile := "configs/latest_config.json"

  /** The defaults, in their declaration order. */
  const DefaultItems: seq<(string, Json)> := [
    ("market_symbol", JStr("BTC/JPY")),
    ("training_period_months", JInt(3)),
    ("ensemble_ratio", JReal(0.5)),
    ("epochs", JInt(50)),
    ("test_ratio", JReal(0.2)),
    ("feature_lag_X_BB", JInt(5)),
    ("feature_lag_X_ATR", JInt(15)),
    ("target_lag_Y", JInt(3))
  ]

  function ItemKeys(items: seq<(string, Json)>): (ks: seq<string>)
    ensures |ks| == |items| && forall i :: 0 <= i < |items| ==> ks[i] == items[i].0
  {
    seq(|items|, i requires 0 <= i < |items| => items[i].0)
  }

  /** `d.setdefault(key, value)` on a dict. */
  function SetDefault(d: map<string, Json>, item: (string, Json)): map<string, Json> {
    if item.0 in d then d else d[item.0 := item.1]
  }

  /** The `setdefault` loop over the items, in order. */
  function SetDefaults(d: map<string, Json>, items: seq<(string, Json)>): map<string, Json>
    decreases |items|
  {
    if items == [] then d else SetDefault(SetDefaults(d, items[..|items| - 1]), items[|items| - 1])
  }

  /** After the loop every item's key is present, a stored key keeps its
      value, a missing key gets the value of its first item, and no other key
      appears. */
  lemma {:induction false} SetDefaultsSpec(d: map<string, Json>, items: seq<(string, Json)>)
    ensures forall k :: k in SetDefaults(d, items) <==> k in d || k in ItemKeys(items)
    ensures forall k :: k in d ==> SetDefaults(d, items)[k] == d[k]
    ensures forall j :: 0 <= j < |items| && ItemKeys(items)[j] !in d && ItemKeys(items)[j] !in ItemKeys(items[..j]) ==>
      SetDefaults(d, items)[ItemKeys(items)[j]] == items[j].1
    decreases |items|
  {
    if items != [] {
      var front := items[..|items| - 1];
      SetDefaultsSpec(d, front);
      assert ItemKeys(items) == ItemKeys(front) + [items[|items| - 1].0];
      forall j | 0 <= j < |items| && ItemKeys(items)[j] !in d && ItemKeys(items)[j] !in ItemKeys(items[..j])
        ensures SetDefaults(d, items)[ItemKeys(items)[j]] == items[j].1
      {
        if j < |items| - 1 {
          assert items[..j] == front[..j];
          assert front[j] == items[j];
        } else {
          assert items[..j] == front;
        }
      }
    }
  }

  /** When every item's key is already present, the loop changes nothing; so
      loading twice is loading once. */
  lemma {:induction false} SetDefaultsPresent(d: map<string, Json>, items: seq<(string, Json)>)
    requires forall i :: 0 <= i < |items| ==> items[i].0 in d
    ensures SetDefaults(d, items) == d
    decreases |items|
  {
    if items != [] {
      SetDefaultsPresent(d, items[..|items| - 1]);
      assert items[|items| - 1].0 in d;
    }
  }

  lemma SetDefaultsIdempotent(d: map<string, Json>, items: seq<(string, Json)>)
    ensures SetDefaults(SetDefaults(d, items), items) == SetDefaults(d, items)
  {
    SetDefaultsSpec(d, items);
    forall i | 0 <= i < |items|
      ensures items[i].0 in SetDefaults(d, items)
    {
      assert ItemKeys(items)[i] == items[i].0;
    }
    SetDefaultsPresent(SetDefaults(d, items), items);
  }

  /** What `load_config` does with the stored document: `None` (no document)
      and any document that is not an object have no `setdefault`, so the
      call raises. */
  function Loaded(stored: Option<Json>): (r: Result<map<string, Json>>)
    ensures r.Success? <==> stored.Some? && stored.value.JObject?
  {
    match stored
    case None => Failure("AttributeError: 'NoneType' object has no attribute 'setdefault'")
    case Some(JObject(fields)) => Success(SetDefaults(fields, DefaultItems))
    case Some(_) => Failure("AttributeError: object has no attribute 'setdefault'")
  }

  /** The request body of the config route: the eight settings, each typed. */
  datatype Config = Config(
    marketSymbol: string,
    trainingPeriodMonths: int,
    ensembleRatio: real,
    epochs: int,
    testRatio: real,
    featureLagXBB: int,
    featureLagXATR: int,
    targetLagY: int)

  /** `config.dict()`. */
  function ToFields(c: Config): map<string, Json> {
    map[
      "market_symbol" := JStr(c.marketSymbol),
      "training_period_months" := JInt(c.trainingPeriodMonths),
      "ensemble_ratio" := JReal(c.ensembleRatio),
      "epochs" := JInt(c.epochs),
      "test_ratio" := JReal(c.testRatio),
      "feature_lag_X_BB" := JInt(c.featureLagXBB),
      "feature_lag_X_ATR" := JInt(c.featureLagXATR),
      "target_lag_Y" := JInt(c.targetLagY)]
  }

  function AsInt(v: Json): Option<int> {
    if v.JInt? then Some(v.i) else None
  }

  /** A float field also takes an integer. */
  function AsReal(v: Json): Option<real> {
    if v.JReal? then Some(v.r) else if v.JInt? then Some(v.i as real) else None
  }

  /** Validation of a JSON object against the schema: every field present
      with a value of its type; extra keys are ignored. */
  function ParseConfig(f: map<string, Json>): (r: Option<Config>)
    ensures r.Some? ==> forall i :: 0 <= i < |DefaultItems| ==> DefaultItems[i].0 in f
  {
    if "market_symbol" in f && f["market_symbol"].JStr?
      && "training_period_months" in f && AsInt(f["training_period_months"]).Some?
      && "ensemble_ratio" in f && AsReal(f["ensemble_ratio"]).Some?
      && "epochs" in f && AsInt(f["epochs"]).Some?
      && "test_ratio" in f && AsReal(f["test_ratio"]).Some?
      && "feature_lag_X_BB" in f && AsInt(f["feature_lag_X_BB"]).Some?
      && "feature_lag_X_ATR" in f && AsInt(f["feature_lag_X_ATR"]).Some?
      && "target_lag_Y" in f && AsInt(f["target_lag_Y"]).Some?
    then
      Some(Config(f["market_symbol"].s, AsInt(f["training_period_months"]).value,
        AsReal(f["ensemble_ratio"]).value, AsInt(f["epochs"]).value, AsReal(f["test_ratio"]).value,
        AsInt(f["feature_lag_X_BB"]).value, AsInt(f["feature_lag_X_ATR"]).value, AsInt(f["target_lag_Y"]).value))
    else None
  }

  /** A validated config survives the round trip through its dict. */
  lemma ParseToFields(c: Config)
    ensures ParseConfig(ToFields(c)) == Some(c)
  {
  }

  /** One more item of the loop. */
  lemma SetDefaultsStep(d: map<string, Json>, items: seq<(string, Json)>, k: nat)
    requires k < |items|
    ensures SetDefaults(d, items[..k + 1]) == SetDefault(SetDefaults(d, items[..k]), items[k])
  {
    assert items[..k + 1][..k] == items[..k];
  }

  const DefaultConfig := Config("BTC/JPY", 3, 0.5, 50, 0.2, 5, 15, 3)

  /** Loading an empty document gives exactly the defaults, and they form a
      valid config: 3 months of data, 50 epochs, a 0.2 test split, lags 5, 15
      and 3, on BTC/JPY. */
  lemma DefaultsAreAConfig()
    ensures SetDefaults(map[], DefaultItems) == ToFields(DefaultConfig)
    ensures ParseConfig(SetDefaults(map[], DefaultItems)) == Some(DefaultConfig)
  {
    DefaultsFill();
    ParseToFields(DefaultConfig);
  }

  /** The loop over an empty document, item by item. */
  lemma DefaultsFill()
    ensures SetDefaults(map[], DefaultItems) == ToFields(DefaultConfig)
  {
    DefaultsFirstSix();
    var m: map<string, Json> := map["market_symbol" := JStr("BTC/JPY"), "training_period_months" := JInt(3),
                                    "ensemble_ratio" := JReal(0.5), "epochs" := JInt(50),
                                    "test_ratio" := JReal(0.2), "feature_lag_X_BB" := JInt(5)];
    SetDefaultsStep(map[], DefaultItems, 6);
    m := m["feature_lag_X_ATR" := JInt(15)];
    assert SetDefaults(map[], DefaultItems[..7]) == m;
    SetDefaultsStep(map[], DefaultItems, 7);
    m := m["target_lag_Y" := JInt(3)];
    assert SetDefaults(map[], DefaultItems[..8]) == m;
    assert DefaultItems[..8] == DefaultItems;
    assert m == ToFields(DefaultConfig);
  }

  /** The first six items over an empty document. */
  lemma DefaultsFirstSix()
    ensures SetDefaults(map[], DefaultItems[..6])
         == map["market_symbol" := JStr("BTC/JPY"), "training_period_months" := JInt(3),
                "ensemble_ratio" := JReal(0.5), "epochs" := JInt(50),
                "test_ratio" := JReal(0.2), "feature_lag_X_BB" := JInt(5)]
  {
    DefaultsFirstHalf();
    var m: map<string, Json> := map["market_symbol" := JStr("BTC/JPY"), "training_period_months" := JInt(3),
                                    "ensemble_ratio" := JReal(0.5), "epochs" := JInt(50)];
    SetDefaultsStep(map[], DefaultItems, 4);
    m := m["test_ratio" := JReal(0.2)];
    assert SetDefaults(map[], DefaultItems[..5]) == m;
    SetDefaultsStep(map[], DefaultItems, 5);
    m := m["feature_lag_X_BB" := JInt(5)];
    assert SetDefaults(map[], DefaultItems[..6]) == m;
  }

  /** The first four items over an empty document. */
  lemma DefaultsFirstHalf()
    ensures SetDefaults(map[], DefaultItems[..4])
         == map["market_symbol" := JStr("BTC/JPY"), "training_period_months" := JInt(3),
                "ensemble_ratio" := JReal(0.5), "epochs" := JInt(50)]
  {
    var m: map<string, Json> := map[];
    assert SetDefaults(map[], DefaultItems[..0]) == m;
    SetDefaultsStep(map[], DefaultItems, 0);
    m := m["market_symbol" := JStr("BTC/JPY")];
    assert SetDefaults(map[], DefaultItems[..1]) == m;
    SetDefaultsStep(map[], DefaultItems, 1);
    m := m["training_period_months" := JInt(3)];
    assert SetDefaults(map[], DefaultItems[..2]) == m;
    SetDefaultsStep(map[], DefaultItems, 2);
    m := m["ensemble_ratio" := JReal(0.5)];
    assert SetDefaults(map[], DefaultItems[..3]) == m;
    SetDefaultsStep(map[], DefaultItems, 3);
    m := m["epochs" := JInt(50)];
  }

  /** Saving a validated config through the route and loading it again gives
      exactly that config's dict: nothing is missing, so no default applies. */
  lemma SavedConfigLoadsUnchanged(objects: map<string, Blob>, c: Config)
    ensures Loaded(JsonAt(objects[ConfigFile := JsonDoc(JObject(ToFields(c)))], ConfigFile)) == Success(ToFields(c))
  {
    assert forall i :: 0 <= i < |DefaultItems| ==> DefaultItems[i].0 in ToFields(c);
    SetDefaultsPresent(ToFields(c), DefaultItems);
  }

  class ConfigManager {
    const s3: S3Store
    /** The cached configuration; `JNull` before a document is loaded. */
    var configData: Json

    /** The part of `__init__` before `load_config`. */
    constructor(s3: S3Store)
      ensures this.s3 == s3 && configData == JNull
    {
      this.s3 := s3;
      configData := JNull;
    }

    /** `load_config`: the cache is replaced by the stored document and then
        completed from the defaults; without a stored object it raises, the
        cache holding what was read. */
    method LoadConfig() returns (r: Result<map<string, Json>>)
      modifies this
      ensures r == Loaded(JsonAt(s3.objects, ConfigFile))
      ensures r.Success? ==> configData == JObject(r.value)
      ensures r.Failure? ==> configData == (if JsonAt(s3.objects, ConfigFile).Some? then JsonAt(s3.objects, ConfigFile).value else JNull)
    {
      var stored := s3.LoadJson(ConfigFile);
      if stored.None? {
        configData := JNull;
        return Failure("AttributeError: 'NoneType' object has no attribute 'setdefault'");
      }
      configData := stored.value;
      if !configData.JObject? {
        return Failure("AttributeError: object has no attribute 'setdefault'");
      }
      var fields := configData.fields;
      var i := 0;
      while i < |DefaultItems|
        invariant 0 <= i <= |DefaultItems|
        invariant configData == JObject(SetDefaults(fields, DefaultItems[..i]))
      {
        assert DefaultItems[..i + 1][..i] == DefaultItems[..i];
        var (key, value) := DefaultItems[i];
        if key !in configData.fields {
          configData := JObject(configData.fields[key := value]);
        }
        i := i + 1;
      }
      assert DefaultItems[..|DefaultItems|] == DefaultItems;
      r := Success(configData.fields);
    }

    /** `save_config`: the document is stored and the cache replaced by
        exactly it, without the defaults. */
    method SaveConfig(data: map<string, Json>)
      modifies this, s3
      ensures s3.objects == old(s3.objects)[ConfigFile := JsonDoc(JObject(data))]
      ensures configData == JObject(data)
    {
      s3.SaveJson(JObject(data), ConfigFile);
      configData := JObject(data);
    }

    /** `get_config`: the cache as it is. */
    function GetConfig(): Json
      reads this
    {
      configData
    }
  }

  /** The cache behind `get_config_manager`: the first successful call
      creates and loads the manager, every later call returns that one; a
      call that raises leaves nothing cached. */
  class ManagerCache {
    var instance: Option<ConfigManager>

    constructor()
      ensures instance == None
    {
      instance := None;
    }

    method GetConfigManager(s3: S3Store) returns (r: Result<ConfigManager>)
      modifies this
      ensures old(instance).Some? ==> r == Success(old(instance).value) && instance == old(instance)
      ensures old(instance).None? ==>
        (r.Success? <==> Loaded(JsonAt(s3.objects, ConfigFile)).Success?)
        && (r.Success? ==>
              instance == Some(r.value) && r.value.s3 == s3
              && r.value.configData == JObject(Loaded(JsonAt(s3.objects, ConfigFile)).value))
        && (r.Failure? ==> instance == None)
    {
      if instance.Some? {
        return Success(instance.value);
      }
      var m := new ConfigManager(s3);
      var loaded := m.LoadConfig();
      if loaded.Failure? {
        return Failure(loaded.error);
      }
      instance := Some(m);
      r := Success(m);
    }
  }
}
