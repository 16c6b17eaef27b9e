/**
 * The Flask application configuration as the extension sees it: a map from
 * key to value, the defaults `init_app` fills in, and the required keys it
 * reads back.
 */
module Config {
  import opened Wrappers

  /** The configuration values that matter to the extension. */
  datatype ConfigValue = NoneValue | BoolValue(b: bool) | IntValue(i: int) | StrValue(s: string)

  type AppConfig = map<string, ConfigValue>

  /** Python truthiness: `None`, `False`, `0` and `""` are falsy. */
  predicate Truthy(v: ConfigValue): (t: bool)
    ensures !t <==> v in {NoneValue, BoolValue(false), IntValue(0), StrValue("")}
  {
    match v
    case NoneValue => false
    case BoolValue(b) => b
    case IntValue(i) => i != 0
    case StrValue(s) => s != ""
  }

  /** `config.get(key)`: the value, or `None` when the key is absent. */
  function Get(c: AppConfig, key: string): ConfigValue {
    if key in c then c[key] else NoneValue
  }

  /** `config.get(key, default)`. */
  function GetOr(c: AppConfig, key: string, default: ConfigValue): ConfigValue {
    if key in c then c[key] else default
  }

  const REGION_KEY: string := "COGNITO_REGION"
  const USERPOOL_ID_KEY: string := "COGNITO_USERPOOL_ID"
  const APP_CLIENT_ID_KEY: string := "COGNITO_APP_CLIENT_ID"
  const HEADER_NAME_KEY: string := "COGNITO_JWT_HEADER_NAME"
  const HEADER_PREFIX_KEY: string := "COGNITO_JWT_HEADER_PREFIX"
  const CHECK_EXPIRATION_KEY: string := "COGNITO_CHECK_TOKEN_EXPIRATION"

  const DEFAULT_HEADER_NAME: string := "Authorization"
  const DEFAULT_HEADER_PREFIX: string := "Bearer"

  /** `CONFIG_DEFAULTS`, in its declaration order. */
  const CONFIG_DEFAULTS: seq<(string, ConfigValue)> := [
    (CHECK_EXPIRATION_KEY, BoolValue(true)),
    (HEADER_NAME_KEY, StrValue(DEFAULT_HEADER_NAME)),
    (HEADER_PREFIX_KEY, StrValue(DEFAULT_HEADER_PREFIX))
  ]

  /** The five keys `init_app` requires, in the order it reads them. */
  const REQUIRED_KEYS: seq<string> :=
    [REGION_KEY, USERPOOL_ID_KEY, APP_CLIENT_ID_KEY, HEADER_NAME_KEY, HEADER_PREFIX_KEY]

  /** `config.setdefault(key, value)`, as a new map. */
  function SetDefault(c: AppConfig, key: string, value: ConfigValue): (r: AppConfig)
    ensures r.Keys == c.Keys + {key}
    ensures key in c ==> r == c
    ensures key !in c ==> r[key] == value
    ensures forall k :: k in c ==> r[k] == c[k]
  {
    if key in c then c else c[key := value]
  }

  /** The keys of a list of defaults. */
  function KeysOf(d: seq<(string, ConfigValue)>): set<string> {
    set i | 0 <= i < |d| :: d[i].0
  }

  predicate DistinctKeys(d: seq<(string, ConfigValue)>) {
    forall i, j :: 0 <= i < j < |d| ==> d[i].0 != d[j].0
  }

  /**
   * `setdefault` applied to each pair of `d` in turn: exactly the missing
   * default keys are added, and every key already present keeps its value.
   */
  function ApplyDefaults(c: AppConfig, d: seq<(string, ConfigValue)>): (r: AppConfig)
    ensures r.Keys == c.Keys + KeysOf(d)
    ensures forall k :: k in c ==> r[k] == c[k]
    decreases |d|
  {
    if d == [] then c
    else
      KeysOfSnoc(d);
      SetDefault(ApplyDefaults(c, d[..|d| - 1]), d[|d| - 1].0, d[|d| - 1].1)
  }

  lemma KeysOfSnoc(d: seq<(string, ConfigValue)>)
    requires d != []
    ensures KeysOf(d) == KeysOf(d[..|d| - 1]) + {d[|d| - 1].0}
  {
  }

  /** With distinct keys, each key the loop adds holds its default. */
  lemma {:induction false} ApplyDefaultsValues(c: AppConfig, d: seq<(string, ConfigValue)>, i: nat)
    requires DistinctKeys(d) && i < |d| && d[i].0 !in c
    ensures d[i].0 in ApplyDefaults(c, d) && ApplyDefaults(c, d)[d[i].0] == d[i].1
    decreases |d|
  {
    var front := d[..|d| - 1];
    var a := ApplyDefaults(c, front);
    assert ApplyDefaults(c, d) == SetDefault(a, d[|d| - 1].0, d[|d| - 1].1);
    if i < |d| - 1 {
      assert front[i] == d[i];
      assert DistinctKeys(front);
      ApplyDefaultsValues(c, front, i);
      assert d[i].0 in a;
    } else {
      assert d[i].0 !in KeysOf(front);
      assert d[i].0 !in a;
    }
  }

  /**
   * The configuration after `init_app`'s defaulting loop: each of the three
   * defaulted keys holds its old value when it was present and its default
   * otherwise; every other key is untouched.
   */
  function WithDefaults(c: AppConfig): (r: AppConfig)
    ensures r.Keys == c.Keys + {CHECK_EXPIRATION_KEY, HEADER_NAME_KEY, HEADER_PREFIX_KEY}
    ensures r[CHECK_EXPIRATION_KEY] ==
      if CHECK_EXPIRATION_KEY in c then c[CHECK_EXPIRATION_KEY] else BoolValue(true)
    ensures r[HEADER_NAME_KEY] ==
      if HEADER_NAME_KEY in c then c[HEADER_NAME_KEY] else StrValue(DEFAULT_HEADER_NAME)
    ensures r[HEADER_PREFIX_KEY] ==
      if HEADER_PREFIX_KEY in c then c[HEADER_PREFIX_KEY] else StrValue(DEFAULT_HEADER_PREFIX)
    ensures forall k :: k in c ==> r[k] == c[k]
  {
    DefaultsAdded(c);
    ApplyDefaults(c, CONFIG_DEFAULTS)
  }

  /** Each of the three defaults lands on its key when that key was missing. */
  lemma DefaultsAdded(c: AppConfig)
    ensures KeysOf(CONFIG_DEFAULTS) == {CHECK_EXPIRATION_KEY, HEADER_NAME_KEY, HEADER_PREFIX_KEY}
    ensures CHECK_EXPIRATION_KEY !in c ==> ApplyDefaults(c, CONFIG_DEFAULTS)[CHECK_EXPIRATION_KEY] == BoolValue(true)
    ensures HEADER_NAME_KEY !in c ==>
      ApplyDefaults(c, CONFIG_DEFAULTS)[HEADER_NAME_KEY] == StrValue(DEFAULT_HEADER_NAME)
    ensures HEADER_PREFIX_KEY !in c ==>
      ApplyDefaults(c, CONFIG_DEFAULTS)[HEADER_PREFIX_KEY] == StrValue(DEFAULT_HEADER_PREFIX)
  {
    var d := CONFIG_DEFAULTS;
    assert d[0].0 == CHECK_EXPIRATION_KEY && d[1].0 == HEADER_NAME_KEY && d[2].0 == HEADER_PREFIX_KEY;
    assert DistinctKeys(d);
    assert KeysOf(d) == {CHECK_EXPIRATION_KEY, HEADER_NAME_KEY, HEADER_PREFIX_KEY} by {
      assert d[0].0 in KeysOf(d) && d[1].0 in KeysOf(d) && d[2].0 in KeysOf(d);
    }
    if CHECK_EXPIRATION_KEY !in c { ApplyDefaultsValues(c, d, 0); }
    if HEADER_NAME_KEY !in c { ApplyDefaultsValues(c, d, 1); }
    if HEADER_PREFIX_KEY !in c { ApplyDefaultsValues(c, d, 2); }
  }

  /** The message of the exception `_get_required_config` raises. */
  function MissingMessage(name: string): string {
    name + " not found in app configuration but it is required."
  }

  /** `_get_required_config`: the value when it is truthy, else an error naming the key. */
  function GetRequiredConfig(c: AppConfig, name: string): (r: Result<ConfigValue, string>)
    ensures r.Success? <==> name in c && Truthy(c[name])
    ensures r.Success? ==> r.value == c[name]
    ensures r.Failure? ==> r.error == MissingMessage(name)
  {
    var v := Get(c, name);
    if !Truthy(v) then Failure(MissingMessage(name)) else Success(v)
  }

  /** The values of the required keys, in reading order (`None` for an absent key). */
  function RequiredValues(c: AppConfig): (vs: seq<ConfigValue>)
    ensures |vs| == |REQUIRED_KEYS|
  {
    seq(|REQUIRED_KEYS|, i requires 0 <= i < |REQUIRED_KEYS| => Get(c, REQUIRED_KEYS[i]))
  }

  function FirstFalsyFrom(c: AppConfig, i: nat): (j: nat)
    requires i <= |REQUIRED_KEYS|
    ensures i <= j <= |REQUIRED_KEYS|
    ensures forall k :: i <= k < j ==> GetRequiredConfig(c, REQUIRED_KEYS[k]).Success?
    ensures j < |REQUIRED_KEYS| ==> GetRequiredConfig(c, REQUIRED_KEYS[j]).Failure?
    decreases |REQUIRED_KEYS| - i
  {
    if i == |REQUIRED_KEYS| || GetRequiredConfig(c, REQUIRED_KEYS[i]).Failure? then i
    else FirstFalsyFrom(c, i + 1)
  }

  /**
   * The position of the first required key `init_app` rejects; 5 when it
   * accepts all of them.
   */
  function FirstFalsy(c: AppConfig): (j: nat)
    ensures j <= |REQUIRED_KEYS|
    ensures forall k :: 0 <= k < j ==> REQUIRED_KEYS[k] in c && Truthy(c[REQUIRED_KEYS[k]])
    ensures j < |REQUIRED_KEYS| ==> !Truthy(Get(c, REQUIRED_KEYS[j]))
    ensures j == |REQUIRED_KEYS| <==>
      forall k :: 0 <= k < |REQUIRED_KEYS| ==> Truthy(Get(c, REQUIRED_KEYS[k]))
  {
    FirstFalsyFrom(c, 0)
  }

  /** The fields `init_app` sets on the extension object. */
  datatype Settings = Settings(
    region: ConfigValue,
    userpoolId: ConfigValue,
    appClientId: ConfigValue,
    jwtHeaderName: ConfigValue,
    jwtHeaderPrefix: ConfigValue,
    checkExpiration: ConfigValue)

  /**
   * What `init_app` makes of a configuration whose defaults are already in
   * place: the settings, or the message naming the first required key that
   * is absent or falsy.
   */
  function ConfiguredSettings(c: AppConfig): (r: Result<Settings, string>)
    ensures r.Success? <==>
      forall k :: 0 <= k < |REQUIRED_KEYS| ==> Truthy(Get(c, REQUIRED_KEYS[k]))
    ensures r.Failure? ==> r.error == MissingMessage(REQUIRED_KEYS[FirstFalsy(c)])
    ensures r.Success? ==>
      && r.value.region == c[REGION_KEY] && r.value.userpoolId == c[USERPOOL_ID_KEY]
      && r.value.appClientId == c[APP_CLIENT_ID_KEY] && r.value.jwtHeaderName == c[HEADER_NAME_KEY]
      && r.value.jwtHeaderPrefix == c[HEADER_PREFIX_KEY]
      && r.value.checkExpiration == GetOr(c, CHECK_EXPIRATION_KEY, BoolValue(true))
  {
    var j := FirstFalsy(c);
    if j < |REQUIRED_KEYS| then Failure(MissingMessage(REQUIRED_KEYS[j]))
    else
      assert REQUIRED_KEYS[0] == REGION_KEY && REQUIRED_KEYS[1] == USERPOOL_ID_KEY;
      assert REQUIRED_KEYS[2] == APP_CLIENT_ID_KEY && REQUIRED_KEYS[3] == HEADER_NAME_KEY;
      assert REQUIRED_KEYS[4] == HEADER_PREFIX_KEY;
      Success(Settings(c[REGION_KEY], c[USERPOOL_ID_KEY], c[APP_CLIENT_ID_KEY],
                       c[HEADER_NAME_KEY], c[HEADER_PREFIX_KEY],
                       GetOr(c, CHECK_EXPIRATION_KEY, BoolValue(true))))
  }

  /**
   * With the three provider coordinates set and no header or expiry settings
   * of its own, an application gets header `Authorization`, prefix `Bearer`
   * and expiry checking on.
   */
  lemma DefaultSettings(c: AppConfig)
    requires Truthy(Get(c, REGION_KEY)) && Truthy(Get(c, USERPOOL_ID_KEY)) && Truthy(Get(c, APP_CLIENT_ID_KEY))
    requires HEADER_NAME_KEY !in c && HEADER_PREFIX_KEY !in c && CHECK_EXPIRATION_KEY !in c
    ensures ConfiguredSettings(WithDefaults(c)) ==
      Success(Settings(c[REGION_KEY], c[USERPOOL_ID_KEY], c[APP_CLIENT_ID_KEY],
                       StrValue(DEFAULT_HEADER_NAME), StrValue(DEFAULT_HEADER_PREFIX), BoolValue(true)))
  {
    var w := WithDefaults(c);
    assert Get(w, REQUIRED_KEYS[0]) == c[REGION_KEY];
    assert Get(w, REQUIRED_KEYS[1]) == c[USERPOOL_ID_KEY];
    assert Get(w, REQUIRED_KEYS[2]) == c[APP_CLIENT_ID_KEY];
    assert Get(w, REQUIRED_KEYS[3]) == StrValue(DEFAULT_HEADER_NAME);
    assert Get(w, REQUIRED_KEYS[4]) == StrValue(DEFAULT_HEADER_PREFIX);
  }

  /**
   * A provider coordinate that is absent or falsy, after all earlier required
   * keys were accepted, makes `init_app` fail with a message naming it.
   */
  lemma MissingCoordinate(c: AppConfig, j: nat)
    requires j < 3
    requires forall k :: 0 <= k < j ==> Truthy(Get(c, REQUIRED_KEYS[k]))
    requires !Truthy(Get(c, REQUIRED_KEYS[j]))
    ensures ConfiguredSettings(WithDefaults(c)) == Failure(MissingMessage(REQUIRED_KEYS[j]))
  {
    var w := WithDefaults(c);
    assert Get(w, REQUIRED_KEYS[0]) == Get(c, REQUIRED_KEYS[0]);
    assert Get(w, REQUIRED_KEYS[1]) == Get(c, REQUIRED_KEYS[1]);
    assert Get(w, REQUIRED_KEYS[2]) == Get(c, REQUIRED_KEYS[2]);
    FirstFalsyIs(w, j);
  }

  /** The first rejected key is determined by which keys are truthy. */
  lemma FirstFalsyIs(c: AppConfig, j: nat)
    requires j < |REQUIRED_KEYS|
    requires forall k :: 0 <= k < j ==> Truthy(Get(c, REQUIRED_KEYS[k]))
    requires !Truthy(Get(c, REQUIRED_KEYS[j]))
    ensures FirstFalsy(c) == j
  {
  }

  /**
   * `setdefault` does not replace a value that is present but falsy: an
   * explicitly empty header prefix is rejected rather than defaulted.
   */
  lemma EmptyPrefixNotDefaulted(c: AppConfig)
    requires Truthy(Get(c, REGION_KEY)) && Truthy(Get(c, USERPOOL_ID_KEY)) && Truthy(Get(c, APP_CLIENT_ID_KEY))
    requires HEADER_NAME_KEY !in c
    requires HEADER_PREFIX_KEY in c && c[HEADER_PREFIX_KEY] == StrValue("")
    ensures ConfiguredSettings(WithDefaults(c)) == Failure(MissingMessage(HEADER_PREFIX_KEY))
  {
    var w := WithDefaults(c);
    assert Get(w, REQUIRED_KEYS[0]) == c[REGION_KEY];
    assert Get(w, REQUIRED_KEYS[1]) == c[USERPOOL_ID_KEY];
    assert Get(w, REQUIRED_KEYS[2]) == c[APP_CLIENT_ID_KEY];
    assert Get(w, REQUIRED_KEYS[3]) == StrValue(DEFAULT_HEADER_NAME);
    assert Get(w, REQUIRED_KEYS[4]) == StrValue("");
  }

  /** Python's text for a value in an f-string. */
  function Format(v: ConfigValue): string {
    match v
    case NoneValue => "None"
    case BoolValue(b) => if b then "True" else "False"
    case IntValue(i) => if i < 0 then "-" + Decimal(-i) else Decimal(i)
    case StrValue(s) => s
  }

  function Decimal(n: nat): (s: string)
    ensures |s| > 0
    decreases n
  {
    if n < 10 then ["0123456789"[n]] else Decimal(n / 10) + ["0123456789"[n % 10]]
  }
}
