/**
 * What the two managers (KeyManager.php, EncryptionManager.php) share, as each
 * repeats it: resolving a driver name, looking up and normalising its
 * configuration, and turning an engine name into the creator method PHP finds.
 */
module ManagerConfig {
  import opened Wrappers
  import opened Bytes
  import opened Primitives

  /** One entry of cryptographer.drivers: `engine` ('' when unset), `cipher` and `key` (None when unset or null). */
  datatype DriverConfig = DriverConfig(engine: string, cipher: Option<string>, key: Option<Bytes>)

  /**
   * The configuration repository as the managers read it:
   * cryptographer.default-driver, cryptographer.default-key, the names of
   * cryptographer.keys and of cryptographer.drivers in order (None when the
   * entry is absent), and the drivers (none when the entry is absent).
   */
  datatype AppConfig = AppConfig(
    defaultDriver: Option<string>,
    defaultKey: Option<string>,
    keyNames: Option<seq<string>>,
    driverNames: Option<seq<string>>,
    drivers: map<string, DriverConfig>)

  /** driverNames lists the configured drivers, each once; an absent list means no drivers. */
  predicate WellFormed(cfg: AppConfig) {
    var names := cfg.driverNames.GetOr([]);
    && (forall i :: 0 <= i < |names| ==> names[i] in cfg.drivers)
    && (forall n :: n in cfg.drivers ==> n in names)
    && (forall i, j :: 0 <= i < j < |names| ==> names[i] != names[j])
  }

  /** PHP truthiness of a driver name: null (or false), '' and '0' are falsy. */
  predicate Falsy(name: Option<string>) {
    name.None? || name.value == "" || name.value == "0"
  }

  /** `$name ?: $default` */
  function ResolveName(name: Option<string>, default: Option<string>): (r: Option<string>)
    ensures !Falsy(name) ==> r == name
    ensures Falsy(name) ==> r == default
  {
    if Falsy(name) then default else name
  }

  /** `$driver ?: $this->getDefaultDriver()` in driver(): the default, and any error computing it throws, matter only for a falsy name. */
  function Resolve(name: Option<string>, default: Result<Option<string>, Error>): (r: Result<Option<string>, Error>)
    ensures !Falsy(name) ==> r == Ok(name)
    ensures Falsy(name) ==> r == default
  {
    if Falsy(name) then default else Ok(name)
  }

  /** When the default is at hand, driver()'s resolution is configuration()'s. */
  lemma ResolveAgrees(name: Option<string>, default: Option<string>)
    ensures Resolve(name, Ok(default)) == Ok(ResolveName(name, default))
  {
  }

  /** Resolving a resolved name again changes nothing, so configuration's own `?:` agrees with driver's. */
  lemma ResolveNameIdempotent(name: Option<string>, default: Option<string>)
    ensures ResolveName(ResolveName(name, default), default) == ResolveName(name, default)
  {
  }

  /** PHP empty() on the key: null or false, '' and '0'. */
  predicate EmptyKey(key: Option<Bytes>) {
    key.None? || key.value == [] || key.value == ZERO_TEXT
  }

  /** A "base64:"-prefixed key becomes the (lenient) decoding of the rest; false is None. Any other key is kept. */
  function DecodeKey(b64: Base64, key: Option<Bytes>): (r: Option<Bytes>)
    ensures key.None? ==> r.None?
    ensures key.Some? && !StartsWith(key.value, BASE64_PREFIX) ==> r == key
    ensures key.Some? && StartsWith(key.value, BASE64_PREFIX) ==> r == b64.decode(key.value[|BASE64_PREFIX|..])
  {
    if key.Some? && StartsWith(key.value, BASE64_PREFIX) then b64.decode(key.value[|BASE64_PREFIX|..]) else key
  }

  function NotConfigured(name: Option<string>): Error {
    InvalidArgument("Encrypter [" + name.GetOr("") + "] not configured.")
  }

  function NoKey(name: string): Error {
    RuntimeError("No encryption key has been specified for driver [" + name + "].")
  }

  /** configuration($name): look the (defaulted) name up, decode a "base64:" key, refuse an empty key. */
  function Configuration(cfg: AppConfig, b64: Base64, name: Option<string>, default: Option<string>): (r: Result<DriverConfig, Error>)
    ensures var n := ResolveName(name, default);
      && (n.None? || n.value !in cfg.drivers ==> r == Err(NotConfigured(n)))
      && (n.Some? && n.value in cfg.drivers ==>
            var k := DecodeKey(b64, cfg.drivers[n.value].key);
            if EmptyKey(k) then r == Err(NoKey(n.value))
            else r == Ok(cfg.drivers[n.value].(key := k)))
  {
    var n := ResolveName(name, default);
    if n.None? || n.value !in cfg.drivers then Err(NotConfigured(n))
    else
      var c := cfg.drivers[n.value];
      var k := DecodeKey(b64, c.key);
      if EmptyKey(k) then Err(NoKey(n.value)) else Ok(c.(key := k))
  }

  /**
   * What driver($name) does before it consults its cache: resolve the name
   * (throwing what computing the default throws), then configuration of the
   * resolved name, whose own `?:` yields that same name again.
   */
  function Configure(cfg: AppConfig, b64: Base64, name: Option<string>, default: Result<Option<string>, Error>): (r: Result<DriverConfig, Error>)
    ensures Resolve(name, default).Err? ==> r == Err(Resolve(name, default).error)
    ensures Resolve(name, default).Ok? ==> r == Configuration(cfg, b64, Resolve(name, default).value, Resolve(name, default).value)
    ensures !Falsy(name) ==> r == Configuration(cfg, b64, name, None)
  {
    match Resolve(name, default)
    case Err(e) => Err(e)
    case Ok(n) => Configuration(cfg, b64, n, n)
  }

  /** An explicit (truthy) name never computes the default, so a broken default list cannot affect it. */
  lemma ExplicitNameSkipsDefault(cfg: AppConfig, b64: Base64, name: Option<string>, d1: Result<Option<string>, Error>, d2: Result<Option<string>, Error>)
    requires !Falsy(name)
    ensures Configure(cfg, b64, name, d1) == Configure(cfg, b64, name, d2)
  {
  }

  /** A successful configuration keeps the engine and cipher of the configured entry and carries a non-empty key. */
  lemma ConfigurationResult(cfg: AppConfig, b64: Base64, name: Option<string>, default: Option<string>)
    requires Configuration(cfg, b64, name, default).Ok?
    ensures var n := ResolveName(name, default);
      && n.Some? && n.value in cfg.drivers
      && Configuration(cfg, b64, name, default).value.engine == cfg.drivers[n.value].engine
      && Configuration(cfg, b64, name, default).value.cipher == cfg.drivers[n.value].cipher
      && !EmptyKey(Configuration(cfg, b64, name, default).value.key)
  {
  }

  /** The key the key:generate command writes, "base64:" ++ base64(k), resolves to k itself whenever k is not empty. */
  lemma Base64KeyRoundTrip(cfg: AppConfig, b64: Base64, name: string, k: Bytes)
    requires Base64Sound(b64)
    requires name in cfg.drivers && name != "" && name != "0"
    requires cfg.drivers[name].key == Some(BASE64_PREFIX + b64.encode(k))
    ensures !EmptyKey(Some(k)) ==> Configuration(cfg, b64, Some(name), None) == Ok(cfg.drivers[name].(key := Some(k)))
    ensures EmptyKey(Some(k)) ==> Configuration(cfg, b64, Some(name), None) == Err(NoKey(name))
  {
    var full := BASE64_PREFIX + b64.encode(k);
    assert StartsWith(full, BASE64_PREFIX);
    assert full[|BASE64_PREFIX|..] == b64.encode(k);
    assert b64.decodeStrict(b64.encode(k)) == Some(k);
  }

  /** A base64 key that does not decode is refused as empty, never passed on. */
  lemma UndecodableKeyRefused(cfg: AppConfig, b64: Base64, name: string)
    requires name in cfg.drivers && name != "" && name != "0"
    requires cfg.drivers[name].key.Some? && StartsWith(cfg.drivers[name].key.value, BASE64_PREFIX)
    requires b64.decode(cfg.drivers[name].key.value[|BASE64_PREFIX|..]).None?
    ensures Configuration(cfg, b64, Some(name), None) == Err(NoKey(name))
  {
  }

  /** The TypeError PHP 8 raises for array_keys(null). */
  const ARRAY_KEYS_NULL: string := "array_keys(): Argument #1 ($array) must be of type array, null given"

  /**
   * EncryptionManager::getDefaultDriver: array_keys(cryptographer.drivers) is
   * computed first, and throws when the entry is absent; then
   * cryptographer.default-driver when set, else the first configured driver
   * (false, None, when there is none).
   */
  function DefaultDriver(cfg: AppConfig): (r: Result<Option<string>, Error>)
    ensures cfg.driverNames.None? <==> r == Err(TypeError(ARRAY_KEYS_NULL))
    ensures cfg.driverNames.Some? && cfg.defaultDriver.Some? ==> r == Ok(cfg.defaultDriver)
    ensures cfg.driverNames.Some? && cfg.defaultDriver.None? && WellFormed(cfg) ==>
      r.Ok? && (r.value.Some? <==> cfg.drivers != map[]) && (r.value.Some? ==> r.value.value in cfg.drivers)
  {
    if cfg.driverNames.None? then Err(TypeError(ARRAY_KEYS_NULL))
    else if cfg.defaultDriver.Some? then Ok(cfg.defaultDriver)
    else if |cfg.driverNames.value| > 0 then
      assert cfg.driverNames.GetOr([]) == cfg.driverNames.value;
      assert WellFormed(cfg) ==> cfg.driverNames.value[0] in cfg.drivers;
      Ok(Some(cfg.driverNames.value[0]))
    else
      assert WellFormed(cfg) ==> forall n :: n !in cfg.drivers;
      Ok(None)
  }

  /**
   * KeyManager::getDefaultDriver: cryptographer.default-key when set; only
   * otherwise array_keys(cryptographer.keys), which throws when the entry is
   * absent, and its first name (false, None, when there is none).
   */
  function DefaultKey(cfg: AppConfig): (r: Result<Option<string>, Error>)
    ensures cfg.defaultKey.Some? ==> r == Ok(cfg.defaultKey)
    ensures cfg.defaultKey.None? && cfg.keyNames.None? ==> r == Err(TypeError(ARRAY_KEYS_NULL))
    ensures cfg.defaultKey.None? && cfg.keyNames.Some? ==>
      r.Ok? && (r.value.Some? <==> |cfg.keyNames.value| > 0) && (r.value.Some? ==> r.value.value == cfg.keyNames.value[0])
  {
    if cfg.defaultKey.Some? then Ok(cfg.defaultKey)
    else if cfg.keyNames.None? then Err(TypeError(ARRAY_KEYS_NULL))
    else if |cfg.keyNames.value| > 0 then Ok(Some(cfg.keyNames.value[0]))
    else Ok(None)
  }

  /** ASCII lower-casing, as PHP compares method names. */
  function Lower(c: char): char {
    if 'A' <= c <= 'Z' then (c as int + 32) as char else c
  }

  /**
   * The lower-cased 'create'.Str::studly($name).'...' infix: Str::studly
   * drops '-', '_' and ' ' and changes only letter case, and method_exists
   * ignores case.
   */
  function StudlyKey(name: string): (r: string)
    ensures |r| <= |name|
    ensures forall i :: 0 <= i < |r| ==> r[i] != '-' && r[i] != '_' && r[i] != ' ' && !('A' <= r[i] <= 'Z')
  {
    if name == [] then []
    else if name[0] in {'-', '_', ' '} then StudlyKey(name[1..])
    else [Lower(name[0])] + StudlyKey(name[1..])
  }

  /** Separators and letter case do not change which method a name selects. */
  lemma {:induction false} StudlyKeyAppend(a: string, b: string)
    ensures StudlyKey(a + b) == StudlyKey(a) + StudlyKey(b)
  {
    if a != [] {
      assert (a + b)[1..] == a[1..] + b;
      StudlyKeyAppend(a[1..], b);
    } else {
      assert a + b == b;
    }
  }

  /** A name without separators selects the method spelled by its lower-cased letters. */
  lemma {:induction false} StudlyKeyNoSeparators(name: string)
    requires forall i :: 0 <= i < |name| ==> name[i] != '-' && name[i] != '_' && name[i] != ' '
    ensures StudlyKey(name) == seq(|name|, i requires 0 <= i < |name| => Lower(name[i]))
  {
    if name != [] {
      StudlyKeyNoSeparators(name[1..]);
    }
  }

  /** Inserting a separator anywhere in a name does not change the method it selects. */
  lemma SeparatorIgnored(a: string, sep: char, b: string)
    requires sep in {'-', '_', ' '}
    ensures StudlyKey(a + [sep] + b) == StudlyKey(a + b)
  {
    StudlyKeyAppend(a + [sep], b);
    StudlyKeyAppend(a, [sep]);
    StudlyKeyAppend(a, b);
  }
}
