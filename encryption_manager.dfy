/**
 * The engine manager (EncryptionManager.php): a name-keyed cache of engines
 * built from cryptographer.drivers, dispatch to custom creators or the two
 * built-in engines, forwarding of encrypt/decrypt to the default engine, and
 * the registry of engine classes used by generateKey.
 */
module EncryptionManager {
  import opened Wrappers
  import opened Bytes
  import opened Primitives
  import opened ManagerConfig
  import BaseEngine
  import OpenSslEngine
  import SodiumEngine
  import Kms
  import KeyManager

  /** Facts about the PHP process: extension_loaded('sodium') and hardware AES-256-GCM. */
  datatype Platform = Platform(sodiumLoaded: bool, aesGcmAvailable: bool)

  /** An engine the manager can hold. */
  datatype EngineInstance =
    | OpenSsl(openssl: OpenSslEngine.Engine)
    | Sodium(sodium: SodiumEngine.Engine)

  /** getKey of either engine. */
  function InstanceKey(inst: EngineInstance): (k: Bytes)
    ensures k == (match inst case OpenSsl(e) => e.key case Sodium(e) => e.key)
    ensures |k| in {16, 32}
  {
    match inst
    case OpenSsl(e) => OpenSslEngine.GetKey(e)
    case Sodium(e) => SodiumEngine.GetKey(e)
  }

  /** encryptString of either engine, with the nonce drawn from `random`. */
  function InstanceEncryptString(inst: EngineInstance, c: Crypto, m: Bytes, random: RandomSource): (r: Result<Bytes, Error>)
    ensures r.Err? ==> inst.OpenSsl? && r.error == EncryptError(OpenSslEngine.ENCRYPT_FAILED)
  {
    match inst
    case OpenSsl(e) => OpenSslEngine.EncryptString(e, c, m, OpenSslEngine.GenerateNonce(e, random))
    case Sodium(e) => SodiumEngine.EncryptString(e, c.aead, m, SodiumEngine.GenerateNonce(e, random))
  }

  /** decryptString of either engine; `random` supplies the CBC engine's MAC-blinding bytes. */
  function InstanceDecryptString(inst: EngineInstance, c: Crypto, payload: Bytes, random: RandomSource): (r: Result<Bytes, Error>)
    ensures r.Err? ==> r.error.DecryptError? || r.error.SodiumFailure?
  {
    match inst
    case OpenSsl(e) => OpenSslEngine.DecryptString(e, c, payload, random(16))
    case Sodium(e) => SodiumEngine.DecryptString(e, c.aead, payload)
  }

  function InstanceEncrypt<V>(inst: EngineInstance, c: Crypto, s: Serializer<V>, value: V, random: RandomSource): (r: Result<Bytes, Error>)
    ensures r.Err? ==> inst.OpenSsl?
  {
    InstanceEncryptString(inst, c, s.serialize(value), random)
  }

  function InstanceDecrypt<V>(inst: EngineInstance, c: Crypto, s: Serializer<V>, payload: Bytes, random: RandomSource): (r: Result<V, Error>)
    ensures r.Err? ==> r.error.DecryptError? || r.error.SodiumFailure?
  {
    match InstanceDecryptString(inst, c, payload, random)
    case Err(err) => Err(err)
    case Ok(m) => Ok(s.unserialize(m))
  }

  /** Whatever engine is behind the manager, decryptString undoes encryptString. */
  lemma InstanceRoundTrip(inst: EngineInstance, c: Crypto, m: Bytes, r1: RandomSource, r2: RandomSource)
    requires Base64Sound(c.b64) && JsonSound(c.json) && CbcSound(c.cbc) && AeadSound(c.aead)
    requires InstanceEncryptString(inst, c, m, r1).Ok?
    ensures InstanceDecryptString(inst, c, InstanceEncryptString(inst, c, m, r1).value, r2) == Ok(m)
  {
    match inst
    case OpenSsl(e) =>
      OpenSslEngine.RoundTripString(e, c, m, OpenSslEngine.GenerateNonce(e, r1), r2(16));
    case Sodium(e) =>
      SodiumEngine.RoundTripString(e, c.aead, m, SodiumEngine.GenerateNonce(e, r1));
  }

  /** decrypt(encrypt(v)) == v through the manager's engine. */
  lemma InstanceRoundTripValue<V(!new)>(inst: EngineInstance, c: Crypto, s: Serializer<V>, value: V, r1: RandomSource, r2: RandomSource)
    requires Base64Sound(c.b64) && JsonSound(c.json) && CbcSound(c.cbc) && AeadSound(c.aead) && SerializerSound(s)
    requires InstanceEncrypt(inst, c, s, value, r1).Ok?
    ensures InstanceDecrypt(inst, c, s, InstanceEncrypt(inst, c, s, value, r1).value, r2) == Ok(value)
  {
    InstanceRoundTrip(inst, c, s.serialize(value), r1, r2);
  }

  /** A closure registered with extend: it receives the key (as the key driver yields it) and the configuration. */
  type Creator = (Bytes, DriverConfig) -> Result<EngineInstance, Error>

  const SODIUM_REQUIRED: string := "Sodium PHP extension is required to use the sodium engine."

  function EngineNotSupported(engine: string): Error {
    InvalidArgument("Engine [" + engine + "] not supported.")
  }

  /** createOpenSslEngine($keyDriver, $config) */
  function CreateOpenSslEngine(key: Bytes, c: DriverConfig): (r: Result<EngineInstance, Error>)
    ensures r.Ok? <==> OpenSslEngine.New(key, c.cipher).Ok?
    ensures r.Ok? ==> r.value == OpenSsl(OpenSslEngine.New(key, c.cipher).value)
    ensures r.Err? ==> r.error == RuntimeError(BaseEngine.UnsupportedMessage(OpenSslEngine.Table))
  {
    match OpenSslEngine.New(key, c.cipher)
    case Err(e) => Err(e)
    case Ok(e) => Ok(OpenSsl(e))
  }

  /** createSodiumEngine($keyDriver, $config): the extension must be loaded. */
  function CreateSodiumEngine(p: Platform, key: Bytes, c: DriverConfig): (r: Result<EngineInstance, Error>)
    ensures !p.sodiumLoaded ==> r == Err(RuntimeError(SODIUM_REQUIRED))
    ensures r.Ok? <==> p.sodiumLoaded && SodiumEngine.New(p.aesGcmAvailable, key, c.cipher).Ok?
    ensures r.Ok? ==> r.value == Sodium(SodiumEngine.New(p.aesGcmAvailable, key, c.cipher).value)
  {
    if !p.sodiumLoaded then Err(RuntimeError(SODIUM_REQUIRED))
    else
      match SodiumEngine.New(p.aesGcmAvailable, key, c.cipher)
      case Err(e) => Err(e)
      case Ok(e) => Ok(Sodium(e))
  }

  /** Which creator createDriver reaches for an engine name with no custom creator. */
  datatype Route = OpenSslRoute | SodiumRoute | NoRoute

  /** 'create'.Str::studly($engine).'Engine' against the manager's methods, compared without case. */
  function BuiltInRoute(engine: string): (r: Route)
    ensures r == OpenSslRoute <==> StudlyKey(engine) == "openssl"
    ensures r == SodiumRoute <==> StudlyKey(engine) == "sodium"
  {
    var k := StudlyKey(engine);
    if k == "openssl" then OpenSslRoute else if k == "sodium" then SodiumRoute else NoRoute
  }

  /** Spellings that differ only in case and in '-', '_' or ' ' reach the same built-in engine. */
  lemma RouteIgnoresSpelling(e1: string, e2: string)
    requires StudlyKey(e1) == StudlyKey(e2)
    ensures BuiltInRoute(e1) == BuiltInRoute(e2)
  {
  }

  /** The lower-case name "openssl" selects createOpenSslEngine. */
  lemma OpenSslRouted()
    ensures BuiltInRoute("openssl") == OpenSslRoute
  {
    StudlyKeyNoSeparators("openssl");
    assert StudlyKey("openssl") == "openssl";
  }

  /** "OpenSSL" selects it too: method lookup ignores case. */
  lemma MixedCaseRouted()
    ensures BuiltInRoute("OpenSSL") == OpenSslRoute
  {
    StudlyKeyNoSeparators("OpenSSL");
    assert StudlyKey("OpenSSL") == "openssl";
  }

  /** "open_ssl" selects it too: Str::studly drops the underscore. */
  lemma SeparatedRouted()
    ensures BuiltInRoute("open_ssl") == OpenSslRoute
  {
    SeparatorIgnored("open", '_', "ssl");
    assert "open" + ['_'] + "ssl" == "open_ssl";
    assert "open" + "ssl" == "openssl";
    OpenSslRouted();
  }

  /** "sodium" selects createSodiumEngine. */
  lemma SodiumRouted()
    ensures BuiltInRoute("sodium") == SodiumRoute
  {
    StudlyKeyNoSeparators("sodium");
    assert StudlyKey("sodium") == "sodium";
  }

  /**
   * createDriver($config): the key driver's key for the configured key (whose
   * failure ends createDriver), then a custom creator if one is registered for
   * the engine, else the built-in creator the engine name selects, else
   * "Engine [...] not supported.".
   */
  function CreateEngine(creators: map<string, Creator>, p: Platform, keyLookup: Bytes -> Result<Bytes, Error>, c: DriverConfig): (r: Result<EngineInstance, Error>)
    ensures var k := keyLookup(c.key.GetOr([]));
      && (k.Err? ==> r == Err(k.error))
      && (k.Ok? && c.engine in creators ==> r == creators[c.engine](k.value, c))
      && (k.Ok? && c.engine !in creators && BuiltInRoute(c.engine) == OpenSslRoute ==> r == CreateOpenSslEngine(k.value, c))
      && (k.Ok? && c.engine !in creators && BuiltInRoute(c.engine) == SodiumRoute ==> r == CreateSodiumEngine(p, k.value, c))
      && (k.Ok? && c.engine !in creators && BuiltInRoute(c.engine) == NoRoute ==> r == Err(EngineNotSupported(c.engine)))
  {
    match keyLookup(c.key.GetOr([]))
    case Err(e) => Err(e)
    case Ok(key) =>
      if c.engine in creators then creators[c.engine](key, c)
      else
        match BuiltInRoute(c.engine)
        case OpenSslRoute => CreateOpenSslEngine(key, c)
        case SodiumRoute => CreateSodiumEngine(p, key, c)
        case NoRoute => Err(EngineNotSupported(c.engine))
  }

  /** A built-in engine holds the looked-up key and the configured cipher (defaulted by the engine). */
  lemma BuiltInEngineMatchesConfig(creators: map<string, Creator>, p: Platform, keyLookup: Bytes -> Result<Bytes, Error>, c: DriverConfig)
    requires c.engine !in creators
    requires CreateEngine(creators, p, keyLookup, c).Ok?
    ensures keyLookup(c.key.GetOr([])).Ok?
    ensures match CreateEngine(creators, p, keyLookup, c).value
      case OpenSsl(e) => e.key == keyLookup(c.key.GetOr([])).value && e.cipher == c.cipher.GetOr(OpenSslEngine.AES_128_CBC)
      case Sodium(e) => p.sodiumLoaded && e.key == keyLookup(c.key.GetOr([])).value && e.cipher == c.cipher.GetOr(SodiumEngine.X_CHACHA_IETF)
  {
  }

  class EncryptionManager {
    const config: AppConfig
    const b64: Base64
    const platform: Platform
    /** What `$keyManager->key($config['key'])` yields: the key bytes an engine is given, or the error it throws. */
    const keyLookup: Bytes -> Result<Bytes, Error>
    /** The foreign primitives the engines call. */
    const crypto: Crypto
    var customCreators: map<string, Creator>
    var drivers: map<string, EngineInstance>
    /** The names for which an engine was constructed, in order. */
    ghost var built: seq<string>

    ghost predicate Valid()
      reads this
    {
      && (forall i, j :: 0 <= i < j < |built| ==> built[i] != built[j])
      && (forall n :: n in drivers <==> n in built)
    }

    /** The engine driver($name) answers with in the current state, if any. */
    ghost function Instance(name: Option<string>): Option<EngineInstance>
      reads this
    {
      var n := Resolve(name, DefaultDriver(config));
      if Configure(config, b64, name, DefaultDriver(config)).Ok? && n.Ok? && n.value.Some? && n.value.value in drivers
      then Some(drivers[n.value.value]) else None
    }

    /** What driver($name) returns in the current state: the configuration error, the cached engine, or a new one. */
    ghost function Lookup(name: Option<string>): Result<EngineInstance, Error>
      reads this
    {
      var n := Resolve(name, DefaultDriver(config));
      var c := Configure(config, b64, name, DefaultDriver(config));
      if c.Err? then Err(c.error)
      else if n.Ok? && n.value.Some? && n.value.value in drivers then Ok(drivers[n.value.value])
      else CreateEngine(customCreators, platform, keyLookup, c.value)
    }

    /** The cache only grows, by the resolved name at most, and the creators stay as they were. */
    twostate predicate CacheGrowsBy(name: Option<string>)
      reads this
    {
      && customCreators == old(customCreators)
      && (forall n :: n in old(drivers) ==> n in drivers && drivers[n] == old(drivers)[n])
      && (forall n :: n in drivers ==> n in old(drivers) || Ok(Some(n)) == Resolve(name, DefaultDriver(config)))
      && |built| <= |old(built)| + 1
    }

    constructor (config: AppConfig, b64: Base64, platform: Platform, keyLookup: Bytes -> Result<Bytes, Error>, crypto: Crypto)
      ensures Valid()
      ensures this.config == config && this.b64 == b64 && this.platform == platform
      ensures this.keyLookup == keyLookup && this.crypto == crypto
      ensures customCreators == map[] && drivers == map[] && built == []
    {
      this.config := config;
      this.b64 := b64;
      this.platform := platform;
      this.keyLookup := keyLookup;
      this.crypto := crypto;
      customCreators := map[];
      drivers := map[];
      built := [];
    }

    /** extend($engine, $callback): replaces any earlier creator for that engine and returns the manager. */
    method Extend(engine: string, creator: Creator) returns (self: EncryptionManager)
      modifies this
      ensures self == this
      ensures customCreators == old(customCreators)[engine := creator]
      ensures drivers == old(drivers) && built == old(built)
    {
      customCreators := customCreators[engine := creator];
      self := this;
    }

    /** driver($driver = null): configuration on every call, then the cached engine or a new one, cached. */
    method Driver(name: Option<string>) returns (r: Result<EngineInstance, Error>)
      requires Valid()
      modifies this
      ensures Valid()
      ensures customCreators == old(customCreators)
      ensures r == old(Lookup(name))
      ensures CacheGrowsBy(name)
      ensures r.Ok? <==> Instance(name).Some?
      ensures r.Ok? ==> r.value == Instance(name).value
      ensures old(Instance(name)).Some? ==> drivers == old(drivers)
      ensures var n := Resolve(name, DefaultDriver(config));
              var c := Configure(config, b64, name, DefaultDriver(config));
        && (c.Err? ==> r == Err(c.error) && drivers == old(drivers) && built == old(built))
        && (c.Ok? ==> n.Ok? && n.value.Some?)
        && (c.Ok? && n.Ok? && n.value.Some? && n.value.value in old(drivers) ==>
              r == Ok(old(drivers)[n.value.value]) && drivers == old(drivers) && built == old(built))
        && (c.Ok? && n.Ok? && n.value.Some? && n.value.value !in old(drivers) ==>
              && r == CreateEngine(customCreators, platform, keyLookup, c.value)
              && (r.Ok? ==> drivers == old(drivers)[n.value.value := r.value] && built == old(built) + [n.value.value])
              && (r.Err? ==> drivers == old(drivers) && built == old(built)))
    {
      var n := Resolve(name, DefaultDriver(config));
      var c := Configure(config, b64, name, DefaultDriver(config));
      if c.Err? {
        return Err(c.error);
      }
      ConfigurationResult(config, b64, n.value, n.value);
      var key := n.value.value;
      if key in drivers {
        return Ok(drivers[key]);
      }
      r := CreateEngine(customCreators, platform, keyLookup, c.value);
      if r.Ok? {
        drivers := drivers[key := r.value];
        built := built + [key];
      }
    }

    /** encryptString($value): the default engine's encryptString. */
    method EncryptString(m: Bytes, random: RandomSource) returns (r: Result<Bytes, Error>)
      requires Valid()
      modifies this
      ensures Valid()
      ensures old(Instance(None)).Some? ==> drivers == old(drivers)
      ensures CacheGrowsBy(None)
      ensures old(Lookup(None)).Err? ==> r == Err(old(Lookup(None)).error)
      ensures Instance(None).None? ==> r.Err?
      ensures Instance(None).Some? ==> r == InstanceEncryptString(Instance(None).value, crypto, m, random)
    {
      var d := Driver(None);
      match d
      case Err(e) => r := Err(e);
      case Ok(inst) => r := InstanceEncryptString(inst, crypto, m, random);
    }

    /** decryptString($payload): the default engine's decryptString. */
    method DecryptString(payload: Bytes, random: RandomSource) returns (r: Result<Bytes, Error>)
      requires Valid()
      modifies this
      ensures Valid()
      ensures old(Instance(None)).Some? ==> drivers == old(drivers)
      ensures CacheGrowsBy(None)
      ensures old(Lookup(None)).Err? ==> r == Err(old(Lookup(None)).error)
      ensures Instance(None).None? ==> r.Err?
      ensures Instance(None).Some? ==> r == InstanceDecryptString(Instance(None).value, crypto, payload, random)
    {
      var d := Driver(None);
      match d
      case Err(e) => r := Err(e);
      case Ok(inst) => r := InstanceDecryptString(inst, crypto, payload, random);
    }

    /** encrypt($value): the default engine's encrypt. */
    method Encrypt<V>(s: Serializer<V>, value: V, random: RandomSource) returns (r: Result<Bytes, Error>)
      requires Valid()
      modifies this
      ensures Valid()
      ensures old(Instance(None)).Some? ==> drivers == old(drivers)
      ensures CacheGrowsBy(None)
      ensures old(Lookup(None)).Err? ==> r == Err(old(Lookup(None)).error)
      ensures Instance(None).None? ==> r.Err?
      ensures Instance(None).Some? ==> r == InstanceEncrypt(Instance(None).value, crypto, s, value, random)
    {
      var d := Driver(None);
      match d
      case Err(e) => r := Err(e);
      case Ok(inst) => r := InstanceEncrypt(inst, crypto, s, value, random);
    }

    /** decrypt($payload): the default engine's decrypt. */
    method Decrypt<V>(s: Serializer<V>, payload: Bytes, random: RandomSource) returns (r: Result<V, Error>)
      requires Valid()
      modifies this
      ensures Valid()
      ensures old(Instance(None)).Some? ==> drivers == old(drivers)
      ensures CacheGrowsBy(None)
      ensures old(Lookup(None)).Err? ==> r == Err(old(Lookup(None)).error)
      ensures Instance(None).None? ==> r.Err?
      ensures Instance(None).Some? ==> r == InstanceDecrypt(Instance(None).value, crypto, s, payload, random)
    {
      var d := Driver(None);
      match d
      case Err(e) => r := Err(e);
      case Ok(inst) => r := InstanceDecrypt(inst, crypto, s, payload, random);
    }

    /** getKey(): the default engine's key. */
    method GetKey() returns (r: Result<Bytes, Error>)
      requires Valid()
      modifies this
      ensures Valid()
      ensures old(Instance(None)).Some? ==> drivers == old(drivers)
      ensures CacheGrowsBy(None)
      ensures old(Lookup(None)).Err? ==> r == Err(old(Lookup(None)).error)
      ensures Instance(None).None? ==> r.Err?
      ensures Instance(None).Some? ==> r == Ok(InstanceKey(Instance(None).value))
    {
      var d := Driver(None);
      match d
      case Err(e) => r := Err(e);
      case Ok(inst) => r := Ok(InstanceKey(inst));
    }
  }

  /** Encrypting then decrypting through the manager gives the plaintext back: both calls reach the same cached engine. */
  method ManagerRoundTrip(m: EncryptionManager, plaintext: Bytes, r1: RandomSource, r2: RandomSource)
    returns (payload: Result<Bytes, Error>, back: Result<Bytes, Error>)
    requires m.Valid()
    requires Base64Sound(m.crypto.b64) && JsonSound(m.crypto.json) && CbcSound(m.crypto.cbc) && AeadSound(m.crypto.aead)
    modifies m
    ensures payload.Ok? ==> back == Ok(plaintext)
  {
    payload := m.EncryptString(plaintext, r1);
    if payload.Ok? {
      ghost var inst := m.Instance(None).value;
      back := m.DecryptString(payload.value, r2);
      assert m.Instance(None) == Some(inst);
      InstanceRoundTrip(inst, m.crypto, plaintext, r1, r2);
    } else {
      back := Err(payload.error);
    }
  }

  /** The engine classes a registered closure can name; UndefinedEngineClass is a name class_exists rejects. */
  datatype EngineClass = OpenSslEngineClass | SodiumEngineClass | UndefinedEngineClass(className: string)

  function NoKeyGenerator(engine: string): Error {
    InvalidArgument("Key generator not found for [" + engine + "] engine.")
  }

  function NoKeyGeneratorClass(className: string, engine: string): Error {
    RuntimeError("Key generator class [" + className + "] not found for [" + engine + "] engine.")
  }

  function TableOf(cls: EngineClass): BaseEngine.CipherTable
    requires !cls.UndefinedEngineClass?
  {
    if cls.OpenSslEngineClass? then OpenSslEngine.Table else SodiumEngine.Table
  }

  /** getKeyLength($cipher), which the engine classes lack: KEY_LENGTHS of the resolved cipher, refused like generateKey refuses it. */
  function KeyLength(cls: EngineClass, cipher: Option<string>): (r: Result<nat, Error>)
    requires !cls.UndefinedEngineClass?
    ensures r.Ok? <==> BaseEngine.ResolveCipher(TableOf(cls), cipher) in TableOf(cls).keyLengths
    ensures r.Ok? ==> r.value == TableOf(cls).keyLengths[BaseEngine.ResolveCipher(TableOf(cls), cipher)]
  {
    var c := BaseEngine.ResolveCipher(TableOf(cls), cipher);
    if c in TableOf(cls).keyLengths then Ok(TableOf(cls).keyLengths[c])
    else Err(InvalidArgument(c + " is not a supported cipher."))
  }

  /**
   * EncryptionManager::generateKey($engine, $keyDriver, $cipher,
   * $additionalOptions): unregistered engine, then missing class, are errors;
   * otherwise KeyManager::generateKey with the engine's key length. The
   * options are accepted and never used.
   */
  function GenerateKeyFor(engineMap: map<string, EngineClass>, driverMap: map<string, KeyManager.KeyDriverClass>,
                          engine: string, keyDriver: string, cipher: Option<string>, options: Kms.KeyOptions,
                          random: RandomSource, kms: Kms.Client): (r: Result<Bytes, Error>)
    ensures engine !in engineMap ==> r == Err(NoKeyGenerator(engine))
    ensures engine in engineMap && engineMap[engine].UndefinedEngineClass? ==>
      r == Err(NoKeyGeneratorClass(engineMap[engine].className, engine))
    ensures engine in engineMap && !engineMap[engine].UndefinedEngineClass? && KeyLength(engineMap[engine], cipher).Err? ==>
      r == Err(KeyLength(engineMap[engine], cipher).error)
    ensures engine in engineMap && !engineMap[engine].UndefinedEngineClass? && KeyLength(engineMap[engine], cipher).Ok? ==>
      r == KeyManager.GenerateKeyFor(driverMap, keyDriver, KeyLength(engineMap[engine], cipher).value, random, kms)
  {
    if engine !in engineMap then Err(NoKeyGenerator(engine))
    else
      match engineMap[engine]
      case UndefinedEngineClass(name) => Err(NoKeyGeneratorClass(name, engine))
      case cls =>
        match KeyLength(cls, cipher)
        case Err(e) => Err(e)
        case Ok(n) => KeyManager.GenerateKeyFor(driverMap, keyDriver, n, random, kms)
  }

  /** The additional options never reach the key driver. */
  lemma GenerateKeyIgnoresOptions(engineMap: map<string, EngineClass>, driverMap: map<string, KeyManager.KeyDriverClass>,
                                  engine: string, keyDriver: string, cipher: Option<string>, o1: Kms.KeyOptions, o2: Kms.KeyOptions,
                                  random: RandomSource, kms: Kms.Client)
    ensures GenerateKeyFor(engineMap, driverMap, engine, keyDriver, cipher, o1, random, kms)
         == GenerateKeyFor(engineMap, driverMap, engine, keyDriver, cipher, o2, random, kms)
  {
  }

  /** A key generated for a built-in engine by a locally generating key driver is accepted by that engine for the same cipher (AES-256-GCM needing hardware). */
  lemma GeneratedKeyFitsEngine(engineMap: map<string, EngineClass>, driverMap: map<string, KeyManager.KeyDriverClass>,
                               engine: string, keyDriver: string, cipher: Option<string>, options: Kms.KeyOptions,
                               random: RandomSource, kms: Kms.Client, aesGcmAvailable: bool)
    requires engine in engineMap && keyDriver in driverMap
    requires driverMap[keyDriver] in {KeyManager.LocalKeyDriverClass, KeyManager.LegacyAwsKeyDriverClass}
    requires GenerateKeyFor(engineMap, driverMap, engine, keyDriver, cipher, options, random, kms).Ok?
    ensures var k := GenerateKeyFor(engineMap, driverMap, engine, keyDriver, cipher, options, random, kms).value;
      && (engineMap[engine] == OpenSslEngineClass ==> OpenSslEngine.New(k, cipher).Ok?)
      && (engineMap[engine] == SodiumEngineClass ==>
            (SodiumEngine.New(aesGcmAvailable, k, cipher).Ok? <==>
             aesGcmAvailable || cipher.GetOr(SodiumEngine.X_CHACHA_IETF) != SodiumEngine.AES_256_GCM))
  {
  }

  /** The static $engineMap of EncryptionManager. */
  class EngineRegistry {
    var engineMap: map<string, EngineClass>

    constructor ()
      ensures engineMap == map[]
    {
      engineMap := map[];
    }

    /** registerEngine($engine, $generator): replaces any earlier registration of the name. */
    method RegisterEngine(engine: string, cls: EngineClass)
      modifies this
      ensures engineMap == old(engineMap)[engine := cls]
    {
      engineMap := engineMap[engine := cls];
    }

    method GenerateKey(keys: KeyManager.KeyDriverRegistry, engine: string, keyDriver: string, cipher: Option<string>,
                       options: Kms.KeyOptions, random: RandomSource, kms: Kms.Client) returns (r: Result<Bytes, Error>)
      ensures r == GenerateKeyFor(engineMap, keys.driverMap, engine, keyDriver, cipher, options, random, kms)
    {
      r := GenerateKeyFor(engineMap, keys.driverMap, engine, keyDriver, cipher, options, random, kms);
    }
  }
}
