/**
 * The key-driver manager (KeyManager.php): a name-keyed cache of key drivers
 * built from cryptographer.drivers, custom creators registered with extend,
 * and the registry of key-driver classes used by generateKey. The manager
 * defines no create...Driver method of its own, so only custom creators can
 * build a driver; the driver type is a parameter.
 */
module KeyManager {
  import opened Wrappers
  import opened Bytes
  import opened Primitives
  import opened ManagerConfig
  import Kms
  import LocalKeyDriver
  import AwsKeyDriver
  import LegacyAwsKeyDriver

  /** A closure registered with extend: it receives the driver's configuration. */
  type Creator<D> = DriverConfig -> Result<D, Error>

  function NotSupported(engine: string): Error {
    InvalidArgument("Driver [" + engine + "] not supported.")
  }

  const RECURSION: string := "createDriver calls itself without end"

  /**
   * createDriver($config): a custom creator for the engine wins; otherwise
   * 'create'.studly.'Driver' names a method only when the studly part is
   * empty, and that method is createDriver itself, which then recurses until
   * the stack is exhausted; every other engine is unsupported.
   */
  function CreateDriver<D>(creators: map<string, Creator<D>>, c: DriverConfig): (r: Result<D, Error>)
    ensures c.engine in creators ==> r == creators[c.engine](c)
    ensures c.engine !in creators ==> r.Err?
    ensures c.engine !in creators && StudlyKey(c.engine) != "" ==> r == Err(NotSupported(c.engine))
    ensures c.engine !in creators && StudlyKey(c.engine) == "" ==> r == Err(Fatal(RECURSION))
  {
    if c.engine in creators then creators[c.engine](c)
    else if StudlyKey(c.engine) == "" then Err(Fatal(RECURSION))
    else Err(NotSupported(c.engine))
  }

  /** Every driver the manager holds came from a custom creator, called with the normalised configuration. */
  lemma OnlyCustomCreatorsBuild<D>(creators: map<string, Creator<D>>, c: DriverConfig)
    requires CreateDriver(creators, c).Ok?
    ensures c.engine in creators && creators[c.engine](c) == CreateDriver(creators, c)
  {
  }

  class KeyManager<D> {
    const config: AppConfig
    const b64: Base64
    var customCreators: map<string, Creator<D>>
    var drivers: map<string, D>
    /** The names for which a driver was constructed, in order. */
    ghost var built: seq<string>

    /** Each cached name was constructed exactly once, and every construction is cached. */
    ghost predicate Valid()
      reads this
    {
      && (forall i, j :: 0 <= i < j < |built| ==> built[i] != built[j])
      && (forall n :: n in drivers <==> n in built)
    }

    constructor (config: AppConfig, b64: Base64)
      ensures Valid() && this.config == config && this.b64 == b64
      ensures customCreators == map[] && drivers == map[] && built == []
    {
      this.config := config;
      this.b64 := b64;
      customCreators := map[];
      drivers := map[];
      built := [];
    }

    /** extend($driver, $callback): replaces any earlier creator for that engine and returns the manager. */
    method Extend(engine: string, creator: Creator<D>) returns (self: KeyManager<D>)
      modifies this
      ensures self == this
      ensures customCreators == old(customCreators)[engine := creator]
      ensures drivers == old(drivers) && built == old(built)
    {
      customCreators := customCreators[engine := creator];
      self := this;
    }

    /**
     * driver($driver = null): resolve the name (computing the default only
     * for a falsy one), run configuration (on every call, cached or not),
     * then return the cached driver or construct, cache and return a new one.
     */
    method Driver(name: Option<string>) returns (r: Result<D, Error>)
      requires Valid()
      modifies this
      ensures Valid()
      ensures customCreators == old(customCreators)
      ensures var n := Resolve(name, DefaultKey(config));
              var c := Configure(config, b64, name, DefaultKey(config));
        && (c.Err? ==> r == Err(c.error) && drivers == old(drivers) && built == old(built))
        && (c.Ok? ==> n.Ok? && n.value.Some?)
        && (c.Ok? && n.Ok? && n.value.Some? && n.value.value in old(drivers) ==>
              r == Ok(old(drivers)[n.value.value]) && drivers == old(drivers) && built == old(built))
        && (c.Ok? && n.Ok? && n.value.Some? && n.value.value !in old(drivers) ==>
              && r == CreateDriver(customCreators, c.value)
              && (r.Ok? ==> drivers == old(drivers)[n.value.value := r.value] && built == old(built) + [n.value.value])
              && (r.Err? ==> drivers == old(drivers) && built == old(built)))
    {
      var n := Resolve(name, DefaultKey(config));
      var c := Configure(config, b64, name, DefaultKey(config));
      if c.Err? {
        return Err(c.error);
      }
      ConfigurationResult(config, b64, n.value, n.value);
      var key := n.value.value;
      if key in drivers {
        return Ok(drivers[key]);
      }
      r := CreateDriver(customCreators, c.value);
      if r.Ok? {
        drivers := drivers[key := r.value];
        built := built + [key];
      }
    }
  }

  /** Asking twice for the same name constructs at most once, and the second answer is the first. */
  method DriverTwice<D>(m: KeyManager<D>, name: Option<string>) returns (r1: Result<D, Error>, r2: Result<D, Error>)
    requires m.Valid()
    modifies m
    ensures m.Valid()
    ensures r1.Ok? ==> r2 == r1
    ensures |m.built| <= |old(m.built)| + 1
    ensures forall n :: n in old(m.drivers) ==> n in m.drivers && m.drivers[n] == old(m.drivers)[n]
  {
    r1 := m.Driver(name);
    r2 := m.Driver(name);
  }

  /** The key-driver classes a registered closure can name; UndefinedClass is a name class_exists rejects. */
  datatype KeyDriverClass =
    | LocalKeyDriverClass
    | AwsKeyDriverClass
    | LegacyAwsKeyDriverClass
    | UndefinedClass(className: string)

  function NoKeyDriver(driver: string): Error {
    InvalidArgument("Key driver not found for [" + driver + "] driver.")
  }

  function NoKeyDriverClass(className: string, driver: string): Error {
    RuntimeError("Key driver class [" + className + "] not found for [" + driver + "] engine.")
  }

  /** The empty options array: generateKey passes the class nothing beyond the length. */
  const NO_OPTIONS: Kms.KeyOptions := Kms.KeyOptions(None, None, None, None)

  /**
   * KeyManager::generateKey($driver, $length) over the registry: an
   * unregistered name, then a missing class, are errors; otherwise the class's
   * own generateKey($length), with no options, so the KMS class, which has
   * no master key to name, is always refused, and the local classes refuse a
   * length below 1 as random_bytes does.
   */
  function GenerateKeyFor(driverMap: map<string, KeyDriverClass>, driver: string, length: int, random: RandomSource, kms: Kms.Client): (r: Result<Bytes, Error>)
    ensures driver !in driverMap <==> r == Err(NoKeyDriver(driver))
    ensures driver in driverMap && driverMap[driver].UndefinedClass? ==> r == Err(NoKeyDriverClass(driverMap[driver].className, driver))
    ensures driver in driverMap && driverMap[driver] in {LocalKeyDriverClass, LegacyAwsKeyDriverClass} ==>
      && (r.Ok? <==> length >= 1)
      && (r.Ok? ==> |r.value| == length)
      && (r.Err? ==> r == Err(ValueError(RANDOM_LENGTH)))
    ensures driver in driverMap && driverMap[driver] == AwsKeyDriverClass ==>
      r == Err(InvalidArgument(AwsKeyDriver.KEY_ID_MISSING))
  {
    if driver !in driverMap then Err(NoKeyDriver(driver))
    else
      match driverMap[driver]
      case UndefinedClass(name) => Err(NoKeyDriverClass(name, driver))
      case LocalKeyDriverClass =>
        assert NoKeyDriver(driver).msg[0] == 'K' && RANDOM_LENGTH[0] == 'r';
        LocalKeyDriver.GenerateKey(length, random)
      case LegacyAwsKeyDriverClass =>
        assert NoKeyDriver(driver).msg[0] == 'K' && RANDOM_LENGTH[0] == 'r';
        LegacyAwsKeyDriver.GenerateKey(length, random)
      case AwsKeyDriverClass =>
        // the SDK's message and the manager's own differ in their first character
        assert NoKeyDriver(driver).msg[0] == 'K' && AwsKeyDriver.KEY_ID_MISSING[0] == '[';
        AwsKeyDriver.GenerateKey(length, NO_OPTIONS, kms)
  }

  /** The static $driverMap of KeyManager. */
  class KeyDriverRegistry {
    var driverMap: map<string, KeyDriverClass>

    constructor ()
      ensures driverMap == map[]
    {
      driverMap := map[];
    }

    /** registerDriver($driver, $generator): replaces any earlier registration of the name. */
    method RegisterDriver(driver: string, cls: KeyDriverClass)
      modifies this
      ensures driverMap == old(driverMap)[driver := cls]
    {
      driverMap := driverMap[driver := cls];
    }

    method GenerateKey(driver: string, length: int, random: RandomSource, kms: Kms.Client) returns (r: Result<Bytes, Error>)
      ensures r == GenerateKeyFor(driverMap, driver, length, random, kms)
    {
      r := GenerateKeyFor(driverMap, driver, length, random, kms);
    }
  }

  /** After registerDriver(d, local class), generateKey(d, n) yields n bytes for n >= 1 and random_bytes' error otherwise; before any registration it is refused. */
  method RegisterThenGenerate(reg: KeyDriverRegistry, driver: string, length: int, random: RandomSource, kms: Kms.Client)
    returns (before: Result<Bytes, Error>, after: Result<Bytes, Error>)
    modifies reg
    ensures driver !in old(reg.driverMap) ==> before == Err(NoKeyDriver(driver))
    ensures after.Ok? <==> length >= 1
    ensures after.Ok? ==> |after.value| == length
    ensures after.Err? ==> after == Err(ValueError(RANDOM_LENGTH))
  {
    before := reg.GenerateKey(driver, length, random, kms);
    reg.RegisterDriver(driver, LocalKeyDriverClass);
    after := reg.GenerateKey(driver, length, random, kms);
  }
}
