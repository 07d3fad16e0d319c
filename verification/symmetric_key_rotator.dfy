/**
  A model of `SymmetricKeyRotator` from `_old/key_rotator/symmetric_key_rotator.py`:
  the usage-to-length table, key-record construction, the constructor's input
  checks and the load-or-generate decision over a file system.

  Everything outside the Python process is a parameter: the entropy source
  (`os.urandom`), the clock (`datetime.now`), the key-identifier helper
  (`generate_kid`, whose module is not part of this model) and the file
  system, which is a map from path to file contents threaded through the calls.
  A raised exception is a `Failure` value.
 */
module SymmetricKeyRotator {
  import opened Wrappers

  type byte = bv8
  type Bytes = seq<byte>

  /** An aware UTC `datetime`, as whole seconds since the Unix epoch. */
  type Timestamp = int

  /** Path to file contents; a path is present exactly when `os.path.exists` holds. */
  type FileSystem = map<string, Bytes>

  const SecondsPerDay: int := 86400

  /** The default of the constructor's `rotation_interval_days` argument. */
  const DefaultRotationIntervalDays: int := 30

  /** The largest magnitude of `days` a Python `timedelta` accepts. */
  const MaxTimedeltaDays: int := 999999999

  /** `datetime.min` and `datetime.max` in UTC (years 1 and 9999), to the whole second. */
  const MinTimestamp: Timestamp := -62135596800
  const MaxTimestamp: Timestamp := 253402300799

  /** `UsageType`: the algorithms a symmetric key can serve. */
  datatype UsageType = AES128 | AES256 | SHA256_HMAC | SHA512_HMAC {
    /** The enum member's `.value`, which is what the rotator stores. */
    function Value(): string {
      match this
      case AES128 => "AES128"
      case AES256 => "AES256"
      case SHA256_HMAC => "SHA256_HMAC"
      case SHA512_HMAC => "SHA512_HMAC"
    }
  }

  /** `LoadType`: where the first key is loaded from or created; only FILE exists. */
  datatype LoadType = FILE

  /**
    The `usage` argument as Python receives it: the type annotation is not
    enforced, so a caller may pass something that is not a `UsageType`;
    `shown` is its `str()`, which the error message embeds.
   */
  datatype UsageArg = IsUsage(usage: UsageType) | NotUsage(shown: string)

  /** The `load_type` argument as Python receives it (annotation not enforced). */
  datatype LoadArg = IsLoad(loadType: LoadType) | NotLoad(shown: string)

  /** The `SymmetricKey` dataclass. */
  datatype SymmetricKey = SymmetricKey(kid: string, key: Bytes, createdAt: Timestamp, expiresAt: Timestamp)

  /** The exceptions the rotator can raise, one per `raise` site or failing statement. */
  datatype Error =
    | UsageNotUsageType(got: string)     // ValueError: usage must be a UsageType
    | UnsupportedUsageType(tag: string)  // ValueError: Unsupported usage type
    | PathRequired                       // ValueError: path parameter is required when load_type is FILE
    | MissingPathParameter               // ValueError: Required parameter 'path' for FILE load_type
    | UnsupportedLoadType(got: string)   // ValueError: Not supported load_type
    | UnboundKey                         // UnboundLocalError: `key` read before assignment
    | AttributeError(name: string)       // attribute looked up on the `datetime` class
    | TimedeltaOverflow(days: int)       // OverflowError: `timedelta(days=...)` beyond its range
    | DateOutOfRange                     // OverflowError: expiry outside years 1..9999

  /**
    The private attributes set before any key exists: `__usage_type` (the
    usage's string value), `__key_length_bytes` and `__rotation_interval_days`.
   */
  datatype Settings = Settings(usageType: string, keyLengthBytes: nat, rotationIntervalDays: int)

  /** A constructed rotator: its settings, load parameters and `current_key`. */
  datatype Rotator = Rotator(settings: Settings, loadType: LoadArg, keyPath: Option<string>, currentKey: SymmetricKey)

  /** A result together with the file system as it is after the call. */
  datatype Outcome<+T> = Outcome(result: Result<T, Error>, fs: FileSystem)

  /**
    What the process environment answers: `urandom(n)` is what `os.urandom(n)`
    returns, `now` is the single clock reading, and `generateKid` stands for
    `generate_kid`, whose definition is not part of this model.
   */
  datatype Environment = Environment(urandom: nat -> Bytes, now: Timestamp, generateKid: (string, Timestamp) -> string) {
    /** `os.urandom(n)` returns exactly `n` bytes, and the clock reads a representable `datetime`. */
    ghost predicate Sound() {
      && (forall n: nat :: |urandom(n)| == n)
      && InDatetimeRange(now)
    }
  }

  /** Python truthiness of the optional path: `not path` holds for `None` and for `""`. */
  predicate Falsy(path: Option<string>) {
    path.None? || path.value == ""
  }

  function DaysToSeconds(days: int): int {
    days * SecondsPerDay
  }

  predicate InTimedeltaRange(days: int) {
    -MaxTimedeltaDays <= days <= MaxTimedeltaDays
  }

  predicate InDatetimeRange(t: Timestamp) {
    MinTimestamp <= t <= MaxTimestamp
  }

  /** `now + timedelta(days=days)` neither raises in `timedelta` nor leaves the `datetime` range. */
  predicate ExpiryRepresentable(now: Timestamp, days: int) {
    InTimedeltaRange(days) && InDatetimeRange(now + DaysToSeconds(days))
  }

  /**
    The key-size an algorithm name fixes, in bits: the AES key size, or the
    digest size of the hash underlying the HMAC. Independent of the rotator's
    own table, against which it is checked.
   */
  function SecurityBits(u: UsageType): nat {
    match u
    case AES128 => 128
    case AES256 => 256
    case SHA256_HMAC => 256
    case SHA512_HMAC => 512
  }

  /** A record fits the settings: its key has the configured length and it expires one rotation interval after creation. */
  predicate WellFormed(k: SymmetricKey, s: Settings) {
    && |k.key| == s.keyLengthBytes
    && k.expiresAt == k.createdAt + DaysToSeconds(s.rotationIntervalDays)
  }

  /**
    `__get_byte_length`: compares the stored usage string with each member's
    value in turn; any other string raises.
   */
  function GetByteLength(usageType: string): (r: Result<nat, Error>)
    ensures r.Success? ==> r.value % 16 == 0 && 16 <= r.value <= 64
    ensures r.Failure? ==> r.error == UnsupportedUsageType(usageType)
  {
    if usageType == AES128.Value() then Success(16)
    else if usageType == AES256.Value() then Success(32)
    else if usageType == SHA256_HMAC.Value() then Success(32)
    else if usageType == SHA512_HMAC.Value() then Success(64)
    else Failure(UnsupportedUsageType(usageType))
  }

  /**
    `__generate_key` with the evident intent of its clock and interval lines:
    one reading of the UTC clock serves as creation time and as the input to
    `generate_kid`, and expiry lies `rotation_interval_days` days later. Building
    the `timedelta` and adding it raise `OverflowError` outside their ranges.
   */
  function GenerateKey(s: Settings, env: Environment): (r: Result<SymmetricKey, Error>)
    requires env.Sound()
    ensures r.Success? <==> ExpiryRepresentable(env.now, s.rotationIntervalDays)
    ensures !InTimedeltaRange(s.rotationIntervalDays) ==> r == Failure(TimedeltaOverflow(s.rotationIntervalDays))
    ensures InTimedeltaRange(s.rotationIntervalDays) && r.Failure? ==> r == Failure(DateOutOfRange)
    ensures r.Success? ==>
      && WellFormed(r.value, s)
      && r.value.createdAt == env.now
      && r.value.kid == env.generateKid(s.usageType, r.value.createdAt)
      && r.value.key == env.urandom(s.keyLengthBytes)
      && InDatetimeRange(r.value.expiresAt)
  {
    var key := env.urandom(s.keyLengthBytes);
    var now := env.now;
    var kid := env.generateKid(s.usageType, now);
    if !InTimedeltaRange(s.rotationIntervalDays) then Failure(TimedeltaOverflow(s.rotationIntervalDays))
    else
      var expiresAt := now + DaysToSeconds(s.rotationIntervalDays);
      if !InDatetimeRange(expiresAt) then Failure(DateOutOfRange)
      else Success(SymmetricKey(kid, key, now, expiresAt))
  }

  /**
    `__generate_key` as written: `datetime` names the class imported from the
    `datetime` module, which has no `timezone` attribute, so evaluating the
    argument of `datetime.now` raises after the random bytes are drawn and
    before the clock, `generate_kid` or the record are reached.
   */
  function GenerateKeyAsWritten(s: Settings, env: Environment): (r: Result<SymmetricKey, Error>)
    ensures r.Failure? && r.error.AttributeError?
  {
    var _ := env.urandom(s.keyLengthBytes);
    Failure(AttributeError("timezone"))
  }

  /**
    The decision of `__load_key_or_generate`, given what `__generate_key`
    yields when it is called. The generator depends only on the environment,
    never on the files, so supplying its outcome up front changes nothing:
    it is used only on the branch that calls it. FILE with a truthy path
    generates and writes the key file when it is absent; when the file exists
    the code reaches `return key` with `key` never assigned. Every other load
    type raises.
   */
  function LoadKeyOrGenerateFrom(loadType: LoadArg, path: Option<string>, fs: FileSystem, generated: Result<SymmetricKey, Error>): (o: Outcome<SymmetricKey>)
    ensures loadType.NotLoad? ==> o == Outcome(Failure(UnsupportedLoadType(loadType.shown)), fs)
    ensures loadType.IsLoad? && Falsy(path) ==> o == Outcome(Failure(MissingPathParameter), fs)
    ensures loadType.IsLoad? && !Falsy(path) && path.value in fs ==> o == Outcome(Failure(UnboundKey), fs)
    ensures loadType.IsLoad? && !Falsy(path) && path.value !in fs ==> o.result == generated
    ensures o.result.Failure? ==> o.fs == fs
    ensures o.result.Success? ==> !Falsy(path) && o.fs == fs[path.value := o.result.value.key]
  {
    match loadType
    case IsLoad(FILE) =>
      if Falsy(path) then Outcome(Failure(MissingPathParameter), fs)
      else if path.value !in fs then
        match generated
        case Success(key) => Outcome(Success(key), fs[path.value := key.key])
        case Failure(e) => Outcome(Failure(e), fs)
      else Outcome(Failure(UnboundKey), fs)
    case NotLoad(shown) => Outcome(Failure(UnsupportedLoadType(shown)), fs)
  }

  /** `__load_key_or_generate` with the intended `__generate_key`. */
  function LoadKeyOrGenerate(s: Settings, loadType: LoadArg, path: Option<string>, fs: FileSystem, env: Environment): (o: Outcome<SymmetricKey>)
    requires env.Sound()
    ensures loadType.NotLoad? ==> o.result == Failure(UnsupportedLoadType(loadType.shown))
    ensures loadType.IsLoad? && Falsy(path) ==> o.result == Failure(MissingPathParameter)
    ensures loadType.IsLoad? && !Falsy(path) && path.value in fs ==> o.result == Failure(UnboundKey)
    ensures loadType.IsLoad? && !Falsy(path) && path.value !in fs && !InTimedeltaRange(s.rotationIntervalDays) ==>
      o.result == Failure(TimedeltaOverflow(s.rotationIntervalDays))
    ensures o.result.Success? <==>
      loadType.IsLoad? && !Falsy(path) && path.value !in fs && ExpiryRepresentable(env.now, s.rotationIntervalDays)
    ensures o.result.Failure? ==> o.fs == fs
    ensures o.result.Success? ==>
      && WellFormed(o.result.value, s)
      && o.result.value.createdAt == env.now
      && o.result.value.kid == env.generateKid(s.usageType, env.now)
      && o.fs == fs[path.value := o.result.value.key]
  {
    LoadKeyOrGenerateFrom(loadType, path, fs, GenerateKey(s, env))
  }

  /**
    `__init__`: rejects a non-`UsageType` usage, computes the byte length,
    demands a truthy `key_path` for FILE, then loads or generates the first key.
   */
  function Init(usage: UsageArg, loadType: LoadArg, rotationIntervalDays: int, keyPath: Option<string>, fs: FileSystem, env: Environment): (o: Outcome<Rotator>)
    requires env.Sound()
    ensures usage.NotUsage? ==> o.result == Failure(UsageNotUsageType(usage.shown))
    ensures usage.IsUsage? && loadType.IsLoad? && Falsy(keyPath) ==> o.result == Failure(PathRequired)
    ensures usage.IsUsage? && loadType.NotLoad? ==> o.result == Failure(UnsupportedLoadType(loadType.shown))
    ensures usage.IsUsage? && loadType.IsLoad? && !Falsy(keyPath) && keyPath.value in fs ==> o.result == Failure(UnboundKey)
    ensures usage.IsUsage? && loadType.IsLoad? && !Falsy(keyPath) && keyPath.value !in fs && !InTimedeltaRange(rotationIntervalDays) ==>
      o.result == Failure(TimedeltaOverflow(rotationIntervalDays))
    ensures o.result.Success? <==>
      usage.IsUsage? && loadType.IsLoad? && !Falsy(keyPath) && keyPath.value !in fs && ExpiryRepresentable(env.now, rotationIntervalDays)
    ensures o.result.Failure? ==> o.fs == fs
    ensures o.result.Success? ==>
      var r := o.result.value;
      && r.settings == Settings(usage.usage.Value(), SecurityBits(usage.usage) / 8, rotationIntervalDays)
      && WellFormed(r.currentKey, r.settings)
      && r.currentKey.createdAt == env.now
      && r.currentKey.kid == env.generateKid(usage.usage.Value(), env.now)
      && o.fs == fs[keyPath.value := r.currentKey.key]
  {
    match usage
    case NotUsage(shown) => Outcome(Failure(UsageNotUsageType(shown)), fs)
    case IsUsage(u) =>
      var usageType := u.Value();
      match GetByteLength(usageType)
      case Failure(e) => Outcome(Failure(e), fs)
      case Success(length) =>
        var s := Settings(usageType, length, rotationIntervalDays);
        if loadType == IsLoad(FILE) && Falsy(keyPath) then Outcome(Failure(PathRequired), fs)
        else
          var loaded := LoadKeyOrGenerate(s, loadType, keyPath, fs, env);
          match loaded.result
          case Failure(e) => Outcome(Failure(e), loaded.fs)
          case Success(key) => Outcome(Success(Rotator(s, loadType, keyPath, key)), loaded.fs)
  }
}
