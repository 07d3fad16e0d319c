/**
  Properties of the symmetric key rotator model that relate several calls or
  compare the rotator's definitions with independent ones.
 */
module RotatorProperties {
  import opened Wrappers
  import opened SymmetricKeyRotator

  /** The rotator's table agrees with the algorithms' key sizes: 16, 32, 32 and 64 bytes. */
  lemma ByteLengthIsKeySize(u: UsageType)
    ensures GetByteLength(u.Value()) == Success(SecurityBits(u) / 8)
  {
  }

  /** Distinct usages have distinct stored strings, so the string identifies the usage. */
  lemma UsageValueInjective(u: UsageType, v: UsageType)
    ensures u.Value() == v.Value() <==> u == v
  {
  }

  /**
    The byte length is defined for exactly the strings that are some usage's
    value: the "Unsupported usage type" error is raised for all other strings
    and for no usage value.
   */
  lemma GetByteLengthTotal(usageType: string)
    ensures GetByteLength(usageType).Success? <==> exists u: UsageType :: u.Value() == usageType
  {
  }

  /** With a non-negative interval a key never expires before it is created, and with a positive one strictly after. */
  lemma ExpiryNotBeforeCreation(k: SymmetricKey, s: Settings)
    requires WellFormed(k, s)
    ensures s.rotationIntervalDays >= 0 ==> k.createdAt <= k.expiresAt
    ensures s.rotationIntervalDays > 0 ==> k.createdAt < k.expiresAt
  {
  }

  /** Load-or-generate changes no file other than the one at `path`. */
  lemma LoadTouchesOnlyPath(s: Settings, loadType: LoadArg, path: Option<string>, fs: FileSystem, env: Environment, other: string)
    requires env.Sound()
    requires path.Some? ==> other != path.value
    ensures var o := LoadKeyOrGenerate(s, loadType, path, fs, env);
      && (other in o.fs <==> other in fs)
      && (other in fs ==> o.fs[other] == fs[other])
  {
  }

  /** After a successful load-or-generate the file at `path` holds exactly the new key, of the configured length. */
  lemma LoadPersistsKey(s: Settings, loadType: LoadArg, path: Option<string>, fs: FileSystem, env: Environment)
    requires env.Sound()
    ensures var o := LoadKeyOrGenerate(s, loadType, path, fs, env);
      o.result.Success? ==>
        && path.Some?
        && path.value in o.fs
        && o.fs[path.value] == o.result.value.key
        && |o.fs[path.value]| == s.keyLengthBytes
        && o.fs.Keys == fs.Keys + {path.value}
  {
  }

  /**
    A second load-or-generate on the same path, whatever the clock and entropy,
    finds the file the first one wrote and fails on the unbound `key`, leaving
    the file untouched.
   */
  lemma ReloadFails(s: Settings, loadType: LoadArg, path: Option<string>, fs: FileSystem, env: Environment, s': Settings, env': Environment)
    requires env.Sound() && env'.Sound()
    requires LoadKeyOrGenerate(s, loadType, path, fs, env).result.Success?
    ensures var fs1 := LoadKeyOrGenerate(s, loadType, path, fs, env).fs;
      var o := LoadKeyOrGenerate(s', loadType, path, fs1, env');
      o.result == Failure(UnboundKey) && o.fs == fs1
  {
  }

  /** Once `usage` passed the `isinstance` check, the "Unsupported usage type" error cannot be raised. */
  lemma InitNeverRaisesUnsupportedUsage(usage: UsageArg, loadType: LoadArg, days: int, keyPath: Option<string>, fs: FileSystem, env: Environment)
    requires env.Sound()
    ensures var o := Init(usage, loadType, days, keyPath, fs, env);
      o.result.Failure? ==> !o.result.error.UnsupportedUsageType?
  {
  }

  /**
    The constructor's own FILE check runs first, so load-or-generate's
    "Required parameter 'path'" error is never raised through the constructor.
   */
  lemma InitNeverReachesLoadPathCheck(usage: UsageArg, loadType: LoadArg, days: int, keyPath: Option<string>, fs: FileSystem, env: Environment)
    requires env.Sound()
    ensures Init(usage, loadType, days, keyPath, fs, env).result != Failure(MissingPathParameter)
  {
  }

  /** A constructed rotator's current key has the byte length fixed for its usage, and that key is what the file holds. */
  lemma InitKeyLengthMatchesUsage(u: UsageType, loadType: LoadArg, days: int, keyPath: Option<string>, fs: FileSystem, env: Environment)
    requires env.Sound()
    ensures var o := Init(IsUsage(u), loadType, days, keyPath, fs, env);
      o.result.Success? ==>
        && |o.result.value.currentKey.key| == SecurityBits(u) / 8
        && GetByteLength(o.result.value.settings.usageType) == Success(|o.result.value.currentKey.key|)
        && o.fs[keyPath.value] == o.result.value.currentKey.key
  {
  }

  /**
    Constructing a second rotator on the key file the first one created fails:
    the existing-file branch never yields a key, so a restart cannot reuse a
    persisted key.
   */
  lemma SecondInitOnSamePathFails(usage: UsageArg, loadType: LoadArg, days: int, keyPath: Option<string>, fs: FileSystem, env: Environment,
                                  usage': UsageArg, days': int, env': Environment)
    requires env.Sound() && env'.Sound()
    requires usage'.IsUsage?
    requires Init(usage, loadType, days, keyPath, fs, env).result.Success?
    ensures var fs1 := Init(usage, loadType, days, keyPath, fs, env).fs;
      var o := Init(usage', loadType, days', keyPath, fs1, env');
      o.result == Failure(UnboundKey) && o.fs == fs1
  {
  }

  /**
    The default configuration: an AES256 rotator on a fresh path with the
    default interval, at a clock reading at least 30 days before the end of
    year 9999, gets a 32-byte key that expires 30 days after that reading,
    and the file holds that key.
   */
  lemma DefaultAes256Scenario(path: string, fs: FileSystem, env: Environment)
    requires env.Sound()
    requires path != "" && path !in fs
    requires env.now + DaysToSeconds(DefaultRotationIntervalDays) <= MaxTimestamp
    ensures var o := Init(IsUsage(AES256), IsLoad(FILE), DefaultRotationIntervalDays, Some(path), fs, env);
      && o.result.Success?
      && |o.result.value.currentKey.key| == 32
      && o.result.value.currentKey.expiresAt == env.now + 2592000
      && o.fs[path] == o.result.value.currentKey.key
  {
  }

  /**
    As written, key generation never produces the outcome the evident intent
    describes, although the intended generation succeeds with a well-formed
    record whenever the expiry is representable.
   */
  lemma GenerateKeyAsWrittenDiverges(s: Settings, env: Environment)
    requires env.Sound()
    ensures GenerateKeyAsWritten(s, env) != GenerateKey(s, env)
    ensures ExpiryRepresentable(env.now, s.rotationIntervalDays) ==>
      GenerateKey(s, env).Success? && WellFormed(GenerateKey(s, env).value, s)
  {
  }

  /**
    Load-or-generate with key generation as written never succeeds and never
    writes a file: on an absent path the `AttributeError` escapes before the
    file is opened.
   */
  lemma LoadAsWrittenNeverWrites(s: Settings, loadType: LoadArg, path: Option<string>, fs: FileSystem, env: Environment)
    ensures var o := LoadKeyOrGenerateFrom(loadType, path, fs, GenerateKeyAsWritten(s, env));
      && o.result.Failure?
      && o.fs == fs
      && (loadType.IsLoad? && !Falsy(path) && path.value !in fs ==> o.result.error == AttributeError("timezone"))
  {
  }

  /**
    An interval beyond `timedelta`'s range makes construction on a fresh path
    raise `OverflowError` before the key file is written.
   */
  lemma OverlongIntervalOverflows(u: UsageType, days: int, path: string, fs: FileSystem, env: Environment)
    requires env.Sound()
    requires path != "" && path !in fs
    requires days > MaxTimedeltaDays || days < -MaxTimedeltaDays
    ensures var o := Init(IsUsage(u), IsLoad(FILE), days, Some(path), fs, env);
      o.result == Failure(TimedeltaOverflow(days)) && o.fs == fs
  {
  }

  /**
    Within `timedelta`'s range, the expiry date alone decides: construction on
    a fresh path fails with the date-range `OverflowError` exactly when the
    expiry falls outside years 1 to 9999.
   */
  lemma ExpiryOutOfRangeOverflows(u: UsageType, days: int, path: string, fs: FileSystem, env: Environment)
    requires env.Sound()
    requires path != "" && path !in fs
    requires InTimedeltaRange(days)
    ensures var o := Init(IsUsage(u), IsLoad(FILE), days, Some(path), fs, env);
      o.result == Failure(DateOutOfRange) <==> !InDatetimeRange(env.now + DaysToSeconds(days))
  {
  }

  /** The results of a series of process starts and the file system after the last one. */
  datatype Runs = Runs(results: seq<Result<Rotator, Error>>, fs: FileSystem)

  ghost predicate AllSound(envs: seq<Environment>) {
    forall i :: 0 <= i < |envs| ==> envs[i].Sound()
  }

  /**
    The constructor run once per process start with the same arguments, each
    start seeing the files the previous ones left and its own clock and entropy.
    No start alters a file that already exists, and none creates a file other
    than `keyPath`.
   */
  function Startups(usage: UsageArg, loadType: LoadArg, days: int, keyPath: Option<string>, fs: FileSystem, envs: seq<Environment>): (r: Runs)
    requires AllSound(envs)
    ensures |r.results| == |envs|
    ensures forall p :: p in fs ==> p in r.fs && r.fs[p] == fs[p]
    ensures forall p :: p in r.fs ==> p in fs || (keyPath.Some? && p == keyPath.value)
    decreases |envs|
  {
    if |envs| == 0 then Runs([], fs)
    else
      var o := Init(usage, loadType, days, keyPath, fs, envs[0]);
      var rest := Startups(usage, loadType, days, keyPath, o.fs, envs[1..]);
      Runs([o.result] + rest.results, rest.fs)
  }

  /** Once the key file exists, every start fails on the unbound `key` and the files stay as they are. */
  lemma {:induction false} StartupsFailOnceFileExists(usage: UsageArg, loadType: LoadArg, days: int, keyPath: Option<string>, fs: FileSystem, envs: seq<Environment>)
    requires AllSound(envs)
    requires usage.IsUsage? && loadType.IsLoad? && !Falsy(keyPath) && keyPath.value in fs
    ensures var r := Startups(usage, loadType, days, keyPath, fs, envs);
      && r.fs == fs
      && forall j :: 0 <= j < |envs| ==> r.results[j] == Failure(UnboundKey)
    decreases |envs|
  {
    if |envs| > 0 {
      StartupsFailOnceFileExists(usage, loadType, days, keyPath, fs, envs[1..]);
    }
  }

  /**
    Across any series of starts at most one succeeds: after the start that
    creates the key file, every later start fails on the unbound `key`, and the
    file keeps the key that start generated.
   */
  lemma {:induction false} AtMostOneStartupSucceeds(usage: UsageArg, loadType: LoadArg, days: int, keyPath: Option<string>, fs: FileSystem, envs: seq<Environment>, i: nat)
    requires AllSound(envs)
    requires i < |envs|
    ensures var r := Startups(usage, loadType, days, keyPath, fs, envs);
      r.results[i].Success? ==>
        && keyPath.Some?
        && keyPath.value in r.fs
        && r.fs[keyPath.value] == r.results[i].value.currentKey.key
        && forall j :: i < j < |envs| ==> r.results[j] == Failure(UnboundKey)
    decreases i
  {
    var o := Init(usage, loadType, days, keyPath, fs, envs[0]);
    if i == 0 {
      if o.result.Success? {
        StartupsFailOnceFileExists(usage, loadType, days, keyPath, o.fs, envs[1..]);
      }
    } else {
      AtMostOneStartupSucceeds(usage, loadType, days, keyPath, o.fs, envs[1..], i - 1);
    }
  }
}
