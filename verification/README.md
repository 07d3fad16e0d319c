# Symmetric key rotator — Dafny model

This project models `SymmetricKeyRotator`, the symmetric key lifecycle class of
the crypto toolkit (`_old/key_rotator/symmetric_key_rotator.py`). The class
picks a key length from the usage type: AES128 gets 16 bytes, AES256 32,
SHA256_HMAC 32 and SHA512_HMAC 64. It builds `SymmetricKey` records (`kid`,
`key`, `created_at`, `expires_at`). Its constructor validates its arguments
and then loads or generates the first key on a file system.

Modules:

- `Wrappers` (`wrappers.dfy`): `Option` and `Result`. A raised Python exception is a `Failure`.
- `SymmetricKeyRotator` (`symmetric_key_rotator.dfy`) holds the class itself:
  - the `UsageType` and `LoadType` enums;
  - the `SymmetricKey` record and one `Error` constructor per raise site;
  - `GetByteLength` (`__get_byte_length`), `GenerateKey` (`__generate_key`),
    `LoadKeyOrGenerate` (`__load_key_or_generate`) and `Init` (`__init__`).
    `LoadKeyOrGenerateFrom` is the load-or-generate decision given the outcome
    of key generation, so that it can be run with the intended generation and
    with generation as written.
- `RotatorProperties` (`rotator_properties.dfy`): lemmas that relate several
  calls or compare the rotator's definitions with independent ones.
  `Startups` runs the constructor once per process start against the files
  the earlier starts left behind.

The environment is passed in as parameters:

- `Environment.urandom(n)` stands for `os.urandom(n)`. Its soundness predicate says it returns exactly `n` bytes.
- `Environment.now` is the single UTC clock reading, in whole seconds since the epoch, within `datetime`'s range (years 1 to 9999).
- `Environment.generateKid` stands for `generate_kid`. Its module is not part of this model, so it is an uninterpreted function value.
- The file system is a `map<string, seq<bv8>>`. `os.path.exists(p)` is `p in fs`, and writing a file is a map update.
- Every operation that can write returns an `Outcome`: the result together with the file system after the call.

Python does not enforce type annotations, so the `usage` and `load_type`
arguments are modelled as "an enum member or something else"
(`UsageArg`, `LoadArg`). This makes the `isinstance` check and the
"Not supported load_type" branch reachable, as they are in the code. `not path`
is `Falsy`: true for `None` and for the empty string.

Three places in the code raise where a reader might expect a key:

- When the key file already exists, `__load_key_or_generate` reaches `return key` with `key` never assigned. This raises `UnboundLocalError`. The model keeps that behaviour (`UnboundKey`). As a consequence, a second construction on an existing key file always fails (`SecondInitOnSamePathFails`, `AtMostOneStartupSucceeds`).
- The intended expiry `now + timedelta(days=rotation_interval_days)` raises `OverflowError` when the interval exceeds 999999999 days in magnitude, or when the expiry falls outside years 1 to 9999. The model raises `TimedeltaOverflow` and `DateOutOfRange` in those cases, before any file is written.
- Lines 65 and 71 look up `timezone` and `timedelta` on the `datetime` class, which has neither attribute. The code as written is `GenerateKeyAsWritten`. The rest of the model uses the evident intent, `GenerateKey` (see Findings).

What the code does not do:

- The code persists only the raw key bytes, not the record's metadata.
- It never loads an existing key.
- It has no rotation, retained-key set, grace period or key lookup by `kid`.
- It promises nothing about `kid` uniqueness: two keys generated at the same clock reading with the same usage get whatever `generate_kid` returns for those inputs.
- An unknown usage is rejected by the `isinstance` check. `__get_byte_length`'s own error is unreachable after that check (`InitNeverRaisesUnsupportedUsage`).

## Model

| member | source | states |
|---|---|---|
| `SymmetricKeyRotator.GetByteLength` | _old/key_rotator/symmetric_key_rotator.py:43-58 | a known length is a multiple of 16 between 16 and 64 bytes; any other usage string raises "Unsupported usage type" naming that string |
| `RotatorProperties.ByteLengthIsKeySize` | _old/key_rotator/symmetric_key_rotator.py:49-56 | for every usage the length is the algorithm's key size in bytes: 128/8, 256/8, 256/8 and 512/8 |
| `RotatorProperties.GetByteLengthTotal` | _old/key_rotator/symmetric_key_rotator.py:49-58 | the length is defined exactly for the strings that are some `UsageType`'s value; the error fires for every other string and for none of these |
| `RotatorProperties.UsageValueInjective` | _old/key_rotator/symmetric_key_rotator.py:14-18 | two usages have the same stored value string exactly when they are the same usage, so the stored string loses nothing |
| `SymmetricKeyRotator.GenerateKey` | _old/key_rotator/symmetric_key_rotator.py:60-73 | it succeeds exactly when the interval is within `timedelta`'s range and the expiry within `datetime`'s, raising the matching `OverflowError` otherwise; on success the key has the configured length and is the entropy source's output, `created_at` is the one clock reading, the `kid` is `generate_kid` of the usage string at that same reading, and `expires_at` is the interval in days later and representable |
| `SymmetricKeyRotator.GenerateKeyAsWritten` | _old/key_rotator/symmetric_key_rotator.py:64-65 | as written, generation always raises `AttributeError` and never returns a record |
| `RotatorProperties.GenerateKeyAsWrittenDiverges` | _old/key_rotator/symmetric_key_rotator.py:64-71 | the as-written generation never yields the intended outcome, while the intended one yields a well-formed record whenever the expiry is representable |
| `RotatorProperties.LoadAsWrittenNeverWrites` | _old/key_rotator/symmetric_key_rotator.py:64-96 | load-or-generate with generation as written never succeeds and never writes a file; on an absent path it fails with the `AttributeError` before the file is opened |
| `RotatorProperties.ExpiryNotBeforeCreation` | _old/key_rotator/symmetric_key_rotator.py:67-71 | a well-formed record never expires before it is created when the interval is non-negative, and expires strictly later when it is positive |
| `SymmetricKeyRotator.LoadKeyOrGenerateFrom` | _old/key_rotator/symmetric_key_rotator.py:85-103 | a non-FILE load type raises "Not supported load_type"; a falsy path raises the missing-path error; an existing file raises the unbound-`key` error; an absent file yields whatever key generation yields, and the key file is written only when generation succeeded, to that path alone; every failure leaves the files unchanged |
| `SymmetricKeyRotator.LoadKeyOrGenerate` | _old/key_rotator/symmetric_key_rotator.py:75-103 | with the intended generation: the same errors, plus the `OverflowError` of an out-of-range interval; it succeeds exactly for FILE with a truthy path that does not exist and a representable expiry, returning a well-formed key and writing it to that path; every failure leaves the files unchanged |
| `RotatorProperties.LoadTouchesOnlyPath` | _old/key_rotator/symmetric_key_rotator.py:92-97 | no file other than the one at `path` appears, disappears or changes |
| `RotatorProperties.LoadPersistsKey` | _old/key_rotator/symmetric_key_rotator.py:92-97 | after success the file at `path` holds exactly the returned key, of the configured length, and the set of files grew by that path only |
| `RotatorProperties.ReloadFails` | _old/key_rotator/symmetric_key_rotator.py:92-99 | a second load on the path the first one wrote fails on the unbound `key`, whatever its clock and entropy, and changes no file |
| `SymmetricKeyRotator.Init` | _old/key_rotator/symmetric_key_rotator.py:105-128 | a non-`UsageType` usage raises first; FILE with a falsy path raises "path parameter is required" before anything is written; a non-FILE load type, an existing file and an out-of-range interval raise their errors; construction succeeds exactly for a usage, FILE, a truthy path, an absent file and a representable expiry, and then the settings hold the usage's value and key size, the current key is well formed, created at the clock reading with `generate_kid`'s `kid`, and is the only file written; every failure leaves the files unchanged |
| `RotatorProperties.OverlongIntervalOverflows` | _old/key_rotator/symmetric_key_rotator.py:71 | an interval beyond 999999999 days in magnitude makes construction on a fresh path raise `OverflowError` and write nothing |
| `RotatorProperties.ExpiryOutOfRangeOverflows` | _old/key_rotator/symmetric_key_rotator.py:71 | with an interval `timedelta` accepts, construction on a fresh path fails with the date-range `OverflowError` exactly when the expiry falls outside years 1 to 9999 |
| `RotatorProperties.InitNeverRaisesUnsupportedUsage` | _old/key_rotator/symmetric_key_rotator.py:112-116 | once `usage` passed the `isinstance` check, "Unsupported usage type" can no longer be raised |
| `RotatorProperties.InitNeverReachesLoadPathCheck` | _old/key_rotator/symmetric_key_rotator.py:120-128 | the constructor's own path check comes first, so load-or-generate's missing-path error is never raised through the constructor |
| `RotatorProperties.InitKeyLengthMatchesUsage` | _old/key_rotator/symmetric_key_rotator.py:112-128 | a constructed rotator's current key has the byte length of its usage and is what the key file holds |
| `RotatorProperties.SecondInitOnSamePathFails` | _old/key_rotator/symmetric_key_rotator.py:92-99 | constructing again on the key file an earlier construction created fails on the unbound `key` and writes nothing |
| `RotatorProperties.DefaultAes256Scenario` | _old/key_rotator/symmetric_key_rotator.py:105-128 | AES256 with the default 30-day interval on a fresh path, at a clock reading at least 30 days before the end of year 9999, yields a 32-byte key expiring 2 592 000 seconds after that reading, stored at that path |
| `RotatorProperties.Startups` | _old/key_rotator/symmetric_key_rotator.py:105-128 | a series of starts yields one result per start, never alters a file that already existed, and creates no file other than the key path |
| `RotatorProperties.StartupsFailOnceFileExists` | _old/key_rotator/symmetric_key_rotator.py:92-99 | once the key file exists, every further start fails on the unbound `key` and the files stay as they are |
| `RotatorProperties.AtMostOneStartupSucceeds` | _old/key_rotator/symmetric_key_rotator.py:92-99 | in any series of starts, after a successful start every later start fails, and the file keeps the key that start generated |

## Findings

| source | as written | input that shows it | evidently intended | confidence | as-written member | corrected member |
|---|---|---|---|---|---|---|
| _old/key_rotator/symmetric_key_rotator.py:65 | `datetime.now(datetime.timezone.utc)`, where `datetime` is the class imported from the `datetime` module; line 71 likewise uses `datetime.timedelta` | any call of `__generate_key`; load-or-generate on an absent path therefore raises and writes no file | a UTC clock reading, with `timedelta(days=rotation_interval_days)` added for expiry | high, not executed | `SymmetricKeyRotator.GenerateKeyAsWritten` (exhibited by `RotatorProperties.GenerateKeyAsWrittenDiverges` and `RotatorProperties.LoadAsWrittenNeverWrites`) | `SymmetricKeyRotator.GenerateKey` |

## Left out

- `next_rotation_scheduler` is left out. It is APScheduler and asyncio plumbing, and the `rotate_key` it schedules is not defined in the class.
- `crypto_toolkit/key_management/asymmetric.py` is left out. It holds only enums and empty stubs, with no behaviour.
- `tests/__init__.py` is left out. It is a web and background-task demo, not key lifecycle logic.
- `os.urandom`, `datetime.now` and file `open`/`write`/`os.path.exists` are parameters, not I/O. I/O errors from `open` or `write` (`OSError`) are not modelled.
- `generate_kid` is not part of this model. It is an uninterpreted function of the usage string and the clock reading.
- Timestamps are whole seconds. Python's `datetime` carries microseconds, and the model does not carry that precision.
- `SymmetricKeyRotator.Init` takes `rotation_interval_days` as an integer. A non-integer argument, which `timedelta` would also accept, is not modelled.
- Key rotation, retained keys, grace periods, lookup by `kid` and `kid` uniqueness are not in the code, so they are not modelled.
