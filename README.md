# Elgg logger: level filtering, capture and dispatch

A Dafny model of `Elgg\Logger` (`engine/classes/Elgg/Logger.php`), the
logging facade Elgg puts in front of Monolog. The model covers:

- the two level tables, `$elgg_levels` (severity key to PSR-3 level name, with
  `0 => false` for OFF) and `$legacy_levels` (the upper-case names of older
  releases);
- `normalizeLevel`, which turns any level argument into a canonical level or
  OFF;
- the threshold (`setLevel`, `getLevel`, `isLoggable`);
- the capture stack (`disable`, `enable`);
- `log`, which captures, then filters, then asks the plugin hook service, and
  only then hands the record to the parent Monolog logger;
- the level-named wrappers, `warn` and `dump`.

Modules:

- `Levels` (levels.dfy) holds the tables and the pure lookup logic.
- `PhpKeys` (php_keys.dfy) holds PHP's rule that a canonical decimal string
  such as `"100"` is used as the integer key `100`. Because of this rule,
  `normalizeLevel("100")` resolves like `normalizeLevel(100)`.
- `CaptureStack` (capture_stack.dfy) holds the push, pop and append-to-top
  operations on the stack of capture frames.
- `Logging` (logger.dfy) holds the `Logger` class. Its fields are the ones
  the PHP object updates: `level`, `hooks` and `disabledStack`. Two more
  fields record what the logger hands to the outside world: `hookCalls` (every
  parameter bundle passed to the hook service) and `emitted` (every record
  passed to `parent::log`).
- `Scenarios` (scenarios.dfy) holds clients that derive the documented
  behaviour from the contracts alone.

The PHP `mixed` level argument is the datatype `Arg = Absent | False | Str |
Num`. Here `Absent` is `null`. A normalized level is the datatype `Level`, whose
`Off` stands for `false`. Messages and context values have an arbitrary type
`V`.

## Behaviour the model follows from the code

- While capturing, `log` records the call in the top frame before it checks
  the threshold. It then returns the result of `isLoggable` (false below the
  threshold, true otherwise). It does not return true unconditionally. A
  captured call never reaches the hook service or the parent logger.
- The hook service receives the normalized, lower-case level name. The
  source computes `strtoupper($level)` but never uses it.
- `getLevel(true)` under an OFF threshold returns `0`, because `array_search`
  finds `false` under key 0. It does not return a "not found" value. Both are
  falsy, so `isLoggable` behaves the same either way.
- `enable()` with nothing disabled returns `null` (`None`) and leaves the
  stack empty.
- Names are case-sensitive. `"DEBUG"` is neither a legacy name nor a
  canonical one, so it normalizes to OFF. `"ERROR"` is a legacy name and
  resolves to error.

## Model

| member | source | states |
|---|---|---|
| `PhpKeys.IntegerKey` | engine/classes/Elgg/Logger.php:141-143 | a string becomes an integer array key only if it is a canonical decimal spelling; a non-negative key's string is all digits and has that value |
| `PhpKeys.DecimalRoundTrip` | engine/classes/Elgg/Logger.php:141-143 | the canonical decimal spelling of n is canonical and reads back as n |
| `PhpKeys.CanonicalRoundTrip` | engine/classes/Elgg/Logger.php:141-143 | a canonical digit string is the spelling of its own value |
| `PhpKeys.IntegerKeyExactly` | engine/classes/Elgg/Logger.php:141-143 | a string is used as integer key k >= 0 if and only if it is k's canonical decimal spelling |
| `Levels.Severity` | engine/classes/Elgg/Logger.php:34-44 | the reverse lookup of `$elgg_levels`: the key the table holds a level under; the key is 0 exactly for OFF |
| `Levels.SeverityInverts` | engine/classes/Elgg/Logger.php:34-44 | the table is one-to-one, so the reverse lookup recovers every key |
| `Levels.SeverityOrder` | engine/classes/Elgg/Logger.php:34-44 | severities strictly increase from OFF through debug up to emergency |
| `Levels.NamedLevel` | engine/classes/Elgg/Logger.php:36-43 | finds the level with a given `LogLevel` name; it returns none if no level has that name |
| `Levels.InArray` | engine/classes/Elgg/Logger.php:145-147 | `in_array` on the table, for `false` or a truthy argument (the only kinds that reach line 145): it succeeds exactly when the argument is a table value (`false` or a level name), and it returns that value |
| `Levels.Normalize` | engine/classes/Elgg/Logger.php:132-150 | falsy input (null, false, 0, "", "0") normalizes to OFF |
| `Levels.NormalizeNum` | engine/classes/Elgg/Logger.php:141-147 | an integer normalizes to the level stored under it, or to OFF if it is not a key |
| `Levels.NormalizeLegacy` | engine/classes/Elgg/Logger.php:137-139 | a legacy name normalizes to the level it maps to (`"OFF"` to OFF) |
| `Levels.NormalizeOtherStr` | engine/classes/Elgg/Logger.php:141-149 | any other truthy string normalizes to the level under the key it spells; failing that, to the level it names; failing that, to OFF |
| `Levels.NormalizeResolves` | engine/classes/Elgg/Logger.php:132-150 | an argument normalizes to a real level l if and only if it is l's name, l's severity as an integer or decimal string, or a legacy name mapped to l; everything else is OFF |
| `Levels.LegacyAgrees` | engine/classes/Elgg/Logger.php:50-56 | each legacy alias normalizes to the same level as the canonical value it maps to |
| `Levels.SeverityResolves` | engine/classes/Elgg/Logger.php:34-44 | every severity key, as an integer or a decimal string, normalizes to the level stored under it |
| `Levels.NormalizeToArg` | engine/classes/Elgg/Logger.php:145-149 | a level's own PHP value (`false` or its name) normalizes back to that level |
| `Levels.NormalizeIdempotent` | engine/classes/Elgg/Logger.php:218-230 | normalizing an already normalized level changes nothing, which is what `log` relies on when it passes the normalized level to `isLoggable` |
| `Levels.WrongCaseIsOff` | engine/classes/Elgg/Logger.php:145-147 | upper-case or capitalised names that are not legacy names (`"DEBUG"`, `"Warning"`) normalize to OFF |
| `Levels.UnknownSeverityIsOff` | engine/classes/Elgg/Logger.php:141-147 | a number that is not a key (150), or a non-canonical spelling of a key (`"0100"`), normalizes to OFF |
| `Levels.OffPassesNothing` | engine/classes/Elgg/Logger.php:206-208 | under an OFF threshold nothing is loggable, and OFF is loggable under no threshold |
| `Levels.PassesMonotone` | engine/classes/Elgg/Logger.php:206 | loggability is monotone in severity |
| `Levels.ThresholdSeparates` | engine/classes/Elgg/Logger.php:206-210 | under threshold b, a less severe level is filtered out and b itself passes |
| `Levels.DefaultLevel` | engine/classes/Elgg/Logger.php:162-174 | without an argument the threshold is notice if `E_NOTICE` is reported, else warning if `E_WARNING`, else error if `E_ERROR`, else OFF |
| `CaptureStack.Push` | engine/classes/Elgg/Logger.php:349-351 | pushing puts an empty frame on top; popping it restores the stack |
| `CaptureStack.Top` | engine/classes/Elgg/Logger.php:361-363 | `array_pop` yields null exactly on an empty stack |
| `CaptureStack.Pop` | engine/classes/Elgg/Logger.php:361-363 | popping removes only the top frame; the stack is the popped stack plus the top frame |
| `CaptureStack.Append` | engine/classes/Elgg/Logger.php:220-228 | appending adds the record to the end of the top frame; every frame below is unchanged |
| `CaptureStack.AppendAllTop` | engine/classes/Elgg/Logger.php:220-228 | a run of appends lands in the top frame in call order and leaves lower frames alone |
| `CaptureStack.Bracket` | engine/classes/Elgg/Logger.php:336-363 | after a push and any run of appends, the pop returns exactly the appended records and the stack it started from |
| `CaptureStack.NestedPops` | engine/classes/Elgg/Logger.php:342 | after k pushes, j <= k pops leave the stack k - j pushes deep |
| `CaptureStack.Balanced` | engine/classes/Elgg/Logger.php:342 | starting with no capture, k disables need exactly k enables before the stack is empty again |
| `Logging.Logger.constructor` | engine/classes/Elgg/Logger.php:58-71 | a new logger has an OFF threshold, no hook service, no capture and no output yet |
| `Logging.Logger.SetLevel` | engine/classes/Elgg/Logger.php:161-177 | stores the normalized argument; without an argument it stores the default from the error-reporting mask, which is one of notice, warning, error or OFF |
| `Logging.Logger.GetLevel` | engine/classes/Elgg/Logger.php:188-194 | with `true`, returns the table key of the threshold (0 for OFF); with `false`, returns the threshold; it reads state and changes nothing |
| `Logging.Logger.IsLoggable` | engine/classes/Elgg/Logger.php:202-211 | true if and only if the threshold is not OFF and the normalized argument's severity reaches it; an unrecognised argument is never loggable |
| `Logging.Logger.Log` | engine/classes/Elgg/Logger.php:216-254 | while capturing: appends {message, normalized level} to the top frame, returns `isLoggable`, and neither asks the hook nor emits. Otherwise: returns false if the call is unloggable; asks the hook once, with the lower-case level, and returns false on a veto; else emits the record once and returns the parent's answer. Threshold and hooks never change |
| `Logging.Logger.Emergency` | engine/classes/Elgg/Logger.php:259-261 | behaves as `log` at emergency |
| `Logging.Logger.Alert` | engine/classes/Elgg/Logger.php:266-268 | behaves as `log` at alert |
| `Logging.Logger.Critical` | engine/classes/Elgg/Logger.php:273-275 | behaves as `log` at critical |
| `Logging.Logger.Error` | engine/classes/Elgg/Logger.php:280-282 | behaves as `log` at error |
| `Logging.Logger.Warning` | engine/classes/Elgg/Logger.php:287-289 | behaves as `log` at warning |
| `Logging.Logger.Notice` | engine/classes/Elgg/Logger.php:294-296 | behaves as `log` at notice |
| `Logging.Logger.Info` | engine/classes/Elgg/Logger.php:301-303 | behaves as `log` at info |
| `Logging.Logger.Debug` | engine/classes/Elgg/Logger.php:308-310 | behaves as `log` at debug |
| `Logging.Logger.Warn` | engine/classes/Elgg/Logger.php:321-323 | behaves as `log` at warning |
| `Logging.Logger.Dump` | engine/classes/Elgg/Logger.php:332-334 | logs any value at error with an empty context |
| `Logging.Logger.Disable` | engine/classes/Elgg/Logger.php:349-351 | pushes one empty frame; nothing else changes |
| `Logging.Logger.Enable` | engine/classes/Elgg/Logger.php:361-363 | returns the top frame (null when nothing is disabled) and removes only that frame |
| `Logging.Logger.SetHooks` | engine/classes/Elgg/Logger.php:374-376 | installs the hook service; nothing else changes |
| `Scenarios.CaptureRecordsEverything` | engine/classes/Elgg/Logger.php:216-237 | under a warning threshold, a captured error returns true and a captured debug returns false; `enable` returns both records in order, and nothing is emitted |
| `Scenarios.NestedCapture` | engine/classes/Elgg/Logger.php:336-363 | with two nested disables, the inner `enable` returns only the inner frame; later calls are still captured until the outer `enable` |
| `Scenarios.WarningThreshold` | engine/classes/Elgg/Logger.php:202-253 | under a threshold set by the legacy name `"WARNING"`, a warning is emitted exactly once and returns true; an info message is dropped and returns false |
| `Scenarios.HookVeto` | engine/classes/Elgg/Logger.php:239-253 | the hook is asked about each loggable call with the lower-case level; a veto returns false and emits nothing; consent emits the record |
| `Scenarios.DisableEnable` | engine/classes/Elgg/Logger.php:349-363 | `disable()` followed by `enable()` returns an empty frame and leaves the stack as it was |

## Left out

- `Logger::factory` (engine/classes/Elgg/Logger.php:80-121) is left out. It picks Monolog and Symfony handlers, formatters and processors from `PHP_SAPI`. These are library objects and output sinks.
- The parent Monolog logger and its `PsrLogMessageProcessor` placeholder interpolation are left out. They are library code. `parent::log` is modelled only as the `emitted` list of records it receives, plus the oracle `handles`, which gives the boolean it returns.
- `PluginHooksService::triggerDeprecated` is foreign code. It is modelled as a pure boolean function of the parameter bundle, and `hookCalls` records every bundle it is asked about. Its deprecation notice and any side effects of hook handlers are not modelled.
- PHP type juggling outside the `Arg` domain is left out: `true`, floats, arrays or objects as levels, and loose comparison beyond that domain. On `false` and on truthy values of that domain, `in_array` and `array_search` coincide with equality. The falsy values null, 0, `""` and `"0"` would loosely match `false` (key 0). `normalizeLevel` returns before `in_array` for each of them, and `getLevel` and `isLoggable` only search for `false` or a name. 
- Levels.InArray: stated only for `false` and truthy arguments, and does not model the loose match of null, 0, `""` and `"0"` against `false`, because no call site in the logger passes them.
- `PhpKeys.IntegerKey` does not model the `PHP_INT_MAX` bound on numeric string keys. A longer digit string stays a string key in PHP, but such a key is never in the table, so normalization gives OFF either way.
- A PHP logger has `$level === null` until `setLevel` runs, and null compares like `false`. The model starts at `Off`, so `getLevel(false)` before any `setLevel` would give `false` here rather than `null`.
- `$disabled_stack` is null until the first `disable()`. The model starts with an empty stack. On PHP 8, `array_pop(null)` in `enable()` would throw a TypeError, whereas the model returns `None`.
- `error_reporting()` is a host query. It is passed to `SetLevel` as a 64-bit mask.
- The unused `$levelString = strtoupper($level)` is not modelled.
