/**
 * `Elgg\Logger`: a threshold, a capture stack and an optional hook
 * service in front of the Monolog logger it extends. Messages and
 * context values are of any type `V`, as in PHP.
 */
module Logging {
  import opened Options
  import opened Levels
  import CaptureStack

  /** A call recorded while capturing: `['message' => $message, 'level' => $level]`. */
  datatype Captured<V> = Captured(message: V, level: Level)

  /** The `$params` the logger hands to the `'debug', 'log'` hook. */
  datatype HookParams<V> = HookParams(level: string, msg: V, context: map<string, V>)

  /** A record handed to `parent::log`, the Monolog logger. */
  datatype LogRecord<V> = LogRecord(level: Level, message: V, context: map<string, V>)

  /** What `getLevel` returns: a severity key, or the stored level itself. */
  datatype LevelReading = SeverityCode(code: int) | LevelValue(level: Level)

  class Logger<V> {
    /** `$level`: the threshold. */
    var level: Level
    /** `$hooks`: the plugin hook service, modelled by its answer to `triggerDeprecated('debug', 'log', ...)`. */
    var hooks: Option<HookParams<V> -> bool>
    /** `$disabled_stack`, top frame last. */
    var disabledStack: seq<seq<Captured<V>>>
    /** Every parameter bundle the hook service has been asked about, in order. */
    var hookCalls: seq<HookParams<V>>
    /** Every record handed to `parent::log`, in order. */
    var emitted: seq<LogRecord<V>>
    /** Whether Monolog's handler stack handles a record of a given level: what `parent::log` returns. */
    const handles: Level -> bool

    /**
     * A logger with no threshold yet (PHP leaves `$level` null until
     * `setLevel`, and null compares as false), no hooks and no capture.
     */
    constructor (handles: Level -> bool)
      ensures level == Off && hooks == None && disabledStack == []
      ensures hookCalls == [] && emitted == [] && this.handles == handles
    {
      level := Off;
      hooks := None;
      disabledStack := [];
      hookCalls := [];
      emitted := [];
      this.handles := handles;
    }

    /**
     * `setLevel($level)`: stores the normalized argument; without one,
     * the default derived from `error_reporting()`, passed in here.
     */
    method SetLevel(arg: Arg, errorReporting: bv64)
      modifies this`level
      ensures !arg.Absent? ==> level == Normalize(arg)
      ensures arg.Absent? ==> level == Normalize(DefaultLevel(errorReporting))
      ensures arg.Absent? ==> level in {Level.Notice, Level.Warning, Level.Error, Off}
    {
      var given := if arg.Absent? then DefaultLevel(errorReporting) else arg;
      level := Normalize(given);
    }

    /** `getLevel($severity)`: the threshold's severity key, or the threshold itself. */
    function GetLevel(severity: bool): (r: LevelReading)
      reads this
      ensures severity ==> r.SeverityCode? && r.code in ElggLevels && ElggLevels[r.code] == level
      ensures severity ==> (r.code == 0 <==> level == Off)
      ensures !severity ==> r == LevelValue(level)
    {
      if severity then SeverityCode(Severity(level)) else LevelValue(level)
    }

    /**
     * `isLoggable($level)`: false under an Off threshold, otherwise
     * whether the argument's severity reaches the threshold's.
     */
    predicate IsLoggable(a: Arg)
      reads this
      ensures IsLoggable(a) <==> Passes(level, Normalize(a))
      ensures IsLoggable(a) ==> Normalize(a) != Off
    {
      var severity := Severity(Normalize(a));
      var current := GetLevel(true).code;
      !(current == 0 || severity < current)
    }

    /**
     * The effect of `log($l, $message, $context)` returning `ok`. The
     * call is normalized; while capturing it is appended to the top
     * frame and the result is whether it is loggable, with no hook call
     * and no emission. Otherwise an unloggable call returns false; a
     * hook service is asked (with the lower-case level name) and may
     * veto, returning false; else the record goes to `parent::log`, whose
     * answer is returned. Threshold and hooks never change.
     */
    twostate predicate Logged(l: Arg, message: V, context: map<string, V>, ok: bool)
      reads this
    {
      var lv := Normalize(l);
      level == old(level) && hooks == old(hooks) &&
      if old(disabledStack) != [] then
        && disabledStack == CaptureStack.Append(old(disabledStack), Captured(message, lv))
        && ok == Passes(level, lv)
        && hookCalls == old(hookCalls) && emitted == old(emitted)
      else if !Passes(level, lv) then
        && disabledStack == old(disabledStack)
        && !ok && hookCalls == old(hookCalls) && emitted == old(emitted)
      else
        var params := HookParams(Name(lv), message, context);
        var vetoed := hooks.Some? && !hooks.value(params);
        && disabledStack == old(disabledStack)
        && hookCalls == old(hookCalls) + (if hooks.Some? then [params] else [])
        && (vetoed ==> !ok && emitted == old(emitted))
        && (!vetoed ==> ok == handles(lv) && emitted == old(emitted) + [LogRecord(lv, message, context)])
    }

    /** `log($level, $message, $context)`. */
    method Log(l: Arg, message: V, context: map<string, V>) returns (ok: bool)
      modifies this`disabledStack, this`hookCalls, this`emitted
      ensures Logged(l, message, context, ok)
    {
      var lv := Normalize(l);
      NormalizeIdempotent(l);
      if |disabledStack| > 0 {
        disabledStack := CaptureStack.Append(disabledStack, Captured(message, lv));
      }
      if !IsLoggable(ToArg(lv)) {
        return false;
      }
      if |disabledStack| > 0 {
        return true;
      }
      if hooks.Some? {
        var params := HookParams(Name(lv), message, context);
        hookCalls := hookCalls + [params];
        if !hooks.value(params) {
          return false;
        }
      }
      emitted := emitted + [LogRecord(lv, message, context)];
      ok := handles(lv);
    }

    /** `emergency($message, $context)`. */
    method Emergency(message: V, context: map<string, V>) returns (ok: bool)
      modifies this`disabledStack, this`hookCalls, this`emitted
      ensures Logged(Str(Name(Levels.Emergency)), message, context, ok)
    {
      ok := Log(Str(Name(Levels.Emergency)), message, context);
    }

    /** `alert($message, $context)`. */
    method Alert(message: V, context: map<string, V>) returns (ok: bool)
      modifies this`disabledStack, this`hookCalls, this`emitted
      ensures Logged(Str(Name(Levels.Alert)), message, context, ok)
    {
      ok := Log(Str(Name(Levels.Alert)), message, context);
    }

    /** `critical($message, $context)`. */
    method Critical(message: V, context: map<string, V>) returns (ok: bool)
      modifies this`disabledStack, this`hookCalls, this`emitted
      ensures Logged(Str(Name(Levels.Critical)), message, context, ok)
    {
      ok := Log(Str(Name(Levels.Critical)), message, context);
    }

    /** `error($message, $context)`. */
    method Error(message: V, context: map<string, V>) returns (ok: bool)
      modifies this`disabledStack, this`hookCalls, this`emitted
      ensures Logged(Str(Name(Levels.Error)), message, context, ok)
    {
      ok := Log(Str(Name(Levels.Error)), message, context);
    }

    /** `warning($message, $context)`. */
    method Warning(message: V, context: map<string, V>) returns (ok: bool)
      modifies this`disabledStack, this`hookCalls, this`emitted
      ensures Logged(Str(Name(Levels.Warning)), message, context, ok)
    {
      ok := Log(Str(Name(Levels.Warning)), message, context);
    }

    /** `notice($message, $context)`. */
    method Notice(message: V, context: map<string, V>) returns (ok: bool)
      modifies this`disabledStack, this`hookCalls, this`emitted
      ensures Logged(Str(Name(Levels.Notice)), message, context, ok)
    {
      ok := Log(Str(Name(Levels.Notice)), message, context);
    }

    /** `info($message, $context)`. */
    method Info(message: V, context: map<string, V>) returns (ok: bool)
      modifies this`disabledStack, this`hookCalls, this`emitted
      ensures Logged(Str(Name(Levels.Info)), message, context, ok)
    {
      ok := Log(Str(Name(Levels.Info)), message, context);
    }

    /** `debug($message, $context)`. */
    method Debug(message: V, context: map<string, V>) returns (ok: bool)
      modifies this`disabledStack, this`hookCalls, this`emitted
      ensures Logged(Str(Name(Levels.Debug)), message, context, ok)
    {
      ok := Log(Str(Name(Levels.Debug)), message, context);
    }

    /** `warn($message, $context)`: the deprecated spelling of `warning`. */
    method Warn(message: V, context: map<string, V>) returns (ok: bool)
      modifies this`disabledStack, this`hookCalls, this`emitted
      ensures Logged(Str(Name(Levels.Warning)), message, context, ok)
    {
      ok := Warning(message, context);
    }

    /** `dump($data)`: any value, logged at error level with an empty context. */
    method Dump(data: V) returns (ok: bool)
      modifies this`disabledStack, this`hookCalls, this`emitted
      ensures Logged(Str(Name(Levels.Error)), data, map[], ok)
    {
      ok := Log(Str(Name(Levels.Error)), data, map[]);
    }

    /** `disable()`: start capturing into a new, empty frame. */
    method Disable()
      modifies this`disabledStack
      ensures disabledStack == CaptureStack.Push(old(disabledStack))
    {
      disabledStack := disabledStack + [[]];
    }

    /** `enable()`: pop the top frame and return it; `null` (None) when nothing was disabled. */
    method Enable() returns (frame: Option<seq<Captured<V>>>)
      modifies this`disabledStack
      ensures frame == CaptureStack.Top(old(disabledStack))
      ensures disabledStack == CaptureStack.Pop(old(disabledStack))
    {
      if |disabledStack| == 0 {
        frame := None;
      } else {
        frame := Some(disabledStack[|disabledStack| - 1]);
        disabledStack := disabledStack[..|disabledStack| - 1];
      }
    }

    /** `setHooks($hooks)`. */
    method SetHooks(h: HookParams<V> -> bool)
      modifies this`hooks
      ensures hooks == Some(h)
    {
      hooks := Some(h);
    }
  }
}
