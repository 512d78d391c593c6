/**
 * Clients of `Logging.Logger` that check, from the contracts alone, the
 * behaviour the logger documents: capture before filtering, nesting of
 * `disable`/`enable`, threshold filtering and the hook veto.
 */
module Scenarios {
  import opened Options
  import opened Levels
  import opened Logging
  import CaptureStack

  /**
   * While capturing, every call is recorded in the top frame, and the
   * result is still the threshold test; nothing reaches the parent.
   */
  method CaptureRecordsEverything()
    returns (loud: bool, quiet: bool, frame: Option<seq<Captured<string>>>, sent: seq<LogRecord<string>>)
    ensures loud && !quiet
    ensures frame == Some([Captured("x", Level.Error), Captured("y", Level.Debug)])
    ensures sent == []
  {
    NormalizeToArg(Level.Warning);
    NormalizeToArg(Level.Error);
    NormalizeToArg(Level.Debug);
    var x, y := Captured("x", Level.Error), Captured("y", Level.Debug);
    var none: seq<Captured<string>> := [];
    assert none + [x] + [y] == [x, y];
    var logger := new Logger<string>(_ => true);
    logger.SetLevel(ToArg(Level.Warning), 0);
    logger.Disable();
    loud := logger.Log(ToArg(Level.Error), "x", map[]);
    quiet := logger.Debug("y", map[]);
    frame := logger.Enable();
    sent := logger.emitted;
  }

  /**
   * Nested capture: the inner `enable` returns only the inner frame, and
   * calls stay captured (even under an Off threshold) until the outer
   * `enable`.
   */
  method NestedCapture()
    returns (inner: Option<seq<Captured<string>>>, outer: Option<seq<Captured<string>>>, sent: seq<LogRecord<string>>)
    ensures inner == Some([Captured("a", Level.Error)])
    ensures outer == Some([Captured("b", Level.Error)])
    ensures sent == []
  {
    NormalizeToArg(Level.Error);
    var a, b := Captured("a", Level.Error), Captured("b", Level.Error);
    var none: seq<Captured<string>> := [];
    assert none + [a] == [a] && none + [b] == [b];
    var logger := new Logger<string>(_ => true);
    logger.Disable();
    logger.Disable();
    var _ := logger.Error("a", map[]);
    inner := logger.Enable();
    var _ := logger.Dump("b");
    outer := logger.Enable();
    sent := logger.emitted;
  }

  /**
   * A warning threshold (set through the legacy name) emits a warning
   * once and drops an info message.
   */
  method WarningThreshold() returns (warned: bool, informed: bool, sent: seq<LogRecord<string>>)
    ensures warned && !informed
    ensures sent == [LogRecord(Level.Warning, "disk low", map[])]
  {
    NormalizeToArg(Level.Warning);
    NormalizeToArg(Level.Info);
    LegacyAgrees("WARNING");
    var logger := new Logger<string>(_ => true);
    logger.SetLevel(Str("WARNING"), 0);
    assert logger.level == Level.Warning;
    warned := logger.Warning("disk low", map[]);
    assert logger.emitted == [LogRecord(Level.Warning, "disk low", map[])];
    informed := logger.Info("cache hit", map[]);
    sent := logger.emitted;
  }

  /**
   * A hook that vetoes errors stops them after being asked, with the
   * lower-case level name, and lets a warning through.
   */
  method HookVeto() returns (errored: bool, warned: bool, asked: seq<HookParams<string>>, sent: seq<LogRecord<string>>)
    ensures !errored && warned
    ensures asked == [HookParams("error", "boom", map[]), HookParams("warning", "careful", map[])]
    ensures sent == [LogRecord(Level.Warning, "careful", map[])]
  {
    NormalizeToArg(Level.Error);
    NormalizeToArg(Level.Warning);
    var logger := new Logger<string>(_ => true);
    logger.SetLevel(ToArg(Level.Warning), 0);
    logger.SetHooks((p: HookParams<string>) => p.level != "error");
    errored := logger.Error("boom", map[]);
    assert logger.hookCalls == [HookParams("error", "boom", map[])];
    assert logger.emitted == [];
    warned := logger.Warn("careful", map[]);
    asked := logger.hookCalls;
    sent := logger.emitted;
  }

  /** `disable()` then `enable()` returns an empty frame and leaves the stack as it was. */
  method DisableEnable<V>(logger: Logger<V>) returns (frame: Option<seq<Captured<V>>>)
    modifies logger`disabledStack
    ensures frame == Some([])
    ensures logger.disabledStack == old(logger.disabledStack)
  {
    logger.Disable();
    frame := logger.Enable();
  }
}
