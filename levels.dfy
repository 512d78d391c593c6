/**
 * The level tables of `Elgg\Logger` and the pure logic over them:
 * `normalizeLevel`, the severity reverse lookup used by `getLevel` and
 * `isLoggable`, and the default threshold `setLevel` derives from PHP's
 * error-reporting bitmask.
 */
module Levels {
  import opened Options
  import PhpKeys

  /**
   * A normalized level. `Off` is the logger's `OFF` constant (PHP `false`);
   * the others are the eight PSR-3 `LogLevel` names, in increasing severity.
   */
  datatype Level = Off | Debug | Info | Notice | Warning | Error | Critical | Alert | Emergency

  /**
   * The `mixed` level argument, restricted to the values callers pass:
   * nothing (`null`), `false`, a string, or an integer.
   */
  datatype Arg = Absent | False | Str(s: string) | Num(n: int)

  /** `$elgg_levels`: severity key to level. */
  const ElggLevels: map<int, Level> := map[
    0 := Off,
    100 := Debug,
    200 := Info,
    250 := Notice,
    300 := Warning,
    400 := Error,
    500 := Critical,
    550 := Alert,
    600 := Emergency
  ]

  /** `$legacy_levels`: the upper-case names of older Elgg releases. */
  const LegacyLevels: map<string, Level> := map[
    "OFF" := Off,
    "INFO" := Info,
    "NOTICE" := Notice,
    "WARNING" := Warning,
    "ERROR" := Error
  ]

  /** The `LogLevel` string constant of a real level. */
  function Name(l: Level): (n: string)
    requires l != Off
  {
    match l
    case Debug => "debug"
    case Info => "info"
    case Notice => "notice"
    case Warning => "warning"
    case Error => "error"
    case Critical => "critical"
    case Alert => "alert"
    case Emergency => "emergency"
  }

  /** The PHP value that stands for a level: `false` for Off, else its name. */
  function ToArg(l: Level): (r: Arg) {
    if l == Off then False else Str(Name(l))
  }

  /**
   * `array_search($level, $elgg_levels)`: the key under which the table
   * holds `l`. Off sits under 0, every real level under a positive key.
   */
  function Severity(l: Level): (k: nat)
    ensures k in ElggLevels && ElggLevels[k] == l
    ensures k == 0 <==> l == Off
  {
    match l
    case Off => 0
    case Debug => 100
    case Info => 200
    case Notice => 250
    case Warning => 300
    case Error => 400
    case Critical => 500
    case Alert => 550
    case Emergency => 600
  }

  /** The table is one-to-one, so the reverse lookup finds the key a level was stored under. */
  lemma SeverityInverts(k: int)
    requires k in ElggLevels
    ensures Severity(ElggLevels[k]) == k
  {
  }

  /** Severity orders the levels as PSR-3 does, strictly. */
  lemma SeverityOrder()
    ensures Severity(Off) < Severity(Debug) < Severity(Info) < Severity(Notice) < Severity(Warning)
    ensures Severity(Warning) < Severity(Error) < Severity(Critical) < Severity(Alert) < Severity(Emergency)
  {
  }

  /** PHP truthiness: `!$level` holds for null, false, 0, "" and "0". */
  predicate Falsy(a: Arg) {
    match a
    case Absent => true
    case False => true
    case Str(s) => s == "" || s == "0"
    case Num(n) => n == 0
  }

  /** The level whose name is `s`, if any. */
  function NamedLevel(s: string): (r: Option<Level>)
    ensures r.Some? ==> r.value != Off && Name(r.value) == s
    ensures r.None? ==> forall l: Level :: l != Off ==> Name(l) != s
  {
    if s == "debug" then Some(Debug)
    else if s == "info" then Some(Info)
    else if s == "notice" then Some(Notice)
    else if s == "warning" then Some(Warning)
    else if s == "error" then Some(Error)
    else if s == "critical" then Some(Critical)
    else if s == "alert" then Some(Alert)
    else if s == "emergency" then Some(Emergency)
    else None
  }

  /**
   * `in_array($level, $elgg_levels)` on a truthy-or-false argument, with
   * the table value it matched. The table's values are `false` and the
   * eight names, so on this domain PHP's loose comparison is equality.
   * (null, 0, "" and "0" would loosely match `false`; `normalizeLevel`
   * has returned before it reaches `in_array` with any of them.)
   */
  function InArray(a: Arg): (r: Option<Level>)
    requires !Falsy(a) || a == False
    ensures r.Some? ==> ToArg(r.value) == a
    ensures r.None? ==> forall l: Level :: ToArg(l) != a
  {
    match a
    case False => Some(Off)
    case Str(s) => NamedLevel(s)
    case _ => None
  }

  /** The integer key PHP uses for an argument in `array_key_exists`, if it is one. */
  function ArrayKey(a: Arg): (r: Option<int>) {
    match a
    case Num(n) => Some(n)
    case Str(s) => PhpKeys.IntegerKey(s)
    case _ => None
  }

  /** First step of `normalizeLevel`: a legacy name is replaced by its mapped value. */
  function ReplaceLegacy(a: Arg): (r: Arg) {
    if a.Str? && a.s in LegacyLevels then ToArg(LegacyLevels[a.s]) else a
  }

  /** Second step: a severity key is replaced by the level stored under it. */
  function ReplaceSeverity(a: Arg): (r: Arg) {
    match ArrayKey(a)
    case Some(k) => if k in ElggLevels then ToArg(ElggLevels[k]) else a
    case None => a
  }

  /**
   * `normalizeLevel`: falsy input is Off; otherwise a legacy name is
   * translated, then a severity key, and anything that is not then one
   * of the table's values degrades to Off.
   */
  function Normalize(a: Arg): (r: Level)
    ensures Falsy(a) ==> r == Off
  {
    if Falsy(a) then Off
    else
      match InArray(ReplaceSeverity(ReplaceLegacy(a)))
      case Some(l) => l
      case None => Off
  }

  /** The spellings `normalizeLevel` accepts for a real level `l`. */
  predicate Spells(a: Arg, l: Level)
    requires l != Off
  {
    || a == Str(Name(l))
    || a == Num(Severity(l))
    || a == Str(PhpKeys.Decimal(Severity(l)))
    || (a.Str? && a.s in LegacyLevels && LegacyLevels[a.s] == l)
  }

  /** No level name is a digit string, so names never become integer keys. */
  lemma NameIsNoKey(l: Level)
    requires l != Off
    ensures PhpKeys.IntegerKey(Name(l)) == None
  {
    assert !PhpKeys.IsDigit(Name(l)[0]);
  }

  /** No legacy name is a digit string either. */
  lemma LegacyIsNoKey(s: string)
    requires s in LegacyLevels
    ensures PhpKeys.IntegerKey(s) == None && !Falsy(Str(s))
  {
    assert s == "OFF" || s == "INFO" || s == "NOTICE" || s == "WARNING" || s == "ERROR";
    assert !PhpKeys.IsDigit(s[0]);
  }

  /** `normalizeLevel` on an integer: its table entry, or Off. */
  lemma NormalizeNum(n: int)
    ensures Normalize(Num(n)) == if n in ElggLevels then ElggLevels[n] else Off
  {
    if n != 0 && n in ElggLevels {
      var l := ElggLevels[n];
      assert ReplaceSeverity(Num(n)) == ToArg(l);
    }
  }

  /** `normalizeLevel` on a legacy name: the level it maps to. */
  lemma NormalizeLegacy(s: string)
    requires s in LegacyLevels
    ensures Normalize(Str(s)) == LegacyLevels[s]
  {
    LegacyIsNoKey(s);
    var v := LegacyLevels[s];
    assert ReplaceLegacy(Str(s)) == ToArg(v);
    if v != Off {
      NameIsNoKey(v);
      assert ReplaceSeverity(ToArg(v)) == ToArg(v);
    }
  }

  /**
   * `normalizeLevel` on any other truthy string: the level under the
   * integer key it spells, else the level it names, else Off.
   */
  lemma NormalizeOtherStr(s: string)
    requires s !in LegacyLevels && !Falsy(Str(s))
    ensures PhpKeys.IntegerKey(s).Some? ==>
              Normalize(Str(s)) == (if PhpKeys.IntegerKey(s).value in ElggLevels then ElggLevels[PhpKeys.IntegerKey(s).value] else Off)
    ensures PhpKeys.IntegerKey(s).None? ==>
              Normalize(Str(s)) == (if NamedLevel(s).Some? then NamedLevel(s).value else Off)
  {
    assert ReplaceLegacy(Str(s)) == Str(s);
    match PhpKeys.IntegerKey(s)
    case Some(k) =>
      if k in ElggLevels {
        assert ReplaceSeverity(Str(s)) == ToArg(ElggLevels[k]);
      } else {
        assert ReplaceSeverity(Str(s)) == Str(s);
        assert NamedLevel(s).None? by {
          if NamedLevel(s).Some? { NameIsNoKey(NamedLevel(s).value); }
        }
      }
    case None =>
      assert ReplaceSeverity(Str(s)) == Str(s);
  }

  /** The name of a real level is looked up as that level. */
  lemma NamedLevelOfName(l: Level)
    requires l != Off
    ensures NamedLevel(Name(l)) == Some(l)
  {
    match l
    case Debug =>
    case Info =>
    case Notice =>
    case Warning =>
    case Error =>
    case Critical =>
    case Alert =>
    case Emergency =>
  }

  /** A level name is truthy and is not a legacy name (those are upper case). */
  lemma NameIsNotLegacy(l: Level)
    requires l != Off
    ensures Name(l) !in LegacyLevels && !Falsy(Str(Name(l)))
  {
    match l
    case Debug =>
    case Info =>
    case Notice =>
    case Warning =>
    case Error =>
    case Critical =>
    case Alert =>
    case Emergency =>
  }

  /** The string case of NormalizeResolves, for strings outside the legacy table. */
  lemma NormalizeResolvesOtherStr(s: string, l: Level)
    requires l != Off && s !in LegacyLevels && !Falsy(Str(s))
    ensures Normalize(Str(s)) == l <==> s == Name(l) || s == PhpKeys.Decimal(Severity(l))
  {
    var k := Severity(l);
    NormalizeOtherStr(s);
    PhpKeys.IntegerKeyExactly(s, k);
    NameIsNoKey(l);
    match PhpKeys.IntegerKey(s)
    case Some(j) =>
      assert s != Name(l);
      if j in ElggLevels {
        SeverityInverts(j);
        if j >= 0 { PhpKeys.IntegerKeyExactly(s, j); }
      }
    case None =>
      if s == Name(l) { NamedLevelOfName(l); }
  }

  /**
   * What `normalizeLevel` resolves to a real level, exactly: its name, its
   * severity as an integer or as a decimal string, or a legacy name
   * mapped to it. Every other input, wrong-case names included, is Off.
   */
  lemma NormalizeResolves(a: Arg, l: Level)
    requires l != Off
    ensures Normalize(a) == l <==> Spells(a, l)
  {
    var k := Severity(l);
    match a
    case Absent =>
    case False =>
    case Num(n) =>
      NormalizeNum(n);
      if n in ElggLevels { SeverityInverts(n); }
    case Str(s) =>
      if s in LegacyLevels {
        NormalizeResolvesLegacy(s, l);
      } else if Falsy(a) {
        FalsyIsNoSpelling(s, l);
      } else {
        NormalizeResolvesOtherStr(s, l);
      }
  }

  /** The string case of NormalizeResolves, for legacy names. */
  lemma NormalizeResolvesLegacy(s: string, l: Level)
    requires l != Off && s in LegacyLevels
    ensures Normalize(Str(s)) == l <==> Spells(Str(s), l)
  {
    NormalizeLegacy(s);
    LegacyIsNoKey(s);
    NameIsNotLegacy(l);
    PhpKeys.IntegerKeyExactly(s, Severity(l));
  }

  /** "" and "0" spell no level: every spelling is at least two characters long. */
  lemma FalsyIsNoSpelling(s: string, l: Level)
    requires l != Off && Falsy(Str(s))
    ensures !Spells(Str(s), l)
  {
    assert |s| <= 1;
    assert |Name(l)| > 1;
    assert |PhpKeys.Decimal(Severity(l))| > 1;
  }

  /** Legacy aliases resolve to the same level as the canonical value they map to. */
  lemma LegacyAgrees(s: string)
    requires s in LegacyLevels
    ensures Normalize(Str(s)) == Normalize(ToArg(LegacyLevels[s])) == LegacyLevels[s]
  {
    NormalizeLegacy(s);
    NormalizeToArg(LegacyLevels[s]);
  }

  /** A severity key, as an integer or a decimal string, resolves to the level stored under it. */
  lemma SeverityResolves(k: int)
    requires k in ElggLevels
    ensures Normalize(Num(k)) == ElggLevels[k]
    ensures Normalize(Str(PhpKeys.Decimal(k))) == ElggLevels[k]
  {
    var l := ElggLevels[k];
    SeverityInverts(k);
    NormalizeNum(k);
    if l != Off {
      NormalizeResolves(Str(PhpKeys.Decimal(k)), l);
    } else {
      assert PhpKeys.Decimal(0) == "0";
    }
  }

  /** A level's own PHP value normalizes back to it. */
  lemma NormalizeToArg(l: Level)
    ensures Normalize(ToArg(l)) == l
  {
    if l != Off {
      NameIsNoKey(l);
      NameIsNotLegacy(l);
      NamedLevelOfName(l);
      NormalizeOtherStr(Name(l));
    }
  }

  /** Normalizing an already normalized level changes nothing. */
  lemma NormalizeIdempotent(a: Arg)
    ensures Normalize(ToArg(Normalize(a))) == Normalize(a)
  {
    NormalizeToArg(Normalize(a));
  }

  /** Names are case-sensitive: other spellings of a level name are unknown and normalize to Off. */
  lemma WrongCaseIsOff()
    ensures Normalize(Str("DEBUG")) == Off && Normalize(Str("Warning")) == Off
  {
    NormalizeOtherStr("DEBUG");
    NormalizeOtherStr("Warning");
    assert !PhpKeys.IsDigit("DEBUG"[0]) && !PhpKeys.IsDigit("Warning"[0]);
  }

  /** A number that is not a severity key, or a non-canonical spelling of one, normalizes to Off. */
  lemma UnknownSeverityIsOff()
    ensures Normalize(Num(150)) == Off && Normalize(Str("0100")) == Off
  {
    NormalizeNum(150);
    NormalizeOtherStr("0100");
    assert !PhpKeys.CanonicalDigits("0100");
  }

  /** The threshold test of `isLoggable`, on normalized levels. */
  predicate Passes(threshold: Level, l: Level) {
    threshold != Off && Severity(l) >= Severity(threshold)
  }

  /** Nothing passes an Off threshold, and Off passes no threshold. */
  lemma OffPassesNothing(threshold: Level, l: Level)
    ensures !Passes(Off, l) && !Passes(threshold, Off)
  {
  }

  /** Passing is monotone: a more severe level passes wherever a less severe one does. */
  lemma PassesMonotone(threshold: Level, l: Level, m: Level)
    requires Severity(l) <= Severity(m) && Passes(threshold, l)
    ensures Passes(threshold, m)
  {
  }

  /** Under threshold `b`, a less severe level is filtered out and `b` itself passes. */
  lemma ThresholdSeparates(a: Level, b: Level)
    requires b != Off && Severity(a) < Severity(b)
    ensures !Passes(b, a) && Passes(b, b)
  {
  }

  // PHP's error-reporting bits (`E_ERROR`, `E_WARNING`, `E_NOTICE`).
  const E_ERROR: bv64 := 1
  const E_WARNING: bv64 := 2
  const E_NOTICE: bv64 := 8

  /** `($php_error_level & $flag) == $flag`. */
  predicate Reports(errorReporting: bv64, flag: bv64) {
    errorReporting & flag == flag
  }

  /**
   * The level `setLevel()` picks when called without one: the first of
   * notice, warning, error whose bit is set in `error_reporting()`, else `false`.
   */
  function DefaultLevel(errorReporting: bv64): (r: Arg)
    ensures Reports(errorReporting, E_NOTICE) ==> Normalize(r) == Notice
    ensures !Reports(errorReporting, E_NOTICE) && Reports(errorReporting, E_WARNING) ==> Normalize(r) == Warning
    ensures (!Reports(errorReporting, E_NOTICE) && !Reports(errorReporting, E_WARNING)
             && Reports(errorReporting, E_ERROR)) ==> Normalize(r) == Error
    ensures (!Reports(errorReporting, E_NOTICE) && !Reports(errorReporting, E_WARNING)
             && !Reports(errorReporting, E_ERROR)) ==> Normalize(r) == Off
  {
    NormalizeToArg(Notice);
    NormalizeToArg(Warning);
    NormalizeToArg(Error);
    if Reports(errorReporting, E_NOTICE) then Str(Name(Notice))
    else if Reports(errorReporting, E_WARNING) then Str(Name(Warning))
    else if Reports(errorReporting, E_ERROR) then Str(Name(Error))
    else False
  }
}
