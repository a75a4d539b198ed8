/** How `Grabber.__init__` turns its `log_level` argument into the level of
    its logger: the name is looked up among the level constants of Python's
    `logging` module, and a missing or falsy value falls back to DEBUG with
    one error message. */
module LogLevel {

  const NOTSET: int := 0
  const DEBUG: int := 10
  const INFO: int := 20
  const WARNING: int := 30
  const ERROR: int := 40
  const CRITICAL: int := 50

  /** The level constants `logging` defines, by attribute name. */
  const LevelAttributes: map<string, int> := map[
    "CRITICAL" := CRITICAL, "FATAL" := CRITICAL,
    "ERROR" := ERROR,
    "WARNING" := WARNING, "WARN" := WARNING,
    "INFO" := INFO,
    "DEBUG" := DEBUG,
    "NOTSET" := NOTSET]

  /** The result of `getattr(logging, name, None)`. */
  datatype Attribute = Missing | Present(value: int)

  /** The level the logger is set to and the number of error lines logged. */
  datatype LevelChoice = LevelChoice(level: int, errorsLogged: nat)

  function GetAttribute(name: string): Attribute
  {
    if name in LevelAttributes then Present(LevelAttributes[name]) else Missing
  }

  /** Python truthiness of the looked-up value: `None` and `0` are false. */
  predicate Truthy(a: Attribute)
  {
    a.Present? && a.value != 0
  }

  /** `getattr(logging, log_level, None)`, then the fallback to DEBUG. */
  function ResolveLevel(logLevel: string): (r: LevelChoice)
    ensures r.level in {DEBUG, INFO, WARNING, ERROR, CRITICAL}
    ensures r.errorsLogged <= 1
    ensures r.errorsLogged == 0 <==> logLevel in LevelAttributes && LevelAttributes[logLevel] != NOTSET
    ensures r.errorsLogged == 0 ==> r.level == LevelAttributes[logLevel]
    ensures r.errorsLogged == 1 ==> r.level == DEBUG
  {
    var attr := GetAttribute(logLevel);
    if !Truthy(attr) then LevelChoice(DEBUG, 1) else LevelChoice(attr.value, 0)
  }

  /** The canonical name of a standard level, as Python's `logging` names
      it; used only to state a consistency property of `ResolveLevel`. */
  function LevelName(level: int): (name: string)
    requires level in {NOTSET, DEBUG, INFO, WARNING, ERROR, CRITICAL}
    ensures name in LevelAttributes && LevelAttributes[name] == level
  {
    if level == CRITICAL then "CRITICAL"
    else if level == ERROR then "ERROR"
    else if level == WARNING then "WARNING"
    else if level == INFO then "INFO"
    else if level == DEBUG then "DEBUG"
    else "NOTSET"
  }

  /** A sanity property of this model rather than a promise of the grabber:
      resolving the canonical name of any chosen level gives that level back
      without an error, so the fallback never yields a level the lookup rejects. */
  lemma ResolvedLevelIsStable(logLevel: string)
    ensures ResolveLevel(LevelName(ResolveLevel(logLevel).level))
         == LevelChoice(ResolveLevel(logLevel).level, 0)
  {
  }

  /** NOTSET names a real level, yet it is treated like an unknown name: the
      logger ends at DEBUG, the same level as asking for DEBUG, but with an error. */
  lemma NotsetFallsBackToDebug()
    ensures NOTSET in LevelAttributes.Values
    ensures ResolveLevel("NOTSET") == LevelChoice(DEBUG, 1)
    ensures ResolveLevel("DEBUG") == LevelChoice(DEBUG, 0)
  {
    assert LevelAttributes["NOTSET"] == NOTSET;
  }
}
