/**
 * Log data types shared by the logs views (logs.ts): the table that
 * normalises a log level abbreviation to one of seven canonical levels, the
 * deduplication strategies with their descriptions, and the check for a
 * datasource that can fetch the context of a log row.
 */
module Logs {
  import opened Js

  /** The canonical levels, the distinct values of the `LogLevel` enum. */
  datatype LogLevel = Critical | Warning | Error | Info | Debug | Trace | Unknown

  const AllLevels: set<LogLevel> := {Critical, Warning, Error, Info, Debug, Trace, Unknown}

  /** The enum value of a level: the string it carries at run time. */
  function CanonicalName(level: LogLevel): string {
    match level
    case Critical => "critical"
    case Warning => "warning"
    case Error => "error"
    case Info => "info"
    case Debug => "debug"
    case Trace => "trace"
    case Unknown => "unknown"
  }

  /** The enum's keys, in declaration order. */
  const LevelKeys: seq<string> := [
    "emerg", "fatal", "alert", "crit", "critical",
    "warn", "warning",
    "err", "eror", "error",
    "info", "information", "informational", "notice",
    "dbug", "debug",
    "trace",
    "unknown"
  ]

  /** `LogLevel[key]`: the canonical level an abbreviation stands for, if it is a key of the enum. */
  function LevelFromName(key: string): (r: Option<LogLevel>)
    ensures r.Some? <==> key in LevelKeys
    ensures r.Some? ==> r.value in AllLevels
  {
    if key in ["emerg", "fatal", "alert", "crit", "critical"] then Some(Critical)
    else if key in ["warn", "warning"] then Some(Warning)
    else if key in ["err", "eror", "error"] then Some(Error)
    else if key in ["info", "information", "informational", "notice"] then Some(Info)
    else if key in ["dbug", "debug"] then Some(Debug)
    else if key == "trace" then Some(Trace)
    else if key == "unknown" then Some(Unknown)
    else None
  }

  lemma CriticalAbbreviations()
    ensures forall k :: k in ["emerg", "fatal", "alert", "crit", "critical"] ==> LevelFromName(k) == Some(Critical)
  {
  }

  lemma WarningAndErrorAbbreviations()
    ensures forall k :: k in ["warn", "warning"] ==> LevelFromName(k) == Some(Warning)
    ensures forall k :: k in ["err", "eror", "error"] ==> LevelFromName(k) == Some(Error)
  {
  }

  lemma InfoDebugTraceUnknownAbbreviations()
    ensures forall k :: k in ["info", "information", "informational", "notice"] ==> LevelFromName(k) == Some(Info)
    ensures forall k :: k in ["dbug", "debug"] ==> LevelFromName(k) == Some(Debug)
    ensures LevelFromName("trace") == Some(Trace)
    ensures LevelFromName("unknown") == Some(Unknown)
  {
  }

  /** Normalising is idempotent: the name of every canonical level is a key that maps back to that level. */
  lemma NormalisationIdempotent(level: LogLevel)
    ensures CanonicalName(level) in LevelKeys
    ensures LevelFromName(CanonicalName(level)) == Some(level)
  {
  }

  /** The keys normalise onto exactly the seven canonical levels: seven distinct values, each the image of some key. */
  lemma NormalisationImage()
    ensures forall a, b: LogLevel :: CanonicalName(a) == CanonicalName(b) ==> a == b
    ensures forall level: LogLevel :: level in AllLevels
    ensures forall level: LogLevel :: exists i :: 0 <= i < |LevelKeys| && LevelFromName(LevelKeys[i]) == Some(level)
  {
    forall level: LogLevel
      ensures level in AllLevels
      ensures exists i :: 0 <= i < |LevelKeys| && LevelFromName(LevelKeys[i]) == Some(level)
    {
      NormalisationIdempotent(level);
      var i := KeyIndex(level);
      assert LevelFromName(LevelKeys[i]) == Some(level);
    }
  }

  /** The position in the enum of the key that spells a level's own name. */
  function KeyIndex(level: LogLevel): (i: nat)
    ensures i < |LevelKeys| && LevelKeys[i] == CanonicalName(level)
  {
    match level
    case Critical => 4
    case Warning => 6
    case Error => 9
    case Info => 10
    case Debug => 15
    case Trace => 16
    case Unknown => 17
  }

  /** How successive log lines are deduplicated; the enum value is the text shown for it. */
  datatype LogsDedupStrategy = NoDedup | Exact | Numbers | Signature

  const AllDedupStrategies: seq<LogsDedupStrategy> := [NoDedup, Exact, Numbers, Signature]

  function StrategyText(s: LogsDedupStrategy): string {
    match s
    case NoDedup => "不删除"
    case Exact => "精确"
    case Numbers => "数字"
    case Signature => "签名"
  }

  /** `LogsDedupDescription`, keyed by the same four names. */
  function StrategyDescription(s: LogsDedupStrategy): string {
    match s
    case NoDedup => "没有重复数据删除"
    case Exact => "删除相同的连续行，忽略ISO日期时间。"
    case Numbers => "对忽略数字时相同的连续行进行重复删除，例如IP地址、延迟。"
    case Signature => "删除具有相同标点和空格的连续行。"
  }

  /** Four strategies, each listed once, and texts and descriptions that tell them apart. */
  lemma DedupStrategiesDistinct()
    ensures |AllDedupStrategies| == 4
    ensures forall s: LogsDedupStrategy :: s in AllDedupStrategies
    ensures forall i, j :: 0 <= i < j < |AllDedupStrategies| ==> AllDedupStrategies[i] != AllDedupStrategies[j]
    ensures forall s, t: LogsDedupStrategy :: StrategyText(s) == StrategyText(t) ==> s == t
    ensures forall s, t: LogsDedupStrategy :: StrategyDescription(s) == StrategyDescription(t) ==> s == t
  {
    forall s: LogsDedupStrategy
      ensures s in AllDedupStrategies
    {
      match s
      case NoDedup => assert AllDedupStrategies[0] == s;
      case Exact => assert AllDedupStrategies[1] == s;
      case Numbers => assert AllDedupStrategies[2] == s;
      case Signature => assert AllDedupStrategies[3] == s;
    }
  }

  /**
   * What `hasLogsContextSupport` can see of its argument: a falsy value, or
   * an object of which only two members matter.
   */
  datatype DataSourceValue =
    | Falsy
    | Object(getLogRowContextDefined: bool, showContextToggleDefined: bool)

  /** The datasource can fetch the context of a log row. */
  function HasLogsContextSupport(ds: DataSourceValue): (supported: bool)
    ensures ds.Falsy? ==> !supported
    ensures supported ==> ds.Object? && ds.getLogRowContextDefined
    ensures ds.Object? ==> (supported <==> ds.getLogRowContextDefined && ds.showContextToggleDefined)
  {
    if ds.Falsy? then false
    else ds.getLogRowContextDefined && ds.showContextToggleDefined
  }

  /** How a meta item's value is to be shown. */
  datatype LogsMetaKind = NumberKind | StringKind | LabelsMapKind | ErrorKind

  /** A label map: label name to label value. */
  type Labels = map<string, string>

  /** `string | number | Labels` */
  datatype MetaValue = TextValue(text: string) | NumberValue(n: int) | LabelsValue(labels: Labels)

  /** Meta information shown above the logs, such as common labels; `title` is the item's label. */
  datatype LogsMetaItem = LogsMetaItem(title: string, value: MetaValue, kind: LogsMetaKind)

  /** A parsed log row; only the members the logs meta row reads. */
  datatype LogRowModel = LogRowModel(entry: string, hasUnescapedContent: bool)
}
