/**
 * Local, opt-in diagnostics: a FIFO store of at most 100 metrics that records nothing
 * while the "diagnostics_enabled" preference is off and is emptied when the user opts
 * out, the ratings that interpret a metric, the error-code lookup, and the export
 * report that groups the stored metrics by type.
 */
module Diagnostics {
  import opened Wrappers
  import opened Preferences
  import Text

  const MAX_STORED_METRICS: nat := 100

  const INT_MIN: int := -0x8000_0000
  const INT_MAX: int := 0x7FFF_FFFF

  // ---------------------------------------------------------------------------
  // Metric values: Kotlin's Number, with the conversions the interpretations use
  // ---------------------------------------------------------------------------

  /** A boxed Kotlin `Int`, `Long` or `Double`. */
  datatype Number = IntValue(i: int) | LongValue(l: int) | DoubleValue(d: real)
  {
    /** `toLong()`: a Double is truncated toward zero and saturated to the Long range. */
    function ToLong(): int {
      match this
      case IntValue(i) => i
      case LongValue(l) => l
      case DoubleValue(d) => Saturate(TruncateReal(d), Text.LONG_MIN, Text.LONG_MAX)
    }

    /** `toInt()`: a Long keeps its low 32 bits; a Double is truncated and saturated. */
    function ToInt(): int {
      match this
      case IntValue(i) => i
      case LongValue(l) => WrapInt(l)
      case DoubleValue(d) => Saturate(TruncateReal(d), INT_MIN, INT_MAX)
    }

    function ToDouble(): real {
      match this
      case IntValue(i) => i as real
      case LongValue(l) => l as real
      case DoubleValue(d) => d
    }
  }

  /** Rounding toward zero, as the JVM's double-to-integer conversions do. */
  function TruncateReal(d: real): (n: int)
    ensures 0.0 <= d ==> 0 <= n && n as real <= d < n as real + 1.0
    ensures d < 0.0 ==> n <= 0 && n as real - 1.0 < d <= n as real
  {
    if d >= 0.0 then d.Floor else -((-d).Floor)
  }

  function Saturate(n: int, lo: int, hi: int): (r: int)
    requires lo <= hi
    ensures lo <= r <= hi
    ensures lo <= n <= hi ==> r == n
  {
    if n < lo then lo else if n > hi then hi else n
  }

  /** A Long narrowed to an Int: the value modulo 2^32, read as two's complement. */
  function WrapInt(l: int): (r: int)
    ensures INT_MIN <= r <= INT_MAX
    ensures (r - l) % 0x1_0000_0000 == 0
    ensures INT_MIN <= l <= INT_MAX ==> r == l
  {
    (l - INT_MIN) % 0x1_0000_0000 + INT_MIN
  }

  // ---------------------------------------------------------------------------
  // Metric types, error codes, metrics
  // ---------------------------------------------------------------------------

  datatype MetricType =
    | TimeToFirstToken
    | TokensPerSecond
    | MemoryPeakMb
    | ErrorCodeMetric
    | InputLength
    | OutputLength
  {
    function DisplayName(): string {
      match this
      case TimeToFirstToken => "Time to First Token"
      case TokensPerSecond => "Processing Speed"
      case MemoryPeakMb => "Memory Usage"
      case ErrorCodeMetric => "Errors"
      case InputLength => "Input Size"
      case OutputLength => "Output Size"
    }

    predicate IsNumeric() {
      !ErrorCodeMetric?
    }
  }

  datatype ErrorCode =
    | Unknown
    | ModelInitializationFailed
    | OutOfMemory
    | TextTooLong
    | ProcessingFailed
  {
    function Code(): int {
      match this
      case Unknown => 0
      case ModelInitializationFailed => 1001
      case OutOfMemory => 1002
      case TextTooLong => 1003
      case ProcessingFailed => 1004
    }

    function Description(): string {
      match this
      case Unknown => "Unknown error"
      case ModelInitializationFailed => "Model initialization failed"
      case OutOfMemory => "Out of memory"
      case TextTooLong => "Input text too long"
      case ProcessingFailed => "Text processing failed"
    }
  }

  /** `ErrorCode.values()`, in declaration order. */
  const ERROR_CODES: seq<ErrorCode> :=
    [Unknown, ModelInitializationFailed, OutOfMemory, TextTooLong, ProcessingFailed]

  /** `find { it.code == code }`: the first element carrying `code`. */
  function FindByCode(codes: seq<ErrorCode>, code: int): (r: Option<ErrorCode>)
    ensures r.Some? ==> r.value in codes && r.value.Code() == code
    ensures r.None? ==> forall e :: e in codes ==> e.Code() != code
  {
    if codes == [] then None
    else if codes[0].Code() == code then Some(codes[0])
    else FindByCode(codes[1..], code)
  }

  /** `ErrorCode.fromCode`: the code's constant, or UNKNOWN for any other integer. */
  function FromCode(code: int): ErrorCode {
    match FindByCode(ERROR_CODES, code)
    case Some(e) => e
    case None => Unknown
  }

  /** Every error code survives the trip through its integer code. */
  lemma FromCodeRoundTrip(e: ErrorCode)
    ensures FromCode(e.Code()) == e
  {
    assert e in ERROR_CODES;
    match FindByCode(ERROR_CODES, e.Code())
    case Some(f) =>
      assert f.Code() == e.Code();
    case None =>
  }

  /** An integer that is no error's code is read back as UNKNOWN. */
  lemma FromCodeOther(code: int)
    requires code != 0 && (code < 1001 || 1004 < code)
    ensures FromCode(code) == Unknown
  {
    assert forall e: ErrorCode :: e.Code() != code;
  }

  datatype Metric = Metric(metricType: MetricType, value: Number, timestamp: int)

  // ---------------------------------------------------------------------------
  // Interpretation of one metric
  // ---------------------------------------------------------------------------

  datatype Rating = Fast | Okay | Slow | Good | Acceptable | Low | Normal | High

  /** Time to first token: the value as a Long, in milliseconds, read as seconds. */
  function TtftSeconds(v: Number): real {
    v.ToLong() as real / 1000.0
  }

  function TtftRating(v: Number): Rating {
    var seconds := TtftSeconds(v);
    if seconds < 2.0 then Fast else if seconds < 4.0 then Okay else Slow
  }

  function TpsRating(v: Number): Rating {
    var tps := v.ToDouble();
    if tps > 50.0 then Good else if tps > 20.0 then Acceptable else Slow
  }

  function MemoryRating(v: Number): Rating {
    var mb := v.ToLong();
    if mb < 100 then Low else if mb < 200 then Normal else High
  }

  /** The ratings in milliseconds: under 2000 is fast, under 4000 okay, the rest slow. */
  lemma TtftThresholds(v: Number)
    ensures TtftRating(v) == Fast <==> v.ToLong() < 2000
    ensures TtftRating(v) == Okay <==> 2000 <= v.ToLong() < 4000
    ensures TtftRating(v) == Slow <==> 4000 <= v.ToLong()
  {
    var ms := v.ToLong();
    assert TtftSeconds(v) * 1000.0 == ms as real;
  }

  /** Memory in MB: under 100 is low, under 200 normal, the rest high; a Double is truncated first. */
  lemma MemoryThresholds(v: Number)
    ensures MemoryRating(v) == Low <==> v.ToLong() < 100
    ensures MemoryRating(v) == Normal <==> 100 <= v.ToLong() < 200
    ensures MemoryRating(v) == High <==> 200 <= v.ToLong()
    ensures v.DoubleValue? && 0.0 <= v.d < 100.0 ==> MemoryRating(v) == Low
  {
  }

  /** Tokens per second: above 50 is good, above 20 acceptable, the rest slow. */
  lemma TpsThresholds(v: Number)
    ensures TpsRating(v) == Good <==> v.ToDouble() > 50.0
    ensures TpsRating(v) == Acceptable <==> 20.0 < v.ToDouble() <= 50.0
    ensures TpsRating(v) == Slow <==> v.ToDouble() <= 20.0
  {
  }

  /** A slower first token never earns a better rating. */
  function SpeedRank(r: Rating): nat {
    match r
    case Fast => 0
    case Okay => 1
    case _ => 2
  }

  lemma TtftMonotone(a: Number, b: Number)
    requires a.ToLong() <= b.ToLong()
    ensures SpeedRank(TtftRating(a)) <= SpeedRank(TtftRating(b))
  {
    TtftThresholds(a);
    TtftThresholds(b);
  }

  /** The values of the export test: 2800 ms is Okay, 45.5 tokens/s Acceptable, 120 MB Normal. */
  lemma RatingExamples()
    ensures TtftSeconds(LongValue(2800)) == 2.8 && TtftRating(LongValue(2800)) == Okay
    ensures TpsRating(DoubleValue(45.5)) == Acceptable
    ensures MemoryRating(LongValue(120)) == Normal
  {
  }

  datatype Interpretation =
    | TimeToFirstTokenLine(seconds: real, rating: Rating)
    | TokensPerSecondLine(tps: real, rating: Rating)
    | MemoryPeakLine(mb: int, rating: Rating)
    | ErrorLine(description: string)
    | InputLengthLine(value: Number)
    | OutputLengthLine(value: Number)

  /** `interpretMetric`: the figure and rating of a metric, by type. */
  function Interpret(m: Metric): Interpretation {
    match m.metricType
    case TimeToFirstToken => TimeToFirstTokenLine(TtftSeconds(m.value), TtftRating(m.value))
    case TokensPerSecond => TokensPerSecondLine(m.value.ToDouble(), TpsRating(m.value))
    case MemoryPeakMb => MemoryPeakLine(m.value.ToLong(), MemoryRating(m.value))
    case ErrorCodeMetric => ErrorLine(FromCode(m.value.ToInt()).Description())
    case InputLength => InputLengthLine(m.value)
    case OutputLength => OutputLengthLine(m.value)
  }

  /** The metric `recordError(e)` stores is interpreted as e's description. */
  lemma InterpretRecordedError(e: ErrorCode, now: int)
    ensures Interpret(ErrorMetric(e, now)) == ErrorLine(e.Description())
  {
    FromCodeRoundTrip(e);
  }

  function ErrorMetric(e: ErrorCode, now: int): Metric {
    Metric(ErrorCodeMetric, IntValue(e.Code()), now)
  }

  // ---------------------------------------------------------------------------
  // The bounded store
  // ---------------------------------------------------------------------------

  /** The queue after offering to it and polling while it holds more than 100 entries. */
  function Bounded(s: seq<Metric>): (r: seq<Metric>)
    ensures |r| <= MAX_STORED_METRICS
  {
    if |s| <= MAX_STORED_METRICS then s else s[|s| - MAX_STORED_METRICS..]
  }

  /** The five metrics of one processing session, in recording order. */
  function SessionMetrics(inputLength: int, outputLength: int, timeToFirstToken: int,
                          tokensPerSecond: real, memoryUsedMb: int, now: int): (ms: seq<Metric>)
  {
    [Metric(InputLength, IntValue(inputLength), now),
     Metric(OutputLength, IntValue(outputLength), now),
     Metric(TimeToFirstToken, LongValue(timeToFirstToken), now),
     Metric(TokensPerSecond, DoubleValue(tokensPerSecond), now),
     Metric(MemoryPeakMb, LongValue(memoryUsedMb), now)]
  }

  /** Below the cap, offering a metric keeps every entry and appends the new one. */
  lemma BoundedBelowCap(s: seq<Metric>, m: Metric)
    requires |s| < MAX_STORED_METRICS
    ensures Bounded(s + [m]) == s + [m]
  {
  }

  /** At the cap, offering a metric evicts exactly the oldest entry and keeps the rest in order. */
  lemma BoundedEvictsOldest(s: seq<Metric>, m: Metric)
    requires |s| == MAX_STORED_METRICS
    ensures Bounded(s + [m]) == s[1..] + [m]
  {
    assert (s + [m])[1..] == s[1..] + [m];
  }

  /** Capping after every offer is the same as capping once at the end. */
  lemma BoundedAppend(s: seq<Metric>, t: seq<Metric>)
    ensures Bounded(Bounded(s) + t) == Bounded(s + t)
  {
    if |s| > MAX_STORED_METRICS {
      var k := |s| - MAX_STORED_METRICS;
      var u := s[k..] + t;
      assert s + t == s[..k] + u;
      if |u| > MAX_STORED_METRICS {
        assert u[|u| - MAX_STORED_METRICS..] == (s + t)[|s + t| - MAX_STORED_METRICS..];
      } else {
        assert u == (s + t)[|s + t| - MAX_STORED_METRICS..];
      }
    }
  }

  /** Five offers in a row, each capped in turn, store what one capped offer of all five stores. */
  lemma BoundedFive(s0: seq<Metric>, a: Metric, b: Metric, c: Metric, d: Metric, e: Metric)
    ensures Bounded(Bounded(Bounded(Bounded(Bounded(s0 + [a]) + [b]) + [c]) + [d]) + [e])
            == Bounded(s0 + [a, b, c, d, e])
  {
    BoundedAppend(s0 + [a], [b]);
    assert s0 + [a] + [b] == s0 + [a, b];
    BoundedAppend(s0 + [a, b], [c]);
    assert s0 + [a, b] + [c] == s0 + [a, b, c];
    BoundedAppend(s0 + [a, b, c], [d]);
    assert s0 + [a, b, c] + [d] == s0 + [a, b, c, d];
    BoundedAppend(s0 + [a, b, c, d], [e]);
    assert s0 + [a, b, c, d] + [e] == s0 + [a, b, c, d, e];
  }

  class DiagnosticsManager {
    const dataStore: PreferenceStore
    var metrics: seq<Metric>

    ghost predicate Valid()
      reads this
    {
      |metrics| <= MAX_STORED_METRICS
    }

    constructor(dataStore: PreferenceStore)
      ensures this.dataStore == dataStore && metrics == [] && Valid()
    {
      this.dataStore := dataStore;
      metrics := [];
    }

    /** `diagnostics_enabled`, false when the key is absent. */
    function IsDiagnosticsEnabled(): bool
      reads dataStore
    {
      dataStore.Get(DIAGNOSTICS_ENABLED_KEY)
    }

    /** Stores the preference; opting out also empties the store. */
    method SetDiagnosticsEnabled(enabled: bool)
      requires Valid()
      modifies this, dataStore
      ensures dataStore.values == old(dataStore.values)[DIAGNOSTICS_ENABLED_KEY := enabled]
      ensures IsDiagnosticsEnabled() == enabled
      ensures metrics == if enabled then old(metrics) else []
      ensures Valid()
    {
      dataStore.Set(DIAGNOSTICS_ENABLED_KEY, enabled);
      if !enabled {
        ClearMetrics();
      }
    }

    /** Offers the metric to the queue, then polls the oldest entries while it holds more than 100. */
    method RecordMetric(metricType: MetricType, value: Number, now: int)
      requires Valid()
      modifies this
      ensures metrics == if IsDiagnosticsEnabled()
                         then Bounded(old(metrics) + [Metric(metricType, value, now)])
                         else old(metrics)
      ensures Valid()
    {
      if !IsDiagnosticsEnabled() {
        return;
      }
      var metric := Metric(metricType, value, now);
      metrics := metrics + [metric];
      ghost var offered := metrics;
      while |metrics| > MAX_STORED_METRICS
        invariant |metrics| <= |offered| && metrics == offered[|offered| - |metrics|..]
        invariant |offered| <= MAX_STORED_METRICS ==> metrics == offered
        invariant |offered| > MAX_STORED_METRICS ==> |metrics| >= MAX_STORED_METRICS
        decreases |metrics|
      {
        metrics := metrics[1..];
      }
    }

    /** Records the code of `errorCode` as an ERROR_CODE metric. */
    method RecordError(errorCode: ErrorCode, now: int)
      requires Valid()
      modifies this
      ensures metrics == if IsDiagnosticsEnabled()
                         then Bounded(old(metrics) + [ErrorMetric(errorCode, now)])
                         else old(metrics)
      ensures Valid()
    {
      RecordMetric(ErrorCodeMetric, IntValue(errorCode.Code()), now);
    }

    /** Records the five session metrics one after another, each capped in turn. */
    method RecordProcessingSession(inputLength: int, outputLength: int, timeToFirstToken: int,
                                   tokensPerSecond: real, memoryUsedMb: int, now: int)
      requires Valid()
      modifies this
      ensures metrics == if IsDiagnosticsEnabled()
                         then Bounded(old(metrics) + SessionMetrics(inputLength, outputLength,
                                                                    timeToFirstToken, tokensPerSecond,
                                                                    memoryUsedMb, now))
                         else old(metrics)
      ensures Valid()
    {
      if !IsDiagnosticsEnabled() {
        return;
      }
      var session := SessionMetrics(inputLength, outputLength, timeToFirstToken,
                                    tokensPerSecond, memoryUsedMb, now);
      ghost var s0 := metrics;
      RecordMetric(InputLength, IntValue(inputLength), now);
      RecordMetric(OutputLength, IntValue(outputLength), now);
      RecordMetric(TimeToFirstToken, LongValue(timeToFirstToken), now);
      RecordMetric(TokensPerSecond, DoubleValue(tokensPerSecond), now);
      RecordMetric(MemoryPeakMb, LongValue(memoryUsedMb), now);
      BoundedFive(s0, session[0], session[1], session[2], session[3], session[4]);
    }

    method ClearMetrics()
      modifies this
      ensures metrics == [] && Valid()
    {
      metrics := [];
    }

    /** The stored metrics, oldest first. */
    method GetStoredMetrics() returns (r: seq<Metric>)
      ensures r == metrics
    {
      r := metrics;
    }

    /** `exportMetrics`, with `now` the time the report is generated. */
    method ExportMetrics(now: int) returns (e: Export)
      ensures e == ExportOf(metrics, now)
    {
      var ms := metrics;
      if |ms| == 0 {
        return NoDiagnosticsData(NO_DATA_MESSAGE);
      }
      var types := DistinctTypes(ms);
      var body := [];
      var g := 0;
      while g < |types|
        invariant 0 <= g <= |types|
        invariant body == GroupsLines(ms, types[..g])
      {
        var lines := GroupReport(ms, types[g]);
        GroupsLinesSnoc(ms, types, g);
        body := body + lines;
        g := g + 1;
      }
      assert types[..g] == types;
      var lines := ReportHead(ms, now) + body + [EndOfExport];
      e := Report(lines);
    }
  }

  // ---------------------------------------------------------------------------
  // The export report
  // ---------------------------------------------------------------------------

  /** The body of the `groupedMetrics.forEach` lambda: the lines of one group. */
  method GroupReport(ms: seq<Metric>, t: MetricType) returns (lines: seq<ReportLine>)
    ensures lines == GroupLines(ms, t)
  {
    var group := OfType(ms, t);
    var entries := [];
    var k := 0;
    while k < |group|
      invariant 0 <= k <= |group|
      invariant entries == Entries(group[..k])
    {
      assert group[..k + 1] == group[..k] + [group[k]];
      EntriesSnoc(group[..k], group[k]);
      entries := entries + [EntryLine(group[k])];
      k := k + 1;
    }
    assert group[..k] == group;
    var summary := [];
    if t.IsNumeric() {
      var values := Values(group);
      if |values| > 0 {
        summary := [Summary(t, Average(values), Min(values), Max(values))];
      }
    }
    lines := [GroupHeading(t.DisplayName())] + entries + summary + [Blank];
  }

  const NO_DATA_MESSAGE: string := "No diagnostics data available."

  datatype ReportLine =
    | Title
    | Generated(time: int)
    | TotalMetrics(count: nat)
    | Blank
    | GroupHeading(displayName: string)
    | Entry(timestamp: int, interpretation: Interpretation)
    | Summary(metricType: MetricType, avg: real, min: real, max: real)
    | EndOfExport

  /** An empty store exports the text `NO_DATA_MESSAGE`; any other store a report of lines. */
  datatype Export = NoDiagnosticsData(message: string) | Report(lines: seq<ReportLine>)

  /** The metric types in order of first occurrence, each once (the keys of `groupBy`). */
  function DistinctTypes(ms: seq<Metric>): (ts: seq<MetricType>)
    ensures forall t :: t in ts <==> exists m :: m in ms && m.metricType == t
    ensures forall i, j :: 0 <= i < j < |ts| ==> ts[i] != ts[j]
  {
    if ms == [] then []
    else
      var prefix := ms[..|ms| - 1];
      var last := ms[|ms| - 1];
      assert ms == prefix + [last];
      var ts := DistinctTypes(prefix);
      if last.metricType in ts then ts else ts + [last.metricType]
  }

  /** The position of the first stored metric of type `t`, or the store's size when there is none. */
  function FirstIndex(ms: seq<Metric>, t: MetricType): (k: nat)
    ensures k <= |ms|
    ensures k < |ms| ==> ms[k].metricType == t
    ensures forall l :: 0 <= l < k ==> ms[l].metricType != t
  {
    if ms == [] then 0
    else if ms[0].metricType == t then 0
    else 1 + FirstIndex(ms[1..], t)
  }

  /**
   * The groups come in the order in which their types first occur in the store, as the
   * keys of `groupBy`'s `LinkedHashMap`: this fixes the order of the report's sections.
   */
  lemma {:induction false} DistinctTypesInOrder(ms: seq<Metric>)
    ensures var ts := DistinctTypes(ms);
            forall i, j :: 0 <= i < j < |ts| ==> FirstIndex(ms, ts[i]) < FirstIndex(ms, ts[j]) < |ms|
    decreases |ms|
  {
    if ms != [] {
      var prefix := ms[..|ms| - 1];
      var last := ms[|ms| - 1];
      assert ms == prefix + [last];
      var ts := DistinctTypes(prefix);
      DistinctTypesInOrder(prefix);
      var all := DistinctTypes(ms);
      forall i, j | 0 <= i < j < |all| ensures FirstIndex(ms, all[i]) < FirstIndex(ms, all[j]) < |ms| {
        assert all[i] == ts[i];
        FirstIndexPrefix(prefix, last, ts[i]);
        if j < |ts| {
          assert all[j] == ts[j];
          FirstIndexPrefix(prefix, last, ts[j]);
        } else {
          FirstIndexNew(prefix, last);
        }
      }
    }
  }

  /** A type already grouped keeps its first position when a metric is appended. */
  lemma FirstIndexPrefix(prefix: seq<Metric>, last: Metric, t: MetricType)
    requires t in DistinctTypes(prefix)
    ensures FirstIndex(prefix + [last], t) == FirstIndex(prefix, t) < |prefix|
  {
    var ms := prefix + [last];
    var m :| m in prefix && m.metricType == t;
    var k := FirstIndex(prefix, t);
    assert k < |prefix| by {
      var l :| 0 <= l < |prefix| && prefix[l] == m;
    }
    assert ms[k] == prefix[k];
  }

  /** A type first seen in the appended metric starts at the appended position. */
  lemma FirstIndexNew(prefix: seq<Metric>, last: Metric)
    requires last.metricType !in DistinctTypes(prefix)
    ensures FirstIndex(prefix + [last], last.metricType) == |prefix|
  {
  }

  /** The metrics of one type, in store order (a value of `groupBy`). */
  function OfType(ms: seq<Metric>, t: MetricType): (group: seq<Metric>)
    ensures |group| <= |ms|
  {
    if ms == [] then []
    else (if ms[0].metricType == t then [ms[0]] else []) + OfType(ms[1..], t)
  }

  function EntryLine(m: Metric): ReportLine {
    Entry(m.timestamp, Interpret(m))
  }

  function Entries(group: seq<Metric>): (lines: seq<ReportLine>)
    ensures |lines| == |group|
  {
    if group == [] then [] else [EntryLine(group[0])] + Entries(group[1..])
  }

  function Values(group: seq<Metric>): (vs: seq<real>)
    ensures |vs| == |group|
    ensures forall i :: 0 <= i < |vs| ==> vs[i] == group[i].value.ToDouble()
  {
    if group == [] then [] else [group[0].value.ToDouble()] + Values(group[1..])
  }

  function Sum(vs: seq<real>): real {
    if vs == [] then 0.0 else vs[0] + Sum(vs[1..])
  }

  function Average(vs: seq<real>): real
    requires |vs| > 0
  {
    Sum(vs) / |vs| as real
  }

  function Min(vs: seq<real>): (r: real)
    requires |vs| > 0
  {
    if |vs| == 1 then vs[0] else
      var m := Min(vs[1..]);
      if vs[0] <= m then vs[0] else m
  }

  function Max(vs: seq<real>): (r: real)
    requires |vs| > 0
  {
    if |vs| == 1 then vs[0] else
      var m := Max(vs[1..]);
      if vs[0] >= m then vs[0] else m
  }

  /** The lines of one group: heading, one entry per metric, a summary for numeric types, a blank. */
  function GroupLines(ms: seq<Metric>, t: MetricType): seq<ReportLine> {
    var group := OfType(ms, t);
    var values := Values(group);
    [GroupHeading(t.DisplayName())] + Entries(group)
    + SummaryLines(t, group)
    + [Blank]
  }

  function SummaryLines(t: MetricType, group: seq<Metric>): seq<ReportLine> {
    var values := Values(group);
    if t.IsNumeric() && |values| > 0 then [Summary(t, Average(values), Min(values), Max(values))] else []
  }

  function GroupsLines(ms: seq<Metric>, ts: seq<MetricType>): seq<ReportLine> {
    if ts == [] then [] else GroupsLines(ms, ts[..|ts| - 1]) + GroupLines(ms, ts[|ts| - 1])
  }

  lemma GroupsLinesSnoc(ms: seq<Metric>, ts: seq<MetricType>, g: nat)
    requires g < |ts|
    ensures GroupsLines(ms, ts[..g + 1]) == GroupsLines(ms, ts[..g]) + GroupLines(ms, ts[g])
  {
    assert ts[..g + 1][..g] == ts[..g];
  }

  function ReportHead(ms: seq<Metric>, now: int): seq<ReportLine> {
    [Title, Generated(now), TotalMetrics(|ms|), Blank]
  }

  function ExportOf(ms: seq<Metric>, now: int): Export {
    if ms == [] then NoDiagnosticsData(NO_DATA_MESSAGE)
    else Report(ReportHead(ms, now) + GroupsLines(ms, DistinctTypes(ms)) + [EndOfExport])
  }

  lemma {:induction false} EntriesSnoc(group: seq<Metric>, m: Metric)
    ensures Entries(group + [m]) == Entries(group) + [EntryLine(m)]
    decreases |group|
  {
    if group == [] {
      assert [m][1..] == [];
    } else {
      assert (group + [m])[1..] == group[1..] + [m];
      EntriesSnoc(group[1..], m);
    }
  }

  // ---------------------------------------------------------------------------
  // Properties of the export
  // ---------------------------------------------------------------------------

  function EntryCount(lines: seq<ReportLine>): nat {
    if lines == [] then 0 else (if lines[0].Entry? then 1 else 0) + EntryCount(lines[1..])
  }

  lemma {:induction false} EntryCountAppend(a: seq<ReportLine>, b: seq<ReportLine>)
    ensures EntryCount(a + b) == EntryCount(a) + EntryCount(b)
    decreases |a|
  {
    if a == [] {
      assert a + b == b;
    } else {
      assert (a + b)[1..] == a[1..] + b;
      EntryCountAppend(a[1..], b);
    }
  }

  lemma {:induction false} EntryCountNone(lines: seq<ReportLine>)
    requires forall i :: 0 <= i < |lines| ==> !lines[i].Entry?
    ensures EntryCount(lines) == 0
    decreases |lines|
  {
    if lines != [] {
      EntryCountNone(lines[1..]);
    }
  }

  lemma {:induction false} EntryCountEntries(group: seq<Metric>)
    ensures EntryCount(Entries(group)) == |group|
    decreases |group|
  {
    if group != [] {
      EntryCountAppend([EntryLine(group[0])], Entries(group[1..]));
      EntryCountEntries(group[1..]);
    }
  }

  lemma EntryCountGroup(ms: seq<Metric>, t: MetricType)
    ensures EntryCount(GroupLines(ms, t)) == |OfType(ms, t)|
  {
    var group := OfType(ms, t);
    var heading := [GroupHeading(t.DisplayName())];
    var entries := Entries(group);
    var summary := SummaryLines(t, group);
    EntryCountAppend(heading, entries);
    EntryCountAppend(heading + entries, summary);
    EntryCountAppend(heading + entries + summary, [Blank]);
    EntryCountEntries(group);
  }

  /** The number of metrics of each type in `ts`, summed. */
  function CountOfTypes(ms: seq<Metric>, ts: seq<MetricType>): nat {
    if ts == [] then 0 else CountOfTypes(ms, ts[..|ts| - 1]) + |OfType(ms, ts[|ts| - 1])|
  }

  lemma {:induction false} EntryCountGroups(ms: seq<Metric>, ts: seq<MetricType>)
    ensures EntryCount(GroupsLines(ms, ts)) == CountOfTypes(ms, ts)
    decreases |ts|
  {
    if ts != [] {
      var init := ts[..|ts| - 1];
      EntryCountGroups(ms, init);
      EntryCountAppend(GroupsLines(ms, init), GroupLines(ms, ts[|ts| - 1]));
      EntryCountGroup(ms, ts[|ts| - 1]);
    }
  }

  /** A group holds exactly the stored metrics of its type. */
  lemma {:induction false} OfTypeMembers(ms: seq<Metric>, t: MetricType)
    ensures forall m :: m in OfType(ms, t) <==> m in ms && m.metricType == t
    decreases |ms|
  {
    if ms != [] {
      OfTypeMembers(ms[1..], t);
      assert ms == [ms[0]] + ms[1..];
    }
  }

  lemma {:induction false} OfTypeNone(ms: seq<Metric>, t: MetricType)
    requires forall m :: m in ms ==> m.metricType != t
    ensures OfType(ms, t) == []
    decreases |ms|
  {
    if ms != [] {
      assert ms[0] in ms;
      OfTypeNone(ms[1..], t);
    }
  }

  lemma {:induction false} OfTypeSnoc(ms: seq<Metric>, m: Metric, t: MetricType)
    ensures OfType(ms + [m], t) == OfType(ms, t) + (if m.metricType == t then [m] else [])
    decreases |ms|
  {
    if ms == [] {
      assert [m][1..] == [];
    } else {
      assert (ms + [m])[1..] == ms[1..] + [m];
      OfTypeSnoc(ms[1..], m, t);
    }
  }

  /** One more metric adds one to the count of exactly the type it has, when that type is listed once. */
  lemma {:induction false} CountOfTypesSnoc(ms: seq<Metric>, m: Metric, ts: seq<MetricType>)
    requires forall i, j :: 0 <= i < j < |ts| ==> ts[i] != ts[j]
    ensures CountOfTypes(ms + [m], ts) == CountOfTypes(ms, ts) + (if m.metricType in ts then 1 else 0)
    decreases |ts|
  {
    if ts != [] {
      var init := ts[..|ts| - 1];
      var t := ts[|ts| - 1];
      assert ts == init + [t];
      CountOfTypesSnoc(ms, m, init);
      OfTypeSnoc(ms, m, t);
      assert m.metricType in ts <==> m.metricType in init || m.metricType == t;
      assert t !in init by {
        forall i | 0 <= i < |init| ensures init[i] != t {
          assert init[i] == ts[i];
        }
      }
    }
  }

  /** Grouping by type partitions the store: the groups' sizes add up to the number of metrics. */
  lemma {:induction false} GroupsPartition(ms: seq<Metric>)
    ensures CountOfTypes(ms, DistinctTypes(ms)) == |ms|
    decreases |ms|
  {
    if ms != [] {
      var prefix := ms[..|ms| - 1];
      var m := ms[|ms| - 1];
      assert ms == prefix + [m];
      var ts := DistinctTypes(prefix);
      GroupsPartition(prefix);
      CountOfTypesSnoc(prefix, m, ts);
      if m.metricType !in ts {
        OfTypeNone(prefix, m.metricType);
        OfTypeSnoc(prefix, m, m.metricType);
        assert CountOfTypes(ms, ts + [m.metricType])
               == CountOfTypes(ms, ts) + |OfType(ms, m.metricType)| by {
          assert (ts + [m.metricType])[..|ts|] == ts;
        }
      }
    }
  }

  /**
   * The export of an empty store is the no-data message; any other store exports a
   * report whose header gives the number of metrics.
   */
  lemma ExportShape(ms: seq<Metric>, now: int)
    ensures ExportOf(ms, now) == NoDiagnosticsData(NO_DATA_MESSAGE) <==> ms == []
    ensures ms != [] ==> ExportOf(ms, now).lines[..4] == [Title, Generated(now), TotalMetrics(|ms|), Blank]
    ensures ms != [] ==> ExportOf(ms, now).lines[|ExportOf(ms, now).lines| - 1] == EndOfExport
  {
    if ms != [] {
      var head := ReportHead(ms, now);
      var body := GroupsLines(ms, DistinctTypes(ms));
      assert (head + body + [EndOfExport])[..4] == head;
    }
  }

  /** The report lists each stored metric exactly once: it has one entry line per metric. */
  lemma ExportListsEveryMetric(ms: seq<Metric>, now: int)
    requires ms != []
    ensures EntryCount(ExportOf(ms, now).lines) == |ms|
  {
    var head := ReportHead(ms, now);
    var types := DistinctTypes(ms);
    var body := GroupsLines(ms, types);
    assert ExportOf(ms, now).lines == head + body + [EndOfExport];
    EntryCountAppend(head, body);
    EntryCountAppend(head + body, [EndOfExport]);
    EntryCountNone(head);
    EntryCountNone([EndOfExport]);
    EntryCountGroups(ms, types);
    GroupsPartition(ms);
  }

  /**
   * Every line of a report generated at `now` is fixed text or is determined by the
   * store: the generation time is `now`, the count is the store's size, a heading names
   * the type of a stored metric, an entry renders one stored metric, and a summary holds
   * the average, minimum and maximum of the values of a stored numeric type.
   */
  ghost predicate FromStore(lines: seq<ReportLine>, ms: seq<Metric>, now: int) {
    forall l :: l in lines ==>
      match l
      case Generated(time) => time == now
      case TotalMetrics(count) => count == |ms|
      case GroupHeading(name) => exists m :: m in ms && name == m.metricType.DisplayName()
      case Entry(_, _) => exists m :: m in ms && l == EntryLine(m)
      case Summary(t, avg, lo, hi) =>
        var vs := Values(OfType(ms, t));
        t.IsNumeric() && |vs| > 0 && avg == Average(vs) && lo == Min(vs) && hi == Max(vs)
      case _ => true
  }

  lemma {:induction false} EntriesFromGroup(group: seq<Metric>, ms: seq<Metric>, now: int)
    requires forall m :: m in group ==> m in ms
    ensures FromStore(Entries(group), ms, now)
    decreases |group|
  {
    if group != [] {
      EntriesFromGroup(group[1..], ms, now);
      assert group[0] in ms;
      assert forall l :: l in Entries(group) ==> l == EntryLine(group[0]) || l in Entries(group[1..]);
    }
  }

  lemma GroupFromStore(ms: seq<Metric>, t: MetricType, now: int)
    requires t in DistinctTypes(ms)
    ensures FromStore(GroupLines(ms, t), ms, now)
  {
    var group := OfType(ms, t);
    OfTypeMembers(ms, t);
    EntriesFromGroup(group, ms, now);
    var summary := SummaryLines(t, group);
    assert FromStore(summary, ms, now);
    var m :| m in ms && m.metricType == t;
    assert FromStore([GroupHeading(t.DisplayName())], ms, now);
    FromStoreConcat([GroupHeading(t.DisplayName())], Entries(group), ms, now);
    FromStoreConcat([GroupHeading(t.DisplayName())] + Entries(group), summary, ms, now);
    FromStoreConcat([GroupHeading(t.DisplayName())] + Entries(group) + summary, [Blank], ms, now);
  }

  lemma FromStoreConcat(a: seq<ReportLine>, b: seq<ReportLine>, ms: seq<Metric>, now: int)
    requires FromStore(a, ms, now) && FromStore(b, ms, now)
    ensures FromStore(a + b, ms, now)
  {
    assert forall l :: l in a + b ==> l in a || l in b;
  }

  lemma {:induction false} GroupsFromStore(ms: seq<Metric>, ts: seq<MetricType>, now: int)
    requires forall t :: t in ts ==> t in DistinctTypes(ms)
    ensures FromStore(GroupsLines(ms, ts), ms, now)
    decreases |ts|
  {
    if ts != [] {
      GroupsFromStore(ms, ts[..|ts| - 1], now);
      GroupFromStore(ms, ts[|ts| - 1], now);
      FromStoreConcat(GroupsLines(ms, ts[..|ts| - 1]), GroupLines(ms, ts[|ts| - 1]), ms, now);
    }
  }

  /**
   * The report carries no content beyond the store and the generation time: the head
   * gives `now` and the store's size, each heading names a stored type, each entry
   * renders a stored metric, and each summary is computed from that type's values.
   */
  lemma ExportFromStore(ms: seq<Metric>, now: int)
    requires ms != []
    ensures FromStore(ExportOf(ms, now).lines, ms, now)
  {
    var types := DistinctTypes(ms);
    GroupsFromStore(ms, types, now);
    assert FromStore(ReportHead(ms, now), ms, now);
    FromStoreConcat(ReportHead(ms, now), GroupsLines(ms, types), ms, now);
    FromStoreConcat(ReportHead(ms, now) + GroupsLines(ms, types), [EndOfExport], ms, now);
  }

  // ---------------------------------------------------------------------------
  // Summary statistics
  // ---------------------------------------------------------------------------

  lemma {:induction false} MinIsLeast(vs: seq<real>)
    requires |vs| > 0
    ensures Min(vs) in vs && forall v :: v in vs ==> Min(vs) <= v
    decreases |vs|
  {
    if |vs| > 1 {
      MinIsLeast(vs[1..]);
      assert vs == [vs[0]] + vs[1..];
    }
  }

  lemma {:induction false} MaxIsGreatest(vs: seq<real>)
    requires |vs| > 0
    ensures Max(vs) in vs && forall v :: v in vs ==> v <= Max(vs)
    decreases |vs|
  {
    if |vs| > 1 {
      MaxIsGreatest(vs[1..]);
      assert vs == [vs[0]] + vs[1..];
    }
  }

  lemma MulMonotone(n: real, a: real, b: real)
    requires 0.0 <= n && a <= b
    ensures n * a <= n * b
  {
    assert n * b - n * a == n * (b - a);
  }
  lemma LowerStep(k: real, n: real, lo: real, loRest: real, x: real, rest: real)
    requires k == n + 1.0 && 0.0 <= n && lo <= loRest && lo <= x && n * loRest <= rest
    ensures k * lo <= x + rest
  {
    MulMonotone(n, lo, loRest);
    assert k * lo == n * lo + lo;
  }
  lemma UpperStep(k: real, n: real, hi: real, hiRest: real, x: real, rest: real)
    requires k == n + 1.0 && 0.0 <= n && hiRest <= hi && x <= hi && rest <= n * hiRest
    ensures x + rest <= k * hi
  {
    MulMonotone(n, hiRest, hi);
    assert k * hi == n * hi + hi;
  }
  lemma DivBetween(s: real, n: real, lo: real, hi: real)
    requires 0.0 < n && n * lo <= s <= n * hi
    ensures lo <= s / n <= hi
  {
    var a := s / n;
    assert a * n == s;
    if a < lo {
      MulMonotone(n, a, lo);
    }
    if hi < a {
      MulMonotone(n, hi, a);
    }
  }

  lemma {:induction false} SumBetween(vs: seq<real>)
    requires |vs| > 0
    ensures |vs| as real * Min(vs) <= Sum(vs) <= |vs| as real * Max(vs)
    decreases |vs|
  {
    if |vs| == 1 {
      assert Sum(vs) == vs[0] + Sum(vs[1..]);
    } else {
      var rest := vs[1..];
      SumBetween(rest);
      assert Min(vs) <= vs[0] && Min(vs) <= Min(rest);
      assert vs[0] <= Max(vs) && Max(rest) <= Max(vs);
      assert Sum(vs) == vs[0] + Sum(rest);
      LowerStep(|vs| as real, |rest| as real, Min(vs), Min(rest), vs[0], Sum(rest));
      UpperStep(|vs| as real, |rest| as real, Max(vs), Max(rest), vs[0], Sum(rest));
    }
  }

  /** The average of a group lies between its minimum and its maximum. */
  lemma AverageBetween(vs: seq<real>)
    requires |vs| > 0
    ensures Min(vs) <= Average(vs) <= Max(vs)
  {
    SumBetween(vs);
    DivBetween(Sum(vs), |vs| as real, Min(vs), Max(vs));
  }

  /** A summary line, when a group has one, is consistent: Min <= Avg <= Max. */
  lemma SummaryConsistent(t: MetricType, group: seq<Metric>)
    ensures forall l :: l in SummaryLines(t, group) ==> l.Summary? && l.min <= l.avg <= l.max
  {
    var values := Values(group);
    if |values| > 0 {
      AverageBetween(values);
    }
  }
}
