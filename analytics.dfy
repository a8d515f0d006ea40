/**
 * The session-bookkeeping component of the automation suite (class
 * AutomationAnalytics in src/main.py): four counters that are loaded from a
 * JSON stats file at construction, folded forward by each ended session, and
 * written back to the file after every recorded session.
 *
 * The wall clock is a parameter (`now`), the `last_updated` timestamp string
 * is a parameter (`stamp`), and the stats file is an object of class
 * StatsDisk whose contents the save step overwrites.
 */
module Analytics {
  import opened Wrappers

  // ---------------------------------------------------------------------------
  // The stats file (automation_stats.json)
  // ---------------------------------------------------------------------------

  /** A JSON value as the stats file may hold it under one key. */
  datatype Json = JInt(i: int) | JNum(r: real) | JText(s: string)

  /** A JSON object: key to value. */
  type StatsRecord = map<string, Json>

  /** What reading the stats file can find. */
  datatype StatsFile =
    | Missing                        // the file does not exist
    | Unreadable                     // it exists but cannot be opened or parsed as a JSON object
    | Stored(record: StatsRecord)    // it parsed to a JSON object

  const OperationsCompletedKey: string := "operations_completed"
  const TotalRuntimeKey: string := "total_runtime"
  const SuccessRateKey: string := "success_rate"
  const TotalAttemptsKey: string := "total_attempts"
  const LastUpdatedKey: string := "last_updated"

  /** The keys the loader reads. */
  const CounterKeys: set<string> :=
    {OperationsCompletedKey, TotalRuntimeKey, SuccessRateKey, TotalAttemptsKey}

  // ---------------------------------------------------------------------------
  // Counters
  // ---------------------------------------------------------------------------

  /**
   * The four persisted counters. They are `int`, not `nat`: the loader copies
   * whatever integers the file holds, negative ones included.
   */
  datatype Counters = Counters(completed: int, runtime: real, rate: real, attempts: int)

  /** The values __init__ assigns before loading. */
  const Zero: Counters := Counters(0, 0.0, 0.0, 0)

  /**
   * The success percentage recomputed by end_session, with its guard against
   * zero attempts. The result never needs a division by zero, is the exact
   * percentage when there were attempts, and lies in [0, 100] whenever the
   * completed count is between zero and the attempt count.
   */
  function SuccessRate(completed: int, attempts: int): (rate: real)
    ensures attempts > 0 ==> rate * (attempts as real) == 100.0 * (completed as real)
    ensures attempts <= 0 ==> rate == 0.0
    ensures 0 <= completed <= attempts ==> 0.0 <= rate <= 100.0
    ensures 0 < completed == attempts ==> rate == 100.0
    ensures completed == 0 ==> rate == 0.0
  {
    if attempts > 0 then
      var q := completed as real / attempts as real;
      assert q * (attempts as real) == completed as real;
      assert 0 <= completed <= attempts ==> 0.0 <= q <= 1.0 by {
        if 0 <= completed <= attempts {
          assert q * (attempts as real) <= attempts as real;
        }
      }
      q * 100.0
    else
      0.0
  }

  /**
   * The average operation time shown by display_metrics: runtime per completed
   * operation, and 0 when nothing has completed, so it never divides by zero.
   */
  function AverageTime(runtime: real, completed: int): (avg: real)
    ensures completed > 0 ==> avg * (completed as real) == runtime
    ensures completed <= 0 ==> avg == 0.0
    ensures completed > 0 && runtime >= 0.0 ==> 0.0 <= avg <= runtime
  {
    if completed > 0 then
      var avg := runtime / completed as real;
      assert avg * (completed as real) == runtime;
      assert runtime >= 0.0 ==> avg <= runtime by {
        if runtime >= 0.0 {
          assert avg * (completed as real) >= avg;
        }
      }
      avg
    else
      0.0
  }

  /** The counter invariant: completed lies between zero and attempts, and the rate matches the two counts. */
  predicate Consistent(c: Counters)
  {
    0 <= c.completed <= c.attempts && c.rate == SuccessRate(c.completed, c.attempts)
  }

  /**
   * One guarded end_session on counter values: the value-level counterpart of
   * AutomationAnalytics.EndSession. One more attempt, one more completion
   * exactly when the session succeeded, the duration added to the runtime,
   * and a rate that is the percentage of the new counts; from counters with
   * 0 <= completed <= attempts the result satisfies the counter invariant.
   */
  function EndStep(c: Counters, success: bool, duration: real): (r: Counters)
    ensures r.attempts == c.attempts + 1
    ensures r.completed == c.completed + 1 <==> success
    ensures r.completed == c.completed <==> !success
    ensures r.runtime == c.runtime + duration
    ensures r.attempts > 0 ==> r.rate * (r.attempts as real) == 100.0 * (r.completed as real)
    ensures r.attempts <= 0 ==> r.rate == 0.0
    ensures 0 <= c.completed <= c.attempts ==> Consistent(r) && 0.0 <= r.rate <= 100.0
  {
    var completed := if success then c.completed + 1 else c.completed;
    var attempts := c.attempts + 1;
    Counters(completed, c.runtime + duration, SuccessRate(completed, attempts), attempts)
  }

  // ---------------------------------------------------------------------------
  // Saving and loading
  // ---------------------------------------------------------------------------

  /** The object _save_analytics writes: the four counters and the timestamp, nothing else. */
  function Encode(c: Counters, stamp: string): (rec: StatsRecord)
    ensures rec.Keys == CounterKeys + {LastUpdatedKey}
  {
    map[OperationsCompletedKey := JInt(c.completed),
        TotalRuntimeKey := JNum(c.runtime),
        SuccessRateKey := JNum(c.rate),
        TotalAttemptsKey := JInt(c.attempts),
        LastUpdatedKey := JText(stamp)]
  }

  /** A record of numbers: integer counters hold integers, the others numbers. */
  predicate WellTyped(rec: StatsRecord)
  {
    && (OperationsCompletedKey in rec ==> rec[OperationsCompletedKey].JInt?)
    && (TotalAttemptsKey in rec ==> rec[TotalAttemptsKey].JInt?)
    && (TotalRuntimeKey in rec ==> !rec[TotalRuntimeKey].JText?)
    && (SuccessRateKey in rec ==> !rec[SuccessRateKey].JText?)
  }

  /** The number a numeric JSON value denotes. */
  function AsReal(v: Json): real
    requires !v.JText?
  {
    if v.JInt? then v.i as real else v.r
  }

  /** `data.get(key, 0)` for an integer counter; None when the value is not a JSON integer. */
  function IntField(rec: StatsRecord, key: string): Option<int>
  {
    if key !in rec then Some(0)
    else match rec[key]
      case JInt(i) => Some(i)
      case _ => None
  }

  /** `data.get(key, 0)` for a numeric counter; None when the value is not a JSON number. */
  function RealField(rec: StatsRecord, key: string): Option<real>
  {
    if key !in rec then Some(0.0)
    else match rec[key]
      case JInt(i) => Some(i as real)
      case JNum(r) => Some(r)
      case JText(_) => None
  }

  /**
   * The counters read from a parsed record, each missing key defaulting to 0
   * and the success rate taken as stored (not recomputed). None when a
   * counter key holds a value of another kind.
   */
  function DecodeRecord(rec: StatsRecord): (r: Option<Counters>)
    ensures r.Some? <==> WellTyped(rec)
    ensures r.Some? ==>
      && r.value.completed == (if OperationsCompletedKey in rec then rec[OperationsCompletedKey].i else 0)
      && r.value.attempts == (if TotalAttemptsKey in rec then rec[TotalAttemptsKey].i else 0)
      && r.value.runtime == (if TotalRuntimeKey in rec then AsReal(rec[TotalRuntimeKey]) else 0.0)
      && r.value.rate == (if SuccessRateKey in rec then AsReal(rec[SuccessRateKey]) else 0.0)
  {
    var completed := IntField(rec, OperationsCompletedKey);
    var runtime := RealField(rec, TotalRuntimeKey);
    var rate := RealField(rec, SuccessRateKey);
    var attempts := IntField(rec, TotalAttemptsKey);
    if completed.Some? && runtime.Some? && rate.Some? && attempts.Some? then
      Some(Counters(completed.value, runtime.value, rate.value, attempts.value))
    else
      None
  }

  /**
   * The effect of _load_analytics on counters `prev`, the value-level
   * counterpart of AutomationAnalytics.LoadAnalytics: a readable record
   * replaces them; a missing or unreadable file leaves them as they were.
   */
  function LoadOver(prev: Counters, file: StatsFile): (r: Counters)
    ensures file.Stored? && WellTyped(file.record) ==> Some(r) == DecodeRecord(file.record)
    ensures !(file.Stored? && WellTyped(file.record)) ==> r == prev
  {
    match file
    case Stored(rec) =>
      var decoded := DecodeRecord(rec);
      if decoded.Some? then decoded.value else prev
    case _ => prev
  }

  /**
   * The counters of a freshly constructed object: zero defaults, then the
   * load. Without a readable record every counter is 0.
   */
  function Load(file: StatsFile): (r: Counters)
    ensures !(file.Stored? && WellTyped(file.record)) ==> r == Zero
    ensures file.Stored? && WellTyped(file.record) ==> Some(r) == DecodeRecord(file.record)
  {
    LoadOver(Zero, file)
  }

  // ---------------------------------------------------------------------------
  // The backing file and the analytics object
  // ---------------------------------------------------------------------------

  /**
   * The stats file on disk. `writable` says whether opening it for writing
   * succeeds; when it does not, a save changes nothing on disk.
   */
  class StatsDisk {
    var file: StatsFile
    var writable: bool

    constructor (file: StatsFile, writable: bool)
      ensures this.file == file && this.writable == writable
    {
      this.file := file;
      this.writable := writable;
    }
  }

  /** What display_metrics shows: completed count, success rate, runtime and average time. */
  datatype Metrics = Metrics(completed: int, successRate: real, totalRuntime: real, averageTime: real)

  class AutomationAnalytics {
    var operationsCompleted: int
    var totalRuntime: real
    var startTime: Option<real>
    var successRate: real
    var totalAttempts: int
    /** The stats file this object loads from and saves to. */
    const disk: StatsDisk

    /** The four counters as a value. */
    function Snapshot(): Counters
      reads this
    {
      Counters(operationsCompleted, totalRuntime, successRate, totalAttempts)
    }

    /** The object's counters satisfy the counter invariant. */
    predicate Valid()
      reads this
    {
      Consistent(Snapshot())
    }

    /** __init__: zero counters, no session marker, then _load_analytics. */
    constructor (disk: StatsDisk)
      ensures this.disk == disk && startTime == None
      ensures Snapshot() == Load(disk.file)
    {
      operationsCompleted := 0;
      totalRuntime := 0.0;
      startTime := None;
      successRate := 0.0;
      totalAttempts := 0;
      this.disk := disk;
      new;
      LoadAnalytics();
    }

    /** start_session: overwrite the start marker with the current time; no counter changes. */
    method StartSession(now: real)
      modifies this`startTime
      ensures startTime == Some(now)
      ensures Snapshot() == old(Snapshot())
    {
      startTime := Some(now);
    }

    /**
     * end_session: without a start marker nothing happens. Otherwise the time
     * since the marker is added to the runtime, one attempt is counted, one
     * completion is counted exactly when `success` holds, the rate is
     * recomputed and the counters are saved. The marker is kept.
     */
    method EndSession(now: real, stamp: string, success: bool := true)
      modifies this`totalRuntime, this`totalAttempts, this`operationsCompleted, this`successRate
      modifies disk`file
      ensures startTime == old(startTime)
      ensures old(startTime).None? ==> Snapshot() == old(Snapshot()) && disk.file == old(disk.file)
      ensures old(startTime).Some? ==>
        && totalAttempts == old(totalAttempts) + 1
        && (operationsCompleted == old(operationsCompleted) + 1 <==> success)
        && (operationsCompleted == old(operationsCompleted) <==> !success)
        && totalRuntime == old(totalRuntime) + (now - old(startTime).value)
        && successRate == SuccessRate(operationsCompleted, totalAttempts)
      ensures old(startTime).Some? ==>
        Snapshot() == EndStep(old(Snapshot()), success, now - old(startTime).value)
      ensures old(startTime).Some? ==>
        disk.file == if disk.writable then Stored(Encode(Snapshot(), stamp)) else old(disk.file)
      ensures old(Valid()) ==> Valid()
    {
      if startTime.Some? {
        var duration := now - startTime.value;
        totalRuntime := totalRuntime + duration;
        totalAttempts := totalAttempts + 1;
        if success {
          operationsCompleted := operationsCompleted + 1;
        }
        successRate := SuccessRate(operationsCompleted, totalAttempts);
        SaveAnalytics(stamp);
      }
    }

    /**
     * _load_analytics: a readable record replaces the counters; a missing or
     * unreadable file is logged and leaves them unchanged.
     */
    method LoadAnalytics()
      modifies this`operationsCompleted, this`totalRuntime, this`successRate, this`totalAttempts
      ensures Snapshot() == LoadOver(old(Snapshot()), disk.file)
    {
      match disk.file {
        case Stored(rec) =>
          var decoded := DecodeRecord(rec);
          if decoded.Some? {
            operationsCompleted := decoded.value.completed;
            totalRuntime := decoded.value.runtime;
            successRate := decoded.value.rate;
            totalAttempts := decoded.value.attempts;
          }
        case _ =>
      }
    }

    /**
     * _save_analytics: overwrite the file with the four counters and the
     * timestamp; a failed write is logged and the counters stay as they are.
     */
    method SaveAnalytics(stamp: string)
      modifies disk`file
      ensures disk.file == if disk.writable then Stored(Encode(Snapshot(), stamp)) else old(disk.file)
    {
      if disk.writable {
        disk.file := Stored(Encode(Snapshot(), stamp));
      }
    }

    /** display_metrics without the formatting: the four figures it prints. */
    method DisplayMetrics() returns (m: Metrics)
      ensures m.completed == operationsCompleted
      ensures m.successRate == successRate
      ensures m.totalRuntime == totalRuntime
      ensures operationsCompleted > 0 ==> m.averageTime * (operationsCompleted as real) == totalRuntime
      ensures operationsCompleted <= 0 ==> m.averageTime == 0.0
    {
      m := Metrics(operationsCompleted, successRate, totalRuntime,
                   AverageTime(totalRuntime, operationsCompleted));
    }
  }
}
