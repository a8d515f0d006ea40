/**
 * The top-level routine of src/main.py: construct the analytics object
 * (loading the stats file), start a session, validate the configuration and,
 * when it is valid, end the session as a failure and show the metrics.
 * Validation is an input here: whether the configuration checks pass.
 */
module Demo {
  import opened Wrappers
  import opened Analytics

  /**
   * `raised` is true exactly when validation failed: the error is caught and
   * the routine returns False without ending the session, so the stats file
   * is left untouched. Otherwise one failed session is recorded and saved and
   * the metrics are shown.
   */
  method RunDemo(disk: StatsDisk, configValid: bool, startNow: real, endNow: real, stamp: string)
    returns (analytics: AutomationAnalytics, shown: Option<Metrics>, raised: bool)
    modifies disk`file
    ensures fresh(analytics) && analytics.disk == disk
    ensures raised <==> !configValid
    ensures shown.Some? <==> configValid
    ensures analytics.startTime == Some(startNow)
    ensures !configValid ==>
      analytics.Snapshot() == Load(old(disk.file)) && disk.file == old(disk.file)
    ensures configValid ==>
      && analytics.Snapshot() == EndStep(Load(old(disk.file)), false, endNow - startNow)
      && analytics.operationsCompleted == Load(old(disk.file)).completed
      && analytics.totalAttempts == Load(old(disk.file)).attempts + 1
      && disk.file == (if disk.writable then Stored(Encode(analytics.Snapshot(), stamp)) else old(disk.file))
      && shown.value.completed == analytics.operationsCompleted
      && shown.value.successRate == analytics.successRate
      && shown.value.totalRuntime == analytics.totalRuntime
      && shown.value.averageTime == AverageTime(analytics.totalRuntime, analytics.operationsCompleted)
  {
    analytics := new AutomationAnalytics(disk);
    analytics.StartSession(startNow);
    if !configValid {
      shown, raised := None, true;
      return;
    }
    analytics.EndSession(endNow, stamp, success := false);
    var m := analytics.DisplayMetrics();
    shown, raised := Some(m), false;
  }

  /**
   * end_session does not clear the start marker: after one start_session,
   * two end_session calls each measure from that same start, so the runtime
   * grows by both elapsed times and two attempts are counted.
   */
  method RepeatedEndsMeasureFromSameStart(a: AutomationAnalytics, t0: real, t1: real, t2: real, stamp: string)
    modifies a, a.disk
    ensures a.startTime == Some(t0)
    ensures a.totalRuntime == old(a.totalRuntime) + (t1 - t0) + (t2 - t0)
    ensures a.totalAttempts == old(a.totalAttempts) + 2
    ensures a.operationsCompleted == old(a.operationsCompleted) + 1
  {
    a.StartSession(t0);
    a.EndSession(t1, stamp);
    a.EndSession(t2, stamp, success := false);
  }
}
