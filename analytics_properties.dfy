/**
 * Properties of the analytics counters: what a run of sessions does to them,
 * the counter invariant and the success-rate bounds, and how the stats file
 * is defaulted and read back.
 */
module AnalyticsProperties {
  import opened Wrappers
  import opened Analytics

  /** One ended session: its outcome and its measured duration. */
  datatype Session = Session(success: bool, duration: real)

  /** The counters after ending the given sessions in order, starting from `c`. */
  function Replay(c: Counters, sessions: seq<Session>): Counters
    decreases |sessions|
  {
    if sessions == [] then c
    else Replay(EndStep(c, sessions[0].success, sessions[0].duration), sessions[1..])
  }

  /** The number of successful sessions. */
  function Successes(sessions: seq<Session>): nat
  {
    if sessions == [] then 0
    else (if sessions[0].success then 1 else 0) + Successes(sessions[1..])
  }

  /** The sum of the session durations. */
  function TotalDuration(sessions: seq<Session>): real
  {
    if sessions == [] then 0.0 else sessions[0].duration + TotalDuration(sessions[1..])
  }

  /**
   * Over any run of sessions, each one adds exactly one attempt, a completion
   * exactly for the successful ones and its own duration, and after at least
   * one session the rate is the percentage of completions among attempts.
   */
  lemma {:induction false} ReplayCounts(c: Counters, sessions: seq<Session>)
    ensures Replay(c, sessions).attempts == c.attempts + |sessions|
    ensures Replay(c, sessions).completed == c.completed + Successes(sessions)
    ensures Replay(c, sessions).runtime == c.runtime + TotalDuration(sessions)
    ensures sessions != [] ==>
      Replay(c, sessions).rate == SuccessRate(Replay(c, sessions).completed, Replay(c, sessions).attempts)
    decreases |sessions|
  {
    if sessions != [] {
      var s := sessions[0];
      ReplayCounts(EndStep(c, s.success, s.duration), sessions[1..]);
    }
  }

  /**
   * The counter invariant holds after any run of sessions that starts from
   * counters with completed between zero and attempts, and so the success
   * rate stays within [0, 100].
   */
  lemma {:induction false} ReplayKeepsConsistent(c: Counters, sessions: seq<Session>)
    requires 0 <= c.completed <= c.attempts
    requires sessions == [] ==> Consistent(c)
    ensures Consistent(Replay(c, sessions))
    ensures 0.0 <= Replay(c, sessions).rate <= 100.0
    decreases |sessions|
  {
    if sessions != [] {
      var s := sessions[0];
      var next := EndStep(c, s.success, s.duration);
      ReplayKeepsConsistent(next, sessions[1..]);
    }
  }

  /** From fresh counters, the completions are the successful sessions and the rate is their percentage. */
  lemma FromZero(sessions: seq<Session>)
    ensures Replay(Zero, sessions).attempts == |sessions|
    ensures Replay(Zero, sessions).completed == Successes(sessions)
    ensures Replay(Zero, sessions).runtime == TotalDuration(sessions)
    ensures Replay(Zero, sessions).rate * (|sessions| as real) == 100.0 * (Successes(sessions) as real)
    ensures Consistent(Replay(Zero, sessions))
  {
    ReplayCounts(Zero, sessions);
    ReplayKeepsConsistent(Zero, sessions);
  }

  /** A fresh state, one failed session: one attempt, no completion, rate 0, runtime the duration. */
  lemma OneFailedSessionFromZero(duration: real)
    ensures EndStep(Zero, false, duration) == Counters(0, duration, 0.0, 1)
  {
  }

  /** A fresh state, two successful sessions: two completions, two attempts, rate 100. */
  lemma TwoSuccessfulSessionsFromZero(d1: real, d2: real)
    ensures var c := Replay(Zero, [Session(true, d1), Session(true, d2)]);
      c.completed == 2 && c.attempts == 2 && c.rate == 100.0 && c.runtime == d1 + d2
  {
    var ss := [Session(true, d1), Session(true, d2)];
    var c1 := EndStep(Zero, true, d1);
    var c2 := EndStep(c1, true, d2);
    assert ss[1..] == [Session(true, d2)];
    assert Replay(Zero, ss) == Replay(c1, [Session(true, d2)]);
    assert Replay(c1, [Session(true, d2)]) == Replay(c2, []);
  }

  /** Saving and then loading reproduces the four counters, whatever was in memory before. */
  lemma SaveLoadRoundTrip(prev: Counters, c: Counters, stamp: string)
    ensures LoadOver(prev, Stored(Encode(c, stamp))) == c
  {
  }

  /** A fresh object over a missing or unreadable file starts from all-zero counters. */
  lemma LoadWithoutRecordIsZero(prev: Counters)
    ensures Load(Missing) == Zero && Load(Unreadable) == Zero
    ensures LoadOver(prev, Missing) == prev && LoadOver(prev, Unreadable) == prev
  {
  }

  /**
   * Loading a record of numbers: each missing counter key reads as 0, each
   * present one is taken as stored, the success rate included (it is not
   * recomputed from the other two counters).
   */
  lemma LoadFillsMissingKeys(prev: Counters, rec: StatsRecord)
    requires WellTyped(rec)
    ensures var c := LoadOver(prev, Stored(rec));
      && c.completed == (if OperationsCompletedKey in rec then rec[OperationsCompletedKey].i else 0)
      && c.attempts == (if TotalAttemptsKey in rec then rec[TotalAttemptsKey].i else 0)
      && c.runtime == (if TotalRuntimeKey in rec then AsReal(rec[TotalRuntimeKey]) else 0.0)
      && c.rate == (if SuccessRateKey in rec then AsReal(rec[SuccessRateKey]) else 0.0)
  {
  }

  /** A record with none of the counter keys loads as all zeros. */
  lemma LoadEmptyRecordIsZero(prev: Counters, rec: StatsRecord)
    requires forall k :: k in rec ==> k !in CounterKeys
    ensures LoadOver(prev, Stored(rec)) == Zero
  {
  }

  /** Keys other than the four counters (last_updated among them) do not affect what is loaded. */
  lemma LoadIgnoresOtherKeys(prev: Counters, rec: StatsRecord, k: string, v: Json)
    requires k !in CounterKeys
    ensures LoadOver(prev, Stored(rec[k := v])) == LoadOver(prev, Stored(rec))
  {
  }

  /**
   * The stored rate is loaded as is: a record holding only a rate of 50 loads
   * into counters that break the invariant (no attempts, yet rate 50).
   */
  lemma LoadedRateIsNotRecomputed()
    ensures var c := Load(Stored(map[SuccessRateKey := JNum(50.0)]));
      c == Counters(0, 0.0, 50.0, 0) && !Consistent(c)
  {
  }

  /** A saved record of consistent counters loads back into consistent counters. */
  lemma SavedConsistentStaysConsistent(prev: Counters, c: Counters, stamp: string)
    requires Consistent(c)
    ensures Consistent(LoadOver(prev, Stored(Encode(c, stamp))))
  {
  }
}
