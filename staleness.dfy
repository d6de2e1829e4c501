/**
 * The staleness gate of MysAvatar.needRefresh: whether a stored refresh time is
 * old enough, for a given force level, that the data must be fetched again.
 * "Now" is a parameter (epoch milliseconds).
 */
module Staleness {

  /** A refresh time as a record stores it. */
  datatype Timestamp =
    | Unset         // missing, null or undefined
    | At(ms: int)   // epoch milliseconds; At(0) is falsy, like a missing time
    | NotANumber    // a truthy value whose numeric conversion is NaN

  /** The `force` argument: a level number, or the boolean `true`. */
  datatype Force = Level(n: int) | TrueFlag

  /** Minutes before data counts as stale, per force level. */
  type Thresholds = map<int, int>

  /** Threshold used for a level the table does not mention. */
  const DefaultMinutes := 60
  /** The level that always refreshes. */
  const FullForce := 2

  predicate Falsy(t: Timestamp)
  {
    t.Unset? || t == At(0)
  }

  /** `force === true` counts as level 0. */
  function EffectiveLevel(force: Force): int
  {
    match force
    case Level(n) => n
    case TrueFlag => 0
  }

  /** `forceMap[force]`, where an entry of 0 stays 0 and a missing entry gives 60. */
  function ThresholdMinutes(table: Thresholds, level: int): int
  {
    if level in table then table[level] else DefaultMinutes
  }

  /**
   * The gate as the source computes it: elapsed seconds, as a real number,
   * compared with the threshold in seconds.
   */
  function NeedRefresh(time: Timestamp, force: Force, table: Thresholds, now: int): (stale: bool)
    ensures Falsy(time) || force == Level(FullForce) || time.NotANumber? ==> stale
    ensures time.At? && time.ms > now ==> stale
  {
    if Falsy(time) || force == Level(FullForce) then true
    else if time.NotANumber? then true
    else
      var duration := (now - time.ms) as real / 1000.0;
      if duration < 0.0 then true
      else duration > (ThresholdMinutes(table, EffectiveLevel(force)) * 60) as real
  }

  /**
   * For a usable past timestamp, the gate is an integer comparison of elapsed
   * milliseconds with the threshold in milliseconds.
   */
  lemma NeedRefreshInMillis(ms: int, force: Force, table: Thresholds, now: int)
    requires ms != 0 && ms <= now && force != Level(FullForce)
    ensures NeedRefresh(At(ms), force, table, now)
            <==> now - ms > ThresholdMinutes(table, EffectiveLevel(force)) * 60000
  {
    var minutes := ThresholdMinutes(table, EffectiveLevel(force));
    var duration := (now - ms) as real / 1000.0;
    assert duration * 1000.0 == (now - ms) as real;
    assert (minutes * 60) as real * 1000.0 == (minutes * 60000) as real;
    assert duration > (minutes * 60) as real <==> (now - ms) as real > (minutes * 60000) as real;
  }

  /** With a threshold of 0 any positive elapsed time is stale, and no elapsed time is fresh. */
  lemma ZeroThresholdMeansAnyAge(ms: int, force: Force, table: Thresholds, now: int)
    requires ms != 0 && ms <= now && force != Level(FullForce)
    requires EffectiveLevel(force) in table && table[EffectiveLevel(force)] == 0
    ensures NeedRefresh(At(ms), force, table, now) <==> now > ms
  {
    NeedRefreshInMillis(ms, force, table, now);
  }

  /** A level missing from the table is gated at 60 minutes. */
  lemma MissingLevelIsHourly(ms: int, force: Force, table: Thresholds, now: int)
    requires ms != 0 && ms <= now && force != Level(FullForce)
    requires EffectiveLevel(force) !in table
    ensures NeedRefresh(At(ms), force, table, now) <==> now - ms > 3600000
  {
    NeedRefreshInMillis(ms, force, table, now);
  }

  /** `true` and level 0 are the same request. */
  lemma TrueIsLevelZero(time: Timestamp, table: Thresholds, now: int)
    ensures NeedRefresh(time, TrueFlag, table, now) == NeedRefresh(time, Level(0), table, now)
  {
  }

  /** Once stale, a past timestamp stays stale as time goes on. */
  lemma StaysStale(ms: int, force: Force, table: Thresholds, now: int, later: int)
    requires ms <= now <= later
    requires NeedRefresh(At(ms), force, table, now)
    ensures NeedRefresh(At(ms), force, table, later)
  {
    if ms != 0 && force != Level(FullForce) {
      NeedRefreshInMillis(ms, force, table, now);
      NeedRefreshInMillis(ms, force, table, later);
    }
  }

  /** Half an hour old is fresh under a 60-minute level 0; just over an hour is stale. */
  lemma HourlyExamples(now: int)
    requires now != 1800000 && now != 3700000
    ensures !NeedRefresh(At(now - 1800000), Level(0), map[0 := 60], now)
    ensures NeedRefresh(At(now - 3700000), Level(0), map[0 := 60], now)
  {
    NeedRefreshInMillis(now - 1800000, Level(0), map[0 := 60], now);
    NeedRefreshInMillis(now - 3700000, Level(0), map[0 := 60], now);
  }
}
