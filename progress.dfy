/**
 * The migration progress record: the migration state, the rows written so far
 * and the figures derived from them (bytes copied, completion percentage, copy
 * speed), and the snapshots handed to the printer. Database statistics arrive
 * as an input; the clock is an integer number of seconds passed in by the caller.
 */
module Progress {
  import opened Wrappers
  import opened Errors
  import Speedometer

  /** The migration states, named as the `STATE_*` constants name them. */
  datatype State =
    | Copying | CopyingDone | CopyingFailed | Initial | SetupFailed | SetupDone
    | SwitchingTables | SwitchedTables | SwitchingTablesFailed | TriggersDropped

  function StateName(s: State): string
  {
    match s
    case Copying => "copying"
    case CopyingDone => "copying_done"
    case CopyingFailed => "copying_failed"
    case Initial => "initial"
    case SetupFailed => "setup_failed"
    case SetupDone => "setup_done"
    case SwitchingTables => "switching_tables"
    case SwitchedTables => "switched_tables"
    case SwitchingTablesFailed => "switching_tables_failed"
    case TriggersDropped => "triggers_dropped"
  }

  /** No two states share a name, so a state string identifies its state. */
  lemma StateNamesDistinct(s: State, t: State)
    ensures StateName(s) == StateName(t) <==> s == t
  {
  }

  /**
   * `((rows_written / max_pk_key.to_f) * 100.0).round(2)`. A missing maximum
   * converts to 0.0, and dividing by 0.0 gives an infinite or NaN float, which
   * `round(2)` passes through; `None` stands for that non-finite value.
   */
  function CompletionPercentage(rowsWritten: int, maxPkKey: Option<int>): Option<real>
  {
    if maxPkKey.None? || maxPkKey.value == 0 then None
    else Some(Speedometer.Round2(rowsWritten as real / maxPkKey.value as real * 100.0))
  }

  lemma RatioBounds(rows: int, max: int)
    requires 0 <= rows <= max && max > 0
    ensures 0.0 <= rows as real / max as real <= 1.0
  {
  }

  lemma RoundBounds(v: real)
    requires 0.0 <= v <= 100.0
    ensures 0.0 <= Speedometer.Round2(v) <= 100.0
  {
    assert (v * 100.0 + 0.5).Floor <= 10000;
  }

  /** Up to the maximum key, the percentage is finite and between 0 and 100. */
  lemma PercentageInRange(rowsWritten: int, maxPkKey: int)
    requires 0 <= rowsWritten <= maxPkKey && maxPkKey > 0
    ensures CompletionPercentage(rowsWritten, Some(maxPkKey)).Some?
    ensures 0.0 <= CompletionPercentage(rowsWritten, Some(maxPkKey)).value <= 100.0
  {
    RatioBounds(rowsWritten, maxPkKey);
    RoundBounds(rowsWritten as real / maxPkKey as real * 100.0);
  }

  /** Percentage is defined exactly when a non-zero maximum key is known. */
  lemma PercentageDefinedIff(rowsWritten: int, maxPkKey: Option<int>)
    ensures CompletionPercentage(rowsWritten, maxPkKey).Some? <==> maxPkKey.Some? && maxPkKey.value != 0
  {
  }

  /** 2000 of 4000 rows written is 50.0 percent. */
  lemma HalfWay()
    ensures CompletionPercentage(2000, Some(4000)) == Some(50.0)
  {
    assert 2000 as real / 4000 as real * 100.0 == 50.0;
    assert (50.0 * 100.0 + 0.5).Floor == 5000;
  }

  /** Having written as many rows as the maximum key is 100 percent. */
  lemma AllWritten(m: int)
    requires m != 0
    ensures CompletionPercentage(m, Some(m)) == Some(100.0)
  {
    assert m as real / m as real * 100.0 == 100.0;
    assert (100.0 * 100.0 + 0.5).Floor == 10000;
  }

  /** The figures `as_hash` hands to the printer. */
  datatype Snapshot = Snapshot(
    state: State,
    throttler: string,
    tableSwitcher: string,
    avgRowLength: int,
    bytesCopied: int,
    totalBytes: int,
    completionPercentage: Option<real>,
    copySpeed: Option<real>,
    minPkKey: Option<int>,
    maxPkKey: Option<int>,
    rowsWritten: int)

  /** The default speedometer window, five minutes. */
  const DefaultWindow := 5 * 60

  /** Seconds between two snapshots when logging is not verbose. */
  const NotifyInterval := 60

  class Progress {
    /** The throttler's class name, or "None". */
    const throttler: string
    /** "AtomicSwitcher" or "LockedSwitcher". */
    const tableSwitcher: string
    /** Whether the `verbose_logging` option is present. */
    const verbose: bool
    const meter: Speedometer.Speedometer

    var state: State
    var rowsWritten: int
    var bytesCopied: int
    var avgRowLength: int
    var totalBytes: int
    /** `None` for a non-finite float. */
    var completionPercentage: Option<real>
    /** `None` for nil. */
    var copySpeed: Option<real>
    var minPkKey: Option<int>
    var maxPkKey: Option<int>
    var startTime: int
    /** The snapshots passed to the printer's `notify_progress`, oldest first. */
    var reported: seq<Snapshot>

    ghost predicate Valid()
      reads this, meter
    {
      meter.Valid()
    }

    /** The record `as_hash` builds from the current fields. */
    function AsHash(): Snapshot
      reads this
    {
      Snapshot(state, throttler, tableSwitcher, avgRowLength, bytesCopied, totalBytes,
               completionPercentage, copySpeed, minPkKey, maxPkKey, rowsWritten)
    }

    /**
     * `Progress.new` at clock reading `now`: state `initial`, every counter zero,
     * and a speedometer over `window` seconds (five minutes unless given).
     */
    constructor (throttlerName: Option<string>, atomicSwitch: bool, verbose: bool,
                 window: Option<int>, now: int)
      requires window.Some? ==> window.value > 0
      ensures Valid() && fresh(meter)
      ensures state == Initial && rowsWritten == 0 && bytesCopied == 0
      ensures avgRowLength == 0 && totalBytes == 0
      ensures completionPercentage == Some(0.0) && copySpeed == Some(0.0)
      ensures minPkKey == None && maxPkKey == None
      ensures startTime == now && reported == [] && this.verbose == verbose
      ensures throttler == (if throttlerName.Some? then throttlerName.value else "None")
      ensures tableSwitcher == (if atomicSwitch then "AtomicSwitcher" else "LockedSwitcher")
      ensures meter.window == (if window.Some? then window.value else DefaultWindow)
      ensures meter.log == [Speedometer.Sample(now, 0)]
    {
      throttler := if throttlerName.Some? then throttlerName.value else "None";
      tableSwitcher := if atomicSwitch then "AtomicSwitcher" else "LockedSwitcher";
      this.verbose := verbose;
      meter := new Speedometer.Speedometer(if window.Some? then window.value else DefaultWindow, 0, now);
      state := Initial;
      rowsWritten := 0;
      bytesCopied := 0;
      avgRowLength := 0;
      totalBytes := 0;
      completionPercentage := Some(0.0);
      copySpeed := Some(0.0);
      minPkKey := None;
      maxPkKey := None;
      startTime := now;
      reported := [];
    }

    /**
     * `update_before_copy(start, limit)`. `stats` is the first row of the
     * information-schema query (average row length, data plus index length),
     * `None` when the query returned no row, or the error the query raised.
     */
    method UpdateBeforeCopy(start: int, limit: int, stats: Result<Option<(int, int)>, StdError>)
      returns (outcome: Outcome<Error>)
      modifies this
      ensures outcome.Pass? <==> stats.Success? && stats.value.Some?
      ensures stats.Failure? ==> outcome == Fail(stats.error)
      ensures stats == Success(None) ==> outcome.Fail? && outcome.error.kind == NoMethodError
      ensures outcome.Pass? ==> avgRowLength == stats.value.value.0 && totalBytes == stats.value.value.1
      ensures outcome.Pass? ==> minPkKey == Some(start) && maxPkKey == Some(limit)
      ensures outcome.Fail? ==> minPkKey == old(minPkKey) && maxPkKey == old(maxPkKey)
      ensures outcome.Fail? ==> avgRowLength == old(avgRowLength) && totalBytes == old(totalBytes)
      ensures state == old(state) && rowsWritten == old(rowsWritten) && bytesCopied == old(bytesCopied)
      ensures completionPercentage == old(completionPercentage) && copySpeed == old(copySpeed)
      ensures startTime == old(startTime) && reported == old(reported)
    {
      match stats
      case Failure(e) =>
        return Fail(e);
      case Success(None) =>
        return Fail(Error(NoMethodError, "undefined method `[]' for nil:NilClass"));
      case Success(Some(row)) =>
        avgRowLength := row.0;
        totalBytes := row.1;
        minPkKey := Some(start);
        maxPkKey := Some(limit);
        return Pass;
    }

    /**
     * `update_during_copy(affected_rows)` at clock reading `now`: count the rows,
     * derive bytes and percentage, feed the speedometer, and hand a snapshot to
     * the printer when verbose or more than a minute after the last one.
     */
    method UpdateDuringCopy(affectedRows: int, now: int)
      requires Valid() && meter.LastTime() <= now
      modifies this, meter
      ensures Valid() && meter.LastTime() == now
      ensures rowsWritten == old(rowsWritten) + affectedRows
      ensures bytesCopied == rowsWritten * avgRowLength
      ensures completionPercentage == CompletionPercentage(rowsWritten, maxPkKey)
      ensures meter.log == Speedometer.Trimmed(old(meter.log) + [Speedometer.Sample(now, bytesCopied)], now, meter.window)
      ensures copySpeed == Speedometer.SpeedOf(meter.log)
      ensures var notify := now - old(startTime) > NotifyInterval || verbose;
        && reported == (if notify then old(reported) + [AsHash()] else old(reported))
        && startTime == (if notify then now else old(startTime))
      ensures state == old(state) && avgRowLength == old(avgRowLength) && totalBytes == old(totalBytes)
      ensures minPkKey == old(minPkKey) && maxPkKey == old(maxPkKey)
    {
      var rows := rowsWritten + affectedRows;
      var bytes := rows * avgRowLength;
      meter.Append(bytes, now);
      assert meter.LastTime() == now;
      var speed := meter.Speed();
      rowsWritten, bytesCopied := rows, bytes;
      completionPercentage := CompletionPercentage(rows, maxPkKey);
      copySpeed := speed;
      if now - startTime > NotifyInterval || verbose {
        reported := reported + [AsHash()];
        startTime := now;
      }
    }

    /**
     * `update_state(state)`: entering `copying_done` forces 100 percent; the new
     * state is recorded and a snapshot handed to the printer.
     */
    method UpdateState(s: State)
      modifies this
      ensures state == s
      ensures completionPercentage == (if s == CopyingDone then Some(100.0) else old(completionPercentage))
      ensures reported == old(reported) + [AsHash()]
      ensures rowsWritten == old(rowsWritten) && bytesCopied == old(bytesCopied)
      ensures avgRowLength == old(avgRowLength) && totalBytes == old(totalBytes)
      ensures copySpeed == old(copySpeed) && startTime == old(startTime)
      ensures minPkKey == old(minPkKey) && maxPkKey == old(maxPkKey)
    {
      if s == CopyingDone {
        completionPercentage := Some(100.0);
      }
      state := s;
      reported := reported + [AsHash()];
    }
  }

  /**
   * A verbose tracker whose table has rows of 20 bytes, copying keys 1 to 4000:
   * entering `copying` reports a snapshot at zero percent, and 2000 rows written
   * then report 40000 bytes and 50.0 percent, still in state `copying`, with the
   * statistics and key range kept and no speed, since both speedometer samples
   * share one clock reading.
   */
  method CopyProgressExample() returns (snapshots: seq<Snapshot>)
    ensures |snapshots| == 2 && snapshots[0].state == Copying && snapshots[1].state == Copying
    ensures snapshots[0].rowsWritten == 0 && snapshots[0].completionPercentage == Some(0.0)
    ensures snapshots[1].rowsWritten == 2000 && snapshots[1].bytesCopied == 40000
    ensures snapshots[1].completionPercentage == Some(50.0)
    ensures snapshots[1].avgRowLength == 20 && snapshots[1].totalBytes == 80000
    ensures snapshots[1].minPkKey == Some(1) && snapshots[1].maxPkKey == Some(4000)
    ensures snapshots[1].copySpeed == None
  {
    var p := new Progress(None, false, true, None, 0);
    var outcome := p.UpdateBeforeCopy(1, 4000, Success(Some((20, 80000))));
    p.UpdateState(Copying);
    ghost var log := p.meter.log + [Speedometer.Sample(0, 40000)];
    p.UpdateDuringCopy(2000, 0);
    HalfWay();
    assert p.meter.log == log[Speedometer.TrimFrom(log, 0, p.meter.window)..];
    Speedometer.SameClockNoSpeed(p.meter.log);
    snapshots := p.reported;
  }

  /**
   * Entering `copying` and then `copying_done` reports the initial zero percent
   * and then 100 percent.
   */
  method StateExample() returns (initial: State, snapshots: seq<Snapshot>)
    ensures initial == Initial
    ensures |snapshots| == 2
    ensures snapshots[0].state == Copying && snapshots[0].completionPercentage == Some(0.0)
    ensures snapshots[1].state == CopyingDone && snapshots[1].completionPercentage == Some(100.0)
  {
    var p := new Progress(None, false, true, None, 0);
    initial := p.state;
    var outcome := p.UpdateBeforeCopy(1, 4000, Success(Some((20, 80000))));
    p.UpdateState(Copying);
    p.UpdateState(CopyingDone);
    snapshots := p.reported;
  }
}
