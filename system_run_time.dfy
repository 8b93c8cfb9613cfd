// The uptime status line: once a second the millisecond clock is split into
// days, hours, minutes and seconds and shown as "Days:D + HH:MM:SS".  The
// clock is a parameter; the one-second interval is the one the poll's own
// comment gives.
module SystemRunTime {
  import opened Ints
  import opened ArduinoString

  const MeasurementIntervalMs: uint32 := 1000

  datatype RunTime = RunTime(days: nat, hours: nat, minutes: nat, seconds: nat)

  /** The split of Poll: each part is the millisecond clock divided by its
      unit, reduced by the size of the next unit up. */
  function Decompose(Now: uint32): RunTime
  {
    RunTime(Now / (24 * 60 * 60 * 1000), (Now / (60 * 60 * 1000)) % 24,
            (Now / (60 * 1000)) % 60, (Now / 1000) % 60)
  }

  /** sprintf("Days:%u + %02u:%02u:%02u"). */
  function RunTimeText(t: RunTime): string
    requires t.hours < 24 && t.minutes < 60 && t.seconds < 60
  {
    "Days:" + DecString(t.days) + " + " + Pad2(t.hours) + ":" + Pad2(t.minutes) + ":" + Pad2(t.seconds)
  }

  class SystemRunTime {
    var NextReadingTimeMs: uint32
    /** The text shown in the status line. */
    var Text: string

    constructor(firstReading: uint32)
      ensures NextReadingTimeMs == firstReading && Text == ""
    {
      NextReadingTimeMs := firstReading;
      Text := "";
    }

    /** Poll: once the next reading is due, the due time moves on by one
        interval (not to Now) and the uptime is shown. */
    method Poll(Now: uint32)
      modifies this
      ensures Now < old(NextReadingTimeMs) ==> NextReadingTimeMs == old(NextReadingTimeMs) && Text == old(Text)
      ensures Now >= old(NextReadingTimeMs) ==>
        NextReadingTimeMs == AddU32(old(NextReadingTimeMs), MeasurementIntervalMs)
        && Text == RunTimeText(Decompose(Now))
    {
      if Now >= NextReadingTimeMs {
        NextReadingTimeMs := AddU32(NextReadingTimeMs, MeasurementIntervalMs);
        var t := Decompose(Now);
        Text := RunTimeText(t);
      }
    }
  }

  // ---------------------------------------------------------------------
  // Properties
  // ---------------------------------------------------------------------

  /** Each part is in range, and together they give back the whole seconds
      elapsed. */
  lemma {:induction false} DecomposeRoundTrip(Now: uint32)
    ensures var t := Decompose(Now);
      t.seconds < 60 && t.minutes < 60 && t.hours < 24 && t.days < 50
      && t.days * 86400 + t.hours * 3600 + t.minutes * 60 + t.seconds == Now / 1000
  {
    var S := Now / 1000;
    var M := Now / 60000;
    var H := Now / 3600000;
    var D := Now / 86400000;
    assert M == S / 60;
    assert H == M / 60;
    assert D == H / 24;
    assert S == M * 60 + S % 60;
    assert M == H * 60 + M % 60;
    assert H == D * 24 + H % 24;
  }

  /** A day boundary shows as a new day at midnight. */
  lemma DayBoundary()
    ensures Decompose(86400000) == RunTime(1, 0, 0, 0)
    ensures RunTimeText(Decompose(86400000)) == "Days:1 + 00:00:00"
  {
  }
}
