// A supply-voltage status display.  The last 16 millivolt readings are kept
// in a ring buffer together with their running sum, so the average is the
// sum over 16.  The sum is a uint32_t and the slots are int32_t, so the
// running sum agrees with the sum of the slots modulo 2^32.  The ADC reading
// is a parameter; the float scaling of the average is not modelled and the
// status text is represented by the sum it was printed from.
module VoltageStatus {
  import opened Ints

  const NumberOfReadingsToSave: nat := 16
  const MeasurementIntervalMs: uint32 := 1000

  /** Conversion of a uint32_t value to int32_t (two's complement). */
  function ToI32(v: uint32): (r: int32)
    ensures ToU32(r) == v
  {
    if v < 0x8000_0000 then v else v - 0x1_0000_0000
  }

  /** The exact sum of the slots. */
  function SumOf(s: seq<int>): int
  {
    if |s| == 0 then 0 else s[0] + SumOf(s[1..])
  }

  /** The next slot: the index is advanced and reset to 0 at the end. */
  function NextIndex(i: nat): (r: nat)
  {
    if i + 1 >= NumberOfReadingsToSave then 0 else i + 1
  }

  class VoltageStatus {
    const ArrayOfVoltageReadings: array<int32>
    var CurrentReadingIndex: uint32
    var SumOfVoltages: uint32
    var NextReadingTimeMs: uint32
    /** The sum the status text was last printed from. */
    var ShownSum: uint32

    /** The ring buffer has its 16 slots, the index is one of them and the
        running sum is the sum of the slots as a uint32_t. */
    predicate Valid()
      reads this, ArrayOfVoltageReadings
    {
      ArrayOfVoltageReadings.Length == NumberOfReadingsToSave
      && CurrentReadingIndex < NumberOfReadingsToSave
      && SumOfVoltages == ToU32(SumOf(ArrayOfVoltageReadings[..]))
    }

    /** A global object: the slots, index and sum start at zero. */
    constructor()
      ensures Valid() && fresh(ArrayOfVoltageReadings)
      ensures forall k :: 0 <= k < NumberOfReadingsToSave ==> ArrayOfVoltageReadings[k] == 0
      ensures CurrentReadingIndex == 0 && SumOfVoltages == 0
      ensures NextReadingTimeMs == MeasurementIntervalMs && ShownSum == 0
    {
      var a := new int32[NumberOfReadingsToSave](_ => 0);
      ArrayOfVoltageReadings := a;
      CurrentReadingIndex := 0;
      SumOfVoltages := 0;
      NextReadingTimeMs := MeasurementIntervalMs;
      ShownSum := 0;
      ConstantSum(a[..], 0);
    }

    /** measureVoltage: the reading replaces the oldest slot, the sum follows,
        and the index moves on cyclically. */
    method MeasureVoltage(currentVoltage: int32)
      requires Valid()
      modifies this, ArrayOfVoltageReadings
      ensures Valid()
      ensures ArrayOfVoltageReadings[..] == old(ArrayOfVoltageReadings[..])[old(CurrentReadingIndex) := currentVoltage]
      ensures CurrentReadingIndex == NextIndex(old(CurrentReadingIndex))
      ensures SumOfVoltages == ToU32(old(SumOfVoltages) - old(ArrayOfVoltageReadings[CurrentReadingIndex]) + currentVoltage)
      ensures NextReadingTimeMs == old(NextReadingTimeMs) && ShownSum == old(ShownSum)
    {
      var i := CurrentReadingIndex;
      MeasureKeepsSum(ArrayOfVoltageReadings[..], i as nat, currentVoltage, SumOfVoltages);
      var sum := ToU32(SumOfVoltages - ArrayOfVoltageReadings[i]);
      sum := ToU32(sum + currentVoltage);
      ArrayOfVoltageReadings[i] := currentVoltage;
      SumOfVoltages := sum;
      CurrentReadingIndex := NextIndex(i);
    }

    /** initVdcAdc: the next reading is due at once, one reading is taken,
        and every slot is then primed with the running sum it left. */
    method InitVdcAdc(now: uint32, currentVoltage: int32)
      requires Valid()
      modifies this, ArrayOfVoltageReadings
      ensures Valid() && NextReadingTimeMs == SubU32(now, MeasurementIntervalMs)
      ensures var single := ToU32(old(SumOfVoltages) - old(ArrayOfVoltageReadings[CurrentReadingIndex]) + currentVoltage);
        (forall k :: 0 <= k < NumberOfReadingsToSave ==> ArrayOfVoltageReadings[k] == ToI32(single))
        && SumOfVoltages == ToU32(NumberOfReadingsToSave * single)
      ensures CurrentReadingIndex == NextIndex(old(CurrentReadingIndex)) && ShownSum == old(ShownSum)
    {
      NextReadingTimeMs := SubU32(now, MeasurementIntervalMs);
      MeasureVoltage(currentVoltage);
      var SingleReadingValue := SumOfVoltages;
      var sum := Prime(ArrayOfVoltageReadings, SingleReadingValue);
      SumOfVoltages := sum;
      ConstantSum(ArrayOfVoltageReadings[..], ToI32(SingleReadingValue));
      PrimedSum(SingleReadingValue);
    }

    /** Poll: once the reading is due, the due time moves on by one interval
        (not to now), a reading is taken, and the status is printed again
        only when the sum changed.  Before that nothing happens. */
    method Poll(Now: uint32, currentVoltage: int32)
      requires Valid()
      modifies this, ArrayOfVoltageReadings
      ensures Valid()
      ensures Now < old(NextReadingTimeMs) ==>
        ArrayOfVoltageReadings[..] == old(ArrayOfVoltageReadings[..]) && SumOfVoltages == old(SumOfVoltages)
        && CurrentReadingIndex == old(CurrentReadingIndex)
        && NextReadingTimeMs == old(NextReadingTimeMs) && ShownSum == old(ShownSum)
      ensures Now >= old(NextReadingTimeMs) ==>
        ArrayOfVoltageReadings[..] == old(ArrayOfVoltageReadings[..])[old(CurrentReadingIndex) := currentVoltage]
        && CurrentReadingIndex == NextIndex(old(CurrentReadingIndex))
        && NextReadingTimeMs == AddU32(old(NextReadingTimeMs), MeasurementIntervalMs)
        && ShownSum == (if SumOfVoltages != old(SumOfVoltages) then SumOfVoltages else old(ShownSum))
    {
      if Now >= NextReadingTimeMs {
        NextReadingTimeMs := AddU32(NextReadingTimeMs, MeasurementIntervalMs);
        var OldSumOfVoltages := SumOfVoltages;
        MeasureVoltage(currentVoltage);
        if OldSumOfVoltages != SumOfVoltages {
          ShownSum := SumOfVoltages;
        }
      }
    }
  }

  /** The priming loop of initVdcAdc: every slot gets the value and the sum
      is accumulated in uint32_t. */
  method Prime(a: array<int32>, SingleReadingValue: uint32) returns (sum: uint32)
    modifies a
    ensures forall j :: 0 <= j < a.Length ==> a[j] == ToI32(SingleReadingValue)
    ensures sum == ToU32(a.Length * SingleReadingValue)
  {
    sum := 0;
    var k := 0;
    ghost var total: int := 0;
    while k < a.Length
      invariant 0 <= k <= a.Length
      invariant forall j :: 0 <= j < k ==> a[j] == ToI32(SingleReadingValue)
      invariant total == k * SingleReadingValue && sum == ToU32(total)
    {
      a[k] := ToI32(SingleReadingValue);
      WrapSum(total, SingleReadingValue);
      sum := AddU32(sum, SingleReadingValue);
      total := total + SingleReadingValue;
      assert total == (k + 1) * SingleReadingValue;
      k := k + 1;
    }
  }

  // ---------------------------------------------------------------------
  // Properties
  // ---------------------------------------------------------------------

  /** Replacing one slot changes the sum by the difference. */
  lemma {:induction false} SumAfterUpdate(s: seq<int>, i: nat, v: int)
    requires i < |s|
    ensures SumOf(s[i := v]) == SumOf(s) - s[i] + v
  {
    if i > 0 {
      assert s[i := v][1..] == s[1..][i - 1 := v];
      SumAfterUpdate(s[1..], i - 1, v);
    } else {
      assert s[i := v][1..] == s[1..];
    }
  }

  /** The two uint32_t steps of measureVoltage keep the running sum equal to
      the sum of the slots. */
  lemma MeasureKeepsSum(s: seq<int>, i: nat, v: int, sum: uint32)
    requires i < |s| && sum == ToU32(SumOf(s))
    ensures ToU32(ToU32(sum - s[i]) + v) == ToU32(SumOf(s[i := v]))
    ensures ToU32(ToU32(sum - s[i]) + v) == ToU32(sum - s[i] + v)
  {
    SumAfterUpdate(s, i, v);
    var d: int := s[i];
    WrapSum(sum - d, v);
    WrapSum(SumOf(s), v - d);
  }

  /** Slots that all hold one value sum to that value times their number. */
  lemma {:induction false} ConstantSum(s: seq<int>, c: int)
    requires forall j :: 0 <= j < |s| ==> s[j] == c
    ensures SumOf(s) == |s| * c
  {
    if |s| > 0 {
      ConstantSum(s[1..], c);
    }
  }

  /** Adding to a value already reduced modulo 2^32 and reducing again is
      reducing once. */
  lemma WrapSum(x: int, y: int)
    ensures ToU32(ToU32(x) + y) == ToU32(x + y)
  {
    var m := 0x1_0000_0000;
    var q := x / m;
    assert x == q * m + ToU32(x);
    assert x + y == (ToU32(x) + y) + q * m;
  }

  /** Priming with a value stored as int32_t gives the same uint32_t sum as
      adding the uint32_t value sixteen times. */
  lemma PrimedSum(single: uint32)
    ensures ToU32(NumberOfReadingsToSave * ToI32(single)) == ToU32(NumberOfReadingsToSave * single)
  {
    if single >= 0x8000_0000 {
      assert NumberOfReadingsToSave * ToI32(single) == NumberOfReadingsToSave * single - 16 * 0x1_0000_0000;
    }
  }

  /** The index visits the 16 slots in order and comes back to the first. */
  lemma IndexCycles(i: nat)
    requires i < NumberOfReadingsToSave
    ensures NextIndex(i) < NumberOfReadingsToSave
    ensures NextIndex(i) == (i + 1) % NumberOfReadingsToSave
  {
  }
}
