/** What a maintenance process remembers of its passes, and which of them reset the counters. */
module ResetMemory {
  import opened Text
  import opened Records
  import opened MaintenanceSpec

  /** The memory of one process after passes that read the clock at these instants. */
  function MemoryAfter(passes: seq<int>): Memory
  {
    if passes == [] then NO_MEMORY
    else Remembered(MemoryAfter(passes[..|passes| - 1]), passes[|passes| - 1])
  }

  function Last(passes: seq<int>): int
    requires passes != []
  {
    passes[|passes| - 1]
  }

  lemma {:induction false} MemoryOfLast(passes: seq<int>)
    requires passes != []
    ensures MemoryAfter(passes) == Memory((Last(passes) / 3_600_000_000) % 24, Some(Last(passes) / 86_400_000_000))
  {
    if |passes| > 1 {
      MemoryOfLast(passes[..|passes| - 1]);
    }
  }

  /** A pass resets the hourly counters exactly if it is the first of its process or falls in
      another hour of the day than the one before it, and the daily ones exactly if it is the first
      or falls on another day. */
  lemma ResetsIff(passes: seq<int>, now: int)
    ensures HourRolled(MemoryAfter(passes), now) <==>
              passes == [] || (Last(passes) / 3_600_000_000) % 24 != (now / 3_600_000_000) % 24
    ensures DateRolled(MemoryAfter(passes), now) <==> passes == [] || Last(passes) / 86_400_000_000 != now / 86_400_000_000
  {
    if passes != [] {
      MemoryOfLast(passes);
    }
  }

  /** A new hour is missed exactly when it is a whole number of days after the last one seen: then
      the day has changed as well, and the daily counters are reset alone. */
  lemma HourMissedIff(passes: seq<int>, now: int)
    requires passes != [] && Last(passes) / 3_600_000_000 < now / 3_600_000_000
    ensures !HourRolled(MemoryAfter(passes), now) <==> (now / 3_600_000_000 - Last(passes) / 3_600_000_000) % 24 == 0
    ensures !HourRolled(MemoryAfter(passes), now) ==> DateRolled(MemoryAfter(passes), now)
  {
    ResetsIff(passes, now);
    DaysOfHours(Last(passes));
    DaysOfHours(now);
  }

  lemma DaysOfHours(t: int)
    ensures t / 86_400_000_000 == (t / 3_600_000_000) / 24
  {
  }

  predicate InOrder(passes: seq<int>)
  {
    forall i :: 0 < i < |passes| ==> passes[i - 1] <= passes[i]
  }

  /** How many of the passes reset the daily counters. */
  function DayResets(passes: seq<int>): nat
  {
    if passes == [] then 0
    else
      var n := |passes| - 1;
      DayResets(passes[..n]) + if DateRolled(MemoryAfter(passes[..n]), passes[n]) then 1 else 0
  }

  /** One process resets the daily counters at most once per calendar day. */
  lemma {:induction false} OneResetPerDay(passes: seq<int>)
    requires passes != [] && InOrder(passes)
    ensures 1 <= DayResets(passes) <= Last(passes) / 86_400_000_000 - passes[0] / 86_400_000_000 + 1
  {
    var n := |passes| - 1;
    ResetsIff(passes[..n], passes[n]);
    if n > 0 {
      assert forall i :: 0 <= i < n ==> passes[..n][i] == passes[i];
      OneResetPerDay(passes[..n]);
    } else {
      assert DayResets(passes[..n]) == 0;
    }
  }
}
