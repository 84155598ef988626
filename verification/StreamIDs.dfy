/** Stream ids of the source mode, proxy/idgen.go: a counter and the time of day packed into 32 bits. */
module StreamIDs {
  import opened Protobuf

  const MAX_COUNTER := 2147
  const TIME_FIELD := 1000000

  // ---------------------------------------------------------------------------
  //  Time of day and 32 bits
  // ---------------------------------------------------------------------------

  datatype TimeOfDay = TimeOfDay(hours: nat, minutes: nat, seconds: nat)

  type Time = t: TimeOfDay | t.hours < 24 && t.minutes < 60 && t.seconds < 60 witness TimeOfDay(0, 0, 0)

  /** The number that the layout "150405" spells. */
  function Digits(t: Time): nat {
    10000 * t.hours + 100 * t.minutes + t.seconds
  }

  predicate Earlier(t: Time, u: Time) {
    || t.hours < u.hours
    || (t.hours == u.hours && t.minutes < u.minutes)
    || (t.hours == u.hours && t.minutes == u.minutes && t.seconds < u.seconds)
  }

  /** Two decimal digits each for hours, minutes and seconds, in this order, so that later times of a day
      spell greater numbers. */
  lemma DigitsAreHoursMinutesSeconds(t: Time, u: Time)
    ensures Digits(t) / 10000 == t.hours && Digits(t) / 100 % 100 == t.minutes && Digits(t) % 100 == t.seconds
    ensures Digits(t) < Digits(u) <==> Earlier(t, u)
  {
    assert Digits(t) / 100 == 100 * t.hours + t.minutes;
  }

  lemma DigitsTellTimesApart(t: Time, u: Time)
    ensures Digits(t) <= 235959
    ensures Digits(t) == Digits(u) <==> t == u
  {
    DigitsAreHoursMinutesSeconds(t, u);
    DigitsAreHoursMinutesSeconds(u, t);
  }

  /** Go's conversion of an int to an int32, which drops the upper bits. */
  function ToInt32(n: int): int32 {
    (n + 0x8000_0000) % 0x1_0000_0000 - 0x8000_0000
  }

  // ---------------------------------------------------------------------------
  //  The generator
  // ---------------------------------------------------------------------------

  function NextCounter(counter: nat): nat {
    (if counter == MAX_COUNTER then 0 else counter) + 1
  }

  class StreamIDGen {
    var counter: nat

    ghost predicate Valid()
      reads this
    {
      counter <= MAX_COUNTER
    }

    constructor ()
      ensures Valid() && counter == 0
    {
      counter := 0;
    }

    /** No id wraps around: each carries its counter and its time. */
    method Generate(now: Time) returns (id: int32)
      requires Valid()
      modifies this
      ensures Valid() && counter == NextCounter(old(counter))
      ensures id == TIME_FIELD * counter + Digits(now)
      ensures id / TIME_FIELD == counter && id % TIME_FIELD == Digits(now)
    {
      if counter == MAX_COUNTER {
        counter := 0;
      }
      counter := counter + 1;
      id := ToInt32(counter * TIME_FIELD + Digits(now));
    }
  }

  // ---------------------------------------------------------------------------
  //  Any number of calls
  // ---------------------------------------------------------------------------

  /** The ids of a sequence of calls at the given times, beginning with a counter. */
  function Ids(counter: nat, times: seq<Time>): seq<int>
    decreases |times|
  {
    if times == [] then []
    else [TIME_FIELD * NextCounter(counter) + Digits(times[0])] + Ids(NextCounter(counter), times[1..])
  }

  /** The same calls on an object. */
  method GenerateAll(gen: StreamIDGen, times: seq<Time>) returns (ids: seq<int>)
    requires gen.Valid()
    modifies gen
    ensures gen.Valid() && ids == Ids(old(gen.counter), times)
  {
    ids := [];
    for i := 0 to |times|
      invariant gen.Valid() && Ids(old(gen.counter), times) == ids + Ids(gen.counter, times[i..])
    {
      var id := gen.Generate(times[i]);
      assert times[i..][1..] == times[i + 1..];
      ids := ids + [id];
    }
  }

  /** The i-th id of a new generator. */
  lemma {:induction false} IdAt(counter: nat, times: seq<Time>, i: nat)
    requires counter <= MAX_COUNTER && i < |times|
    ensures |Ids(counter, times)| == |times|
    ensures Ids(counter, times)[i] == TIME_FIELD * ((counter + i) % MAX_COUNTER + 1) + Digits(times[i])
    decreases |times|
  {
    if |times| > 1 {
      IdAt(NextCounter(counter), times[1..], if i == 0 then 0 else i - 1);
    }
    if i > 0 && counter == MAX_COUNTER {
      assert (1 + (i - 1)) % MAX_COUNTER == (counter + i) % MAX_COUNTER;
    }
  }

  lemma IdsInRange(times: seq<Time>, i: nat)
    requires i < |times|
    ensures |Ids(0, times)| == |times| && 1000000 <= Ids(0, times)[i] <= 2147235959
    ensures ToInt32(Ids(0, times)[i]) == Ids(0, times)[i]
  {
    IdAt(0, times, i);
    DigitsTellTimesApart(times[i], times[i]);
  }

  /** Two calls give the same id exactly when 2147 divides the number of calls from one to the other
      and the times of day are equal. */
  lemma EqualIdsIff(times: seq<Time>, i: nat, j: nat)
    requires i < j < |times|
    ensures |Ids(0, times)| == |times|
    ensures Ids(0, times)[i] == Ids(0, times)[j] <==> (j - i) % MAX_COUNTER == 0 && times[i] == times[j]
  {
    IdAt(0, times, i);
    IdAt(0, times, j);
    DigitsTellTimesApart(times[i], times[j]);
    DigitsTellTimesApart(times[j], times[i]);
    SameRemainder(i, j);
  }

  lemma SameRemainder(i: nat, j: nat)
    requires i < j
    ensures i % MAX_COUNTER == j % MAX_COUNTER <==> (j - i) % MAX_COUNTER == 0
  {
    var m := MAX_COUNTER;
    assert i == m * (i / m) + i % m && j == m * (j / m) + j % m;
    if (j - i) % m == 0 {
      assert j == i + m * ((j - i) / m);
    }
  }

  // ---------------------------------------------------------------------------
  //  Uniqueness within a day
  // ---------------------------------------------------------------------------

  ghost predicate NonDecreasing(times: seq<Time>) {
    forall i, j :: 0 <= i <= j < |times| ==> Digits(times[i]) <= Digits(times[j])
  }

  function CallsIn(times: seq<Time>, second: Time): nat {
    if times == [] then 0
    else CallsIn(times[..|times| - 1], second) + if times[|times| - 1] == second then 1 else 0
  }

  ghost predicate Distinct(ids: seq<int>) {
    forall i, j :: 0 <= i < j < |ids| ==> ids[i] != ids[j]
  }

  /** On a clock that does not go back the calls of one second are next to each other. */
  lemma {:induction false} CallsOfASecond(times: seq<Time>, second: Time) returns (from: nat)
    requires NonDecreasing(times)
    ensures from + CallsIn(times, second) <= |times|
    ensures forall i :: 0 <= i < |times| ==> (times[i] == second <==> from <= i < from + CallsIn(times, second))
  {
    if times == [] {
      from := 0;
    } else {
      var n := |times| - 1;
      from := CallsOfASecond(times[..n], second);
      var calls := CallsIn(times[..n], second);
      assert forall i :: 0 <= i < n ==> times[i] == times[..n][i];
      if times[n] == second {
        if calls == 0 {
          from := n;
        } else {
          forall i | from + calls <= i < n ensures times[i] == second {
            assert Digits(times[from]) <= Digits(times[i]) <= Digits(times[n]);
            DigitsTellTimesApart(times[i], second);
          }
        }
      }
    }
  }

  /** Within one day, on a clock that does not go back, all ids are distinct exactly when no second
      has more than 2147 calls. */
  lemma UniqueIff(times: seq<Time>)
    requires NonDecreasing(times)
    ensures Distinct(Ids(0, times)) <==> forall second: Time :: CallsIn(times, second) <= MAX_COUNTER
  {
    if times != [] {
      IdAt(0, times, 0);
    }
    if second: Time :| CallsIn(times, second) > MAX_COUNTER {
      var from := CallsOfASecond(times, second);
      EqualIdsIff(times, from, from + MAX_COUNTER);
    } else {
      forall i, j | 0 <= i < j < |times| ensures Ids(0, times)[i] != Ids(0, times)[j] {
        EqualIdsIff(times, i, j);
        var from := CallsOfASecond(times, times[i]);
        assert CallsIn(times, times[i]) <= MAX_COUNTER;
      }
    }
  }
}
