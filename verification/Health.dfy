/** HealthCheck of api/api.go: a counter of failed checks in a row that resets all connections at ten and
    ends the process above twenty. */
module Health {
  /** What one tick of the monitor meets. */
  datatype Check =
    | NotOnline       // no address is online: the tick is skipped
    | CannotSend      // no connection takes the request within thirty seconds
    | Good
    | Bad             // a reply that is not healthy
    | NoReply         // no reply within thirty seconds

  predicate IsFailure(c: Check) {
    c.Bad? || c.NoReply?
  }

  /** Failed checks since the last good one, skipped ticks left out. */
  function Streak(checks: seq<Check>): nat {
    if checks == [] then 0
    else
      var last := checks[|checks| - 1];
      var before := Streak(checks[..|checks| - 1]);
      if IsFailure(last) then before + 1 else if last.Good? then 0 else before
  }

  /** Whether the connections are reset at tick i. */
  predicate ResetsAt(checks: seq<Check>, i: nat)
    requires i < |checks|
  {
    IsFailure(checks[i]) && Streak(checks[..i + 1]) == 10
  }

  /** The counter is a uint8: it is incremented modulo 256. */
  function Incremented(counter: nat): nat {
    (counter + 1) % 256
  }

  /** The ticks among the first n that reset all connections. */
  function ResetTicks(checks: seq<Check>, n: nat): seq<nat>
    requires n <= |checks|
  {
    if n == 0 then []
    else if ResetsAt(checks, n - 1) then ResetTicks(checks, n - 1) + [n - 1]
    else ResetTicks(checks, n - 1)
  }

  lemma {:induction false} ResetTicksAre(checks: seq<Check>, n: nat)
    requires n <= |checks|
    ensures forall i :: i in ResetTicks(checks, n) <==> 0 <= i < n && ResetsAt(checks, i)
    ensures forall a, b :: 0 <= a < b < |ResetTicks(checks, n)| ==> ResetTicks(checks, n)[a] < ResetTicks(checks, n)[b]
  {
    if n > 0 {
      ResetTicksAre(checks, n - 1);
      var before := ResetTicks(checks, n - 1);
      assert forall a :: 0 <= a < |before| ==> before[a] in before;
    }
  }

  lemma StreakStep(checks: seq<Check>, n: nat)
    requires n < |checks|
    ensures Streak(checks[..n + 1])
            == if IsFailure(checks[n]) then Streak(checks[..n]) + 1 else if checks[n].Good? then 0 else Streak(checks[..n])
  {
    assert checks[..n + 1][..n] == checks[..n];
  }

  /** The streak after each of the first n ticks. */
  function Streaks(checks: seq<Check>, n: nat): seq<nat>
    requires n <= |checks|
  {
    if n == 0 then [] else Streaks(checks, n - 1) + [Streak(checks[..n])]
  }

  /** Before tick n every request was taken and no failure was the twenty-first in a row. */
  ghost predicate StillRunning(checks: seq<Check>, n: nat)
    requires n <= |checks|
  {
    && (forall i :: 0 <= i < n ==> !checks[i].CannotSend?)
    && (forall i :: 0 <= i <= n ==> Streak(checks[..i]) <= 20)
  }

  lemma ResetTicksWritten(checks: seq<Check>, n: nat)
    requires n <= |checks|
    ensures forall i :: i in ResetTicks(checks, n) <==>
              0 <= i < n && (checks[i].Bad? || checks[i].NoReply?) && Streak(checks[..i + 1]) == 10
  {
    ResetTicksAre(checks, n);
    hide Streak, ResetTicks;
  }

  /** Monitors until the process ends or no tick is left. resets lists the ticks that reset all
      connections; counters lists the counter after each tick passed. */
  method HealthCheck(checks: seq<Check>) returns (resets: seq<nat>, exited: bool, ticks: nat, counters: seq<nat>)
    ensures ticks <= |checks| && counters == Streaks(checks, ticks)
    ensures resets == ResetTicks(checks, ticks)
    ensures forall i :: i in resets <==>
              0 <= i < ticks && (checks[i].Bad? || checks[i].NoReply?) && Streak(checks[..i + 1]) == 10
    ensures exited ==>
              && ticks > 0 && StillRunning(checks, ticks - 1)
              && (checks[ticks - 1].CannotSend?
                  || ((checks[ticks - 1].Bad? || checks[ticks - 1].NoReply?) && Streak(checks[..ticks]) == 21))
    ensures !exited ==> ticks == |checks| && StillRunning(checks, ticks)
  {
    resets, exited, ticks, counters := [], false, 0, [];
    var unhealthy := 0;
    assert Streak(checks[..ticks]) == 0;
    hide Streak, ResetTicks, Streaks;
    while ticks < |checks|
      invariant 0 <= ticks <= |checks| && !exited
      invariant unhealthy == Streak(checks[..ticks]) && StillRunning(checks, ticks)
      invariant counters == Streaks(checks, ticks)
      invariant resets == ResetTicks(checks, ticks)
    {
      var c := checks[ticks];
      StreakStep(checks, ticks);
      ticks := ticks + 1;
      assert ResetsAt(checks, ticks - 1) <==> IsFailure(c) && Streak(checks[..ticks]) == 10;
      assert ResetTicks(checks, ticks) == if ResetsAt(checks, ticks - 1) then resets + [ticks - 1] else resets;
      if c.NotOnline? {
        counters := counters + [unhealthy];
        continue;
      }
      if c.CannotSend? {
        counters := counters + [unhealthy];
        exited := true;
        ResetTicksWritten(checks, ticks);
        return;
      }
      if IsFailure(c) {
        unhealthy := Incremented(unhealthy);
      } else {
        unhealthy := 0;
      }
      if unhealthy == 10 {
        resets := resets + [ticks - 1];
      }
      counters := counters + [unhealthy];
      if unhealthy > 20 {
        exited := true;
        ResetTicksWritten(checks, ticks);
        return;
      }
    }
    ResetTicksWritten(checks, ticks);
  }

  /** Ticks i to j - 1 belong to one streak: no good check among them. */
  ghost predicate OneStreak(checks: seq<Check>, i: nat, j: nat)
    requires i <= j <= |checks|
  {
    forall k :: i <= k < j ==> !checks[k].Good?
  }

  lemma {:induction false} StreakGrows(checks: seq<Check>, i: nat, j: nat)
    requires i <= j <= |checks| && OneStreak(checks, i, j)
    ensures Streak(checks[..i]) <= Streak(checks[..j])
    ensures (exists k :: i <= k < j && IsFailure(checks[k])) ==> Streak(checks[..i]) < Streak(checks[..j])
  {
    if i < j {
      StreakGrows(checks, i, j - 1);
      assert checks[..j][..j - 1] == checks[..j - 1];
    }
  }

  /** The connections are reset at most once in a streak. */
  lemma ResetOncePerStreak(checks: seq<Check>, a: nat, b: nat)
    requires a < b < |checks| && ResetsAt(checks, a) && ResetsAt(checks, b)
    ensures !OneStreak(checks, a + 1, b + 1)
  {
    if OneStreak(checks, a + 1, b + 1) {
      StreakGrows(checks, a + 1, b + 1);
    }
  }

  /** A streak that reaches ten has reset the connections, at a tick of that very streak. */
  lemma {:induction false} LongStreakHasReset(checks: seq<Check>, j: nat) returns (i: nat)
    requires j <= |checks| && Streak(checks[..j]) >= 10
    ensures i < j && ResetsAt(checks, i) && OneStreak(checks, i, j)
    decreases j
  {
    assert j > 0;
    assert checks[..j][..j - 1] == checks[..j - 1];
    if IsFailure(checks[j - 1]) && Streak(checks[..j]) == 10 {
      i := j - 1;
    } else {
      i := LongStreakHasReset(checks, j - 1);
    }
  }

  ghost function Failures(checks: seq<Check>, start: nat, end: nat): set<nat>
    requires end <= |checks|
  {
    set k | start <= k < end && (checks[k].Bad? || checks[k].NoReply?)
  }

  lemma NextFailure(checks: seq<Check>, start: nat, end: nat)
    requires start < end <= |checks|
    ensures |Failures(checks, start, end)|
            == |Failures(checks, start, end - 1)| + (if checks[end - 1].Bad? || checks[end - 1].NoReply? then 1 else 0)
  {
    var before := Failures(checks, start, end - 1);
    assert Failures(checks, start, end)
           == if checks[end - 1].Bad? || checks[end - 1].NoReply? then before + {end - 1} else before;
  }

  /** The process ends on failed checks exactly at the twenty-first failure in a row: that many failures,
      with no good check between them, are what Streak counts. */
  lemma {:induction false} StreakCountsFailures(checks: seq<Check>, start: nat, end: nat)
    requires start <= end <= |checks| && OneStreak(checks, start, end)
    requires start == 0 || checks[start - 1].Good?
    ensures Streak(checks[..end]) == |Failures(checks, start, end)|
  {
    if start == end {
      assert Failures(checks, start, end) == {};
    } else {
      StreakCountsFailures(checks, start, end - 1);
      NextFailure(checks, start, end);
      StreakStep(checks, end - 1);
    }
  }
}
