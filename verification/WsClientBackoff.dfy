/** The reconnect delays of a whole run: the attempt counter of the run loop counts the dials that
    failed since the last connection, so what it slept in between is what Backoff bounds. */
module WsClientBackoff {
  import opened WsClient
  import opened WsClientRuns
  import opened Backoff

  /** The dial fails for another reason than the cancel, and run goes to sleep. */
  predicate Fails(a: Action) {
    a.Run? && a.run.DialFail? && !a.run.asCancelled
  }

  predicate Connects(a: Action) {
    a.Run? && a.run.DialOk?
  }

  /** clocks holds a clock reading for every step of the schedule. The readings at the dials that
      failed since the last one that succeeded: */
  function RecentFailures(schedule: seq<Action>, clocks: seq<nat>): seq<nat>
    requires |clocks| == |schedule|
    decreases |schedule|
  {
    if schedule == [] then []
    else
      var n := |schedule| - 1;
      var before := RecentFailures(schedule[..n], clocks[..n]);
      if Connects(schedule[n]) then [] else if Fails(schedule[n]) then before + [clocks[n]] else before
  }

  /** What run has slept since the last connection: each failed dial sleeps what nextBackoff says for
      the attempt counter of that moment. */
  function Slept(c: Config, schedule: seq<Action>, clocks: seq<nat>): int
    requires Runs(Init, schedule) && |clocks| == |schedule|
    decreases |schedule|
  {
    if schedule == [] then 0
    else
      var n := |schedule| - 1;
      RunsSplit(Init, schedule);
      var before := Slept(c, schedule[..n], clocks[..n]);
      if Connects(schedule[n]) then 0
      else if Fails(schedule[n]) then before + Sleep(c, After(Init, schedule[..n]).attempt, clocks[n])
      else before
  }

  /** The counter is the number of failures in a row, one behind during the sleep and stale only
      between a successful dial and its reset. */
  ghost predicate Counts(s: State, failures: nat) {
    match s.run
    case RunSleep => s.attempt + 1 == failures
    case RunDialed => failures == 0
    case RunAdd => failures == 0
    case RunGone => true
    case _ => s.attempt == failures
  }

  lemma PumpLeavesRun(s: State, a: PumpAction)
    requires PumpEnabled(s, a)
    ensures PumpStep(s, a).run == s.run && PumpStep(s, a).attempt == s.attempt
  {
  }

  lemma RunKeepsCounts(s: State, a: RunAction, failures: nat)
    requires Counts(s, failures) && RunEnabled(s, a)
    ensures Counts(RunStep(s, a), if Connects(Run(a)) then 0 else if Fails(Run(a)) then failures + 1 else failures)
  {
  }

  lemma StepKeepsCounts(s: State, a: Action, failures: nat)
    requires Counts(s, failures) && Enabled(s, a)
    ensures Counts(Step(s, a), if Connects(a) then 0 else if Fails(a) then failures + 1 else failures)
  {
    if a.Run? {
      RunKeepsCounts(s, a.run, failures);
    } else if a.Pump? {
      PumpLeavesRun(s, a.pump);
    } else {
      OthersUnmoved(s, a);
    }
  }

  /** In every run the counter that nextBackoff is given is the number of dials that failed since the
      last connection. */
  lemma {:induction false} AttemptCountsFailures(schedule: seq<Action>, clocks: seq<nat>)
    requires Runs(Init, schedule) && |clocks| == |schedule|
    ensures Counts(After(Init, schedule), |RecentFailures(schedule, clocks)|)
    decreases |schedule|
  {
    if schedule != [] {
      var n := |schedule| - 1;
      RunsSplit(Init, schedule);
      AttemptCountsFailures(schedule[..n], clocks[..n]);
      StepKeepsCounts(After(Init, schedule[..n]), schedule[n], |RecentFailures(schedule[..n], clocks[..n])|);
    }
  }

  lemma {:induction false} SleptIsTotal(c: Config, schedule: seq<Action>, clocks: seq<nat>)
    requires Runs(Init, schedule) && |clocks| == |schedule|
    ensures Slept(c, schedule, clocks) == TotalSleep(c, RecentFailures(schedule, clocks))
    decreases |schedule|
  {
    if schedule != [] {
      var n := |schedule| - 1;
      RunsSplit(Init, schedule);
      SleptIsTotal(c, schedule[..n], clocks[..n]);
      AttemptCountsFailures(schedule[..n], clocks[..n]);
      var before := RecentFailures(schedule[..n], clocks[..n]);
      assert (before + [clocks[n]])[..|before|] == before;
    }
  }

  /** Over all runs, whatever else the client does meanwhile: k dials that failed in a row have slept
      at least the first k undisturbed delays and less than k jitters more. */
  lemma RunSleepBounds(c: Config, schedule: seq<Action>, clocks: seq<nat>)
    requires Sane(c) && Runs(Init, schedule) && |clocks| == |schedule|
    ensures
      var k := |RecentFailures(schedule, clocks)|;
      && PlainSum(c, k) <= Slept(c, schedule, clocks) <= PlainSum(c, k) + k * c.jitter
      && (k > 0 ==> Slept(c, schedule, clocks) < PlainSum(c, k) + k * c.jitter)
  {
    SleptIsTotal(c, schedule, clocks);
    TotalSleepBounds(c, RecentFailures(schedule, clocks));
  }

  /** Under the defaults: k dials that failed in a row have slept (2^k - 1) half seconds, from the
      seventh on thirty seconds more for each, and on top less than a quarter of a second for each. */
  lemma DefaultSleepBounds(schedule: seq<Action>, clocks: seq<nat>)
    requires Runs(Init, schedule) && |clocks| == |schedule|
    ensures
      var k, slept := |RecentFailures(schedule, clocks)|, Slept(DEFAULTS, schedule, clocks);
      var plain := if k <= 6 then (Pow2(k) - 1) * 500_000_000 else 31_500_000_000 + (k - 6) * 30_000_000_000;
      plain <= slept <= plain + k * 250_000_000 && (k > 0 ==> slept < plain + k * 250_000_000)
  {
    RunSleepBounds(DEFAULTS, schedule, clocks);
    DefaultSum(|RecentFailures(schedule, clocks)|);
  }

  // ---- every failed dial is slept off ----

  function Failures(schedule: seq<Action>): nat {
    if schedule == [] then 0 else (if Fails(schedule[0]) then 1 else 0) + Failures(schedule[1..])
  }

  function Sleeps(schedule: seq<Action>): nat {
    if schedule == [] then 0 else (if schedule[0] == Run(Rouse) then 1 else 0) + Sleeps(schedule[1..])
  }

  function Asleep(s: State): nat {
    if s.run.RunSleep? then 1 else 0
  }

  lemma RunStepSleeps(s: State, a: RunAction)
    requires RunEnabled(s, a)
    ensures Asleep(RunStep(s, a)) + (if a.Rouse? then 1 else 0) == Asleep(s) + (if Fails(Run(a)) then 1 else 0)
  {
  }

  /** Between a failed dial and the next one run sleeps, exactly once for each failure. */
  lemma {:induction false} OneSleepPerFailure(s: State, schedule: seq<Action>)
    requires Runs(s, schedule)
    ensures Sleeps(schedule) + Asleep(After(s, schedule)) == Failures(schedule) + Asleep(s)
    decreases |schedule|
  {
    if schedule != [] {
      var a := schedule[0];
      if a.Run? {
        RunStepSleeps(s, a.run);
      } else if a.Pump? {
        PumpLeavesRun(s, a.pump);
      } else {
        OthersUnmoved(s, a);
      }
      OneSleepPerFailure(Step(s, a), schedule[1..]);
    }
  }
}
