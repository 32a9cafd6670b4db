/** The critical sections of core/process_service.go as methods over the controller's fields.  Each is
    proved to be the step the transition system of module Supervisor takes. */
module ProcessService {
  import opened Basics
  import opened Supervisor

  /** `RunningState` of core/controller.go: the flag, its auto-ping timer, the events it published. */
  class RunningState {
    var running: bool
    var pingArmed: bool
    var published: seq<bool>

    ghost predicate Valid()
      reads this
    {
      && (pingArmed ==> running)
      && running == (published != [] && published[|published| - 1])
      && (published != [] ==> published[0])
      && (forall i | 0 < i < |published| :: published[i] != published[i - 1])
    }

    constructor ()
      ensures Valid() && !running
    {
      running, pingArmed, published := false, false, [];
    }

    method Set(value: bool, autoPing: bool)
      requires Valid()
      modifies this
      ensures Valid() && running == value
      ensures published == if value == old(running) then old(published) else old(published) + [value]
      ensures value == old(running) ==> pingArmed == old(pingArmed)
      ensures value != old(running) ==> pingArmed == (value && autoPing)
    {
      if running == value { return; }
      running := value;
      if value {
        pingArmed := false;
        if autoPing { pingArmed := true; }
      } else if pingArmed {
        pingArmed := false;
      }
      published := published + [value];
    }
  }

  class Controller {
    const runningState: RunningState
    var singboxCmd: Cmd
    var stoppedByUser: bool
    var restartRequestedByUser: bool
    var consecutiveCrashAttempts: nat
    const autoPing: bool
    var sleepers: seq<Timer>      // stability goroutines not yet awake

    ghost function View(): Ctl
      reads this, runningState
    {
      Ctl(runningState.running, singboxCmd, stoppedByUser, restartRequestedByUser, consecutiveCrashAttempts)
    }

    ghost predicate Valid()
      reads this, runningState
    {
      runningState.Valid()
    }

    constructor (autoPing: bool)
      ensures Valid() && fresh(runningState) && View() == Initial.ctl && sleepers == Initial.timers
    {
      runningState := new RunningState();
      singboxCmd, stoppedByUser, restartRequestedByUser, consecutiveCrashAttempts := NoCmd, false, false, 0;
      this.autoPing := autoPing;
      sleepers := [];
    }

    /** These fields are the supervisor's part of the state. */
    ghost predicate Shows(s: State)
      reads this, runningState
    {
      s.ctl == View() && s.timers == sleepers
    }

    /** The locked part of Start.  `capable`, `exec` and `pid` are what the platform answers. */
    method StartLocked(capable: bool, exec: bool, pid: nat) returns (monitor: bool)
      requires Valid()
      modifies this, runningState
      ensures Valid()
      ensures old(View()).running ==> View() == old(View()) && !monitor
      ensures !old(View()).running ==>
                var outcome := if !capable then Refused else if !exec then SpawnFailed else Spawned;
                View() == FinishCtl(old(View()), outcome, pid) && monitor == (outcome == Spawned)
    {
      if runningState.running { return false; }
      if !capable { return false; }
      singboxCmd := NotStarted;
      if !exec { return false; }
      singboxCmd := Started(pid);
      runningState.Set(true, autoPing);
      stoppedByUser := false;
      monitor := true;
    }

    method Stop() returns (signal: Option<nat>)
      requires Valid()
      modifies this, runningState
      ensures Valid() && View() == StopCtl(old(View()))
      ensures signal == if old(View()).running && old(View()).cmd.Started? then Some(old(View()).cmd.pid) else None
    {
      stoppedByUser := true;
      consecutiveCrashAttempts := 0;
      if !runningState.running {
        stoppedByUser := false;
        return None;
      }
      if singboxCmd == NoCmd || singboxCmd == NotStarted {
        runningState.Set(false, autoPing);
        stoppedByUser := false;
        return None;
      }
      signal := Some(singboxCmd.pid);
    }

    method KillForRestart() returns (signal: Option<nat>)
      requires Valid()
      modifies this
      ensures Valid() && View() == KillCtl(old(View()))
      ensures signal == if old(View()).running && old(View()).cmd.Started? then Some(old(View()).cmd.pid) else None
    {
      if !runningState.running { return None; }
      restartRequestedByUser := true;
      if singboxCmd == NoCmd || singboxCmd == NotStarted { return None; }
      signal := Some(singboxCmd.pid);
    }

    /** The locked part of Monitor, up to where it unlocks for a restart or returns. */
    method MonitorLocked(monitoredPid: nat, cleanExit: bool) returns (verdict: Verdict)
      requires Valid()
      modifies this, runningState
      ensures Valid()
      ensures verdict == Judge(old(View()), monitoredPid, cleanExit)
      ensures View() == ExitCtl(old(View()), monitoredPid, cleanExit)
      ensures verdict.Acted? ==> !runningState.running
    {
      if singboxCmd == NoCmd || singboxCmd == NotStarted || singboxCmd.pid != monitoredPid {
        return Obsolete;
      }
      var (action, newAttempts) := DecideCrashAction(
        stoppedByUser, restartRequestedByUser, cleanExit, consecutiveCrashAttempts, RESTART_ATTEMPTS);
      verdict := Acted(action);
      if action == StoppedByUser {
        consecutiveCrashAttempts := newAttempts;
        runningState.Set(false, autoPing);
        stoppedByUser := false;
        return;
      }
      if action == UserRestart {
        restartRequestedByUser := false;
        runningState.Set(false, autoPing);
        consecutiveCrashAttempts := newAttempts;
        return;
      }
      if action == CleanExit {
        consecutiveCrashAttempts := newAttempts;
        runningState.Set(false, autoPing);
        return;
      }
      runningState.Set(false, autoPing);
      consecutiveCrashAttempts := newAttempts;
    }

    /** The Monitor locks again after Start(true) and, when the engine runs, leaves a stability goroutine
        behind: the `Relock` step, whatever the threads do. */
    method RelockAfterCrash(now: nat)
      requires Valid()
      modifies this`sleepers
      ensures Valid() && View() == old(View())
      ensures forall s: State, t: nat ::
                old(Shows(s)) && s.now == now && Enabled(s, Relock(t)) && s.threads[t].caller == CrashHandler ==>
                Shows(Next(s, Relock(t)))
    {
      if runningState.running {
        var currentAttemptCount := consecutiveCrashAttempts;
        sleepers := sleepers + [Timer(now + STABILITY_THRESHOLD, currentAttemptCount)];
      }
    }

    /** Goroutine i wakes up and locks: the `Stability` step. */
    method StabilityCheck(i: nat)
      requires Valid() && i < |sleepers|
      modifies this
      ensures Valid() && View() == StabilityCtl(old(View()), old(sleepers[i].count))
      ensures forall s: State :: old(Shows(s)) && Enabled(s, Stability(i)) ==> Shows(Next(s, Stability(i)))
    {
      var currentAttemptCount := sleepers[i].count;
      sleepers := sleepers[..i] + sleepers[i + 1..];
      if runningState.running && consecutiveCrashAttempts == currentAttemptCount {
        consecutiveCrashAttempts := 0;
      }
    }
  }

  // ------------------------------------------------ the counter over many exits

  /** What a watcher finds at one exit. */
  datatype Exit = Exit(stopped: bool, restart: bool, clean: bool)

  predicate Crashed(x: Exit) { !x.stopped && !x.restart && !x.clean }

  function Decide(x: Exit, attempts: nat, max: nat): (Action, nat) {
    DecideCrashAction(x.stopped, x.restart, x.clean, attempts, max)
  }

  /** The counter after these exits. */
  function Counter(exits: seq<Exit>, max: nat): nat {
    if exits == [] then 0 else Decide(exits[|exits| - 1], Counter(exits[..|exits| - 1], max), max).1
  }

  /** How many of the last exits in a row were crashes. */
  function CrashTail(exits: seq<Exit>): nat {
    if exits == [] || !Crashed(exits[|exits| - 1]) then 0 else CrashTail(exits[..|exits| - 1]) + 1
  }

  /** What is left of n after taking away m as often as possible. */
  function Remainder(n: nat, m: nat): (r: nat)
    requires m > 0
    ensures r < m
  {
    if n < m then n else Remainder(n - m, m)
  }

  lemma {:induction false} RemainderOfNext(n: nat, m: nat)
    requires m > 0
    ensures Remainder(n + 1, m) == if Remainder(n, m) == m - 1 then 0 else Remainder(n, m) + 1
  {
    if n >= m { RemainderOfNext(n - m, m); }
  }

  /** Over any history of exits the counter is the length of the run of crashes it ends in, modulo
      max + 1: of every max + 1 crashes in a row exactly the last is refused its restart.  A stop by the
      user beats a requested restart, which beats a clean exit, and each of them starts the count afresh. */
  lemma {:induction false} CounterIsCrashTail(exits: seq<Exit>, max: nat)
    ensures Counter(exits, max) == Remainder(CrashTail(exits), max + 1)
    ensures exits != [] ==>
              var x := exits[|exits| - 1];
              var action := Decide(x, Counter(exits[..|exits| - 1], max), max).0;
              && (action == StoppedByUser <==> x.stopped)
              && (action == UserRestart <==> x.restart && !x.stopped)
              && (action == CleanExit <==> x.clean && !x.restart && !x.stopped)
              && (action == MaxAttempts <==> Crashed(x) && Remainder(CrashTail(exits), max + 1) == 0)
              && (action == CrashRestart <==> Crashed(x) && Remainder(CrashTail(exits), max + 1) != 0)
  {
    if exits != [] {
      var front := exits[..|exits| - 1];
      CounterIsCrashTail(front, max);
      RemainderOfNext(CrashTail(front), max + 1);
    }
  }
}
