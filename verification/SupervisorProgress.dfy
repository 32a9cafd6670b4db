/** What the supervisor does do: a user's Start brings a child up, a crash within the budget is answered
    by a restart, a stable run clears the counter; from every state the invariant allows. */
module SupervisorProgress {
  import opened Supervisor
  import opened SupervisorStability

  // -------------------------------------------------------------------- Start

  /** Up and watched, with nothing pending against it. */
  ghost predicate Running(s: State, pid: nat) {
    && s.ctl.running && s.ctl.cmd == Started(pid) && !s.ctl.stopped
    && pid in s.live && At(s, pid, Waiting) && s.holder.None?
  }

  lemma BlockedSpawns(s: State, t: nat) returns (es: seq<Event>)
    requires s.holder.None? && !s.ctl.running && t in s.threads && s.threads[t].Blocked? && t < s.unused
    ensures es == [Lock(t)] + [Finish(t, Spawned)] && Runs(s, es)
    ensures var s' := After(s, es);
            && Running(s', s.unused) && s'.ctl.attempts == s.ctl.attempts && s'.ctl.restart == s.ctl.restart
            && s'.now == s.now && s'.timers == s.timers && s'.unused == s.unused + 1
            && s'.threads == Return(s.threads, t, s.threads[t].caller)[s.unused := Waiting]
  {
    var s1 := Next(s, Lock(t));
    OneEvent(s1, Finish(t, Spawned));
    RunCons(s, Lock(t), [Finish(t, Spawned)]);
    es := [Lock(t)] + [Finish(t, Spawned)];
    assert Return(s1.threads, t, s1.threads[t].caller) == Return(s.threads, t, s.threads[t].caller);
  }

  /** Whatever happened before: when nothing runs and the mutex is free, a user's Start can bring a child
      up, without any further user action, and leaves counter and goroutines as they were. */
  lemma UserStartSpawns(s: State) returns (es: seq<Event>)
    requires Inv(s) && s.holder.None? && !s.ctl.running
    ensures Runs(s, [UserStart] + es) && UserFree(es) && Finish(s.unused, Spawned) in es
    ensures var s' := After(s, [UserStart] + es);
            Running(s', s.unused + 1) && s'.ctl.attempts == s.ctl.attempts && s'.timers == s.timers
  {
    var t := s.unused;
    ProbePasses(s);
    var probe := [UserStart] + [Probe(t, false)];
    var tail := BlockedSpawns(After(s, probe), t);
    RunConcat(s, probe, tail);
    es := [Probe(t, false)] + tail;
    assert probe + tail == [UserStart] + es;
    assert es[2] == Finish(t, Spawned);
  }

  lemma ProbePasses(s: State)
    requires Inv(s) && !s.ctl.running
    ensures var es := [UserStart] + [Probe(s.unused, false)];
            && Runs(s, es)
            && After(s, es) == s.(threads := s.threads[s.unused := Blocked(User)], unused := s.unused + 1)
  {
    OneEvent(Next(s, UserStart), Probe(s.unused, false));
    RunCons(s, UserStart, [Probe(s.unused, false)]);
  }

  /** A Start that finds a foreign process ends there: nothing else changes, and its thread never spawns. */
  lemma ForeignProcessEndsStart(s: State, es: seq<Event>)
    requires Inv(s) && !s.ctl.running
    ensures var es0 := [UserStart] + [Probe(s.unused, true)];
            && Runs(s, es0) && After(s, es0) == s.(unused := s.unused + 1)
            && (Runs(After(s, es0), es) ==> forall outcome :: Finish(s.unused, outcome) !in es)
  {
    var t, s1 := s.unused, Next(s, UserStart);
    OneEvent(s1, Probe(t, true));
    RunCons(s, UserStart, [Probe(t, true)]);
    var s2 := After(s, [UserStart] + [Probe(t, true)]);
    assert s2.threads == s.threads;
    if Runs(s2, es) { GoneStays(s2, t, es); }
  }

  lemma {:induction false} GoneStays(s: State, t: nat, es: seq<Event>)
    requires t < s.unused && t !in s.threads && Runs(s, es)
    ensures var s' := After(s, es); t < s'.unused && t !in s'.threads
    ensures forall outcome :: Finish(t, outcome) !in es
    decreases |es|
  {
    if es != [] {
      GoneStays(s, t, es[..|es| - 1]);
      GoneStep(After(s, es[..|es| - 1]), t, es[|es| - 1]);
      assert es == es[..|es| - 1] + [es[|es| - 1]];
    }
  }

  lemma GoneStep(s: State, t: nat, e: Event)
    requires t < s.unused && t !in s.threads && Enabled(s, e)
    ensures var s' := Next(s, e); t < s'.unused && t !in s'.threads
    ensures !(e.Finish? && e.t == t)
  {}

  /** While running, a user's Start does nothing, and any Start still on its way gives up: after its pause,
      and again when it locks. */
  lemma LateStartGivesUp(s: State, t: nat)
    requires s.ctl.running
    ensures Next(s, UserStart) == s
    ensures Enabled(s, WakeUp(t)) || Enabled(s, Lock(t)) ==>
              var e := if Enabled(s, Lock(t)) then Lock(t) else WakeUp(t);
              var caller := s.threads[t].caller;
              Next(s, e) == s.(threads := if caller == User then s.threads - {t} else s.threads[t := Returned(caller)])
  {}

  // ------------------------------------------------------------------- crashes

  /** A crash within the budget: paused, cleaned up, restarted and counted, and a goroutine remembers the
      new count for 180 s; from every state, whatever else is under way. */
  lemma CrashIsRestarted(s: State) returns (es: seq<Event>)
    requires Inv(s) && s.holder.None? && s.ctl.running && !s.ctl.stopped && !s.ctl.restart
    requires s.threads[s.ctl.cmd.pid].Waiting? && s.ctl.attempts < RESTART_ATTEMPTS
    ensures Runs(s, es) && UserFree(es)
    ensures var s', later := After(s, es), s.now + RESTART_DELAY;
            && Running(s', s.unused) && s'.now == later && s'.ctl.attempts == s.ctl.attempts + 1
            && s'.timers == s.timers + [Timer(later + STABILITY_THRESHOLD, s.ctl.attempts + 1)]
  {
    var w := s.ctl.cmd.pid;
    CrashSleeps(s, w);
    var crash := [ChildExit(w, false)] + [Monitor(w)];
    var tail := SleeperRestarts(After(s, crash), w);
    RunConcat(s, crash, tail);
    es := crash + tail;
  }

  lemma CrashSleeps(s: State, w: nat)
    requires Inv(s) && s.holder.None? && s.ctl.running && !s.ctl.stopped && !s.ctl.restart
    requires s.ctl.cmd == Started(w) && s.threads[w].Waiting? && s.ctl.attempts < RESTART_ATTEMPTS
    ensures var es := [ChildExit(w, false)] + [Monitor(w)];
            && Runs(s, es)
            && var s' := After(s, es);
            && Inv(s') && s'.holder.None? && !s'.ctl.running && s'.ctl.attempts == s.ctl.attempts + 1
            && At(s', w, Sleeping(CrashHandler, s.now + RESTART_DELAY))
            && s'.now == s.now && s'.timers == s.timers && s'.unused == s.unused
  {
    var exit := ChildExit(w, false);
    InvStep(s, exit);
    InvStep(Next(s, exit), Monitor(w));
    OneEvent(Next(s, exit), Monitor(w));
    RunCons(s, exit, [Monitor(w)]);
  }

  lemma SleeperRestarts(s: State, t: nat) returns (es: seq<Event>)
    requires Inv(s) && s.holder.None? && !s.ctl.running
    requires At(s, t, Sleeping(CrashHandler, s.now + RESTART_DELAY))
    ensures Runs(s, es) && UserFree(es)
    ensures var s', later := After(s, es), s.now + RESTART_DELAY;
            && Running(s', s.unused) && s'.now == later && s'.ctl.attempts == s.ctl.attempts
            && s'.timers == s.timers + [Timer(later + STABILITY_THRESHOLD, s.ctl.attempts)]
  {
    PauseEnds(s, t);
    var pause := [Tick(RESTART_DELAY)] + [WakeUp(t)];
    var tail := AwakeRestarts(After(s, pause), t);
    RunConcat(s, pause, tail);
    es := pause + tail;
  }

  lemma PauseEnds(s: State, t: nat)
    requires Inv(s) && s.holder.None? && !s.ctl.running
    requires At(s, t, Sleeping(CrashHandler, s.now + RESTART_DELAY))
    ensures var es := [Tick(RESTART_DELAY)] + [WakeUp(t)];
            && Runs(s, es)
            && After(s, es) == s.(now := s.now + RESTART_DELAY, threads := s.threads[t := Blocked(CrashHandler)])
            && t < s.unused
  {
    var tick := Tick(RESTART_DELAY);
    OneEvent(Next(s, tick), WakeUp(t));
    RunCons(s, tick, [WakeUp(t)]);
  }

  lemma AwakeRestarts(s: State, t: nat) returns (es: seq<Event>)
    requires s.holder.None? && !s.ctl.running && At(s, t, Blocked(CrashHandler)) && t < s.unused
    ensures Runs(s, es) && UserFree(es)
    ensures var s' := After(s, es);
            && Running(s', s.unused) && s'.now == s.now && s'.ctl.attempts == s.ctl.attempts
            && s'.timers == s.timers + [Timer(s.now + STABILITY_THRESHOLD, s.ctl.attempts)]
  {
    var up := BlockedSpawns(s, t);
    OneEvent(After(s, up), Relock(t));
    RunConcat(s, up, [Relock(t)]);
    es := up + [Relock(t)];
  }

  /** One crash too many: no restart, and the counter starts afresh. */
  lemma CrashBeyondBudget(s: State, w: nat)
    requires Inv(s) && At(s, w, Woken(false)) && s.holder.None? && !s.ctl.stopped && !s.ctl.restart
    requires s.ctl.attempts == 3
    ensures var s' := Next(s, Monitor(w));
            !s'.ctl.running && s'.ctl.attempts == 0 && s'.threads == s.threads - {w}
  {}

  /** 180 s after a restart, and not before, its goroutine clears the counter, whatever the count. */
  lemma StableRunResets(s: State, t: nat, d: nat)
    requires Inv(s) && s.holder.None? && At(s, t, Returned(CrashHandler)) && s.ctl.running
    ensures var s1 := Next(Next(s, Relock(t)), Tick(d));
            && (Enabled(s1, Stability(|s.timers|)) <==> d >= 180_000)
            && (d >= 180_000 ==>
                  var s2 := Next(s1, Stability(|s.timers|)); s2.ctl == s.ctl.(attempts := 0) && s2.timers == s.timers)
  {
    var s1 := Next(Next(s, Relock(t)), Tick(d));
    assert s1.timers == s.timers + [Timer(s.now + STABILITY_THRESHOLD, s.ctl.attempts)];
    assert s1.timers[..|s.timers|] + s1.timers[|s.timers| + 1..] == s.timers;
  }

  // --------------------------------------------------------------------- users

  /** Stop: the crash budget is whole again, a running child is asked to go, and nothing else moves. */
  lemma StopStartsAfresh(s: State)
    requires Inv(s) && Enabled(s, Stop)
    ensures var s' := Next(s, Stop);
            && s'.ctl.attempts == 0 && s'.ctl.running == s.ctl.running && s'.ctl.restart == s.ctl.restart
            && s'.ctl.cmd == s.ctl.cmd && s'.ctl.stopped == s.ctl.running
            && s' == s.(ctl := s'.ctl)
  {}

  /** Where no child is behind the running flag, Stop corrects the flag instead. */
  lemma StopCorrects(c: Ctl)
    requires !c.cmd.Started?
    ensures StopCtl(c) == Ctl(false, c.cmd, false, c.restart, 0)
  {}

  /** What a Monitor leaves behind, for every state of the fields: an obsolete one nothing; any other an
      engine that is down, the count it was told, and of the two requests the one it answered gone. */
  lemma MonitorLeaves(c: Ctl, pid: nat, clean: bool)
    ensures var c' := ExitCtl(c, pid, clean);
            if c.cmd != Started(pid) then c' == c
            else
              var (action, attempts) := DecideCrashAction(c.stopped, c.restart, clean, c.attempts, RESTART_ATTEMPTS);
              && !c'.running && c'.cmd == c.cmd && c'.attempts == attempts
              && c'.stopped == (c.stopped && action != StoppedByUser)
              && c'.restart == (c.restart && action != UserRestart)
  {}

  /** In every run a pending stop belongs to a running child: none is left over for the next one. */
  lemma {:induction false} NoStopLeftOver(es: seq<Event>)
    requires Runs(Initial, es)
    ensures After(Initial, es).ctl.stopped ==> After(Initial, es).ctl.running
    decreases |es|
  {
    if es != [] {
      NoStopLeftOver(es[..|es| - 1]);
      InvRun(Initial, es[..|es| - 1]);
      StopFlagStep(After(Initial, es[..|es| - 1]), es[|es| - 1]);
    }
  }

  lemma StopFlagStep(s: State, e: Event)
    requires Inv(s) && Enabled(s, e) && (s.ctl.stopped ==> s.ctl.running)
    ensures Next(s, e).ctl.stopped ==> Next(s, e).ctl.running
  {}

  /** KillForRestart asks for a restart of a running engine only, and touches nothing else. */
  lemma KillAsksOnce(s: State)
    requires Enabled(s, Kill)
    ensures Next(s, Kill) == s.(ctl := s.ctl.(restart := s.ctl.restart || s.ctl.running))
  {}

  /** A failed or refused launch leaves the engine down and its thread returns. */
  lemma FailedLaunch(s: State, t: nat, outcome: Outcome)
    requires Inv(s) && Enabled(s, Finish(t, outcome)) && outcome != Spawned
    ensures var s' := Next(s, Finish(t, outcome));
            && s'.holder.None? && !s'.ctl.running && s'.live == s.live && s'.unused == s.unused
            && s'.ctl == s.ctl.(cmd := if outcome == SpawnFailed then NotStarted else s.ctl.cmd)
            && !(t in s'.threads && Starting(s'.threads[t]))
            && forall u | u != t :: (u in s'.threads <==> u in s.threads)
                                    && (u in s.threads ==> s'.threads[u] == s.threads[u])
  {}
}
