/** Safety of the supervisor over every interleaving: one child at most, a Monitor always meets its
    own child, and what a user's Stop and Restart guarantee. */
module SupervisorSafety {
  import opened Supervisor

  // ------------------------------------------------------------ single child

  /** At any moment of any run at most one spawned child is live; while `running` holds, SingboxCmd
      names a child with exactly one unfinished Monitor; a Monitor about to lock finds its own pid. */
  lemma SingleChild(es: seq<Event>, k: nat)
    requires Runs(Initial, es) && k <= |es|
    ensures Runs(Initial, es[..k])
    ensures var s := After(Initial, es[..k]);
            && |s.live| <= 1
            && (s.ctl.running ==>
                  s.ctl.cmd.Started?
                  && forall t :: t in s.threads && Watches(s.threads[t]) <==> t == s.ctl.cmd.pid)
            && (!s.ctl.running ==> s.live == {})
            && (k < |es| && es[k].Monitor? ==>
                  && es[k].t in s.threads && s.threads[es[k].t].Woken?
                  && Judge(s.ctl, es[k].t, s.threads[es[k].t].clean).Acted?)
  {
    InvPrefix(Initial, es, k);
    RunPrefix(Initial, es, k);
    var s := After(Initial, es[..k]);
    if s.ctl.running {
      assert s.live <= {s.ctl.cmd.pid};
      SubsetOfSingleton(s.live, s.ctl.cmd.pid);
    } else {
      assert s.live == {};
    }
  }

  lemma SubsetOfSingleton(a: set<nat>, x: nat)
    requires a <= {x}
    ensures |a| <= 1
  {
    if x in a {
      assert a == {x};
    } else {
      assert a == {};
    }
  }

  // -------------------------------------------------------------------- Stop

  predicate SpawnsIn(es: seq<Event>) {
    exists i :: 0 <= i < |es| && es[i].Finish? && es[i].outcome == Spawned
  }

  predicate UserStartsIn(es: seq<Event>) {
    exists i :: 0 <= i < |es| && es[i] == UserStart
  }

  ghost predicate NoneStarting(s: State) {
    forall t <- s.threads :: !Starting(s.threads[t])
  }

  /** No spawn follows in any run without a further user Start. */
  ghost predicate StaysDown(s: State) {
    forall es :: Runs(s, es) && !UserStartsIn(es) ==> !SpawnsIn(es)
  }

  /** What an effective Stop establishes and every later step keeps. */
  ghost predicate GoingDown(s: State) {
    Inv(s) && NoneStarting(s) && (s.ctl.running ==> s.ctl.stopped)
  }

  lemma GoingDownStep(s: State, e: Event)
    requires GoingDown(s) && Enabled(s, e) && e != UserStart
    ensures GoingDown(Next(s, e))
    ensures !(e.Finish? && e.outcome == Spawned)
  {
    InvStep(s, e);
  }

  lemma {:induction false} GoingDownRun(s: State, es: seq<Event>)
    requires GoingDown(s) && Runs(s, es) && !UserStartsIn(es)
    ensures GoingDown(After(s, es)) && !SpawnsIn(es)
    decreases |es|
  {
    if es != [] {
      var front, last := es[..|es| - 1], es[|es| - 1];
      assert es == front + [last];
      GoingDownRun(s, front);
      GoingDownStep(After(s, front), last);
    }
  }

  lemma BlockedRun(s: State, t: nat) returns (es: seq<Event>)
    requires s.holder.None? && !s.ctl.running && t in s.threads && s.threads[t].Blocked?
    ensures es == [Lock(t)] + [Finish(t, Spawned)] && Runs(s, es)
  {
    var s1 := Next(s, Lock(t));
    OneEvent(s1, Finish(t, Spawned));
    RunCons(s, Lock(t), [Finish(t, Spawned)]);
    es := [Lock(t)] + [Finish(t, Spawned)];
  }

  lemma SleepingRun(s: State, t: nat) returns (es: seq<Event>)
    requires s.holder.None? && !s.ctl.running && t in s.threads && s.threads[t].Sleeping?
    ensures Runs(s, es) && !UserStartsIn(es) && SpawnsIn(es)
  {
    var tick := Tick(s.threads[t].until);
    var s1 := Next(s, tick);
    var tail := BlockedRun(Next(s1, WakeUp(t)), t);
    RunCons(s1, WakeUp(t), tail);
    RunCons(s, tick, [WakeUp(t)] + tail);
    es := [tick] + ([WakeUp(t)] + tail);
    assert es[3] == Finish(t, Spawned);
  }

  /** From a state with the mutex free and nothing running, a thread that is already starting
      can spawn without any further user action. */
  lemma SpawnRun(s: State, t: nat) returns (es: seq<Event>)
    requires Inv(s) && s.holder.None? && !s.ctl.running
    requires t in s.threads && Starting(s.threads[t])
    ensures Runs(s, es) && !UserStartsIn(es) && SpawnsIn(es)
  {
    if s.threads[t].Sleeping? {
      es := SleepingRun(s, t);
    } else if s.threads[t].Blocked? {
      es := BlockedRun(s, t);
      assert es[1] == Finish(t, Spawned);
    } else {
      var tail := BlockedRun(Next(s, Probe(t, false)), t);
      RunCons(s, Probe(t, false), tail);
      es := [Probe(t, false)] + tail;
      assert es[2] == Finish(t, Spawned);
    }
  }

  ghost predicate DownKeeping(s: State, s': State) {
    && Inv(s') && s'.holder.None? && !s'.ctl.running
    && (forall t <- s.threads :: Starting(s.threads[t]) ==> At(s', t, s.threads[t]))
  }

  lemma WokenDown(s: State, w: nat)
    requires Inv(s) && s.holder.None? && s.ctl.stopped && w in s.threads && s.threads[w].Woken?
    ensures Runs(s, [Monitor(w)]) && DownKeeping(s, After(s, [Monitor(w)]))
  {
    OneEvent(s, Monitor(w));
    InvStep(s, Monitor(w));
  }

  /** After a Stop the Monitor of the running child takes the engine down. */
  lemma ShutDownRun(s: State) returns (es: seq<Event>)
    requires Inv(s) && s.holder.None? && s.ctl.running && s.ctl.stopped
    ensures Runs(s, es) && !UserStartsIn(es) && DownKeeping(s, After(s, es))
  {
    var w := s.ctl.cmd.pid;
    if s.threads[w].Waiting? {
      var exit := ChildExit(w, true);
      InvStep(s, exit);
      WokenDown(Next(s, exit), w);
      RunCons(s, exit, [Monitor(w)]);
      es := [exit] + [Monitor(w)];
      assert forall t <- s.threads :: Starting(s.threads[t]) ==> At(Next(s, exit), t, s.threads[t]);
    } else {
      WokenDown(s, w);
      es := [Monitor(w)];
    }
  }

  /** User intent wins, exactly: a Stop guarantees that nothing is spawned before the next user
      Start if and only if no restart continuation and no earlier Start is under way when it locks. */
  lemma StopStaysDownIff(s: State)
    requires Inv(s) && Enabled(s, Stop)
    ensures StaysDown(Next(s, Stop)) <==> NoneStarting(s)
  {
    var s1 := Next(s, Stop);
    InvStep(s, Stop);
    if NoneStarting(s) {
      forall es | Runs(s1, es) && !UserStartsIn(es) ensures !SpawnsIn(es) {
        GoingDownRun(s1, es);
      }
    } else {
      var t :| t in s.threads && Starting(s.threads[t]);
      if s1.ctl.running {
        var down := ShutDownRun(s1);
        var up := SpawnRun(After(s1, down), t);
        RunConcat(s1, down, up);
        var i :| 0 <= i < |up| && up[i].Finish? && up[i].outcome == Spawned;
        assert (down + up)[|down| + i] == up[i];
        assert SpawnsIn(down + up) && !UserStartsIn(down + up);
      } else {
        var up := SpawnRun(s1, t);
      }
    }
  }

  // ---------------------------------------------------------- KillForRestart

  predicate StopsIn(es: seq<Event>) {
    exists i :: 0 <= i < |es| && es[i] == Stop
  }

  predicate MonitorsIn(es: seq<Event>) {
    exists i :: 0 <= i < |es| && es[i].Monitor?
  }

  /** Until a Monitor locks, an accepted restart request stays pending. */
  lemma {:induction false} RequestPends(s: State, es: seq<Event>)
    requires Inv(s) && s.ctl.running && s.ctl.restart
    requires Runs(s, es) && !MonitorsIn(es)
    ensures var c := After(s, es).ctl;
            Inv(After(s, es)) && c.running && c.restart && (c.stopped <==> s.ctl.stopped || StopsIn(es))
    decreases |es|
  {
    if es != [] {
      var front, last := es[..|es| - 1], es[|es| - 1];
      assert es == front + [last];
      RequestPends(s, front);
      InvStep(After(s, front), last);
      assert StopsIn(es) <==> StopsIn(front) || last == Stop;
    }
  }

  /** A KillForRestart accepted while running: the next Monitor to lock grants the restart, without
      counting it and consuming the request, exactly when no Stop is pending or follows.  Otherwise
      the Stop wins and the request is left over for the next child. */
  lemma RestartGrantedIff(s: State, es: seq<Event>, t: nat)
    requires Inv(s) && Enabled(s, Kill) && s.ctl.running
    requires Runs(Next(s, Kill), es + [Monitor(t)]) && !MonitorsIn(es)
    ensures Runs(Next(s, Kill), es)
    ensures var before := After(Next(s, Kill), es);
            var after := After(Next(s, Kill), es + [Monitor(t)]);
            && ((At(after, t, Sleeping(RestartButton, before.now + CLEANUP_DELAY)) && !after.ctl.restart)
                <==> (!s.ctl.stopped && !StopsIn(es)))
            && (s.ctl.stopped || StopsIn(es) ==> t !in after.threads && after.ctl.restart)
            && after.ctl.attempts == 0 && !after.ctl.running
  {
    var s1 := Next(s, Kill);
    InvStep(s, Kill);
    RunPrefix(s1, es + [Monitor(t)], |es|);
    assert (es + [Monitor(t)])[..|es|] == es && (es + [Monitor(t)])[..|es| + 1] == es + [Monitor(t)];
    RequestPends(s1, es);
  }
}
