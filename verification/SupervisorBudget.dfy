/** The crash budget as a termination measure (core/crash_handler.go:62-83): without further user
    actions only finitely many children are spawned, however the threads interleave. */
module SupervisorBudget {
  import opened Supervisor
  import opened SupervisorStability

  ghost function Spawns(es: seq<Event>): nat {
    if es == [] then 0
    else Spawns(es[..|es| - 1]) + (var e := es[|es| - 1]; if e.Finish? && e.outcome == Spawned then 1 else 0)
  }

  ghost function ResetCount(s: State, es: seq<Event>): nat
    requires Runs(s, es)
    decreases |es|
  {
    if es == [] then 0
    else
      var front := es[..|es| - 1];
      ResetCount(s, front) + if IsReset(After(s, front), es[|es| - 1]) then 1 else 0
  }

  /** Threads that will spawn at most once before they go back to waiting. */
  ghost function Pending(s: State): set<nat> {
    set t | t in s.threads && Starting(s.threads[t])
  }

  ghost function Tokens(s: State): set<nat> {
    set t | t in s.threads && Token(s.threads[t])
  }

  ghost function Flag(s: State): nat {
    if s.ctl.restart then 1 else 0
  }

  /** Crash restarts still to come: what is left of the counter, and a full budget for every other
      line of restarts and for a leftover restart request. */
  function Slack(lines: nat, attempts: nat, flag: nat): nat
    requires attempts <= RESTART_ATTEMPTS
  {
    if lines == 0 then 0
    else RESTART_ATTEMPTS - attempts + RESTART_ATTEMPTS * (lines - 1 + flag)
  }

  ghost function Budget(s: State): nat
    requires s.ctl.attempts <= RESTART_ATTEMPTS
  {
    |Pending(s)| + Flag(s) + Slack(|Tokens(s)|, s.ctl.attempts, Flag(s))
  }

  ghost function StepCost(s: State, e: Event): int
    requires Enabled(s, e)
  {
    (if e.Finish? && e.outcome == Spawned then 1 else 0)
    - (if IsReset(s, e) then RESTART_ATTEMPTS else 0)
  }

  lemma Shrink(a: set<nat>, b: set<nat>, x: nat)
    requires b == a - {x}
    ensures |b| == if x in a then |a| - 1 else |a|
  {
    if x !in a { assert b == a; }
  }

  lemma StartSets(s: State, e: Event, t: nat)
    requires Inv(s) && Enabled(s, e)
    requires e in {Probe(t, true), Probe(t, false), WakeUp(t), Lock(t), Finish(t, Refused), Finish(t, SpawnFailed)}
    ensures var s' := Next(s, e);
            if t in s'.threads && Starting(s'.threads[t])
            then Pending(s') == Pending(s) && Tokens(s') == Tokens(s)
            else Pending(s') == Pending(s) - {t} && Tokens(s') == Tokens(s) - {t}
  {
    assert t in s.threads && Starting(s.threads[t]);
  }

  lemma StartStep(s: State, e: Event, t: nat)
    requires Inv(s) && Enabled(s, e)
    requires e in {Probe(t, true), Probe(t, false), WakeUp(t), Lock(t), Finish(t, Refused), Finish(t, SpawnFailed)}
    ensures Inv(Next(s, e)) && Budget(Next(s, e)) <= Budget(s)
  {
    InvStep(s, e);
    StartSets(s, e, t);
    var s' := Next(s, e);
    assert s'.ctl.attempts == s.ctl.attempts && s'.ctl.restart == s.ctl.restart;
    Shrink(Pending(s), Pending(s) - {t}, t);
    Shrink(Tokens(s), Tokens(s) - {t}, t);
  }

  lemma SpawnStep(s: State, t: nat)
    requires Inv(s) && Enabled(s, Finish(t, Spawned))
    ensures Inv(Next(s, Finish(t, Spawned))) && Budget(Next(s, Finish(t, Spawned))) + 1 <= Budget(s)
  {
    InvStep(s, Finish(t, Spawned));
    var s' := Next(s, Finish(t, Spawned));
    assert t in Pending(s) && t in Tokens(s) && s.unused !in Tokens(s);
    assert Pending(s') == Pending(s) - {t} && Tokens(s') - {s.unused} == Tokens(s) - {t};
    Shrink(Pending(s), Pending(s'), t);
    Shrink(Tokens(s), Tokens(s) - {t}, t);
    Shrink(Tokens(s'), Tokens(s') - {s.unused}, s.unused);
  }

  lemma ExitSets(s: State, t: nat)
    requires Inv(s) && Enabled(s, Monitor(t))
    ensures var s' := Next(s, Monitor(t));
            && t in Tokens(s) && t !in Pending(s)
            && if t in s'.threads then Tokens(s') == Tokens(s) && Pending(s') == Pending(s) + {t}
               else Tokens(s') == Tokens(s) - {t} && Pending(s') == Pending(s)
  {}

  lemma ExitStep(s: State, t: nat)
    requires Inv(s) && Enabled(s, Monitor(t))
    ensures Inv(Next(s, Monitor(t))) && Budget(Next(s, Monitor(t))) <= Budget(s)
  {
    InvStep(s, Monitor(t));
    ExitSets(s, t);
    Shrink(Tokens(s), Tokens(s) - {t}, t);
    assert |Tokens(s)| > 0;
  }

  lemma QuietStep(s: State, e: Event)
    requires Inv(s) && Enabled(s, e) && (e.Tick? || e.ChildExit? || e.Relock? || e.Stability?)
    ensures Inv(Next(s, e)) && Budget(Next(s, e)) <= Budget(s) - StepCost(s, e)
  {
    InvStep(s, e);
    var s' := Next(s, e);
    assert Tokens(s') == Tokens(s) && Pending(s') == Pending(s);
  }

  lemma BudgetStep(s: State, e: Event)
    requires Inv(s) && Enabled(s, e) && !ByUser(e)
    ensures Inv(Next(s, e)) && Budget(Next(s, e)) + StepCost(s, e) <= Budget(s)
  {
    match e
    case Probe(t, _) => StartStep(s, e, t);
    case WakeUp(t) => StartStep(s, e, t);
    case Lock(t) => StartStep(s, e, t);
    case Finish(t, Spawned) => SpawnStep(s, t);
    case Finish(t, _) => StartStep(s, e, t);
    case Monitor(t) => ExitStep(s, t);
    case _ => QuietStep(s, e);
  }

  /** From any reachable state, with R resets by stability goroutines, a run without user actions
      spawns at most Budget + 3R children. */
  lemma {:induction false} SpawnsAreBounded(s: State, es: seq<Event>)
    requires Inv(s) && Runs(s, es) && UserFree(es)
    ensures Inv(After(s, es))
    ensures Spawns(es) + Budget(After(s, es)) <= Budget(s) + RESTART_ATTEMPTS * ResetCount(s, es)
    decreases |es|
  {
    if es != [] {
      var front, last := es[..|es| - 1], es[|es| - 1];
      SpawnsAreBounded(s, front);
      BudgetStep(After(s, front), last);
    }
  }

  /** One user Start from the initial state: the first child and at most 3(R + 1) restarts. */
  lemma RestartBudget(es: seq<Event>)
    requires Runs(Initial, [UserStart]) && Runs(After(Initial, [UserStart]), es) && UserFree(es)
    ensures Spawns(es) <= 1 + 3 * (ResetCount(After(Initial, [UserStart]), es) + 1)
  {
    var s := After(Initial, [UserStart]);
    StartedQuietly();
    assert [UserStart][..0] == [];
    assert s.threads == map[0 := Probing];
    assert Pending(s) == {0} && Tokens(s) == {0};
    SpawnsAreBounded(s, es);
  }

  ghost predicate Ends(v: Verdict) {
    v in {Acted(StoppedByUser), Acted(MaxAttempts), Acted(CleanExit)}
  }

  /** Once the last line of restarts ends, nothing is spawned before the next user action. */
  lemma {:induction false} NoSpawnAfterTheEnd(s: State, t: nat, es: seq<Event>)
    requires Inv(s) && Tokens(s) == {t} && Enabled(s, Monitor(t)) && Ends(Judge(s.ctl, t, s.threads[t].clean))
    requires Runs(Next(s, Monitor(t)), es) && UserFree(es)
    ensures Spawns(es) == 0 && Tokens(After(Next(s, Monitor(t)), es)) == {}
    decreases |es|
  {
    var s1 := Next(s, Monitor(t));
    if es == [] {
      ExitSets(s, t);
    } else {
      var front, last := es[..|es| - 1], es[|es| - 1];
      NoSpawnAfterTheEnd(s, t, front);
      var u := After(s1, front);
      assert forall x <- u.threads :: x !in Tokens(u);
    }
  }
}
