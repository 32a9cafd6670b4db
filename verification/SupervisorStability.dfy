/** The stability goroutine (core/process_service.go:472-489): in a run without user actions it
    zeroes the crash counter only after 180 s without a crash; with user actions it need not. */
module SupervisorStability {
  import opened Basics
  import opened Supervisor

  predicate ByUser(e: Event) { e.UserStart? || e.Stop? || e.Kill? }

  predicate UserFree(es: seq<Event>) {
    forall i | 0 <= i < |es| :: !ByUser(es[i])
  }

  /** Scheduling assumptions: sleeping goroutines lock in the order of their deadlines, and a Monitor
      whose `Start` returned locks again before anyone else. */
  ghost predicate Orderly(s: State, e: Event) {
    && (e.Stability? && e.i < |s.timers| ==>
          forall j | 0 <= j < |s.timers| :: s.timers[e.i].deadline <= s.timers[j].deadline)
    && ((exists t :: t in s.threads && s.threads[t].Returned?) ==> e.Tick? || e.ChildExit? || e.Relock?)
  }

  ghost predicate OrderlyRun(s: State, es: seq<Event>)
    requires Runs(s, es)
  {
    forall k | 0 <= k < |es| :: Runs(s, es[..k]) && Orderly(After(s, es[..k]), es[k])
  }

  /** The event is a Monitor handling a crash of its child. */
  ghost predicate IsCrash(s: State, e: Event)
    requires Enabled(s, e)
  {
    e.Monitor? && Judge(s.ctl, e.t, s.threads[e.t].clean) in {Acted(CrashRestart), Acted(MaxAttempts)}
  }

  ghost predicate IsReset(s: State, e: Event)
    requires Enabled(s, e)
  {
    e.Stability? && Resets(s.ctl, s.timers[e.i].count)
  }

  /** Step i of the run is the handling of a crash, or a reset of the counter. */
  ghost predicate CrashAt(s: State, es: seq<Event>, i: nat) {
    i < |es| && Runs(s, es[..i]) && Enabled(After(s, es[..i]), es[i]) && IsCrash(After(s, es[..i]), es[i])
  }

  ghost predicate ResetAt(s: State, es: seq<Event>, i: nat) {
    i < |es| && Runs(s, es[..i]) && Enabled(After(s, es[..i]), es[i]) && IsReset(After(s, es[..i]), es[i])
  }

  ghost function LastCrash(s: State, es: seq<Event>): Option<nat>
    requires Runs(s, es)
    decreases |es|
  {
    if es == [] then None
    else
      var front, last := es[..|es| - 1], es[|es| - 1];
      if IsCrash(After(s, front), last) then Some(After(s, front).now) else LastCrash(s, front)
  }

  // --------------------------------------------------------------- invariant

  predicate Token(pc: Pc) { Watches(pc) || Starting(pc) }

  /** One line of restarts at most. */
  ghost predicate Single(s: State) {
    && (forall t, u | t in s.threads && u in s.threads ::
          Token(s.threads[t]) && Token(s.threads[u]) ==> t == u)
    && (forall t, u | t in s.threads && u in s.threads ::
          s.threads[t].Returned? ==> !Starting(s.threads[u]) && (s.threads[u].Returned? ==> t == u))
  }

  ghost predicate Dead(s: State) {
    forall t <- s.threads :: !Token(s.threads[t])
  }

  predicate Owes(pc: Pc) {
    !Watches(pc) && !pc.Probing? && pc.caller == CrashHandler
  }

  /** A crash was handled at `crash` and its restart has not locked again yet. */
  ghost predicate Restarting(s: State, crash: Option<nat>) {
    && crash.Some?
    && (forall t <- s.threads :: Owes(s.threads[t]) ==>
          crash.value + RESTART_DELAY <= if s.threads[t].Sleeping? then s.threads[t].until else s.now)
    && (forall i | 0 <= i < |s.timers| ::
          s.timers[i].count < s.ctl.attempts && s.timers[i].deadline <= crash.value + STABILITY_THRESHOLD)
  }

  /** Nothing crashed since the last goroutine went to sleep, or it remembers an older count. */
  ghost predicate Settled(s: State, crash: Option<nat>) {
    forall i | 0 <= i < |s.timers| ::
      && s.timers[i].count <= s.ctl.attempts
      && (s.timers[i].count == s.ctl.attempts && crash.Some? ==>
            crash.value + RESTART_DELAY + STABILITY_THRESHOLD <= s.timers[i].deadline)
  }

  ghost predicate Increasing(ts: seq<Timer>) {
    forall i, j | 0 <= i < j < |ts| :: ts[i].deadline < ts[j].deadline && ts[i].count < ts[j].count
  }

  ghost predicate Honest(s: State, crash: Option<nat>) {
    && Inv(s) && Single(s) && !s.ctl.restart
    && (Dead(s) || (Increasing(s.timers) &&
                    if exists t :: t in s.threads && Owes(s.threads[t]) then Restarting(s, crash)
                    else Settled(s, crash)))
  }

  ghost function CrashAfter(s: State, e: Event, crash: Option<nat>): Option<nat>
    requires Enabled(s, e)
  {
    if IsCrash(s, e) then Some(s.now) else crash
  }

  /** Steps that move one thread on, or end it. */
  lemma MoveStep(s: State, e: Event, t: nat)
    requires Inv(s) && Single(s) && Enabled(s, e) && Orderly(s, e)
    requires e in {Lock(t), WakeUp(t), Probe(t, true), Probe(t, false)}
    ensures Single(Next(s, e))
  {
    assert Starting(s.threads[t]);
    assert forall u <- s.threads :: !Watches(s.threads[u]);
    assert !s.ctl.running;
    assert forall u <- s.threads :: !s.threads[u].Returned?;
  }

  lemma FinishStep(s: State, t: nat, outcome: Outcome)
    requires Inv(s) && Single(s) && Enabled(s, Finish(t, outcome)) && Orderly(s, Finish(t, outcome))
    ensures Single(Next(s, Finish(t, outcome)))
  {
    assert Starting(s.threads[t]);
    assert forall u <- s.threads :: !s.threads[u].Returned?;
    assert forall u <- s.threads :: u != t ==> !Token(s.threads[u]);
  }

  lemma WatcherStep(s: State, e: Event)
    requires Inv(s) && Single(s) && Enabled(s, e) && Orderly(s, e)
    requires e.ChildExit? || e.Monitor?
    ensures Single(Next(s, e))
  {
    var t := if e.ChildExit? then e.pid else e.t;
    assert Watches(s.threads[t]);
    assert forall u <- s.threads :: u != t ==> !Token(s.threads[u]);
  }

  lemma SingleStep(s: State, e: Event)
    requires Inv(s) && Single(s) && Enabled(s, e) && Orderly(s, e) && !ByUser(e)
    ensures Single(Next(s, e))
  {
    match e
    case Lock(t) => MoveStep(s, e, t);
    case WakeUp(t) => MoveStep(s, e, t);
    case Probe(t, _) => MoveStep(s, e, t);
    case Finish(t, outcome) => FinishStep(s, t, outcome);
    case ChildExit(_, _) => WatcherStep(s, e);
    case Monitor(_) => WatcherStep(s, e);
    case _ =>
  }

  lemma FiringIsFirst(s: State, i: nat)
    requires Increasing(s.timers) && Enabled(s, Stability(i)) && Orderly(s, Stability(i))
    ensures i == 0
  {
    assert s.timers[i].deadline <= s.timers[0].deadline;
  }

  lemma MonitorStep(s: State, t: nat, crash: Option<nat>)
    requires Honest(s, crash) && Enabled(s, Monitor(t)) && Orderly(s, Monitor(t))
    ensures Honest(Next(s, Monitor(t)), CrashAfter(s, Monitor(t), crash))
  {
    var e := Monitor(t);
    SingleStep(s, e);
    InvStep(s, e);
    if Judge(s.ctl, t, s.threads[t].clean) == Acted(CrashRestart) {
      assert Owes(Next(s, e).threads[t]);
    } else {
      assert Dead(Next(s, e));
    }
  }

  lemma StabilityStep(s: State, i: nat, crash: Option<nat>)
    requires Honest(s, crash) && Enabled(s, Stability(i)) && Orderly(s, Stability(i))
    ensures Honest(Next(s, Stability(i)), crash)
    ensures IsReset(s, Stability(i)) && crash.Some? ==>
              crash.value + RESTART_DELAY + STABILITY_THRESHOLD <= s.now
  {
    var e := Stability(i);
    SingleStep(s, e);
    InvStep(s, e);
    if !Dead(s) {
      FiringIsFirst(s, i);
      var ts := Next(s, e).timers;
      assert forall j | 0 <= j < |ts| :: ts[j] == s.timers[j + 1];
      assert |s.timers| > 1 ==> s.timers[0].count < s.timers[1].count <= s.ctl.attempts;
      assert Next(s, e).threads == s.threads;
    }
  }

  lemma RelockStep(s: State, t: nat, crash: Option<nat>)
    requires Honest(s, crash) && Enabled(s, Relock(t))
    ensures Honest(Next(s, Relock(t)), crash)
  {
    var e := Relock(t);
    SingleStep(s, e);
    InvStep(s, e);
    var s' := Next(s, e);
    if !Dead(s) {
      assert s.threads[t].caller == CrashHandler ==> Owes(s.threads[t]);
      assert forall u <- s'.threads :: Watches(s'.threads[u]);
    }
  }

  /** Steps that leave the counter and the goroutines alone. */
  lemma SilentStep(s: State, s': State, crash: Option<nat>)
    requires Honest(s, crash) && !Dead(s) && Inv(s') && Single(s') && !s'.ctl.restart
    requires s'.ctl.attempts == s.ctl.attempts && s'.timers == s.timers && s.now <= s'.now
    requires forall t <- s.threads :: Owes(s.threads[t]) ==> t in s'.threads && Owes(s'.threads[t])
    requires forall t <- s'.threads :: Owes(s'.threads[t]) ==>
               t in s.threads && Owes(s.threads[t])
               && (s'.threads[t] == s.threads[t] || (
                     && !s'.threads[t].Sleeping?
                     && (s.threads[t].Sleeping? ==> s.threads[t].until <= s'.now)))
    ensures Honest(s', crash)
  {}

  lemma MoveKeeps(s: State, e: Event, t: nat, crash: Option<nat>)
    requires Honest(s, crash) && Enabled(s, e) && Orderly(s, e)
    requires e in {Lock(t), WakeUp(t), Probe(t, true), Probe(t, false)}
    ensures Honest(Next(s, e), crash)
  {
    MoveStep(s, e, t);
    InvStep(s, e);
    assert Starting(s.threads[t]);
    assert forall u <- s.threads :: !Watches(s.threads[u]);
    assert !s.ctl.running;
    if e.Probe? {
      assert forall u <- s.threads :: !s.threads[u].Returned?;
      assert forall u <- s.threads :: u != t ==> !Token(s.threads[u]);
    }
    if e != Probe(t, true) {
      SilentStep(s, Next(s, e), crash);
    } else {
      assert Dead(Next(s, e));
    }
  }

  lemma FinishKeeps(s: State, t: nat, outcome: Outcome, crash: Option<nat>)
    requires Honest(s, crash) && Enabled(s, Finish(t, outcome)) && Orderly(s, Finish(t, outcome))
    ensures Honest(Next(s, Finish(t, outcome)), crash)
  {
    var e := Finish(t, outcome);
    FinishStep(s, t, outcome);
    InvStep(s, e);
    assert Starting(s.threads[t]);
    assert forall u <- s.threads :: !s.threads[u].Returned?;
    assert forall u <- s.threads :: u != t ==> !Token(s.threads[u]);
    if outcome == Spawned {
      SilentStep(s, Next(s, e), crash);
    } else {
      assert Dead(Next(s, e));
    }
  }

  lemma PassiveKeeps(s: State, e: Event, crash: Option<nat>)
    requires Honest(s, crash) && Enabled(s, e) && Orderly(s, e)
    requires e.Tick? || e.ChildExit?
    ensures Honest(Next(s, e), crash)
  {
    if e.ChildExit? { WatcherStep(s, e); }
    InvStep(s, e);
    if Dead(s) {
      assert Dead(Next(s, e));
    } else {
      SilentStep(s, Next(s, e), crash);
    }
  }

  lemma HonestStep(s: State, e: Event, crash: Option<nat>)
    requires Honest(s, crash) && Enabled(s, e) && Orderly(s, e) && !ByUser(e)
    ensures Honest(Next(s, e), CrashAfter(s, e, crash))
  {
    match e
    case Monitor(t) => MonitorStep(s, t, crash);
    case Stability(i) => StabilityStep(s, i, crash);
    case Relock(t) => RelockStep(s, t, crash);
    case Finish(t, outcome) => FinishKeeps(s, t, outcome, crash);
    case Lock(t) => MoveKeeps(s, e, t, crash);
    case WakeUp(t) => MoveKeeps(s, e, t, crash);
    case Probe(t, _) => MoveKeeps(s, e, t, crash);
    case Tick(_) => PassiveKeeps(s, e, crash);
    case ChildExit(_, _) => PassiveKeeps(s, e, crash);
    case _ =>
  }

  lemma {:induction false} HonestRun(s: State, es: seq<Event>)
    requires Honest(s, None) && Runs(s, es) && UserFree(es) && OrderlyRun(s, es)
    ensures Honest(After(s, es), LastCrash(s, es))
    decreases |es|
  {
    if es != [] {
      var front, last := es[..|es| - 1], es[|es| - 1];
      assert forall k | 0 <= k < |front| :: front[..k] == es[..k] && front[k] == es[k];
      HonestRun(s, front);
      HonestStep(After(s, front), last, LastCrash(s, front));
    }
  }

  // ------------------------------------------------------------ main results

  lemma {:induction false} LastCrashCovers(s: State, es: seq<Event>, i: nat)
    requires Runs(s, es) && CrashAt(s, es, i)
    ensures LastCrash(s, es).Some? && After(s, es[..i]).now <= LastCrash(s, es).value <= After(s, es).now
    decreases |es|
  {
    var front := es[..|es| - 1];
    if i == |front| {
    } else {
      assert front[..i] == es[..i];
      LastCrashCovers(s, front, i);
    }
  }

  lemma HonestPrefix(s: State, es: seq<Event>, j: nat)
    requires Honest(s, None) && Runs(s, es) && UserFree(es) && OrderlyRun(s, es) && j < |es|
    ensures Runs(s, es[..j]) && Enabled(After(s, es[..j]), es[j]) && Orderly(After(s, es[..j]), es[j])
    ensures Honest(After(s, es[..j]), LastCrash(s, es[..j]))
  {
    RunPrefix(s, es, j);
    OrderlyPrefix(s, es, j);
    HonestRun(s, es[..j]);
  }

  lemma OrderlyPrefix(s: State, es: seq<Event>, j: nat)
    requires Runs(s, es) && OrderlyRun(s, es) && j <= |es| && Runs(s, es[..j])
    ensures OrderlyRun(s, es[..j])
  {
    forall k | 0 <= k < j ensures Runs(s, es[..j][..k]) && Orderly(After(s, es[..j][..k]), es[..j][k]) {
      assert es[..j][..k] == es[..k];
    }
  }

  lemma CrashPrefix(s: State, es: seq<Event>, i: nat, j: nat)
    requires i < j < |es| && Runs(s, es[..j]) && CrashAt(s, es, i)
    ensures LastCrash(s, es[..j]).Some? && After(s, es[..i]).now <= LastCrash(s, es[..j]).value
  {
    assert es[..j][..i] == es[..i];
    LastCrashCovers(s, es[..j], i);
  }

  /** Where a run may start: no goroutine asleep, no restart request left over, and one line of
      restarts at most, none of them answering an earlier crash. */
  ghost predicate Quiet(s: State) {
    && Inv(s) && Single(s) && !s.ctl.restart && s.timers == []
    && (forall t <- s.threads :: !Owes(s.threads[t]))
  }

  /** No false stability: when a goroutine resets the counter, every crash handled earlier in the run
      lies at least 182.5 s back. */
  lemma NoFalseStability(s: State, es: seq<Event>, i: nat, j: nat)
    requires Quiet(s) && Runs(s, es) && UserFree(es) && OrderlyRun(s, es)
    requires i < j && CrashAt(s, es, i) && ResetAt(s, es, j)
    ensures After(s, es[..i]).now + 182_500 <= After(s, es[..j]).now
  {
    HonestPrefix(s, es, j);
    CrashPrefix(s, es, i, j);
    StabilityStep(After(s, es[..j]), es[j].i, LastCrash(s, es[..j]));
  }

  // ------------------------------------- with user actions: when it is false

  /** What one step does to the counter. */
  lemma CounterStep(s: State, e: Event)
    requires Inv(s) && Enabled(s, e)
    ensures var n, n' := s.ctl.attempts, Next(s, e).ctl.attempts;
            if IsCrash(s, e) then n' == n + 1 || n' == 0 else n' == n || n' == 0
  {}

  ghost predicate ZeroIn(s: State, es: seq<Event>)
    requires Runs(s, es)
    decreases |es|
  {
    After(s, es).ctl.attempts == 0 || (es != [] && ZeroIn(s, es[..|es| - 1]))
  }

  /** The counter is 0 after the first k steps. */
  ghost predicate ZeroAt(s: State, es: seq<Event>, k: nat) {
    k <= |es| && Runs(s, es[..k]) && After(s, es[..k]).ctl.attempts == 0
  }

  lemma {:induction false} ZeroInIff(s: State, es: seq<Event>)
    requires Runs(s, es)
    ensures ZeroIn(s, es) <==> exists k :: ZeroAt(s, es, k)
    decreases |es|
  {
    assert es[..|es|] == es;
    if es == [] {
      assert ZeroIn(s, es) ==> ZeroAt(s, es, 0);
    } else {
      var front := es[..|es| - 1];
      ZeroInIff(s, front);
      assert forall k | 0 <= k <= |front| :: front[..k] == es[..k];
      assert forall k | 0 <= k <= |front| :: ZeroAt(s, front, k) <==> ZeroAt(s, es, k);
      assert ZeroAt(s, es, |es|) <==> After(s, es).ctl.attempts == 0;
    }
  }

  lemma {:induction false} CrashInIff(s: State, es: seq<Event>)
    requires Runs(s, es)
    ensures LastCrash(s, es).Some? <==> exists k :: CrashAt(s, es, k)
    decreases |es|
  {
    if es != [] {
      var front := es[..|es| - 1];
      CrashInIff(s, front);
      assert forall k | 0 <= k <= |front| :: front[..k] == es[..k];
      assert forall k | 0 <= k < |front| :: CrashAt(s, front, k) <==> CrashAt(s, es, k);
      assert CrashAt(s, es, |front|) <==> IsCrash(After(s, front), es[|front|]);
    }
  }

  lemma {:induction false} CounterRun(s: State, es: seq<Event>)
    requires Inv(s) && s.ctl.attempts > 0 && Runs(s, es)
    ensures Inv(After(s, es))
    ensures var n, n' := s.ctl.attempts, After(s, es).ctl.attempts;
            && (!ZeroIn(s, es) ==> if LastCrash(s, es).Some? then n' > n else n' == n)
            && (ZeroIn(s, es) && LastCrash(s, es).None? ==> n' == 0)
    decreases |es|
  {
    if es != [] {
      var front, last := es[..|es| - 1], es[|es| - 1];
      CounterRun(s, front);
      CounterStep(After(s, front), last);
      InvStep(After(s, front), last);
    }
  }

  /** False stability, exactly.  From where a goroutine remembers the present counter, over every run with
      any user actions and any scheduling: when a goroutine with that count resets the counter, a crash
      was handled meanwhile if and only if the counter was zero meanwhile. */
  lemma FalseStabilityIff(s: State, es: seq<Event>, i: nat)
    requires Inv(s) && s.ctl.attempts > 0 && Runs(s, es)
    requires Enabled(After(s, es), Stability(i)) && After(s, es).timers[i].count == s.ctl.attempts
    requires IsReset(After(s, es), Stability(i))
    ensures (exists k :: CrashAt(s, es, k)) <==> (exists k :: ZeroAt(s, es, k))
  {
    CounterRun(s, es);
    CrashInIff(s, es);
    ZeroInIff(s, es);
  }

  /** The run the claim is about in the first place: from the initial state, one user Start. */
  lemma StartedQuietly()
    ensures Runs(Initial, [UserStart]) && Quiet(After(Initial, [UserStart]))
  {
    assert [UserStart][..0] == [];
    assert Runs(Initial, []);
  }

  // --------------------------------------- with a user action it is false

  /** A run spelled out: each event with the state it happens in. */
  datatype Step = Step(s: State, e: Event)

  ghost predicate Link(s: State, e: Event, s': State) {
    Enabled(s, e) && Orderly(s, e) && Next(s, e) == s'
  }

  function Target(p: seq<Step>, k: nat, end: State): State {
    if k + 1 < |p| then p[k + 1].s else end
  }

  ghost predicate Path(p: seq<Step>, end: State) {
    forall k {:trigger Target(p, k, end)} | 0 <= k < |p| :: Link(p[k].s, p[k].e, Target(p, k, end))
  }

  function Events(p: seq<Step>): (es: seq<Event>)
    ensures |es| == |p|
    ensures forall k | 0 <= k < |p| :: es[k] == p[k].e
  {
    if p == [] then [] else Events(p[..|p| - 1]) + [p[|p| - 1].e]
  }

  lemma PathSplit(p: seq<Step>, end: State)
    requires p != [] && Path(p, end)
    ensures var n := |p| - 1; Path(p[..n], p[n].s) && Link(p[n].s, p[n].e, end)
  {
    var n := |p| - 1;
    assert Target(p, n, end) == end;
    forall k | 0 <= k < n ensures Link(p[..n][k].s, p[..n][k].e, Target(p[..n], k, p[n].s)) {
      assert Target(p[..n], k, p[n].s) == Target(p, k, end);
    }
  }

  ghost predicate Passes(p: seq<Step>, es: seq<Event>) {
    |es| == |p| && forall k | 0 <= k < |p| :: Runs(p[0].s, es[..k]) && After(p[0].s, es[..k]) == p[k].s
  }

  lemma {:induction false} PathPasses(p: seq<Step>, end: State)
    requires p != [] && Path(p, end)
    ensures Runs(p[0].s, Events(p)) && After(p[0].s, Events(p)) == end && Passes(p, Events(p))
    decreases |p|
  {
    var s0, n, es := p[0].s, |p| - 1, Events(p);
    var front := Events(p[..n]);
    assert es == front + [p[n].e];
    PathSplit(p, end);
    if n == 0 {
      assert front == [] && es[..0] == [];
    } else {
      assert p[..n][0] == p[0];
      PathPasses(p[..n], p[n].s);
    }
    RunExtend(s0, front, p[n].e);
    forall k | 0 <= k < |p| ensures Runs(s0, es[..k]) && After(s0, es[..k]) == p[k].s {
      if k == n {
        assert es[..k] == front;
      } else {
        assert es[..k] == front[..k] && p[..n][k] == p[k];
      }
    }
  }

  lemma PathRuns(p: seq<Step>, end: State)
    requires p != [] && Path(p, end)
    ensures Runs(p[0].s, Events(p)) && After(p[0].s, Events(p)) == end
    ensures Passes(p, Events(p)) && OrderlyRun(p[0].s, Events(p))
  {
    PathPasses(p, end);
    forall k | 0 <= k < |p| ensures Orderly(p[k].s, p[k].e) {
      assert Link(p[k].s, p[k].e, Target(p, k, end));
    }
  }

  lemma Join(p: seq<Step>, q: seq<Step>, end: State)
    requires q != [] && Path(p, q[0].s) && Path(q, end)
    ensures Path(p + q, end)
  {
    forall k | 0 <= k < |p + q| ensures Link((p + q)[k].s, (p + q)[k].e, Target(p + q, k, end)) {
      if k < |p| {
        assert Target(p + q, k, end) == Target(p, k, q[0].s);
      } else {
        assert Target(p + q, k, end) == Target(q, k - |p|, end);
        assert (p + q)[k] == q[k - |p|];
      }
    }
  }

  /** Child `p` is up and nothing else is going on. */
  function Up(now: nat, p: nat, attempts: nat, timers: seq<Timer>): State {
    State(now, None, Ctl(true, Started(p), false, false, attempts), {p}, map[p := Waiting], timers, p + 1)
  }

  /** Child `p` is gone and its Monitor is the only thread. */
  function Down(now: nat, p: nat, attempts: nat, timers: seq<Timer>, pc: Pc): State {
    State(now, if pc.Holding? then Some(p) else None,
          Ctl(false, Started(p), false, false, attempts), {}, map[p := pc], timers, p + 1)
  }

  function Handover(now: nat, p: nat, attempts: nat, timers: seq<Timer>, who: Caller): State {
    Up(now, p + 1, attempts, timers).(threads := map[p := Returned(who), p + 1 := Waiting])
  }

  /** The goroutine a returning continuation leaves behind. */
  function Sleeper(now: nat, attempts: nat, who: Caller): seq<Timer> {
    if who == CrashHandler then [Timer(now + STABILITY_THRESHOLD, attempts)] else []
  }

  /** The continuation of Monitor `p` brings up the next child. */
  function Respawn(now: nat, p: nat, attempts: nat, timers: seq<Timer>, who: Caller): seq<Step> {
    [Step(Down(now, p, attempts, timers, Sleeping(who, now)), WakeUp(p)),
     Step(Down(now, p, attempts, timers, Blocked(who)), Lock(p)),
     Step(Down(now, p, attempts, timers, Holding(who)), Finish(p, Spawned)),
     Step(Handover(now, p, attempts, timers, who), Relock(p))]
  }

  lemma HandoverLinks(now: nat, p: nat, attempts: nat, timers: seq<Timer>, who: Caller)
    requires who != User
    ensures Link(Down(now, p, attempts, timers, Holding(who)), Finish(p, Spawned),
                 Handover(now, p, attempts, timers, who))
    ensures Link(Handover(now, p, attempts, timers, who), Relock(p),
                 Up(now, p + 1, attempts, timers + Sleeper(now, attempts, who)))
  {
    assert Handover(now, p, attempts, timers, who).threads - {p} == map[p + 1 := Waiting];
    assert timers + [] == timers;
  }

  lemma RespawnPath(now: nat, p: nat, attempts: nat, timers: seq<Timer>, who: Caller)
    requires who != User
    ensures Path(Respawn(now, p, attempts, timers, who),
                 Up(now, p + 1, attempts, timers + Sleeper(now, attempts, who)))
  {
    HandoverLinks(now, p, attempts, timers, who);
    var path := Respawn(now, p, attempts, timers, who);
    assert Link(path[0].s, path[0].e, path[1].s);
    assert Link(path[1].s, path[1].e, path[2].s);
  }

  /** The Monitor of the crashed child takes the mutex. */
  function Crash(now: nat, p: nat, attempts: nat, timers: seq<Timer>): Step {
    Step(Up(now, p, attempts, timers).(live := {}, threads := map[p := Woken(false)]), Monitor(p))
  }

  function CrashSteps(now: nat, p: nat, attempts: nat, timers: seq<Timer>): seq<Step> {
    [Step(Up(now, p, attempts, timers), ChildExit(p, false)),
     Crash(now, p, attempts, timers),
     Step(Down(now, p, attempts + 1, timers, Sleeping(CrashHandler, now + RESTART_DELAY)), Tick(RESTART_DELAY))]
  }

  lemma CrashLinks(now: nat, p: nat, attempts: nat, timers: seq<Timer>)
    requires attempts < RESTART_ATTEMPTS
    ensures var later, crash := now + RESTART_DELAY, Crash(now, p, attempts, timers);
            var s := Down(now, p, attempts + 1, timers, Sleeping(CrashHandler, later));
            && Link(Up(now, p, attempts, timers), ChildExit(p, false), crash.s)
            && Link(crash.s, crash.e, s)
            && Link(s, Tick(RESTART_DELAY), Down(later, p, attempts + 1, timers, Sleeping(CrashHandler, later)))
            && IsCrash(crash.s, crash.e)
  {}

  ghost predicate NoUser(p: seq<Step>) {
    forall k | 0 <= k < |p| :: !ByUser(p[k].e)
  }

  lemma CrashNoUser(now: nat, p: nat, attempts: nat, timers: seq<Timer>)
    ensures NoUser(CrashSteps(now, p, attempts, timers)
                   + Respawn(now + RESTART_DELAY, p, attempts + 1, timers, CrashHandler))
  {}

  lemma NoUserJoin(p: seq<Step>, q: seq<Step>)
    requires NoUser(p) && NoUser(q)
    ensures NoUser(p + q)
  {}

  /** The child crashes and is restarted after the pause and the cleanup. */
  lemma CrashPath(now: nat, p: nat, attempts: nat, timers: seq<Timer>) returns (path: seq<Step>)
    requires attempts < RESTART_ATTEMPTS
    ensures var later := now + RESTART_DELAY;
            Path(path, Up(later, p + 1, attempts + 1, timers + Sleeper(later, attempts + 1, CrashHandler)))
    ensures |path| == 7 && path[0].s == Up(now, p, attempts, timers) && NoUser(path)
    ensures Enabled(path[1].s, path[1].e) && IsCrash(path[1].s, path[1].e) && path[1].s.now == now
  {
    var later := now + RESTART_DELAY;
    CrashLinks(now, p, attempts, timers);
    var first := CrashSteps(now, p, attempts, timers);
    RespawnPath(later, p, attempts + 1, timers, CrashHandler);
    var rest := Respawn(later, p, attempts + 1, timers, CrashHandler);
    assert Path(first, rest[0].s);
    Join(first, rest, Up(later, p + 1, attempts + 1, timers + Sleeper(later, attempts + 1, CrashHandler)));
    CrashNoUser(now, p, attempts, timers);
    path := first + rest;
  }

  lemma RestartLinks(now: nat, p: nat, attempts: nat, timers: seq<Timer>) returns (s1: State, s2: State)
    ensures Link(Up(now, p, attempts, timers), Kill, s1)
    ensures Link(s1, ChildExit(p, true), s2)
    ensures Link(s2, Monitor(p), Down(now, p, 0, timers, Sleeping(RestartButton, now + CLEANUP_DELAY)))
    ensures Link(Down(now, p, 0, timers, Sleeping(RestartButton, now + CLEANUP_DELAY)), Tick(CLEANUP_DELAY),
                 Down(now + CLEANUP_DELAY, p, 0, timers, Sleeping(RestartButton, now + CLEANUP_DELAY)))
  {
    s1 := Up(now, p, attempts, timers).(ctl := Ctl(true, Started(p), false, true, attempts));
    s2 := s1.(live := {}, threads := map[p := Woken(true)]);
  }

  /** The user asks for a restart. */
  lemma RestartPath(now: nat, p: nat, attempts: nat, timers: seq<Timer>) returns (path: seq<Step>)
    ensures path != [] && path[0].s == Up(now, p, attempts, timers) && Path(path, Up(now + CLEANUP_DELAY, p + 1, 0, timers))
  {
    var later := now + CLEANUP_DELAY;
    var s1, s2 := RestartLinks(now, p, attempts, timers);
    var first := [Step(Up(now, p, attempts, timers), Kill), Step(s1, ChildExit(p, true)), Step(s2, Monitor(p)),
                  Step(Down(now, p, 0, timers, Sleeping(RestartButton, later)), Tick(CLEANUP_DELAY))];
    RespawnPath(later, p, 0, timers, RestartButton);
    var rest := Respawn(later, p, 0, timers, RestartButton);
    assert Path(first, rest[0].s);
    assert timers + Sleeper(later, 0, RestartButton) == timers;
    Join(first, rest, Up(later, p + 1, 0, timers));
    path := first + rest;
  }

  lemma FirstStart() returns (path: seq<Step>)
    ensures path != [] && path[0].s == Initial && Path(path, Up(0, 1, 0, []))
  {
    var s1, s2, s3 := StartLinks();
    path := [Step(Initial, UserStart), Step(s1, Probe(0, false)), Step(s2, Lock(0)), Step(s3, Finish(0, Spawned))];
  }

  lemma StartLinks() returns (s1: State, s2: State, s3: State)
    ensures Link(Initial, UserStart, s1) && Link(s1, Probe(0, false), s2)
    ensures Link(s2, Lock(0), s3) && Link(s3, Finish(0, Spawned), Up(0, 1, 0, []))
  {
    s1 := Initial.(threads := map[0 := Probing], unused := 1);
    s2 := s1.(threads := map[0 := Blocked(User)]);
    s3 := s1.(threads := map[0 := Holding(User)], holder := Some(0));
    LastStartLink(s3);
  }

  lemma LastStartLink(s3: State)
    requires s3 == Initial.(threads := map[0 := Holding(User)], holder := Some(0), unused := 1)
    ensures Link(s3, Finish(0, Spawned), Up(0, 1, 0, []))
  {
    assert (s3.threads - {0})[1 := Waiting] == map[1 := Waiting];
  }

  lemma Idle(d: nat, now: nat, p: nat, attempts: nat, timers: seq<Timer>) returns (path: seq<Step>)
    ensures |path| == 1 && path[0].s == Up(now, p, attempts, timers) && path[0].e == Tick(d)
    ensures Path(path, Up(now + d, p, attempts, timers))
  {
    assert Link(Up(now, p, attempts, timers), Tick(d), Up(now + d, p, attempts, timers));
    path := [Step(Up(now, p, attempts, timers), Tick(d))];
  }

  /** With a Restart in between the claim fails, even in an orderly run: the counter is zeroed while an
      old goroutine sleeps, climbs back to the count it remembers, and is reset 80 s after a crash. */
  lemma FalseStabilityAfterRestart() returns (es: seq<Event>, i: nat, j: nat)
    ensures Runs(Initial, es) && OrderlyRun(Initial, es) && i < j
    ensures CrashAt(Initial, es, i) && ResetAt(Initial, es, j)
    ensures After(Initial, es[..i]).now + 80_000 == After(Initial, es[..j]).now
  {
    var sleeper := Timer(182_500, 1);
    var p := StaleSleeper(sleeper);
    i, j := |p| + 1, |p| + 8;
    var q, end := RecentCrash(sleeper);
    Join(p, q, end);
    PathRuns(p + q, end);
    es := Events(p + q);
    assert (p + q)[i] == q[1] && (p + q)[j] == q[8];
  }

  /** First part: a goroutine that remembers one crash sleeps on while a Restart zeroes the counter. */
  lemma StaleSleeper(sleeper: Timer) returns (p: seq<Step>)
    requires sleeper == Timer(182_500, 1)
    ensures p != [] && p[0].s == Initial && Path(p, Up(102_500, 3, 0, [sleeper]))
  {
    var start := FirstStart();
    var tail := CrashThenRestart(sleeper);
    Join(start, tail, Up(102_500, 3, 0, [sleeper]));
    p := start + tail;
  }

  lemma CrashThenRestart(sleeper: Timer) returns (p: seq<Step>)
    requires sleeper == Timer(182_500, 1)
    ensures p != [] && p[0].s == Up(0, 1, 0, []) && Path(p, Up(102_500, 3, 0, [sleeper]))
  {
    var crash := CrashPath(0, 1, 0, []);
    assert [] + Sleeper(2_500, 1, CrashHandler) == [sleeper];
    var restart := RestartPath(2_500, 2, 1, [sleeper]);
    Join(crash, restart, Up(3_000, 3, 0, [sleeper]));
    var idle := Idle(99_500, 3_000, 3, 0, [sleeper]);
    Join(crash + restart, idle, Up(102_500, 3, 0, [sleeper]));
    p := crash + restart + idle;
  }

  /** Second part: a new crash brings the counter back to one before the old goroutine wakes. */
  lemma RecentCrash(sleeper: Timer) returns (q: seq<Step>, end: State)
    requires sleeper == Timer(182_500, 1)
    ensures |q| == 9 && q[0].s == Up(102_500, 3, 0, [sleeper]) && Path(q, end)
    ensures Enabled(q[1].s, q[1].e) && IsCrash(q[1].s, q[1].e) && q[1].s.now == 102_500
    ensures Enabled(q[8].s, q[8].e) && IsReset(q[8].s, q[8].e) && q[8].s.now == 182_500
  {
    var timers := [sleeper, Timer(285_000, 1)];
    assert [sleeper] + Sleeper(105_000, 1, CrashHandler) == timers;
    var crash := CrashPath(102_500, 3, 0, [sleeper]);
    var rest;
    rest, end := FalseReset(timers);
    Join(crash, rest, end);
    q := crash + rest;
  }

  /** The claim is not empty and its bound is met: a run without user actions that crashes, restarts and
      resets the counter exactly 182.5 s after the crash. */
  lemma StabilityBoundIsMet() returns (s: State, es: seq<Event>, i: nat, j: nat)
    ensures Quiet(s) && Runs(s, es) && UserFree(es) && OrderlyRun(s, es)
    ensures i < j && CrashAt(s, es, i) && ResetAt(s, es, j)
    ensures After(s, es[..i]).now + 182_500 == After(s, es[..j]).now
  {
    s, i, j := Up(0, 1, 0, []), 1, 8;
    UpIsQuiet(s);
    var p, end := CrashAndReset();
    PathRuns(p, end);
    es := Events(p);
  }

  lemma UpIsQuiet(s: State)
    requires s == Up(0, 1, 0, [])
    ensures Quiet(s)
  {}

  lemma CrashAndReset() returns (p: seq<Step>, end: State)
    ensures |p| == 9 && p[0].s == Up(0, 1, 0, []) && Path(p, end) && NoUser(p)
    ensures Enabled(p[1].s, p[1].e) && IsCrash(p[1].s, p[1].e) && p[1].s.now == 0
    ensures Enabled(p[8].s, p[8].e) && IsReset(p[8].s, p[8].e) && p[8].s.now == 182_500
  {
    var crash := CrashPath(0, 1, 0, []);
    assert [] + Sleeper(2_500, 1, CrashHandler) == [Timer(182_500, 1)];
    var rest;
    rest, end := TrueReset([Timer(182_500, 1)]);
    Join(crash, rest, end);
    NoUserJoin(crash, rest);
    p := crash + rest;
  }

  lemma TrueReset(timers: seq<Timer>) returns (q: seq<Step>, end: State)
    requires timers == [Timer(182_500, 1)]
    ensures |q| == 2 && q[0].s == Up(2_500, 2, 1, timers) && Path(q, end) && NoUser(q)
    ensures Enabled(q[1].s, q[1].e) && IsReset(q[1].s, q[1].e) && q[1].s.now == 182_500
  {
    var idle := Idle(180_000, 2_500, 2, 1, timers);
    var s := Up(182_500, 2, 1, timers);
    end := Next(s, Stability(0));
    assert Link(s, Stability(0), end);
    Join(idle, [Step(s, Stability(0))], end);
    q := idle + [Step(s, Stability(0))];
  }

  lemma FalseReset(timers: seq<Timer>) returns (q: seq<Step>, end: State)
    requires timers == [Timer(182_500, 1), Timer(285_000, 1)]
    ensures |q| == 2 && q[0].s == Up(105_000, 4, 1, timers) && Path(q, end)
    ensures Enabled(q[1].s, q[1].e) && IsReset(q[1].s, q[1].e) && q[1].s.now == 182_500
  {
    var idle := Idle(77_500, 105_000, 4, 1, timers);
    var s := Up(182_500, 4, 1, timers);
    end := Next(s, Stability(0));
    assert Link(s, Stability(0), end);
    Join(idle, [Step(s, Stability(0))], end);
    q := idle + [Step(s, Stability(0))];
  }
}
