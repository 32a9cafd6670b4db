/** The process supervisor: `ProcessService` of core/process_service.go on the direct-exec path,
    as a labelled transition system over its critical sections.

    Every section that holds `CmdMutex` without blocking is one step.  The section inside `Start`
    holds the mutex across a config rebuild that may wait for the network, so it is two steps
    (`Lock`, `Finish`) with the mutex held in between.  Reads outside the mutex are steps of their own. */
module Supervisor {
  import opened Basics

  const RESTART_ATTEMPTS: nat := 3
  // milliseconds
  const STABILITY_THRESHOLD: nat := 180_000
  const CLEANUP_DELAY: nat := 500      // runGhostTunCleanup before every Start(true)
  const RESTART_DELAY: nat := 2_000 + CLEANUP_DELAY

  // ---------------------------------------------------------------- decision

  datatype Action = StoppedByUser | UserRestart | CrashRestart | MaxAttempts | CleanExit

  function DecideCrashAction(stopped: bool, restart: bool, cleanExit: bool, attempts: nat, max: nat): (r: (Action, nat))
  {
    if stopped then (StoppedByUser, 0)
    else if restart then (UserRestart, 0)
    else if cleanExit then (CleanExit, 0)
    else if attempts + 1 > max then (MaxAttempts, 0)
    else (CrashRestart, attempts + 1)
  }

  // ------------------------------------------------- fields behind CmdMutex

  /** `SingboxCmd`: nil, a command whose process never started, or a started child. */
  datatype Cmd = NoCmd | NotStarted | Started(pid: nat)

  datatype Ctl = Ctl(running: bool, cmd: Cmd, stopped: bool, restart: bool, attempts: nat)

  datatype Outcome = Refused | SpawnFailed | Spawned

  /** `Start` past the re-check: refused before the command is built, exec failed, or child up. */
  function FinishCtl(c: Ctl, outcome: Outcome, pid: nat): Ctl {
    match outcome
    case Refused => c
    case SpawnFailed => c.(cmd := NotStarted)
    case Spawned => c.(cmd := Started(pid), running := true, stopped := false)
  }

  function StopCtl(c: Ctl): Ctl {
    if !c.running then c.(stopped := false, attempts := 0)
    else if !c.cmd.Started? then c.(stopped := false, attempts := 0, running := false)
    else c.(stopped := true, attempts := 0)
  }

  function KillCtl(c: Ctl): Ctl {
    if c.running then c.(restart := true) else c
  }

  datatype Verdict = Obsolete | Acted(action: Action)

  function Judge(c: Ctl, pid: nat, clean: bool): Verdict {
    if c.cmd != Started(pid) then Obsolete
    else Acted(DecideCrashAction(c.stopped, c.restart, clean, c.attempts, RESTART_ATTEMPTS).0)
  }

  function ExitCtl(c: Ctl, pid: nat, clean: bool): Ctl {
    match Judge(c, pid, clean)
    case Obsolete => c
    case Acted(StoppedByUser) => c.(running := false, attempts := 0, stopped := false)
    case Acted(UserRestart) => c.(running := false, attempts := 0, restart := false)
    case Acted(CrashRestart) => c.(running := false, attempts := c.attempts + 1)
    case Acted(_) => c.(running := false, attempts := 0)
  }

  /** The stability goroutine's test and its effect. */
  predicate Resets(c: Ctl, count: nat) {
    c.running && c.attempts == count
  }

  function StabilityCtl(c: Ctl, count: nat): Ctl {
    if Resets(c, count) then c.(attempts := 0) else c
  }

  // ------------------------------------------------------------------ states

  /** Who called `Start`. */
  datatype Caller = User | RestartButton | CrashHandler

  /** A thread is a `Monitor` (named by the pid it watches) or a user's call of `Start`. */
  datatype Pc =
    | Waiting                            // Monitor inside cmd.Wait
    | Woken(clean: bool)                 // Wait returned, mutex not taken yet
    | Sleeping(caller: Caller, until: nat)   // mutex released, before Start(true)
    | Probing                            // user's Start looks for a foreign process
    | Blocked(caller: Caller)                // past the unlocked checks of Start
    | Holding(caller: Caller)                // inside Start's critical section
    | Returned(caller: Caller)               // Start(true) returned, Monitor will lock again

  datatype Timer = Timer(deadline: nat, count: nat)

  datatype State = State(
    now: nat,
    holder: Option<nat>,
    ctl: Ctl,
    live: set<nat>,
    threads: map<nat, Pc>,
    timers: seq<Timer>,
    unused: nat)

  const Initial: State :=
    State(0, None, Ctl(false, NoCmd, false, false, 0), {}, map[], [], 0)

  datatype Event =
    | Tick(d: nat)
    | ChildExit(pid: nat, clean: bool)
    | UserStart
    | Stop
    | Kill
    | Probe(t: nat, found: bool)
    | WakeUp(t: nat)
    | Lock(t: nat)
    | Finish(t: nat, outcome: Outcome)
    | Monitor(t: nat)
    | Relock(t: nat)
    | Stability(i: nat)

  predicate At(s: State, t: nat, pc: Pc) {
    t in s.threads && s.threads[t] == pc
  }

  predicate Enabled(s: State, e: Event) {
    match e
    case Tick(_) => true
    case ChildExit(pid, _) => pid in s.live && At(s, pid, Waiting)
    case UserStart => true
    case Stop => s.holder.None?
    case Kill => s.holder.None?
    case Probe(t, _) => At(s, t, Probing)
    case WakeUp(t) => t in s.threads && s.threads[t].Sleeping? && s.threads[t].until <= s.now
    case Lock(t) => s.holder.None? && t in s.threads && s.threads[t].Blocked?
    case Finish(t, _) => s.holder == Some(t) && t in s.threads && s.threads[t].Holding?
    case Monitor(t) => s.holder.None? && t in s.threads && s.threads[t].Woken?
    case Relock(t) => s.holder.None? && t in s.threads && s.threads[t].Returned?
    case Stability(i) => s.holder.None? && i < |s.timers| && s.timers[i].deadline <= s.now
  }

  /** `Start` returns to its caller: a user's call ends, a Monitor goes on to lock again. */
  function Return(threads: map<nat, Pc>, t: nat, caller: Caller): map<nat, Pc> {
    if caller == User then threads - {t} else threads[t := Returned(caller)]
  }

  /** What becomes of a Monitor after its critical section. */
  function AfterVerdict(threads: map<nat, Pc>, t: nat, v: Verdict, now: nat): map<nat, Pc> {
    match v
    case Acted(UserRestart) => threads[t := Sleeping(RestartButton, now + CLEANUP_DELAY)]
    case Acted(CrashRestart) => threads[t := Sleeping(CrashHandler, now + RESTART_DELAY)]
    case _ => threads - {t}
  }

  function Next(s: State, e: Event): State
    requires Enabled(s, e)
  {
    match e
    case Tick(d) => s.(now := s.now + d)
    case ChildExit(pid, clean) =>
      s.(live := s.live - {pid}, threads := s.threads[pid := Woken(clean)])
    case UserStart =>
      if s.ctl.running then s
      else s.(threads := s.threads[s.unused := Probing], unused := s.unused + 1)
    case Stop => s.(ctl := StopCtl(s.ctl))
    case Kill => s.(ctl := KillCtl(s.ctl))
    case Probe(t, found) =>
      s.(threads := if found then s.threads - {t} else s.threads[t := Blocked(User)])
    case WakeUp(t) =>
      var caller := s.threads[t].caller;
      s.(threads := if s.ctl.running then Return(s.threads, t, caller) else s.threads[t := Blocked(caller)])
    case Lock(t) =>
      var caller := s.threads[t].caller;
      if s.ctl.running then s.(threads := Return(s.threads, t, caller))
      else s.(holder := Some(t), threads := s.threads[t := Holding(caller)])
    case Finish(t, outcome) =>
      var rest := Return(s.threads, t, s.threads[t].caller);
      var s' := s.(holder := None, ctl := FinishCtl(s.ctl, outcome, s.unused));
      if outcome == Spawned then
        s'.(live := s.live + {s.unused}, threads := rest[s.unused := Waiting], unused := s.unused + 1)
      else
        s'.(threads := rest)
    case Monitor(t) =>
      var clean := s.threads[t].clean;
      s.(ctl := ExitCtl(s.ctl, t, clean),
         threads := AfterVerdict(s.threads, t, Judge(s.ctl, t, clean), s.now))
    case Relock(t) =>
      var timers := if s.threads[t].caller == CrashHandler && s.ctl.running
                    then s.timers + [Timer(s.now + STABILITY_THRESHOLD, s.ctl.attempts)]
                    else s.timers;
      s.(threads := s.threads - {t}, timers := timers)
    case Stability(i) =>
      s.(ctl := StabilityCtl(s.ctl, s.timers[i].count), timers := s.timers[..i] + s.timers[i + 1..])
  }

  // -------------------------------------------------------------------- runs

  ghost predicate Runs(s: State, es: seq<Event>)
    decreases |es|, 0
  {
    es == [] || (Runs(s, es[..|es| - 1]) && Enabled(After(s, es[..|es| - 1]), es[|es| - 1]))
  }

  ghost function After(s: State, es: seq<Event>): State
    requires Runs(s, es)
    decreases |es|, 1
  {
    if es == [] then s else Next(After(s, es[..|es| - 1]), es[|es| - 1])
  }

  lemma RunExtend(s: State, es: seq<Event>, e: Event)
    requires Runs(s, es) && Enabled(After(s, es), e)
    ensures Runs(s, es + [e]) && After(s, es + [e]) == Next(After(s, es), e)
  {
    assert (es + [e])[..|es + [e]| - 1] == es;
  }

  lemma {:induction false} RunPrefix(s: State, es: seq<Event>, k: nat)
    requires Runs(s, es) && k <= |es|
    ensures Runs(s, es[..k])
    ensures k < |es| ==> Enabled(After(s, es[..k]), es[k]) && Runs(s, es[..k + 1])
                         && After(s, es[..k + 1]) == Next(After(s, es[..k]), es[k])
    decreases |es|
  {
    if k == |es| {
      assert es[..k] == es;
    } else {
      var front := es[..|es| - 1];
      if k == |front| {
        assert es[..k + 1] == es;
      } else {
        RunPrefix(s, front, k);
        assert front[..k] == es[..k] && front[..k + 1] == es[..k + 1];
      }
    }
  }

  lemma {:induction false} RunConcat(s: State, es: seq<Event>, fs: seq<Event>)
    requires Runs(s, es) && Runs(After(s, es), fs)
    ensures Runs(s, es + fs) && After(s, es + fs) == After(After(s, es), fs)
    decreases |fs|
  {
    if fs == [] {
      assert es + fs == es;
    } else {
      var front := fs[..|fs| - 1];
      RunConcat(s, es, front);
      RunExtend(s, es + front, fs[|fs| - 1]);
      assert es + front + [fs[|fs| - 1]] == es + fs;
    }
  }

  /** A run may begin with an event. */
  lemma RunCons(s: State, e: Event, es: seq<Event>)
    requires Enabled(s, e) && Runs(Next(s, e), es)
    ensures Runs(s, [e] + es) && After(s, [e] + es) == After(Next(s, e), es)
  {
    OneEvent(s, e);
    RunConcat(s, [e], es);
  }

  lemma OneEvent(s: State, e: Event)
    requires Enabled(s, e)
    ensures Runs(s, [e]) && After(s, [e]) == Next(s, e)
  {
    assert [e][..0] == [] && Runs(s, []) && After(s, []) == s;
  }

  // --------------------------------------------------------------- invariant

  predicate Watches(pc: Pc) { pc.Waiting? || pc.Woken? }

  /** Threads on their way to spawning a child. */
  predicate Starting(pc: Pc) { pc.Sleeping? || pc.Probing? || pc.Blocked? || pc.Holding? }

  /** The mutex: its holder is the one thread inside Start's critical section, and no child runs. */
  ghost predicate LockInv(s: State) {
    && (s.holder.Some? ==> s.holder.value in s.threads && s.threads[s.holder.value].Holding? && !s.ctl.running)
    && (forall t <- s.threads :: s.threads[t].Holding? ==> s.holder == Some(t))
  }

  /** `running` holds exactly while one Monitor is unfinished, and SingboxCmd names its child. */
  ghost predicate WatchInv(s: State) {
    && (forall t <- s.threads :: Watches(s.threads[t]) ==> s.ctl.running && s.ctl.cmd == Started(t))
    && (s.ctl.running ==> s.ctl.cmd.Started? && s.ctl.cmd.pid in s.threads && Watches(s.threads[s.ctl.cmd.pid]))
    && (forall t :: t in s.live <==> t in s.threads && s.threads[t].Waiting?)
  }

  ghost predicate ThreadInv(s: State) {
    forall t <- s.threads ::
      t < s.unused && (s.threads[t].Sleeping? || s.threads[t].Returned? ==> s.threads[t].caller != User)
  }

  ghost predicate TimerInv(s: State) {
    && s.ctl.attempts <= RESTART_ATTEMPTS
    && (forall i | 0 <= i < |s.timers| :: s.timers[i].deadline <= s.now + STABILITY_THRESHOLD)
    && (forall i, j | 0 <= i < j < |s.timers| :: s.timers[i].deadline <= s.timers[j].deadline)
  }

  ghost predicate Inv(s: State) {
    LockInv(s) && WatchInv(s) && ThreadInv(s) && TimerInv(s)
  }

  lemma LockInvStep(s: State, e: Event)
    requires Inv(s) && Enabled(s, e)
    ensures LockInv(Next(s, e))
  {}

  lemma WatchInvStep(s: State, e: Event)
    requires Inv(s) && Enabled(s, e)
    ensures WatchInv(Next(s, e))
  {}

  lemma ThreadInvStep(s: State, e: Event)
    requires Inv(s) && Enabled(s, e)
    ensures ThreadInv(Next(s, e))
  {}

  lemma TimerInvStep(s: State, e: Event)
    requires Inv(s) && Enabled(s, e)
    ensures TimerInv(Next(s, e))
  {
    match e
    case Stability(i) =>
      var ts := Next(s, e).timers;
      forall a, b | 0 <= a < b < |ts| ensures ts[a].deadline <= ts[b].deadline {
        assert ts[a] == s.timers[if a < i then a else a + 1];
        assert ts[b] == s.timers[if b < i then b else b + 1];
      }
    case _ =>
  }

  lemma InvStep(s: State, e: Event)
    requires Inv(s) && Enabled(s, e)
    ensures Inv(Next(s, e))
  {
    LockInvStep(s, e);
    WatchInvStep(s, e);
    ThreadInvStep(s, e);
    TimerInvStep(s, e);
  }

  lemma {:induction false} InvRun(s: State, es: seq<Event>)
    requires Inv(s) && Runs(s, es)
    ensures Inv(After(s, es))
    decreases |es|
  {
    if es != [] {
      InvRun(s, es[..|es| - 1]);
      InvStep(After(s, es[..|es| - 1]), es[|es| - 1]);
    }
  }

  lemma InvPrefix(s: State, es: seq<Event>, k: nat)
    requires Inv(s) && Runs(s, es) && k <= |es|
    ensures Runs(s, es[..k]) && Inv(After(s, es[..k]))
  {
    RunPrefix(s, es, k);
    InvRun(s, es[..k]);
  }
}
