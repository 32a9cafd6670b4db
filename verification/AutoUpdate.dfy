/** The per-source fetch budget of core/auto_update.go: the cooldown on event-triggered fetches and the
    single 15 s retry. */
module AutoUpdate {
  import opened Basics
  import RefreshMeta

  // milliseconds
  const EVENT_COOLDOWN: int := 5_000

  // ---------------------------------------------------------------- cooldown

  predicate Allowed(last: map<string, int>, id: string, now: int) {
    id in last ==> now - last[id] >= EVENT_COOLDOWN
  }

  function Stamp(last: map<string, int>, id: string, now: int): map<string, int> {
    if Allowed(last, id, now) then last[id := now] else last
  }

  /** A call of eventCooldownAllow. */
  datatype Ask = Ask(id: string, now: int)

  function Table(asks: seq<Ask>): map<string, int> {
    if asks == [] then map[]
    else Stamp(Table(asks[..|asks| - 1]), asks[|asks| - 1].id, asks[|asks| - 1].now)
  }

  /** Timestamps of the fetches granted to one source. */
  function Granted(asks: seq<Ask>, id: string): seq<int> {
    if asks == [] then []
    else
      var front, ask := asks[..|asks| - 1], asks[|asks| - 1];
      Granted(front, id) + if ask.id == id && Allowed(Table(front), id, ask.now) then [ask.now] else []
  }

  lemma {:induction false} TableIsLastGrant(asks: seq<Ask>, id: string)
    ensures id in Table(asks) <==> Granted(asks, id) != []
    ensures id in Table(asks) ==> Table(asks)[id] == Granted(asks, id)[|Granted(asks, id)| - 1]
  {
    if asks != [] { TableIsLastGrant(asks[..|asks| - 1], id); }
  }

  /** A question is granted exactly when the source has no grant yet or its last one is 5 s old; it says
      nothing about other sources. */
  lemma GrantedIff(asks: seq<Ask>, id: string, now: int, other: string)
    ensures var before := Granted(asks, other);
            Granted(asks + [Ask(id, now)], other)
            == before + if other == id && (before == [] || now - before[|before| - 1] >= 5_000) then [now] else []
  {
    assert (asks + [Ask(id, now)])[..|asks|] == asks;
    TableIsLastGrant(asks, other);
  }

  ghost predicate Spaced(ts: seq<int>) {
    forall i, j | 0 <= i < j < |ts| :: ts[i] + EVENT_COOLDOWN * (j - i) <= ts[j]
  }

  /** Whatever the clock does, also when it runs backwards, grants to one source are 5 s apart. */
  lemma {:induction false} GrantsAreSpaced(asks: seq<Ask>, id: string)
    ensures Spaced(Granted(asks, id))
  {
    if asks != [] {
      GrantsAreSpaced(asks[..|asks| - 1], id);
      TableIsLastGrant(asks[..|asks| - 1], id);
    }
  }

  function CountIn(ts: seq<int>, from: int, to: int): nat {
    if ts == [] then 0
    else CountIn(ts[..|ts| - 1], from, to) + if from <= ts[|ts| - 1] <= to then 1 else 0
  }

  lemma {:induction false} SpacedCount(ts: seq<int>, from: int, to: int)
    requires Spaced(ts)
    ensures to < from ==> CountIn(ts, from, to) == 0
    ensures from <= to ==> CountIn(ts, from, to) <= (to - from) / EVENT_COOLDOWN + 1
    ensures ts != [] && ts[|ts| - 1] <= to ==> CountIn(ts, from, to) == CountIn(ts, from, ts[|ts| - 1])
    decreases |ts|
  {
    if ts != [] {
      var front, t := ts[..|ts| - 1], ts[|ts| - 1];
      SpacedCount(front, from, to);
      SpacedCount(front, from, t);
      SpacedCount(front, from, t - EVENT_COOLDOWN);
      if front != [] {
        assert ts[|ts| - 2] + EVENT_COOLDOWN * 1 <= t;
      }
    }
  }

  /** At most W/5 + 1 event-triggered fetches of a source in any window of W seconds. */
  lemma WindowBudget(asks: seq<Ask>, id: string, from: int, width: nat)
    ensures CountIn(Granted(asks, id), from, from + width) <= width / 5_000 + 1
  {
    GrantsAreSpaced(asks, id);
    SpacedCount(Granted(asks, id), from, from + width);
  }

  // ------------------------------------------------------------------ retries

  /** A time.AfterFunc timer for a source; `armed` until it fires or is stopped in time. */
  datatype State = State(
    timers: map<string, nat>,        // autoUpdateRetryTimers
    owner: seq<string>,              // source of every timer ever made
    armed: set<nat>,
    firing: set<nat>,                // callbacks under way
    refreshing: multiset<string>,    // refreshSourceWithRetry calls under way
    triggers: nat,
    fetches: nat)

  const Start := State(map[], [], {}, {}, multiset{}, 0, 0)

  datatype Event =
    | Trigger(id: string)                  // refreshSourceWithRetry: one fetch
    | Succeed(id: string)                  // it returns: cancelRetryTimer
    | Fail(id: string)                     // it returns: scheduleSourceRetry
    | Fire(t: nat)                         // the timer's callback starts: one fetch
    | Cleanup(t: nat)                      // the callback's last section
    | CancelAll                            // resumeAutoUpdate

  predicate Enabled(s: State, e: Event) {
    match e
    case Trigger(_) => true
    case Succeed(id) => id in s.refreshing
    case Fail(id) => id in s.refreshing
    case Fire(t) => t in s.armed
    case Cleanup(t) => t in s.firing && t < |s.owner|
    case CancelAll => true
  }

  /** timer.Stop on the registered timer: without effect once it has fired. */
  function StopRegistered(s: State, id: string): set<nat> {
    if id in s.timers then s.armed - {s.timers[id]} else s.armed
  }

  function Next(s: State, e: Event): State
    requires Enabled(s, e)
  {
    match e
    case Trigger(id) =>
      s.(refreshing := s.refreshing + multiset{id}, triggers := s.triggers + 1, fetches := s.fetches + 1)
    case Succeed(id) =>
      s.(refreshing := s.refreshing - multiset{id}, armed := StopRegistered(s, id), timers := s.timers - {id})
    case Fail(id) =>
      s.(refreshing := s.refreshing - multiset{id}, armed := StopRegistered(s, id) + {|s.owner|},
         timers := s.timers[id := |s.owner|], owner := s.owner + [id])
    case Fire(t) => s.(armed := s.armed - {t}, firing := s.firing + {t}, fetches := s.fetches + 1)
    case Cleanup(t) => s.(firing := s.firing - {t}, timers := s.timers - {s.owner[t]})
    case CancelAll => s.(armed := s.armed - s.timers.Values, timers := map[])
  }

  ghost predicate Runs(s: State, es: seq<Event>)
    decreases |es|, 0
  {
    es == [] || (Runs(s, es[..|es| - 1]) && Enabled(After(s, es[..|es| - 1]), es[|es| - 1]))
  }

  ghost function After(s: State, es: seq<Event>): State
    requires Runs(s, es)
    decreases |es|, 1
  {
    if es == [] then s else Next(After(s, es[..|es| - 1]), es[|es| - 1])
  }

  ghost predicate KnownTimers(s: State) {
    && (forall t <- s.armed :: t < |s.owner| && t !in s.firing)
    && (forall t <- s.firing :: t < |s.owner|)
    && (forall id <- s.timers :: s.timers[id] < |s.owner| && s.owner[s.timers[id]] == id)
  }

  ghost predicate Budget(s: State) {
    && |s.owner| + |s.refreshing| <= s.triggers
    && s.fetches + |s.armed| <= s.triggers + |s.owner|
  }

  ghost predicate Inv(s: State) { KnownTimers(s) && Budget(s) }

  lemma KnownStep(s: State, e: Event)
    requires KnownTimers(s) && Enabled(s, e)
    ensures KnownTimers(Next(s, e))
  {}

  lemma BudgetStep(s: State, e: Event)
    requires Budget(s) && Enabled(s, e)
    ensures Budget(Next(s, e))
  {
    match e {
      case Succeed(id) =>
        StopFewer(s, id);
        assert |s.refreshing - multiset{id}| == |s.refreshing| - 1;
      case Fail(id) =>
        StopFewer(s, id);
        OneMore(StopRegistered(s, id), |s.owner|);
        assert |s.refreshing - multiset{id}| == |s.refreshing| - 1;
      case Fire(t) => assert |s.armed - {t}| == |s.armed| - 1;
      case CancelAll => FewerArmed(s.armed, s.timers.Values);
      case _ =>
    }
  }

  lemma StopFewer(s: State, id: string)
    ensures |StopRegistered(s, id)| <= |s.armed|
  {
    if id in s.timers { FewerArmed(s.armed, {s.timers[id]}); }
  }

  lemma OneMore(a: set<nat>, x: nat)
    ensures |a + {x}| <= |a| + 1
  {
    if x in a { assert a + {x} == a; }
  }

  lemma FewerArmed(a: set<nat>, b: set<nat>)
    ensures |a - b| <= |a|
  {
    assert a == (a - b) + (a * b) && (a - b) !! (a * b);
  }

  /** Refreshes asked for by triggers, and those by retries. */
  function Triggers(es: seq<Event>): nat {
    if es == [] then 0 else Triggers(es[..|es| - 1]) + if es[|es| - 1].Trigger? then 1 else 0
  }

  function Retries(es: seq<Event>): nat {
    if es == [] then 0 else Retries(es[..|es| - 1]) + if es[|es| - 1].Fire? then 1 else 0
  }

  function Returns(es: seq<Event>): nat {
    if es == [] then 0
    else Returns(es[..|es| - 1]) + if es[|es| - 1].Succeed? || es[|es| - 1].Fail? then 1 else 0
  }

  lemma {:induction false} CountsAre(es: seq<Event>)
    requires Runs(Start, es)
    ensures var s := After(Start, es);
            && s.triggers == Triggers(es) && s.fetches == Triggers(es) + Retries(es)
            && |s.refreshing| + Returns(es) == Triggers(es)
    decreases |es|
  {
    if es != [] { CountsAre(es[..|es| - 1]); }
  }

  /** However triggers, failures, timers and cancellations interleave, triggers and retries together
      fetch at most twice per trigger: a retry never schedules another. */
  lemma {:induction false} FetchBudget(es: seq<Event>)
    requires Runs(Start, es)
    ensures Inv(After(Start, es)) && Retries(es) <= Triggers(es)
    decreases |es|
  {
    CountsAre(es);
    if es != [] {
      FetchBudget(es[..|es| - 1]);
      KnownStep(After(Start, es[..|es| - 1]), es[|es| - 1]);
      BudgetStep(After(Start, es[..|es| - 1]), es[|es| - 1]);
    }
  }

  // ----------------------------------------------- cancelling after success

  /** cancelRetryTimer finds every armed retry of every source. */
  ghost predicate Registered(s: State) {
    forall t <- s.armed :: t < |s.owner| && s.owner[t] in s.timers && s.timers[s.owner[t]] == t
  }

  /** A callback deletes the entry of its source while a newer retry of that source is armed. */
  ghost predicate Orphans(s: State, e: Event) {
    e.Cleanup? && e.t < |s.owner| && exists u :: u in s.armed && u < |s.owner| && s.owner[u] == s.owner[e.t]
  }

  /** That is the one thing that takes an armed retry out of reach. */
  lemma RegisteredIff(s: State, e: Event)
    requires Inv(s) && Registered(s) && Enabled(s, e)
    ensures Registered(Next(s, e)) <==> !Orphans(s, e)
  {
    match e {
      case CancelAll => assert forall t <- s.armed :: t in s.timers.Values;
      case Fail(id) => RegisteredFail(s, id);
      case Succeed(id) => RegisteredSucceed(s, id);
      case Cleanup(t) => RegisteredCleanup(s, t);
      case _ =>
    }
  }

  lemma RegisteredFail(s: State, id: string)
    requires Inv(s) && Registered(s) && Enabled(s, Fail(id))
    ensures Registered(Next(s, Fail(id)))
  {}

  lemma RegisteredSucceed(s: State, id: string)
    requires Inv(s) && Registered(s) && Enabled(s, Succeed(id))
    ensures Registered(Next(s, Succeed(id)))
  {}

  lemma RegisteredCleanup(s: State, t: nat)
    requires Inv(s) && Registered(s) && Enabled(s, Cleanup(t))
    ensures Registered(Next(s, Cleanup(t))) <==> !Orphans(s, Cleanup(t))
  {
    var s' := Next(s, Cleanup(t));
    forall u | u in s.armed && s.owner[u] == s.owner[t] ensures !Registered(s') {
      assert u in s'.armed && s.owner[u] !in s'.timers;
    }
  }

  /** A success of the source would leave none of its retries armed. */
  ghost predicate Cancels(s: State, id: string) {
    forall t <- StopRegistered(s, id) :: t < |s.owner| && s.owner[t] != id
  }

  lemma CancelsIff(s: State)
    requires Inv(s)
    ensures (forall id :: Cancels(s, id)) <==> Registered(s)
  {
    if !Registered(s) {
      var t :| t in s.armed && !(s.owner[t] in s.timers && s.timers[s.owner[t]] == t);
      assert t in StopRegistered(s, s.owner[t]);
      assert !Cancels(s, s.owner[t]);
    }
  }

  ghost predicate AlwaysCancels(es: seq<Event>)
    requires Runs(Start, es)
    decreases |es|
  {
    (forall id :: Cancels(After(Start, es), id)) && (es != [] ==> AlwaysCancels(es[..|es| - 1]))
  }

  ghost predicate NeverOrphans(es: seq<Event>)
    requires Runs(Start, es)
    decreases |es|
  {
    es == [] || (NeverOrphans(es[..|es| - 1]) && !Orphans(After(Start, es[..|es| - 1]), es[|es| - 1]))
  }

  /** Over every run: at each moment a success of any source cancels all its retries, if and only if no
      callback of the run cleaned up over a newer retry of its source. */
  lemma {:induction false} SuccessCancelsIff(es: seq<Event>)
    requires Runs(Start, es)
    ensures AlwaysCancels(es) <==> NeverOrphans(es)
    ensures NeverOrphans(es) ==> Registered(After(Start, es))
    decreases |es|
  {
    FetchBudget(es);
    CancelsIff(After(Start, es));
    if es != [] {
      var front := es[..|es| - 1];
      SuccessCancelsIff(front);
      FetchBudget(front);
      if NeverOrphans(front) {
        RegisteredIff(After(Start, front), es[|es| - 1]);
      }
    }
  }

  ghost predicate RetryEnds(s: State, t: nat, id: string)
    requires Enabled(s, Cleanup(t))
  {
    var s' := Next(s, Cleanup(t));
    id !in s'.timers && t !in s'.firing && s'.armed == s.armed && s'.fetches == s.fetches
  }

  lemma CleanupEnds(s: State, t: nat)
    requires Enabled(s, Cleanup(t))
    ensures RetryEnds(s, t, s.owner[t])
  {}

  /** A failure does schedule a retry, the only one of its source, and it can run and clean up. */
  lemma RetryHappens(s: State, id: string)
    requires Inv(s) && Registered(s) && Enabled(s, Fail(id))
    ensures var s1, t := Next(s, Fail(id)), |s.owner|;
            && Inv(s1) && Enabled(s1, Fire(t)) && s1.owner == s.owner + [id]
            && (forall u <- s1.armed :: s1.owner[u] == id ==> u == t)
            && var s2 := Next(s1, Fire(t));
               && Inv(s2) && t !in s2.armed && Enabled(s2, Cleanup(t)) && s2.fetches == s.fetches + 1
               && RetryEnds(s2, t, id)
  {
    KnownStep(s, Fail(id));
    BudgetStep(s, Fail(id));
    KnownStep(Next(s, Fail(id)), Fire(|s.owner|));
    BudgetStep(Next(s, Fail(id)), Fire(|s.owner|));
    CleanupEnds(Next(Next(s, Fail(id)), Fire(|s.owner|)), |s.owner|);
  }

  /** A manual update takes back every retry that can be reached. */
  lemma ResumeCancelsAll(s: State)
    requires Inv(s)
    ensures var s' := Next(s, CancelAll);
            && s'.timers == map[] && s'.firing == s.firing && (Registered(s) ==> s'.armed == {})
            && forall id :: Cancels(s, id) ==> forall t <- s'.armed :: s.owner[t] != id
  {
    if Registered(s) {
      assert forall t <- s.armed :: t in s.timers.Values;
    }
    forall id, t | Cancels(s, id) && t in Next(s, CancelAll).armed ensures s.owner[t] != id {
      if id in s.timers { assert s.timers[id] in s.timers.Values; }
      assert t in StopRegistered(s, id);
    }
  }

  /** Such a run: a callback's cleanup deletes the entry of a newer timer, and a later success no longer
      finds that timer, so the retry stays armed. */
  lemma OrphanedRetry() returns (es: seq<Event>)
    ensures Runs(Start, es) && Enabled(After(Start, es), Succeed("a"))
    ensures var s := Next(After(Start, es), Succeed("a")); 1 in s.armed && |s.owner| == 2 && s.owner[1] == "a"
  {
    es := Racing();
    RunExtend(es, Cleanup(0));
    es := es + [Cleanup(0)];
    RunExtend(es, Trigger("a"));
    es := es + [Trigger("a")];
  }

  lemma RunExtend(es: seq<Event>, e: Event)
    requires Runs(Start, es) && Enabled(After(Start, es), e)
    ensures Runs(Start, es + [e]) && After(Start, es + [e]) == Next(After(Start, es), e)
  {
    assert (es + [e])[..|es|] == es;
  }

  /** A trigger whose fetch fails. */
  lemma TriggerFails(es: seq<Event>, id: string)
    requires Runs(Start, es)
    ensures var s, es' := After(Start, es), es + [Trigger(id)] + [Fail(id)];
            && Runs(Start, es')
            && After(Start, es') == s.(armed := StopRegistered(s, id) + {|s.owner|},
                 timers := s.timers[id := |s.owner|], owner := s.owner + [id],
                 triggers := s.triggers + 1, fetches := s.fetches + 1)
  {
    var s := After(Start, es);
    RunExtend(es, Trigger(id));
    RunExtend(es + [Trigger(id)], Fail(id));
    assert s.refreshing + multiset{id} - multiset{id} == s.refreshing;
  }

  /** A second failure while the first retry's callback is under way. */
  lemma Racing() returns (es: seq<Event>)
    ensures Runs(Start, es)
    ensures var s := After(Start, es);
            s.timers == map["a" := 1] && s.owner == ["a", "a"] && 1 in s.armed && 0 in s.firing
  {
    es := [];
    TriggerFails(es, "a");
    es := es + [Trigger("a")] + [Fail("a")];
    assert After(Start, es).owner == ["a"] && 0 in After(Start, es).armed;
    RunExtend(es, Fire(0));
    es := es + [Fire(0)];
    TriggerFails(es, "a");
    es := es + [Trigger("a")] + [Fail("a")];
  }

  // ------------------------------------------------ what schedules a retry

  /** refreshSourceWithRetry looks at the error of RefreshSingleSubscription only. */
  function Outcome(file: seq<RefreshMeta.Source>, id: string, readable: bool, saved: bool): Event {
    if RefreshMeta.Reports(file, id, readable, saved) then Succeed(id) else Fail(id)
  }

  /** A retry is scheduled exactly when state.json cannot be loaded or written back, or the source is gone
      or no subscription.  A fetch that fails is recorded in its meta, and cancels the pending retry like
      a success. */
  lemma FailedFetchIsNotRetried(s: State, file: seq<RefreshMeta.Source>, id: string, readable: bool, saved: bool)
    requires Inv(s) && id in s.refreshing && id != ""
    ensures var s' := Next(s, Outcome(file, id, readable, saved));
            var i := RefreshMeta.Find(file, id);
            && (|s.owner| in s'.armed
                <==> !readable || i.None? || !file[i.value].subscription || (file[i.value].url != "" && !saved))
            && (|s.owner| !in s'.armed ==> id !in s'.timers && s'.owner == s.owner)
    ensures readable && saved && RefreshMeta.Hits(file, id) ==>
              var i := RefreshMeta.Find(file, id).value;
              var meta := RefreshMeta.RefreshFile(file, id, None)[i].meta;
              Outcome(file, id, readable, saved) == Succeed(id) && meta.Some? && !meta.value.ok
  {}

  // ---------------------------------------------------------------- the code

  datatype Source = Source(id: string, subscription: bool, enabled: bool, url: string, failed: bool)

  predicate Eligible(src: Source) {
    src.subscription && src.enabled && src.url != "" && src.failed
  }

  function Question(src: Source, now: int): seq<Ask> {
    if Eligible(src) then [Ask(src.id, now)] else []
  }

  /** The questions one VPN event puts to the cooldown. */
  function Questions(sources: seq<Source>, now: int): seq<Ask> {
    if sources == [] then []
    else Questions(sources[..|sources| - 1], now) + Question(sources[|sources| - 1], now)
  }

  /** The loop asks for each enabled subscription with a url whose last refresh failed, in the order of the
      sources, and for no other. */
  lemma QuestionsAre(a: seq<Source>, b: seq<Source>, src: Source, now: int)
    ensures Questions([], now) == []
    ensures Questions([src], now)
            == if src.subscription && src.enabled && |src.url| > 0 && src.failed then [Ask(src.id, now)] else []
    ensures Questions(a + b, now) == Questions(a, now) + Questions(b, now)
  {
    assert [src][..0] == [];
    QuestionsConcat(a, b, now);
  }

  lemma {:induction false} QuestionsConcat(a: seq<Source>, b: seq<Source>, now: int)
    ensures Questions(a + b, now) == Questions(a, now) + Questions(b, now)
    decreases |b|
  {
    if b == [] {
      assert a + b == a;
    } else {
      var n := |b| - 1;
      QuestionsConcat(a, b[..n], now);
      assert (a + b)[..|a + b| - 1] == a + b[..n] && (a + b)[|a + b| - 1] == b[n];
    }
  }

  lemma QuestionsStep(asked: seq<Ask>, sources: seq<Source>, i: nat, now: int)
    requires i < |sources|
    ensures asked + Questions(sources[..i], now) + Question(sources[i], now)
            == asked + Questions(sources[..i + 1], now)
  {
    assert sources[..i + 1][..i] == sources[..i];
  }

  /** The fetches granted in between: one to each of these ids, none to any other. */
  ghost predicate GrantedTo(before: seq<Ask>, after: seq<Ask>, ids: seq<string>, now: int) {
    forall id :: Granted(after, id) == Granted(before, id) + if id in ids then [now] else []
  }

  lemma GrantedStep(a: seq<Ask>, b: seq<Ask>, c: seq<Ask>, ids: seq<string>, more: seq<string>, now: int)
    requires GrantedTo(a, b, ids, now) && GrantedTo(b, c, more, now)
    requires forall id <- more :: id !in ids
    ensures GrantedTo(a, c, ids + more, now)
  {
    forall id ensures Granted(c, id) == Granted(a, id) + if id in ids + more then [now] else [] {
      assert Granted(b, id) == Granted(a, id) + if id in ids then [now] else [];
      assert Granted(c, id) == Granted(b, id) + if id in more then [now] else [];
    }
  }

  /** No id twice, and all of them stamped with the time of this event. */
  ghost predicate StartedNow(last: map<string, int>, started: seq<string>, now: int) {
    && (forall i, j | 0 <= i < j < |started| :: started[i] != started[j])
    && (forall id <- started :: id in last && last[id] == now)
  }

  lemma NoneGranted(a: seq<Ask>, b: seq<Ask>, c: seq<Ask>, ids: seq<string>, now: int)
    requires GrantedTo(a, b, ids, now) && GrantedTo(b, c, [], now)
    ensures GrantedTo(a, c, ids, now)
  {
    GrantedStep(a, b, c, ids, [], now);
    assert ids + [] == ids;
  }

  lemma StartedStep(last: map<string, int>, started: seq<string>, id: string, now: int)
    requires StartedNow(last, started, now)
    ensures if Allowed(last, id, now) then id !in started && StartedNow(Stamp(last, id, now), started + [id], now)
            else Stamp(last, id, now) == last
  {}

  class AutoUpdater {
    var lastFetch: map<string, int>
    ghost var asked: seq<Ask>

    ghost predicate Valid()
      reads this
    {
      lastFetch == Table(asked)
    }

    constructor ()
      ensures Valid() && asked == []
    {
      lastFetch, asked := map[], [];
    }

    method EventCooldownAllow(id: string, now: int) returns (ok: bool)
      requires Valid()
      modifies this
      ensures Valid() && asked == old(asked) + [Ask(id, now)] && lastFetch == Stamp(old(lastFetch), id, now)
      ensures GrantedTo(old(asked), asked, if ok then [id] else [], now)
      ensures ok == Allowed(old(lastFetch), id, now)
    {
      asked := asked + [Ask(id, now)];
      assert asked[..|asked| - 1] == old(asked);
      if id in lastFetch && now - lastFetch[id] < EVENT_COOLDOWN { return false; }
      lastFetch := lastFetch[id := now];
      ok := true;
    }

    /** One source of the loop below. */
    method Consider(src: Source, now: int) returns (ok: bool)
      requires Valid()
      modifies this
      ensures Valid() && asked == old(asked) + Question(src, now)
      ensures lastFetch == if Eligible(src) then Stamp(old(lastFetch), src.id, now) else old(lastFetch)
      ensures ok == (Eligible(src) && Allowed(old(lastFetch), src.id, now))
      ensures GrantedTo(old(asked), asked, if ok then [src.id] else [], now)
    {
      if !src.subscription || !src.enabled || src.url == "" { return false; }
      if !src.failed { return false; }
      ok := EventCooldownAllow(src.id, now);
    }

    /** Ids handed to refreshSourceWithRetry by one VPN event: exactly those granted a fetch, each once. */
    method TriggerRetryForFailedSources(sources: seq<Source>, now: int) returns (started: seq<string>)
      requires Valid()
      modifies this
      ensures Valid() && asked == old(asked) + Questions(sources, now)
      ensures forall i, j | 0 <= i < j < |started| :: started[i] != started[j]
      ensures GrantedTo(old(asked), asked, started, now)
    {
      started := [];
      assert asked == asked + Questions([], now);
      for i := 0 to |sources|
        invariant Valid() && asked == old(asked) + Questions(sources[..i], now)
        invariant StartedNow(lastFetch, started, now)
        invariant GrantedTo(old(asked), asked, started, now)
      {
        QuestionsStep(old(asked), sources, i, now);
        ghost var before := asked;
        StartedStep(lastFetch, started, sources[i].id, now);
        var ok := Consider(sources[i], now);
        if !ok {
          NoneGranted(old(asked), before, asked, started, now);
          continue;
        }
        GrantedStep(old(asked), before, asked, started, [sources[i].id], now);
        started := started + [sources[i].id];
      }
      assert sources[..|sources|] == sources;
    }
  }
}
