/** Per-source refresh of core/config_service_subscriptions.go: lock, load state.json, fetch, write the
    body, save.  Any interleaving of such calls equals running them one after another. */
module RefreshMeta {
  import opened Basics
  import RebuildSpec

  datatype Meta = Meta(ok: bool, errorCount: nat)

  datatype Source = Source(id: string, subscription: bool, enabled: bool, url: string, meta: Option<Meta>)

  /** state.json and bin/subscriptions. */
  datatype Store = Store(file: seq<Source>, raws: map<string, string>)

  /** A fetch answers with a body or fails. */
  type Answer = Option<string>

  function Find(file: seq<Source>, id: string): (r: Option<nat>)
    ensures r.Some? ==> r.value < |file| && file[r.value].id == id
                        && forall i | 0 <= i < r.value :: file[i].id != id
    ensures r.None? ==> forall i | 0 <= i < |file| :: file[i].id != id
  {
    if file == [] then None
    else
      var rest := Find(file[..|file| - 1], id);
      if rest.Some? then rest
      else if file[|file| - 1].id == id then Some(|file| - 1) else None
  }

  predicate Refreshable(src: Source) {
    src.subscription && src.url != ""
  }

  function NewMeta(old': Option<Meta>, answer: Answer): Meta {
    if answer.Some? then Meta(true, 0)
    else Meta(false, if old'.Some? then old'.value.errorCount + 1 else 1)
  }

  function WriteRaw(raws: map<string, string>, id: string, answer: Answer): map<string, string> {
    if answer.Some? then RebuildSpec.WriteRaw(raws, id, answer.value) else raws
  }

  predicate Hits(file: seq<Source>, id: string) {
    Find(file, id).Some? && Refreshable(file[Find(file, id).value])
  }

  /** The call returns no error: the fetch itself does not matter. */
  predicate Reports(file: seq<Source>, id: string, readable: bool, saved: bool) {
    && id != "" && readable && Find(file, id).Some?
    && var src := file[Find(file, id).value]; src.subscription && (src.url == "" || saved)
  }

  function RefreshFile(file: seq<Source>, id: string, answer: Answer): seq<Source>
    requires Hits(file, id)
  {
    var i := Find(file, id).value;
    file[i := file[i].(meta := Some(NewMeta(file[i].meta, answer)))]
  }

  /** `saved`: whether state.json could be written back. */
  datatype Op = Op(id: string, answer: Answer, saved: bool)

  /** One call on its own. */
  function Apply(s: Store, op: Op): Store {
    if Hits(s.file, op.id)
    then Store(if op.saved then RefreshFile(s.file, op.id, op.answer) else s.file,
               WriteRaw(s.raws, op.id, op.answer))
    else s
  }

  /** A call that had the lock: what it fetched, or None when it gave up before fetching. */
  datatype Turn = Turn(t: nat, op: Option<Op>)

  function Fold(s: Store, turns: seq<Turn>): Store {
    if turns == [] then s
    else
      var before, last := Fold(s, turns[..|turns| - 1]), turns[|turns| - 1];
      if last.op.Some? then Apply(before, last.op.value) else before
  }

  // -------------------------------------------------------- the interleaving

  datatype Pc =
    | Calling(id: string)                                           // waits for SubscriptionMu
    | Locked(id: string)
    | Loaded(id: string, copy: seq<Source>)
    | Fetched(id: string, copy: seq<Source>, answer: Answer)        // body written, meta set in the copy

  datatype State = State(
    store: Store,
    holder: Option<nat>,
    calls: map<nat, Pc>,
    order: seq<nat>,            // calls in the order they took the lock
    turns: seq<Turn>,           // the turns that are over
    unused: nat)

  datatype Event = Call(id: string) | Acquire(t: nat) | Load(t: nat, readable: bool) | Fetch(t: nat, answer: Answer)
                 | Save(t: nat, written: bool)

  predicate Enabled(s: State, e: Event) {
    match e
    case Call(id) => id != ""
    case Acquire(t) => s.holder.None? && t in s.calls && s.calls[t].Calling?
    case Load(t, _) => t in s.calls && s.calls[t].Locked?
    case Fetch(t, _) => t in s.calls && s.calls[t].Loaded?
    case Save(t, _) => t in s.calls && s.calls[t].Fetched?
  }

  function Release(s: State, t: nat, op: Option<Op>): State {
    s.(holder := None, calls := s.calls - {t}, turns := s.turns + [Turn(t, op)])
  }

  function Next(s: State, e: Event): State
    requires Enabled(s, e)
  {
    match e
    case Call(id) => s.(calls := s.calls[s.unused := Calling(id)], unused := s.unused + 1)
    case Acquire(t) =>
      s.(holder := Some(t), calls := s.calls[t := Locked(s.calls[t].id)], order := s.order + [t])
    case Load(t, readable) =>
      if readable && Hits(s.store.file, s.calls[t].id)
      then s.(calls := s.calls[t := Loaded(s.calls[t].id, s.store.file)])
      else Release(s, t, None)              // an error, or a source without a URL: nothing is saved
    case Fetch(t, answer) =>
      var c := s.calls[t];
      if Hits(c.copy, c.id)
      then s.(store := s.store.(raws := WriteRaw(s.store.raws, c.id, answer)),
              calls := s.calls[t := Fetched(c.id, RefreshFile(c.copy, c.id, answer), answer)])
      else s
    case Save(t, written) =>
      var c := s.calls[t];
      Release(if written then s.(store := s.store.(file := c.copy)) else s, t, Some(Op(c.id, c.answer, written)))
  }

  ghost predicate Runs(s: State, es: seq<Event>)
    decreases |es|, 0
  {
    es == [] || (Runs(s, es[..|es| - 1]) && Enabled(After(s, es[..|es| - 1]), es[|es| - 1]))
  }

  ghost function After(s: State, es: seq<Event>): State
    requires Runs(s, es)
    decreases |es|, 1
  {
    if es == [] then s else Next(After(s, es[..|es| - 1]), es[|es| - 1])
  }

  function Takers(turns: seq<Turn>): seq<nat> {
    if turns == [] then [] else Takers(turns[..|turns| - 1]) + [turns[|turns| - 1].t]
  }

  function Start(s0: Store): State { State(s0, None, map[], [], [], 0) }

  /** The store is what the finished calls leave behind, plus the holder's own half-done work. */
  ghost predicate Serial(s0: Store, s: State) {
    && (forall t <- s.calls :: t < s.unused && (!s.calls[t].Calling? <==> s.holder == Some(t)))
    && (s.holder.Some? ==> s.holder.value in s.calls)
    && s.order == Takers(s.turns) + (if s.holder.Some? then [s.holder.value] else [])
    && var settled := Fold(s0, s.turns);
       if s.holder.None? then s.store == settled
       else
         match s.calls[s.holder.value]
         case Loaded(id, copy) => s.store == settled && copy == settled.file && Hits(copy, id)
         case Fetched(id, copy, answer) =>
           && Store(copy, s.store.raws) == Apply(settled, Op(id, answer, true))
           && s.store.file == settled.file
         case _ => s.store == settled
  }

  lemma SerialStep(s0: Store, s: State, e: Event)
    requires Serial(s0, s) && Enabled(s, e)
    ensures Serial(s0, Next(s, e))
  {
    var s' := Next(s, e);
    if s'.turns != s.turns {
      assert s'.turns[..|s.turns|] == s.turns;
      assert Takers(s.turns) + [e.t] + [] == Takers(s.turns) + [e.t];
    }
  }

  lemma {:induction false} SerialRun(s0: Store, es: seq<Event>)
    requires Runs(Start(s0), es)
    ensures Serial(s0, After(Start(s0), es))
    decreases |es|
  {
    if es != [] {
      SerialRun(s0, es[..|es| - 1]);
      SerialStep(s0, After(Start(s0), es[..|es| - 1]), es[|es| - 1]);
    }
  }

  // What the run says about its calls, from its events alone.

  /** The ids asked for; call t is the t-th. */
  function Asked(es: seq<Event>): seq<string> {
    if es == [] then []
    else Asked(es[..|es| - 1]) + if es[|es| - 1].Call? then [es[|es| - 1].id] else []
  }

  /** The calls in the order they took the lock. */
  function LockOrder(es: seq<Event>): seq<nat> {
    if es == [] then []
    else LockOrder(es[..|es| - 1]) + if es[|es| - 1].Acquire? then [es[|es| - 1].t] else []
  }

  /** What call t fetched last. */
  function Got(es: seq<Event>, t: nat): Option<Answer> {
    if es == [] then None
    else
      var last := es[|es| - 1];
      if last.Fetch? && last.t == t then Some(last.answer) else Got(es[..|es| - 1], t)
  }

  /** The calls that are over, in order: one that saved did what it was asked, with the answer it got and
      the success of its save; one whose load failed, or found nothing to refresh, did nothing. */
  function Finished(s0: Store, es: seq<Event>): seq<Turn> {
    if es == [] then []
    else
      var front, last := es[..|es| - 1], es[|es| - 1];
      var turns := Finished(s0, front);
      if last.Save? && last.t < |Asked(front)| && Got(front, last.t).Some? then
        turns + [Turn(last.t, Some(Op(Asked(front)[last.t], Got(front, last.t).value, last.written)))]
      else if last.Load? && last.t < |Asked(front)|
              && !(last.readable && Hits(Fold(s0, turns).file, Asked(front)[last.t])) then
        turns + [Turn(last.t, None)]
      else turns
  }

  /** The records the transition system keeps agree with the events. */
  ghost predicate Traced(s0: Store, es: seq<Event>, s: State) {
    && |Asked(es)| == s.unused && s.order == LockOrder(es) && s.turns == Finished(s0, es)
    && (forall t <- s.calls :: t < s.unused && s.calls[t].id == Asked(es)[t])
    && (forall t <- s.calls :: s.calls[t].Fetched? ==> Got(es, t) == Some(s.calls[t].answer))
  }

  lemma TracedStep(s0: Store, es: seq<Event>, s: State, e: Event)
    requires Traced(s0, es, s) && Serial(s0, s) && Enabled(s, e)
    ensures Traced(s0, es + [e], Next(s, e))
  {
    assert (es + [e])[..|es|] == es;
    if e.Load? { LockedFindsSettled(s0, s, e.t); }
    if e.Fetch? { LoadedHits(s0, s, e.t); }
  }

  lemma LockedFindsSettled(s0: Store, s: State, t: nat)
    requires Serial(s0, s) && t in s.calls && s.calls[t].Locked?
    ensures s.store == Fold(s0, s.turns)
  {}

  lemma LoadedHits(s0: Store, s: State, t: nat)
    requires Serial(s0, s) && t in s.calls && s.calls[t].Loaded?
    ensures Hits(s.calls[t].copy, s.calls[t].id)
  {}

  lemma {:induction false} TracedRun(s0: Store, es: seq<Event>)
    requires Runs(Start(s0), es)
    ensures Traced(s0, es, After(Start(s0), es))
    decreases |es|
  {
    if es != [] {
      var front := es[..|es| - 1];
      TracedRun(s0, front);
      SerialRun(s0, front);
      TracedStep(s0, front, After(Start(s0), front), es[|es| - 1]);
      assert front + [es[|es| - 1]] == es;
    }
  }

  /** No lost meta: whenever the lock is free, disk holds what the calls of the run, with the ids, answers
      and saves its events name, produce when run one after another in the order in which they took the
      lock. */
  lemma NoLostMeta(s0: Store, es: seq<Event>)
    requires Runs(Start(s0), es) && After(Start(s0), es).holder.None?
    ensures After(Start(s0), es).store == Fold(s0, Finished(s0, es))
    ensures Takers(Finished(s0, es)) == LockOrder(es)
  {
    SerialRun(s0, es);
    TracedRun(s0, es);
    assert Takers(Finished(s0, es)) + [] == Takers(Finished(s0, es));
  }

  /** A call that finds the lock free can go all the way, and does what it does alone. */
  lemma OneCall(s: State, id: string, readable: bool, answer: Answer, written: bool) returns (es: seq<Event>)
    requires s.holder.None? && id != "" && (forall t <- s.calls :: t < s.unused)
    ensures Runs(s, es)
    ensures var s' := After(s, es);
            && s'.store == (if readable then Apply(s.store, Op(id, answer, written)) else s.store)
            && s'.holder.None? && s'.calls == s.calls && Asked(es) == [id]
  {
    var t := s.unused;
    var s2 := CallLocks(s, id);
    var take := [Call(id)] + [Acquire(t)];
    var s3 := Next(s2, Load(t, readable));
    OneEvent(s2, Load(t, readable));
    RunConcat(s, take, [Load(t, readable)]);
    es := take + [Load(t, readable)];
    AskedOf(take, Load(t, readable));
    if t in s3.calls {
      var rest := [Fetch(t, answer)] + [Save(t, written)];
      FetchAndSave(s3, t, answer, written);
      RunConcat(s, es, rest);
      AskedOf(es, Fetch(t, answer));
      AskedOf(es + [Fetch(t, answer)], Save(t, written));
      assert es + rest == es + [Fetch(t, answer)] + [Save(t, written)];
      es := es + rest;
      assert s3.calls - {t} == s.calls;
    } else {
      assert s3.calls == s.calls;
    }
  }

  lemma FetchAndSave(s: State, t: nat, answer: Answer, written: bool)
    requires t in s.calls && s.calls[t].Loaded? && Hits(s.calls[t].copy, s.calls[t].id)
    requires s.calls[t].copy == s.store.file
    ensures var es := [Fetch(t, answer)] + [Save(t, written)];
            && Runs(s, es)
            && After(s, es).store == Apply(s.store, Op(s.calls[t].id, answer, written))
            && After(s, es).holder.None? && After(s, es).calls == s.calls - {t}
  {
    var s1 := Next(s, Fetch(t, answer));
    OneEvent(s, Fetch(t, answer));
    OneEvent(s1, Save(t, written));
    RunConcat(s, [Fetch(t, answer)], [Save(t, written)]);
    assert s1.calls - {t} == s.calls - {t};
  }

  lemma AskedOf(es: seq<Event>, e: Event)
    ensures Asked(es + [e]) == Asked(es) + if e.Call? then [e.id] else []
  {
    assert (es + [e])[..|es|] == es;
  }

  lemma CallLocks(s: State, id: string) returns (s2: State)
    requires s.holder.None? && id != ""
    ensures var es := [Call(id)] + [Acquire(s.unused)];
            && Runs(s, es) && After(s, es) == s2 && Asked(es) == [id]
            && s2 == s.(holder := Some(s.unused), calls := s.calls[s.unused := Locked(id)],
                        order := s.order + [s.unused], unused := s.unused + 1)
  {
    var s1 := Next(s, Call(id));
    OneEvent(s, Call(id));
    OneEvent(s1, Acquire(s.unused));
    RunConcat(s, [Call(id)], [Acquire(s.unused)]);
    s2 := Next(s1, Acquire(s.unused));
    assert [Call(id)][..0] == [] && Asked([]) == [];
    assert Asked([Call(id)]) == [id];
    AskedOf([Call(id)], Acquire(s.unused));
  }

  lemma OneEvent(s: State, e: Event)
    requires Enabled(s, e)
    ensures Runs(s, [e]) && After(s, [e]) == Next(s, e)
  {
    assert [e][..0] == [] && Runs(s, []) && After(s, []) == s;
  }

  lemma {:induction false} RunConcat(s: State, es: seq<Event>, fs: seq<Event>)
    requires Runs(s, es) && Runs(After(s, es), fs)
    ensures Runs(s, es + fs) && After(s, es + fs) == After(After(s, es), fs)
    decreases |fs|
  {
    if fs == [] {
      assert es + fs == es;
    } else {
      var n := |fs| - 1;
      RunConcat(s, es, fs[..n]);
      assert (es + fs)[..|es + fs| - 1] == es + fs[..n] && (es + fs)[|es + fs| - 1] == fs[n];
    }
  }

  // ------------------------------------------------------ what a source keeps

  /** The answers one source got, in order. */
  function History(turns: seq<Turn>, id: string): seq<Answer> {
    if turns == [] then []
    else
      var rest, last := History(turns[..|turns| - 1], id), turns[|turns| - 1];
      if last.op.Some? && last.op.value.id == id then rest + [last.op.value.answer] else rest
  }

  /** Those that state.json recorded. */
  function Recorded(turns: seq<Turn>, id: string): seq<Answer> {
    if turns == [] then []
    else
      var rest, last := Recorded(turns[..|turns| - 1], id), turns[|turns| - 1];
      if last.op.Some? && last.op.value.id == id && last.op.value.saved then rest + [last.op.value.answer] else rest
  }

  /** Length of the trailing run of failures. */
  function Trailing(h: seq<Answer>): (n: nat)
    ensures n <= |h|
  {
    if h == [] || h[|h| - 1].Some? then 0 else Trailing(h[..|h| - 1]) + 1
  }

  /** The last body fetched that was not empty. */
  function LastBody(h: seq<Answer>): Answer {
    if h == [] then None
    else if h[|h| - 1].Some? && h[|h| - 1].value != "" then h[|h| - 1]
    else LastBody(h[..|h| - 1])
  }

  function ErrorCount(src: Source): nat {
    if src.meta.Some? then src.meta.value.errorCount else 0
  }

  lemma {:induction false} ApplyKeepsPlaces(file: seq<Source>, i: nat, meta: Option<Meta>, id: string)
    requires i < |file|
    ensures Find(file[i := file[i].(meta := meta)], id) == Find(file, id)
    decreases |file|
  {
    var file' := file[i := file[i].(meta := meta)];
    var n := |file| - 1;
    if i < n {
      ApplyKeepsPlaces(file[..n], i, meta, id);
      assert file'[..n] == file[..n][i := file[..n][i].(meta := meta)];
    } else {
      assert file'[..n] == file[..n];
    }
  }

  /** state.json against the answers g it recorded for one source. */
  ghost predicate MetaAgrees(s0: Store, s: Store, id: string, g: seq<Answer>)
    requires Hits(s0.file, id)
  {
    var i := Find(s0.file, id).value;
    && Hits(s.file, id) && Find(s.file, id).value == i
    && s.file[i].(meta := None) == s0.file[i].(meta := None)
    && (if g == [] then s.file[i].meta == s0.file[i].meta
        else s.file[i].meta.Some? && s.file[i].meta.value.ok == g[|g| - 1].Some?)
    && ErrorCount(s.file[i]) == Trailing(g) + (if Trailing(g) == |g| then ErrorCount(s0.file[i]) else 0)
  }

  /** The cached body against all the answers h. */
  ghost predicate BodyAgrees(s0: Store, s: Store, id: string, h: seq<Answer>) {
    if LastBody(h).Some? && RebuildSpec.ValidRawId(id) then id in s.raws && s.raws[id] == LastBody(h).value
    else (id in s.raws <==> id in s0.raws) && (id in s.raws ==> s.raws[id] == s0.raws[id])
  }

  ghost predicate Agrees(s0: Store, s: Store, id: string, h: seq<Answer>, g: seq<Answer>)
    requires Hits(s0.file, id)
  {
    MetaAgrees(s0, s, id, g) && BodyAgrees(s0, s, id, h)
  }

  lemma OwnMeta(s0: Store, s: Store, id: string, g: seq<Answer>, answer: Answer)
    requires Hits(s0.file, id) && MetaAgrees(s0, s, id, g)
    ensures MetaAgrees(s0, Apply(s, Op(id, answer, true)), id, g + [answer])
    ensures MetaAgrees(s0, Apply(s, Op(id, answer, false)), id, g)
  {
    var i := Find(s.file, id).value;
    ApplyKeepsPlaces(s.file, i, Some(NewMeta(s.file[i].meta, answer)), id);
    assert (g + [answer])[..|g|] == g;
  }

  lemma OwnBody(s0: Store, s: Store, id: string, h: seq<Answer>, op: Op)
    requires op.id == id && Hits(s.file, id) && BodyAgrees(s0, s, id, h)
    ensures BodyAgrees(s0, Apply(s, op), id, h + [op.answer])
  {
    assert (h + [op.answer])[..|h|] == h;
  }

  lemma OwnTurn(s0: Store, s: Store, id: string, h: seq<Answer>, g: seq<Answer>, answer: Answer, saved: bool)
    requires Hits(s0.file, id) && Agrees(s0, s, id, h, g)
    ensures Agrees(s0, Apply(s, Op(id, answer, saved)), id, h + [answer], if saved then g + [answer] else g)
  {
    OwnMeta(s0, s, id, g, answer);
    OwnBody(s0, s, id, h, Op(id, answer, saved));
  }

  lemma OtherTurn(s0: Store, s: Store, id: string, h: seq<Answer>, g: seq<Answer>, op: Op)
    requires Hits(s0.file, id) && Agrees(s0, s, id, h, g) && op.id != id
    ensures Agrees(s0, Apply(s, op), id, h, g)
  {
    if Hits(s.file, op.id) {
      var j := Find(s.file, op.id).value;
      ApplyKeepsPlaces(s.file, j, Some(NewMeta(s.file[j].meta, op.answer)), id);
    }
  }

  /** What disk says about a source after any serial run: its error count is the length of the trailing
      run of failures recorded, its cached body the last one fetched that was not empty. */
  lemma {:induction false} SourceHistory(s0: Store, turns: seq<Turn>, id: string)
    requires Hits(s0.file, id)
    ensures Agrees(s0, Fold(s0, turns), id, History(turns, id), Recorded(turns, id))
    decreases |turns|
  {
    if turns != [] {
      var front, last := turns[..|turns| - 1], turns[|turns| - 1];
      SourceHistory(s0, front, id);
      if last.op.Some? {
        if last.op.value.id == id {
          OwnTurn(s0, Fold(s0, front), id, History(front, id), Recorded(front, id),
                  last.op.value.answer, last.op.value.saved);
        } else {
          OtherTurn(s0, Fold(s0, front), id, History(front, id), Recorded(front, id), last.op.value);
        }
      }
    }
  }

  lemma {:induction false} LastBodyNotEmpty(h: seq<Answer>)
    ensures LastBody(h) != Some("")
  {
    if h != [] { LastBodyNotEmpty(h[..|h| - 1]); }
  }

  /** After a successful fetch the body on disk is the one just fetched exactly when that is not empty and
      the id can name a cache file; otherwise an older body or none stays, although the recorded status is
      "ok" and the error count 0.  (Only WriteRawBody writes the cache.) */
  lemma BodyIsLastSuccessIff(s0: Store, turns: seq<Turn>, id: string)
    requires Hits(s0.file, id) && (id in s0.raws ==> RebuildSpec.ValidRawId(id) && s0.raws[id] != "")
    requires History(turns, id) != [] && History(turns, id)[|History(turns, id)| - 1].Some?
    ensures var s, answer := Fold(s0, turns), History(turns, id)[|History(turns, id)| - 1].value;
            && Hits(s.file, id)
            && (Recorded(turns, id) == History(turns, id) ==>
                  s.file[Find(s.file, id).value].meta == Some(Meta(true, 0)))
            && ((id in s.raws && s.raws[id] == answer) <==> answer != "" && RebuildSpec.ValidRawId(id))
  {
    SourceHistory(s0, turns, id);
    LastBodyNotEmpty(History(turns, id));
  }

  // ------------------------------------------ the full sweep loads too early

  /** The sweep of UpdateConfigFromSubscriptions: every enabled subscription of the copy it loaded. */
  function SweepFile(copy: seq<Source>, answers: seq<Answer>): seq<Source>
    requires |answers| == |copy|
  {
    seq(|copy|, i requires 0 <= i < |copy| =>
      if Refreshable(copy[i]) && copy[i].enabled
      then copy[i].(meta := Some(NewMeta(copy[i].meta, answers[i]))) else copy[i])
  }

  lemma SameIds(f: seq<Source>, g: seq<Source>, id: string)
    requires |f| == |g| && forall i | 0 <= i < |f| :: f[i].id == g[i].id
    ensures Find(f, id) == Find(g, id)
  {}

  /** Some enabled subscription is fetched, so the sweep writes state.json at its end. */
  predicate Dirty(copy: seq<Source>) {
    exists i | 0 <= i < |copy| :: Refreshable(copy[i]) && copy[i].enabled
  }

  /** state.json after a sweep that loaded `copy` and finds `disk` there at its end. */
  function Swept(copy: seq<Source>, disk: seq<Source>, answers: seq<Answer>): seq<Source>
    requires |answers| == |copy|
  {
    if Dirty(copy) then SweepFile(copy, answers) else disk
  }

  /** The sweep's older view of this source is what one of the two orders would leave. */
  predicate Harmless(src: Source, answer: Answer, swept: Answer) {
    if src.enabled then swept.Some? || (answer.Some? && ErrorCount(src) == 0)
    else answer.Some? && src.meta == Some(Meta(true, 0))
  }

  /** The sweep takes the lock only after it loaded state.json, so a refresh that runs in between may be
      overwritten.  For every file and all answers: what is left is the outcome of one of the two orders,
      if and only if the sweep has nothing to write or the refresh was harmless. */
  lemma SweepLosesMetaIff(file: seq<Source>, id: string, answer: Answer, answers: seq<Answer>)
    requires |answers| == |file| && Hits(file, id)
    ensures var late, i := RefreshFile(file, id, answer), Find(file, id).value;
            var before := Swept(file, file, answers);
            && |late| == |file| && Hits(before, id)
            && ((Swept(file, late, answers) == Swept(late, late, answers)
                 || Swept(file, late, answers) == RefreshFile(before, id, answer))
                <==> !Dirty(file) || Harmless(file[i], answer, answers[i]))
  {
    var i, late := Find(file, id).value, RefreshFile(file, id, answer);
    SameDirty(file, late);
    if Dirty(file) { OverwriteIff(file, id, answer, answers); }
  }

  lemma SameDirty(f: seq<Source>, g: seq<Source>)
    requires |f| == |g| && forall i | 0 <= i < |f| :: f[i].(meta := None) == g[i].(meta := None)
    ensures Dirty(f) <==> Dirty(g)
  {
    assert forall i | 0 <= i < |f| ::
      (Refreshable(f[i]) && f[i].enabled) == (Refreshable(f[i].(meta := None)) && f[i].(meta := None).enabled);
    assert forall i | 0 <= i < |g| ::
      (Refreshable(g[i]) && g[i].enabled) == (Refreshable(g[i].(meta := None)) && g[i].(meta := None).enabled);
  }

  /** When the sweep does write. */
  lemma OverwriteIff(file: seq<Source>, id: string, answer: Answer, answers: seq<Answer>)
    requires |answers| == |file| && Hits(file, id)
    ensures var late, lost, i := RefreshFile(file, id, answer), SweepFile(file, answers), Find(file, id).value;
            && |late| == |file| && Hits(lost, id)
            && ((lost == SweepFile(late, answers) || lost == RefreshFile(lost, id, answer))
                <==> Harmless(file[i], answer, answers[i]))
  {
    var i := Find(file, id).value;
    var late, lost := RefreshFile(file, id, answer), SweepFile(file, answers);
    SameIds(file, lost, id);
    var first, second := SweepFile(late, answers), RefreshFile(lost, id, answer);
    assert forall j | 0 <= j < |file| && j != i :: first[j] == lost[j] == second[j];
    assert lost == first <==> lost[i] == first[i];
    assert lost == second <==> lost[i] == second[i];
  }

  /** A refresh that is lost: a disabled source fails to refresh while a sweep of another is beginning. */
  lemma SweepLosesMeta() returns (file: seq<Source>, id: string, answer: Answer, answers: seq<Answer>)
    ensures |answers| == |file| && Hits(file, id)
    ensures var late, before := RefreshFile(file, id, answer), Swept(file, file, answers);
            && |late| == |file| && Hits(before, id)
            && Swept(file, late, answers) != Swept(late, late, answers)
            && Swept(file, late, answers) != RefreshFile(before, id, answer)
  {
    var a, b := Source("a", true, false, "u", None), Source("b", true, true, "v", None);
    file, id, answer, answers := [a, b], "a", None, [None, None];
    assert file[..1] == [a] && Find([a], "a") == Some(0);
    assert Find(file, "a") == Some(0);
    assert Refreshable(file[1]) && file[1].enabled;
    SweepLosesMetaIff(file, id, answer, answers);
  }

  // ---------------------------------------------------------------- the code

  class SubscriptionStore {
    var file: seq<Source>
    var raws: map<string, string>
    var configStale: bool

    ghost function View(): Store
      reads this
    {
      Store(file, raws)
    }

    constructor (s: Store)
      ensures View() == s
    {
      file, raws, configStale := s.file, s.raws, false;
    }

    method FindSource(id: string) returns (r: Option<nat>)
      ensures r == Find(file, id)
    {
      for i := 0 to |file|
        invariant forall k | 0 <= k < i :: file[k].id != id
      {
        if file[i].id == id { return Some(i); }
      }
      r := None;
    }

    /** refreshOneSubscriptionSource for the source at i; true when its meta changed. */
    method RefreshOne(i: nat, answer: Answer) returns (dirty: bool)
      requires i < |file|
      modifies this`file, this`raws
      ensures dirty == old(file[i].subscription && file[i].url != "")
      ensures !dirty ==> View() == old(View())
      ensures dirty ==> file == old(file[i := file[i].(meta := Some(NewMeta(file[i].meta, answer)))])
                        && raws == WriteRaw(old(raws), old(file[i].id), answer)
    {
      var src := file[i];
      if !src.subscription || src.url == "" { return false; }
      var meta := if src.meta.Some? then src.meta.value else Meta(false, 0);
      if answer.None? {
        meta := Meta(false, meta.errorCount + 1);
      } else {
        raws := RebuildSpec.WriteRaw(raws, src.id, answer.value);
        meta := Meta(true, 0);
      }
      file := file[i := src.(meta := Some(meta))];
      dirty := true;
    }

    /** refreshSubscriptionsMetaAndCache: the sweep over the copy it was given, and its save. */
    method RefreshAll(copy: seq<Source>, answers: seq<Answer>) returns (dirty: bool)
      requires |answers| == |copy|
      modifies this`file
      ensures dirty <==> exists i :: 0 <= i < |copy| && copy[i].subscription && copy[i].enabled && copy[i].url != ""
      ensures file == Swept(copy, old(file), answers)
    {
      dirty := false;
      var s := copy;
      for i := 0 to |copy|
        invariant |s| == |copy|
        invariant dirty <==> exists k :: 0 <= k < i && copy[k].subscription && copy[k].enabled && copy[k].url != ""
        invariant forall k | 0 <= k < i :: s[k] == SweepFile(copy, answers)[k]
        invariant forall k | i <= k < |copy| :: s[k] == copy[k]
      {
        var src := s[i];
        if !src.subscription || !src.enabled || src.url == "" { continue; }
        s := s[i := src.(meta := Some(NewMeta(src.meta, answers[i])))];
        dirty := true;
      }
      assert s == SweepFile(copy, answers);
      assert dirty <==> Dirty(copy) by {
        assert Dirty(copy) ==> exists k :: 0 <= k < |copy| && Refreshable(copy[k]) && copy[k].enabled;
      }
      if dirty {
        file := s;
      }
    }

    /** `readable`, `saved`: whether state.json can be loaded and written back. */
    method RefreshSingleSubscription(id: string, answer: Answer, readable: bool, saved: bool) returns (ok: bool)
      modifies this
      ensures ok == Reports(old(file), id, readable, saved)
      ensures View() == if id != "" && readable then Apply(old(View()), Op(id, answer, saved)) else old(View())
      ensures configStale == (old(configStale) || (id != "" && readable && saved && Hits(old(file), id)))
    {
      if id == "" { return false; }
      if !readable { return false; }
      var found := FindSource(id);
      if found.None? { return false; }
      if !file[found.value].subscription { return false; }
      var stored := file;
      var dirty := RefreshOne(found.value, answer);
      if dirty {
        if !saved {
          file := stored;          // the mutated copy is dropped
          return false;
        }
        configStale := true;
      }
      ok := true;
    }
  }
}
