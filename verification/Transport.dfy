/** Who owns the proxy transport: the shared override slot of APIService, fought over by engine swaps
    (core/backend.go, core/backend_daemon_darwin.go) and machine selection (ui/lxd_remote_override.go),
    and the generation counter that drops stale lists (ui/clash_remote.go). */
module Transport {
  import opened Basics

  /** Transport objects; every engine and every connect makes a new one. */
  datatype Transport = Daemon(n: nat) | Remote(n: nat)

  datatype Link = Link(
    slot: Option<Transport>,      // APIService.transportOverride
    engine: Option<nat>,          // None: classic; Some(n): daemon backend with transport Daemon(n)
    selected: Option<nat>,        // lxdOverrideTransport of the selected machine
    clash: Option<string>,        // remoteOverrideValue while active
    gen: nat,                     // clashConfigGeneration
    closed: set<Transport>,
    unused: nat)

  const Initial := Link(None, None, None, None, 0, {}, 0)

  datatype Op = Connect | Disconnect | Reapply | RestoreOwn | ToClassic | ToDaemon | ReloadDaemon
              | SetClash(to: string) | ClearClash

  /** What is left to do of an operation, one shared access per step. */
  datatype Pc =
    | Select(n: nat)                          // SetLxdRemoteOverride
    | Install(n: nat, prev: Option<nat>)
    | TestSlot                                // ClearLxdRemoteOverride
    | DropSlot
    | FindOwn
    | OwnBack(own: Option<nat>)
    | Unselect
    | CloseMachine(prev: Option<nat>)         // shared tail of both
    | Bump
    | FindSelected                            // ReapplyLxdRemoteTransport
    | PutSelected(n: nat)
    | FindEngine                              // RestoreOwnTransport
    | PutEngine(n: nat)
    | Construct(n: nat)                       // newDaemonBackend
    | CloseEngine(next: Option<nat>)          // setBackend: reads the previous engine
    | TestOwn(was: nat, next: Option<nat>)   // its Close: is the slot its own
    | DropOwn(was: nat, next: Option<nat>)
    | CloseConn(was: nat, next: Option<nat>)
    | Publish(next: Option<nat>)
    | Reinstall(n: nat)
    | WriteClash(value: Option<string>)       // SetRemoteOverride, ClearRemoteOverride

  /** The first step, or None when the operation returns at once.  `running` is the VPN flag that
      SwitchBackendMode refuses on. */
  function Begin(s: Link, op: Op, running: bool): Option<Pc> {
    match op
    case Connect => Some(Select(s.unused))
    case Disconnect => Some(TestSlot)
    case Reapply => Some(FindSelected)
    case RestoreOwn => Some(FindEngine)
    case ToClassic => if s.engine.None? || running then None else Some(CloseEngine(None))
    case ToDaemon => if s.engine.Some? || running then None else Some(Construct(s.unused))
    case ReloadDaemon => if s.engine.None? then None else Some(Construct(s.unused))
    case SetClash(to) => Some(WriteClash(Some(to)))
    case ClearClash => Some(WriteClash(None))
  }

  /** Objects are made as the operation begins. */
  function Allocate(s: Link, pc: Pc): Link {
    if pc.Select? || pc.Construct? then s.(unused := s.unused + 1) else s
  }

  function Step(s: Link, pc: Pc): (Link, Option<Pc>) {
    match pc
    case Select(n) => (s.(selected := Some(n)), Some(Install(n, s.selected)))
    case Install(n, prev) => (s.(slot := Some(Remote(n))), Some(CloseMachine(prev)))
    case TestSlot =>
      (s, Some(if s.slot.Some? && s.slot.value.Remote? then DropSlot else Unselect))
    case DropSlot => (s.(slot := None), Some(FindOwn))
    case FindOwn => (s, Some(OwnBack(s.engine)))
    case OwnBack(own) =>
      (if own.Some? then s.(slot := Some(Daemon(own.value))) else s, Some(Unselect))
    case Unselect => (s.(selected := None), Some(CloseMachine(s.selected)))
    case CloseMachine(prev) =>
      (if prev.Some? then s.(closed := s.closed + {Remote(prev.value)}) else s, Some(Bump))
    case Bump => (s.(gen := s.gen + 1), None)
    case FindSelected => (s, if s.selected.Some? then Some(PutSelected(s.selected.value)) else None)
    case PutSelected(n) => (s.(slot := Some(Remote(n))), None)
    case FindEngine => (s, if s.engine.Some? then Some(PutEngine(s.engine.value)) else None)
    case PutEngine(n) => (s.(slot := Some(Daemon(n))), None)
    case Construct(n) => (s.(slot := Some(Daemon(n))), Some(CloseEngine(Some(n))))
    case CloseEngine(next) =>
      (s, Some(if s.engine.None? then Publish(next) else TestOwn(s.engine.value, next)))
    case TestOwn(prev, next) =>
      (s, Some(if s.slot == Some(Daemon(prev)) then DropOwn(prev, next) else CloseConn(prev, next)))
    case DropOwn(prev, next) => (s.(slot := None), Some(CloseConn(prev, next)))
    case CloseConn(prev, next) => (s.(closed := s.closed + {Daemon(prev)}), Some(Publish(next)))
    case Publish(next) => (s.(engine := next), if next.Some? then Some(Reinstall(next.value)) else None)
    case Reinstall(n) => (s.(slot := Some(Daemon(n))), None)
    case WriteClash(value) => (s.(clash := value), Some(Bump))
  }

  function Rank(pc: Pc): nat {
    match pc
    case Bump => 0 case PutSelected(_) => 0 case PutEngine(_) => 0 case Reinstall(_) => 0
    case CloseMachine(_) => 1 case WriteClash(_) => 1 case FindSelected => 1 case FindEngine => 1 case Publish(_) => 1
    case Install(_, _) => 2 case Unselect => 2 case CloseConn(_, _) => 2
    case Select(_) => 3 case OwnBack(_) => 3 case DropOwn(_, _) => 3
    case FindOwn => 4 case TestOwn(_, _) => 4
    case DropSlot => 5 case CloseEngine(_) => 5
    case TestSlot => 6 case Construct(_) => 6
  }

  /** An operation that nothing interferes with. */
  function Complete(s: Link, pc: Pc): Link
    decreases Rank(pc)
  {
    var (s', next) := Step(s, pc);
    if next.None? then s' else Complete(s', next.value)
  }

  function Perform(s: Link, op: Op, running: bool): Link {
    var first := Begin(s, op, running);
    if first.None? then s else Complete(Allocate(s, first.value), first.value)
  }

  // --------------------------------------------------------------- ownership

  ghost predicate Usable(s: Link, t: Transport) {
    t.n < s.unused && t !in s.closed
  }

  /** The installed override is none, the active engine's own, or the selected machine's; it is open,
      and it is there in daemon mode. */
  ghost predicate Owned(s: Link) {
    && (s.slot.None? ==> s.engine.None?)
    && (s.slot.Some? ==> s.slot.value in (if s.engine.Some? then {Daemon(s.engine.value)} else {})
                                         + (if s.selected.Some? then {Remote(s.selected.value)} else {}))
    && (s.engine.Some? ==> Usable(s, Daemon(s.engine.value)))
    && (s.selected.Some? ==> Usable(s, Remote(s.selected.value)))
    && (forall t <- s.closed :: t.n < s.unused)
  }

  function Closing(s: Link, prev: Option<nat>): set<Transport> {
    if prev.Some? then s.closed + {Remote(prev.value)} else s.closed
  }

  function Own(s: Link): Option<Transport> {
    if s.engine.Some? then Some(Daemon(s.engine.value)) else None
  }

  lemma CompleteStep(s: Link, pc: Pc)
    ensures Complete(s, pc)
            == if Step(s, pc).1.Some? then Complete(Step(s, pc).0, Step(s, pc).1.value) else Step(s, pc).0
  {}

  lemma TailIs(s: Link, prev: Option<nat>)
    ensures Complete(s, CloseMachine(prev)) == s.(closed := Closing(s, prev), gen := s.gen + 1)
  {
    CompleteStep(s, CloseMachine(prev));
  }

  lemma ConnectIs(s: Link, n: nat)
    ensures Complete(s, Select(n))
            == s.(selected := Some(n), slot := Some(Remote(n)), closed := Closing(s, s.selected), gen := s.gen + 1)
  {
    CompleteStep(s, Select(n));
    var s1 := s.(selected := Some(n));
    CompleteStep(s1, Install(n, s.selected));
    TailIs(s1.(slot := Some(Remote(n))), s.selected);
  }

  lemma UnselectIs(s: Link)
    ensures Complete(s, Unselect) == s.(selected := None, closed := Closing(s, s.selected), gen := s.gen + 1)
  {
    CompleteStep(s, Unselect);
    TailIs(s.(selected := None), s.selected);
  }

  lemma DisconnectIs(s: Link)
    ensures Complete(s, TestSlot)
            == s.(selected := None, closed := Closing(s, s.selected), gen := s.gen + 1,
                  slot := if s.slot.Some? && s.slot.value.Remote? then Own(s) else s.slot)
  {
    CompleteStep(s, TestSlot);
    UnselectIs(s);
    var s1 := s.(slot := None);
    CompleteStep(s, DropSlot);
    CompleteStep(s1, FindOwn);
    CompleteStep(s1, OwnBack(s.engine));
    UnselectIs(s.(slot := Own(s)));
    assert s1.(slot := Own(s)) == s.(slot := Own(s));
  }

  /** setBackend. */
  lemma SwapIs(s: Link, next: Option<nat>)
    ensures Complete(s, CloseEngine(next))
            == s.(engine := next,
                  closed := if s.engine.Some? then s.closed + {Own(s).value} else s.closed,
                  slot := if next.Some? then Some(Daemon(next.value))
                          else if s.engine.Some? && s.slot == Own(s) then None else s.slot)
  {
    CompleteStep(s, CloseEngine(next));
    if s.engine.Some? {
      CloseIs(s, s.engine.value, next);
    } else {
      PublishIs(s, next);
    }
  }

  lemma PublishIs(s: Link, next: Option<nat>)
    ensures Complete(s, Publish(next))
            == s.(engine := next, slot := if next.Some? then Some(Daemon(next.value)) else s.slot)
  {
    CompleteStep(s, Publish(next));
  }

  lemma CloseIs(s: Link, prev: nat, next: Option<nat>)
    ensures Complete(s, TestOwn(prev, next))
            == s.(engine := next, closed := s.closed + {Daemon(prev)},
                  slot := if next.Some? then Some(Daemon(next.value))
                          else if s.slot == Some(Daemon(prev)) then None else s.slot)
  {
    CompleteStep(s, TestOwn(prev, next));
    var s1 := if s.slot == Some(Daemon(prev)) then s.(slot := None) else s;
    CompleteStep(s, DropOwn(prev, next));
    CompleteStep(s1, CloseConn(prev, next));
    PublishIs(s1.(closed := s1.closed + {Daemon(prev)}), next);
  }

  lemma ConstructIs(s: Link, n: nat)
    requires s.engine != Some(n)
    ensures Complete(s, Construct(n))
            == s.(engine := Some(n), slot := Some(Daemon(n)),
                  closed := if s.engine.Some? then s.closed + {Own(s).value} else s.closed)
  {
    CompleteStep(s, Construct(n));
    SwapIs(s.(slot := Some(Daemon(n))), Some(n));
  }

  /** Each operation, run on its own, keeps ownership; RestoreOwn in daemon mode installs the daemon's
      own transport, Reapply the selected machine's, and Disconnect leaves the engine's own. */
  lemma PerformKeepsOwned(s: Link, op: Op, running: bool)
    requires Owned(s)
    ensures var s' := Perform(s, op, running);
            && Owned(s')
            && (op == RestoreOwn && s.engine.Some? ==> s'.slot == Own(s))
            && (op == Reapply && s.selected.Some? ==> s'.slot == Some(Remote(s.selected.value)))
            && (op == Disconnect ==> s'.selected == None && s'.slot == Own(s))
  {
    match op {
      case Connect => ConnectKeepsOwned(s);
      case Disconnect => DisconnectKeepsOwned(s);
      case Reapply => ReapplyKeepsOwned(s);
      case RestoreOwn => RestoreKeepsOwned(s);
      case ToClassic => ClassicKeepsOwned(s);
      case ToDaemon => ConstructKeepsOwned(s);
      case ReloadDaemon => ConstructKeepsOwned(s);
      case SetClash(to) => ClashKeepsOwned(s, Some(to));
      case ClearClash => ClashKeepsOwned(s, None);
    }
  }

  lemma ReapplyKeepsOwned(s: Link)
    requires Owned(s)
    ensures var s' := Complete(s, FindSelected);
            Owned(s') && (s.selected.Some? ==> s'.slot == Some(Remote(s.selected.value)))
  {
    CompleteStep(s, FindSelected);
  }

  lemma RestoreKeepsOwned(s: Link)
    requires Owned(s)
    ensures var s' := Complete(s, FindEngine); Owned(s') && (s.engine.Some? ==> s'.slot == Own(s))
  {
    CompleteStep(s, FindEngine);
  }

  lemma ClassicKeepsOwned(s: Link)
    requires Owned(s)
    ensures Owned(Complete(s, CloseEngine(None)))
  {
    SwapIs(s, None);
  }

  lemma ClashKeepsOwned(s: Link, value: Option<string>)
    requires Owned(s)
    ensures Owned(Complete(s, WriteClash(value)))
  {
    CompleteStep(s, WriteClash(value));
  }

  lemma ConnectKeepsOwned(s: Link)
    requires Owned(s)
    ensures Owned(Complete(s.(unused := s.unused + 1), Select(s.unused)))
  {
    ConnectIs(s.(unused := s.unused + 1), s.unused);
  }

  lemma DisconnectKeepsOwned(s: Link)
    requires Owned(s)
    ensures var s' := Complete(s, TestSlot); Owned(s') && s'.selected == None && s'.slot == Own(s)
  {
    DisconnectIs(s);
  }

  lemma ConstructKeepsOwned(s: Link)
    requires Owned(s)
    ensures Owned(Complete(s.(unused := s.unused + 1), Construct(s.unused)))
  {
    ConstructIs(s.(unused := s.unused + 1), s.unused);
  }

  /** Nothing happens. */
  predicate Same(s: Link, s': Link) { s' == s }

  /** Engine, selection and Clash override after each operation on its own; the slot is whatever ownership
      allows, the numbers and the generation move as stated. */
  lemma AfterConnect(s: Link, running: bool)
    requires Owned(s)
    ensures var s' := Perform(s, Connect, running);
            && s'.selected == Some(s.unused) && s'.slot == Some(Remote(s.unused)) && s'.unused == s.unused + 1
            && s'.engine == s.engine && s'.clash == s.clash && s'.gen == s.gen + 1
            && (forall t :: t in s'.closed <==> t in s.closed || (t.Remote? && s.selected == Some(t.n)))
  {
    ConnectIs(s.(unused := s.unused + 1), s.unused);
  }

  lemma AfterDisconnect(s: Link, running: bool)
    requires Owned(s)
    ensures var s' := Perform(s, Disconnect, running);
            && s'.selected == None && s'.unused == s.unused
            && s'.engine == s.engine && s'.clash == s.clash && s'.gen == s.gen + 1
            && (forall t :: t in s'.closed <==> t in s.closed || (t.Remote? && s.selected == Some(t.n)))
  {
    DisconnectIs(s);
  }

  /** Tab switches write the slot only. */
  lemma AfterTabSwitch(s: Link, running: bool)
    requires Owned(s)
    ensures var s' := Perform(s, Reapply, running);
            s' == s.(slot := if s.selected.Some? then Some(Remote(s.selected.value)) else s.slot)
    ensures var s' := Perform(s, RestoreOwn, running);
            s' == s.(slot := if s.engine.Some? then Some(Daemon(s.engine.value)) else s.slot)
  {
    CompleteStep(s, FindSelected);
    CompleteStep(s, FindEngine);
  }

  /** Engine switches: refused while running, otherwise the new engine is in charge and the old one closed,
      whatever is in the slot. */
  lemma AfterSwitch(s: Link, running: bool)
    requires Owned(s)
    ensures var s' := Perform(s, ToClassic, running);
            if running then Same(s, s')
            else s'.engine.None? && s'.unused == s.unused && Replaced(s, s')
                 && (s'.slot.Some? ==> s'.slot == s.slot)
    ensures var s' := Perform(s, ToDaemon, running);
            if running || s.engine.Some? then Same(s, s') else FreshEngine(s, s')
    ensures var s' := Perform(s, ReloadDaemon, running);
            if s.engine.None? then Same(s, s') else FreshEngine(s, s')
  {
    SwapIs(s, None);
    ConstructIs(s.(unused := s.unused + 1), s.unused);
  }

  ghost predicate FreshEngine(s: Link, s': Link) {
    s'.engine == Some(s.unused) && s'.slot == Some(Daemon(s.unused)) && s'.unused == s.unused + 1 && Replaced(s, s')
  }

  /** The selection, the Clash override and the generation stay, and of the transports the old engine's
      alone is closed. */
  ghost predicate Replaced(s: Link, s': Link) {
    && s'.selected == s.selected && s'.clash == s.clash && s'.gen == s.gen
    && (forall t :: t in s'.closed <==> t in s.closed || (t.Daemon? && s.engine == Some(t.n)))
  }

  lemma AfterClash(s: Link, to: string, running: bool)
    ensures Perform(s, SetClash(to), running) == s.(clash := Some(to), gen := s.gen + 1)
    ensures Perform(s, ClearClash, running) == s.(clash := None, gen := s.gen + 1)
  {
    CompleteStep(s, WriteClash(Some(to)));
    CompleteStep(s, WriteClash(None));
  }

  // ------------------------------------------------------------ interleaving

  /** A list on its way to the screen: the generation was read, then the endpoint is resolved in three
      reads, then the list comes back from it. */
  datatype Endpoint = Via(t: Transport) | ClashAt(to: string) | LocalClash

  datatype Fetch =
    | Captured(gen: nat, remote: bool)
    | NoSlot(gen: nat, remote: bool)
    | NoMachine(gen: nat)
    | Resolved(gen: nat, remote: bool, from: Endpoint)

  /** EffectiveProxyTransportIn for the Remote (or Local) scope, read at one moment. */
  function Effective(s: Link, remote: bool): Endpoint {
    if s.slot.Some? then Via(s.slot.value)
    else if remote && s.selected.Some? then Via(Remote(s.selected.value))
    else if remote && s.clash.Some? then ClashAt(s.clash.value)
    else LocalClash
  }

  datatype State = State(link: Link, ops: map<nat, Pc>, fetches: map<nat, Fetch>, ids: nat)

  const Start := State(Initial, map[], map[], 0)

  datatype Event =
    | Do(op: Op, running: bool)    // an operation begins
    | Micro(t: nat)                // its next step
    | Load(remote: bool)           // a fetch goroutine reads the generation
    | Resolve(f: nat)              // its next read
    | Render(f: nat)               // the UI thread gets the list

  predicate Enabled(s: State, e: Event) {
    match e
    case Do(_, _) => true
    case Micro(t) => t in s.ops
    case Load(_) => true
    case Resolve(f) => f in s.fetches && !s.fetches[f].Resolved?
    case Render(f) => f in s.fetches && s.fetches[f].Resolved?
  }

  function Read(s: Link, f: Fetch): Fetch
    requires !f.Resolved?
  {
    match f
    case Captured(gen, remote) =>
      if s.slot.Some? then Resolved(gen, remote, Via(s.slot.value))
      else if remote then NoSlot(gen, remote) else Resolved(gen, remote, LocalClash)
    case NoSlot(gen, remote) =>
      if s.selected.Some? then Resolved(gen, true, Via(Remote(s.selected.value))) else NoMachine(gen)
    case NoMachine(gen) =>
      Resolved(gen, true, if s.clash.Some? then ClashAt(s.clash.value) else LocalClash)
  }

  function Next(s: State, e: Event): State
    requires Enabled(s, e)
  {
    match e
    case Do(op, running) =>
      var first := Begin(s.link, op, running);
      if first.None? then s
      else s.(link := Allocate(s.link, first.value), ops := s.ops[s.ids := first.value], ids := s.ids + 1)
    case Micro(t) =>
      var (link, next) := Step(s.link, s.ops[t]);
      s.(link := link, ops := if next.Some? then s.ops[t := next.value] else s.ops - {t})
    case Load(remote) => s.(fetches := s.fetches[s.ids := Captured(s.link.gen, remote)], ids := s.ids + 1)
    case Resolve(f) => s.(fetches := s.fetches[f := Read(s.link, s.fetches[f])])
    case Render(f) => s.(fetches := s.fetches - {f})
  }

  /** The drop-stale check of the render callback. */
  predicate Accepted(s: State, f: nat)
    requires Enabled(s, Render(f))
  {
    s.fetches[f].gen == s.link.gen
  }

  ghost predicate Runs(s: State, es: seq<Event>)
    decreases |es|, 0
  {
    es == [] || (Runs(s, es[..|es| - 1]) && Enabled(After(s, es[..|es| - 1]), es[|es| - 1]))
  }

  ghost function After(s: State, es: seq<Event>): State
    requires Runs(s, es)
    decreases |es|, 1
  {
    if es == [] then s else Next(After(s, es[..|es| - 1]), es[|es| - 1])
  }

  // ---------------------------------------------- ownership over whole runs

  ghost predicate OneAtATime(s: State, es: seq<Event>)
    requires Runs(s, es)
    decreases |es|
  {
    es == [] || (OneAtATime(s, es[..|es| - 1]) && (es[|es| - 1].Do? ==> After(s, es[..|es| - 1]).ops == map[]))
  }

  /** Ownership, or ownership once the operation under way has finished. */
  ghost predicate OwnedSoon(s: State) {
    if s.ops == map[] then Owned(s.link)
    else exists t: nat :: t in s.ops && s.ops == map[t := s.ops[t]] && Owned(Complete(s.link, s.ops[t]))
  }

  lemma OwnedSoonStep(s: State, e: Event)
    requires OwnedSoon(s) && Enabled(s, e) && (e.Do? ==> s.ops == map[])
    ensures OwnedSoon(Next(s, e))
  {
    match e
    case Do(op, running) =>
      PerformKeepsOwned(s.link, op, running);
      if Begin(s.link, op, running).Some? {
        assert s.ids in Next(s, e).ops;
      }
    case Micro(t) =>
      CompleteStep(s.link, s.ops[t]);
      var next := Step(s.link, s.ops[t]).1;
      if next.Some? {
        assert t in Next(s, e).ops && Next(s, e).ops == map[t := next.value];
      } else {
        assert Next(s, e).ops == map[];
      }
    case _ =>
  }

  /** In every run whose operations do not overlap, between operations the override is none, the
      engine's own or the selected machine's, never closed, and never none in daemon mode. */
  lemma {:induction false} OwnershipHolds(es: seq<Event>)
    requires Runs(Start, es) && OneAtATime(Start, es)
    ensures OwnedSoon(After(Start, es))
    ensures var s := After(Start, es);
            s.ops == map[] ==> Owned(s.link) && (s.link.slot.Some? ==> s.link.slot.value !in s.link.closed)
    decreases |es|
  {
    if es != [] {
      OwnershipHolds(es[..|es| - 1]);
      OwnedSoonStep(After(Start, es[..|es| - 1]), es[|es| - 1]);
    }
  }

  // -------------------------------------------------------------- drop stale

  /** Operations that bump the generation: connecting, disconnecting, setting and clearing the Clash
      override.  Tab switches and engine swaps do not. */
  predicate Bumps(op: Op) {
    op.Connect? || op.Disconnect? || op.SetClash? || op.ClearClash?
  }

  predicate OnlyBumping(es: seq<Event>) {
    forall i | 0 <= i < |es| && es[i].Do? :: Bumps(es[i].op)
  }

  predicate BumpingPc(pc: Pc) {
    match pc
    case FindSelected => false case PutSelected(_) => false case FindEngine => false case PutEngine(_) => false
    case Construct(_) => false case CloseEngine(_) => false case Publish(_) => false case Reinstall(_) => false
    case TestOwn(_, _) => false case DropOwn(_, _) => false case CloseConn(_, _) => false
    case _ => true
  }

  /** What a fetch has read so far is still so. */
  predicate Current(s: Link, f: Fetch) {
    match f
    case Captured(_, _) => true
    case NoSlot(_, _) => s.slot.None?
    case NoMachine(_) => s.slot.None? && s.selected.None?
    case Resolved(_, remote, from) => from == Effective(s, remote)
  }

  /** Between the first write and the bump.  (For a disconnect the window opens with the test of the slot
      when that finds nothing to drop.) */
  predicate Underway(pc: Pc) {
    match pc
    case Install(_, _) => true case FindOwn => true case OwnBack(_) => true case Unselect => true
    case CloseMachine(_) => true case Bump => true
    case _ => false
  }

  ghost predicate NoneUnderway(s: State) {
    forall t <- s.ops :: !Underway(s.ops[t])
  }

  ghost predicate Sound(s: State) {
    && (forall t <- s.ops :: t < s.ids && BumpingPc(s.ops[t]))
    && (forall f <- s.fetches :: s.fetches[f].gen <= s.link.gen)
    && (forall f <- s.fetches :: s.fetches[f].NoSlot? ==> s.fetches[f].remote)
    && (forall f <- s.fetches ::
          s.fetches[f].gen == s.link.gen && NoneUnderway(s) ==> Current(s.link, s.fetches[f]))
  }

  lemma SoundStep(s: State, e: Event)
    requires Sound(s) && Enabled(s, e) && (e.Do? ==> Bumps(e.op))
    ensures Sound(Next(s, e))
  {
    match e {
      case Do(op, running) => SoundDo(s, op, running);
      case Micro(t) => SoundMicro(s, t);
      case Resolve(f) => SoundResolve(s, f);
      case _ =>
    }
  }

  lemma SoundDo(s: State, op: Op, running: bool)
    requires Sound(s) && Bumps(op)
    ensures Sound(Next(s, Do(op, running)))
  {
    var s' := Next(s, Do(op, running));
    assert NoneUnderway(s') ==> NoneUnderway(s) by {
      assert forall t <- s.ops :: t in s'.ops && s'.ops[t] == s.ops[t];
    }
    assert forall f <- s.fetches :: Current(s.link, s.fetches[f]) ==> Current(s'.link, s.fetches[f]);
  }

  lemma SoundMicro(s: State, t: nat)
    requires Sound(s) && t in s.ops
    ensures Sound(Next(s, Micro(t)))
  {
    var pc, next, s' := s.ops[t], Step(s.link, s.ops[t]), Next(s, Micro(t));
    assert next.1.None? ==> pc == Bump && next.0.gen == s.link.gen + 1;
    if next.1.Some? {
      assert t in s'.ops && next.0.gen == s.link.gen && BumpingPc(next.1.value);
      if NoneUnderway(s') {
        assert pc == TestSlot && next.0 == s.link;
        assert forall u <- s.ops :: u != t ==> s'.ops[u] == s.ops[u];
        assert NoneUnderway(s);
      }
    }
  }

  lemma SoundResolve(s: State, f: nat)
    requires Sound(s) && Enabled(s, Resolve(f))
    ensures Sound(Next(s, Resolve(f)))
  {
    var was := s.fetches[f];
    var now := Read(s.link, was);
    assert NoneUnderway(Next(s, Resolve(f))) <==> NoneUnderway(s);
    assert now.gen == was.gen && (now.NoSlot? ==> now.remote);
    assert was.gen == s.link.gen && NoneUnderway(s) ==> Current(s.link, now);
  }

  lemma {:induction false} SoundRun(es: seq<Event>)
    requires Runs(Start, es) && OnlyBumping(es)
    ensures Sound(After(Start, es))
    decreases |es|
  {
    if es != [] {
      SoundRun(es[..|es| - 1]);
      SoundStep(After(Start, es[..|es| - 1]), es[|es| - 1]);
    }
  }

  /** Drop-stale soundness: whatever Sets and Clears run in between, also overlapping ones, a list that
      passes the generation check was fetched through the endpoint in force when it is rendered, unless
      one of them is then between its first write and its bump. */
  lemma NoStaleList(es: seq<Event>, f: nat)
    requires Runs(Start, es) && OnlyBumping(es)
    requires Enabled(After(Start, es), Render(f)) && Accepted(After(Start, es), f) && NoneUnderway(After(Start, es))
    ensures var s := After(Start, es);
            s.fetches[f].from == Effective(s.link, s.fetches[f].remote)
  {
    SoundRun(es);
  }

  // ------------------------------------------- exactly when a list goes stale

  /** One shared access leaves the endpoint of the scope as it is. */
  predicate KeepsEndpoint(s: Link, pc: Pc, remote: bool) {
    match pc
    case Select(n) => s.slot.Some? || !remote || s.selected == Some(n)
    case Install(n, _) => s.slot == Some(Remote(n)) || (s.slot.None? && remote && s.selected == Some(n))
    case PutSelected(n) => s.slot == Some(Remote(n)) || (s.slot.None? && remote && s.selected == Some(n))
    case DropSlot => s.slot.None? || (remote && s.selected.Some? && s.slot == Some(Remote(s.selected.value)))
    case OwnBack(own) => own.None? || s.slot == Some(Daemon(own.value))
    case Unselect => s.slot.Some? || !remote || s.selected.None?
    case PutEngine(n) => s.slot == Some(Daemon(n))
    case Construct(n) => s.slot == Some(Daemon(n))
    case Reinstall(n) => s.slot == Some(Daemon(n))
    case DropOwn(_, _) => s.slot.None? || (remote && s.selected.Some? && s.slot == Some(Remote(s.selected.value)))
    case WriteClash(v) => s.slot.Some? || !remote || s.selected.Some? || s.clash == v
    case _ => true
  }

  /** For every state and every access: the endpoint in force changes exactly there. */
  lemma EndpointKeptIff(s: Link, pc: Pc, remote: bool)
    ensures Effective(Step(s, pc).0, remote) == Effective(s, remote) <==> KeepsEndpoint(s, pc, remote)
  {}

  predicate Good(s: Link, f: Fetch) {
    f.Resolved? && f.gen == s.gen && Current(s, f)
  }

  /** In the window: a list that was good stays acceptable through every access but the bump, and stays
      current exactly when the access keeps the endpoint. */
  lemma StaleInWindowIff(s: Link, pc: Pc, f: Fetch)
    requires Good(s, f) && pc != Bump
    ensures f.gen == Step(s, pc).0.gen
    ensures Current(Step(s, pc).0, f) <==> KeepsEndpoint(s, pc, f.remote)
  {
    EndpointKeptIff(s, pc, f.remote);
  }

  /** Before an operation that does not bump the generation: does the endpoint stay? */
  predicate KeepsList(s: Link, op: Op, running: bool, remote: bool) {
    match op
    case RestoreOwn => s.engine.None? || s.slot == Own(s)
    case Reapply => s.selected.None? || s.slot == Some(Remote(s.selected.value)) || (s.slot.None? && remote)
    case ToClassic => s.engine.None? || running || s.slot != Own(s)
    case ToDaemon => s.engine.Some? || running
    case ReloadDaemon => s.engine.None?
    case _ => false
  }

  /** Tab switches and engine swaps: a good list is always accepted afterwards, and is still current if
      and only if the slot (or the mode) was as stated. */
  lemma StaleAfterSwitchIff(s: Link, op: Op, running: bool, f: Fetch)
    requires Owned(s) && Good(s, f) && !Bumps(op)
    ensures var s' := Perform(s, op, running);
            f.gen == s'.gen && (Current(s', f) <==> KeepsList(s, op, running, f.remote))
  {
    match op {
      case Reapply => CompleteStep(s, FindSelected);
      case RestoreOwn => CompleteStep(s, FindEngine);
      case ToClassic => SwapIs(s, None);
      case ToDaemon => ConstructIs(s.(unused := s.unused + 1), s.unused);
      case ReloadDaemon => ConstructIs(s.(unused := s.unused + 1), s.unused);
      case _ =>
    }
  }

  function Window(t: nat): seq<Event> {
    [Do(Connect, false)] + [Micro(t)] + [Micro(t)]
  }

  lemma WindowIs(s: State)
    ensures Runs(s, Window(s.ids)) && OnlyBumping(Window(s.ids))
    ensures var n, s' := s.link.unused, After(s, Window(s.ids));
            && s'.link == s.link.(unused := n + 1, selected := Some(n), slot := Some(Remote(n)))
            && s'.fetches == s.fetches && s.ids in s'.ops && s'.ops[s.ids].CloseMachine?
  {
    var t, e := s.ids, Do(Connect, false);
    var s1 := Next(s, e);
    OneEvent(s, e);
    OneEvent(s1, Micro(t));
    OneEvent(Next(s1, Micro(t)), Micro(t));
    RunConcat(s, [e], [Micro(t)]);
    RunConcat(s, [e] + [Micro(t)], [Micro(t)]);
  }

  /** Every connect opens the window for every good list: after its first two accesses the list is
      accepted, and it is not from the machine now in force. */
  lemma ConnectOpensWindow(s: State, f: nat)
    requires Owned(s.link) && f in s.fetches && Good(s.link, s.fetches[f])
    ensures var es := Window(s.ids);
            && Runs(s, es) && OnlyBumping(es) && After(s, es).fetches == s.fetches
            && Enabled(After(s, es), Render(f)) && Accepted(After(s, es), f)
            && !Current(After(s, es).link, s.fetches[f]) && !NoneUnderway(After(s, es))
  {
    WindowIs(s);
    NewMachineIsNew(s.link, s.fetches[f].remote);
  }

  lemma NewMachineIsNew(s: Link, remote: bool)
    requires Owned(s)
    ensures Effective(s, remote) != Via(Remote(s.unused))
  {}

  // -------------------------------------------------- where the claims fail

  lemma {:induction false} RunConcat(s: State, es: seq<Event>, fs: seq<Event>)
    requires Runs(s, es) && Runs(After(s, es), fs)
    ensures Runs(s, es + fs) && After(s, es + fs) == After(After(s, es), fs)
    decreases |fs|
  {
    if fs == [] {
      assert es + fs == es;
    } else {
      var n := |fs| - 1;
      RunConcat(s, es, fs[..n]);
      assert (es + fs)[..|es + fs| - 1] == es + fs[..n] && (es + fs)[|es + fs| - 1] == fs[n];
    }
  }

  lemma OneEvent(s: State, e: Event)
    requires Enabled(s, e)
    ensures Runs(s, [e]) && After(s, [e]) == Next(s, e)
  {
    assert [e][..0] == [] && Runs(s, []) && After(s, []) == s;
  }

  /** Left alone, an operation under way runs to its end. */
  lemma Finish(s: State, t: nat) returns (fs: seq<Event>)
    requires t in s.ops
    ensures Runs(s, fs) && (forall e <- fs :: e.Micro? && !e.Do?)
    ensures After(s, fs) == s.(link := Complete(s.link, s.ops[t]), ops := s.ops - {t})
    decreases Rank(s.ops[t])
  {
    var next := Next(s, Micro(t));
    OneEvent(s, Micro(t));
    CompleteStep(s.link, s.ops[t]);
    fs := [Micro(t)];
    if t in next.ops {
      assert next.ops - {t} == s.ops - {t};
      var rest := Finish(next, t);
      RunConcat(s, fs, rest);
      fs := fs + rest;
    }
  }

  lemma Whole(s: State, op: Op, running: bool) returns (fs: seq<Event>)
    requires s.ops == map[] && Begin(s.link, op, running).Some?
    ensures Runs(s, fs) && After(s, fs) == s.(link := Perform(s.link, op, running), ids := s.ids + 1)
    ensures forall e <- fs :: e.Do? ==> e.op == op
  {
    var e := Do(op, running);
    OneEvent(s, e);
    var rest := Finish(Next(s, e), s.ids);
    assert Next(s, e).ops - {s.ids} == map[];
    RunConcat(s, [e], rest);
    fs := [e] + rest;
  }

  /** Two overlapping connects (the Debug API connects from its own goroutine): the one that selected
      first installs last, and the override ends up on a closed machine that is not selected. */
  lemma OverlapBreaksOwnership() returns (es: seq<Event>)
    ensures Runs(Start, es) && OnlyBumping(es)
    ensures var s := After(Start, es);
            s.ops == map[] && s.link.slot == Some(Remote(0)) && Remote(0) in s.link.closed
            && s.link.selected == Some(1)
  {
    var fs := FirstSelects();
    var s := After(Start, fs);
    OneEvent(s, Do(Connect, false));
    var s1 := Next(s, Do(Connect, false));
    var second := Finish(s1, 1);
    ConnectIs(s1.link, 1);
    var s2 := After(s1, second);
    assert s2.ops == map[0 := Install(0, None)];
    var first := Finish(s2, 0);
    InstallIs(s2.link, 0);
    RunConcat(s, [Do(Connect, false)], second);
    RunConcat(s, [Do(Connect, false)] + second, first);
    RunConcat(Start, fs, [Do(Connect, false)] + second + first);
    es := fs + ([Do(Connect, false)] + second + first);
  }

  lemma FirstSelects() returns (fs: seq<Event>)
    ensures Runs(Start, fs) && OnlyBumping(fs)
    ensures After(Start, fs)
            == State(Initial.(unused := 1, selected := Some(0)), map[0 := Install(0, None)], map[], 1)
  {
    var e, s := Do(Connect, false), State(Initial.(unused := 1), map[0 := Select(0)], map[], 1);
    OneEvent(Start, e);
    assert Next(Start, e) == s;
    OneEvent(s, Micro(0));
    RunConcat(Start, [e], [Micro(0)]);
    fs := [e] + [Micro(0)];
  }

  lemma InstallIs(s: Link, n: nat)
    ensures Complete(s, Install(n, None)) == s.(slot := Some(Remote(n)), gen := s.gen + 1)
  {
    CompleteStep(s, Install(n, None));
    TailIs(s.(slot := Some(Remote(n))), None);
  }

  /** Daemon mode with machine 1 selected and installed. */
  const Watching := Link(Some(Remote(1)), Some(0), Some(1), None, 1, {}, 2)

  lemma EngineUp() returns (es: seq<Event>)
    ensures Runs(Start, es) && After(Start, es) == State(Link(Some(Daemon(0)), Some(0), None, None, 0, {}, 1), map[], map[], 1)
  {
    es := Whole(Start, ToDaemon, false);
    ConstructIs(Initial.(unused := 1), 0);
  }

  lemma MachineUp() returns (es: seq<Event>)
    ensures Runs(Start, es) && After(Start, es) == State(Watching, map[], map[], 2)
  {
    var before := EngineUp();
    var s := After(Start, before);
    var fs := Whole(s, Connect, false);
    ConnectIs(s.link.(unused := 2), 1);
    RunConcat(Start, before, fs);
    es := before + fs;
  }

  /** A tab switch between the read of the endpoint and the render does not bump the generation: the
      machine's list is accepted although the local engine's transport is in force. */
  lemma TabSwitchLetsStaleListThrough() returns (es: seq<Event>)
    ensures Runs(Start, es)
    ensures var s := After(Start, es);
            && Enabled(s, Render(2)) && Accepted(s, 2)
            && s.fetches[2].from == Via(Remote(1)) && Effective(s.link, true) == Via(Daemon(0))
  {
    var before := ListLoaded();
    var s := After(Start, before);
    var back := Whole(s, RestoreOwn, false);
    CompleteStep(s.link, FindEngine);
    RunConcat(Start, before, back);
    es := before + back;
  }

  lemma BumpingConcat(es: seq<Event>, fs: seq<Event>)
    requires OnlyBumping(es) && OnlyBumping(fs)
    ensures OnlyBumping(es + fs)
  {}

  /** The window in a run of Sets alone: connected to machine 0 with its list on the way, a second connect
      reaches its bump only after the list is rendered. */
  lemma StaleListMidConnect() returns (es: seq<Event>)
    ensures Runs(Start, es) && OnlyBumping(es)
    ensures var s := After(Start, es);
            && Enabled(s, Render(1)) && Accepted(s, 1)
            && s.fetches[1].from != Effective(s.link, s.fetches[1].remote)
  {
    var before := MachineListLoaded();
    var s := After(Start, before);
    ConnectOpensWindow(s, 1);
    RunConcat(Start, before, Window(s.ids));
    BumpingConcat(before, Window(s.ids));
    es := before + Window(s.ids);
  }

  lemma MachineListLoaded() returns (es: seq<Event>)
    ensures Runs(Start, es) && OnlyBumping(es)
    ensures After(Start, es) == State(Link(Some(Remote(0)), None, Some(0), None, 1, {}, 1), map[],
                                      map[1 := Resolved(1, true, Via(Remote(0)))], 2)
  {
    var first := Whole(Start, Connect, false);
    ConnectIs(Initial.(unused := 1), 0);
    var loaded := LoadResolve(After(Start, first));
    RunConcat(Start, first, loaded);
    BumpingConcat(first, loaded);
    es := first + loaded;
  }

  /** A list of the Remote scope fetched through the slot. */
  /** Undisturbed, a fetch of either scope reads the endpoint in force, and its list is accepted. */
  lemma QuietFetch(s: State, remote: bool) returns (es: seq<Event>)
    ensures Runs(s, es) && OnlyBumping(es)
    ensures var s' := After(s, es);
            && s'.link == s.link && s'.ops == s.ops && s.ids in s'.fetches
            && s'.fetches[s.ids] == Resolved(s.link.gen, remote, Effective(s.link, remote))
            && Enabled(s', Render(s.ids)) && Accepted(s', s.ids)
            && Next(s', Render(s.ids)) == s'.(fetches := s'.fetches - {s.ids})
  {
    var s1 := Next(s, Load(remote));
    OneEvent(s, Load(remote));
    var rest := QuietReads(s1, s.ids);
    RunConcat(s, [Load(remote)], rest);
    es := [Load(remote)] + rest;
  }

  /** The reads that are left. */
  function Unread(f: Fetch): nat {
    match f case Captured(_, _) => 3 case NoSlot(_, _) => 2 case NoMachine(_) => 1 case Resolved(_, _, _) => 0
  }

  predicate OnTrack(s: Link, f: Fetch, remote: bool) {
    match f
    case Captured(_, r) => r == remote
    case NoSlot(_, r) => remote && r && s.slot.None?
    case NoMachine(_) => remote && s.slot.None? && s.selected.None?
    case Resolved(_, r, from) => r == remote && from == Effective(s, remote)
  }

  lemma {:induction false} QuietReadsOn(s: State, f: nat, remote: bool) returns (es: seq<Event>)
    requires f in s.fetches && OnTrack(s.link, s.fetches[f], remote)
    ensures Runs(s, es) && OnlyBumping(es)
    ensures After(s, es)
            == s.(fetches := s.fetches[f := Resolved(s.fetches[f].gen, remote, Effective(s.link, remote))])
    decreases Unread(s.fetches[f])
  {
    if s.fetches[f].Resolved? {
      es := [];
    } else {
      var s1 := Next(s, Resolve(f));
      OneEvent(s, Resolve(f));
      var rest := QuietReadsOn(s1, f, remote);
      RunConcat(s, [Resolve(f)], rest);
      es := [Resolve(f)] + rest;
    }
  }

  lemma QuietReads(s: State, f: nat) returns (es: seq<Event>)
    requires f in s.fetches && s.fetches[f].Captured?
    ensures Runs(s, es) && OnlyBumping(es)
    ensures var was := s.fetches[f];
            After(s, es)
            == s.(fetches := s.fetches[f := Resolved(was.gen, was.remote, Effective(s.link, was.remote))])
  {
    es := QuietReadsOn(s, f, s.fetches[f].remote);
  }

  lemma LoadResolve(s: State) returns (es: seq<Event>)
    requires s.link.slot.Some?
    ensures Runs(s, es) && OnlyBumping(es)
    ensures After(s, es) == s.(ids := s.ids + 1,
                               fetches := s.fetches[s.ids := Resolved(s.link.gen, true, Via(s.link.slot.value))])
  {
    var s1 := Next(s, Load(true));
    OneEvent(s, Load(true));
    OneEvent(s1, Resolve(s.ids));
    RunConcat(s, [Load(true)], [Resolve(s.ids)]);
    es := [Load(true)] + [Resolve(s.ids)];
    var got := Resolved(s.link.gen, true, Via(s.link.slot.value));
    assert s1.fetches[s.ids := got] == s.fetches[s.ids := got];
  }

  lemma ListLoaded() returns (es: seq<Event>)
    ensures Runs(Start, es)
    ensures After(Start, es) == State(Watching, map[], map[2 := Resolved(1, true, Via(Remote(1)))], 3)
  {
    var before := MachineUp();
    var s := After(Start, before);
    var loaded := LoadResolve(s);
    RunConcat(Start, before, loaded);
    es := before + loaded;
  }
}
