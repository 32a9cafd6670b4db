/** Two operations at once: the Debug API connects and disconnects from its own goroutine while the UI
    switches tabs and engines.  Exactly when every schedule of the two leaves the override owned. */
module TransportOverlap {
  import opened Basics
  import opened Transport

  // ------------------------------------------------------------ two operations

  function Size(p: Option<Pc>): nat {
    if p.Some? then Rank(p.value) + 1 else 0
  }

  function Go(s: Link, p: Pc): Link { Step(s, p).0 }

  function Then(s: Link, p: Pc): (next: Option<Pc>)
    ensures Size(next) < Size(Some(p))
  {
    Step(s, p).1
  }

  /** Every schedule of what is left of two operations ends with ownership. */
  ghost predicate AllOwned(s: Link, a: Option<Pc>, b: Option<Pc>)
    decreases Size(a) + Size(b)
  {
    && (a.None? && b.None? ==> Owned(s))
    && (a.Some? ==> AllOwned(Go(s, a.value), Then(s, a.value), b))
    && (b.Some? ==> AllOwned(Go(s, b.value), a, Then(s, b.value)))
  }

  lemma {:induction false} AllOwnedSwaps(s: Link, a: Option<Pc>, b: Option<Pc>)
    ensures AllOwned(s, a, b) <==> AllOwned(s, b, a)
    decreases Size(a) + Size(b)
  {
    if a.Some? { AllOwnedSwaps(Go(s, a.value), Then(s, a.value), b); }
    if b.Some? { AllOwnedSwaps(Go(s, b.value), a, Then(s, b.value)); }
  }

  /** Run to its end, if there is anything to run. */
  function Rest(s: Link, p: Option<Pc>): Link {
    if p.Some? then Complete(s, p.value) else s
  }

  lemma {:induction false} OneThenOther(s: Link, a: Option<Pc>, b: Option<Pc>)
    requires AllOwned(s, a, b)
    ensures Owned(Rest(Rest(s, a), b))
    decreases Size(a) + Size(b)
  {
    if a.Some? {
      CompleteStep(s, a.value);
      OneThenOther(Go(s, a.value), Then(s, a.value), b);
    } else if b.Some? {
      CompleteStep(s, b.value);
      OneThenOther(Go(s, b.value), a, Then(s, b.value));
    }
  }

  // ---------------------------------------------------------- the exact table

  /** It will change the selection. */
  predicate Moves(p: Pc) {
    p.Select? || p.TestSlot? || p.DropSlot? || p.FindOwn? || p.OwnBack? || p.Unselect?
  }

  /** It will change the engine, to p.next. */
  predicate Swaps(p: Pc) {
    p.Construct? || p.CloseEngine? || p.TestOwn? || p.DropOwn? || p.CloseConn? || p.Publish?
  }

  function NextEngine(p: Pc): Option<nat>
    requires Swaps(p)
  {
    if p.Construct? then Some(p.n) else p.next
  }

  /** y takes the selection away from machine n. */
  predicate Deselects(y: Pc, n: nat) {
    Moves(y) && (y.Select? ==> y.n != n)
  }

  /** y takes the place of engine d. */
  predicate Replaces(y: Pc, d: nat) {
    Swaps(y) && NextEngine(y) != Some(d)
  }

  /** x will put something into the slot, or knows already what, that y makes obsolete first. */
  predicate Harms(s: Link, x: Pc, y: Pc) {
    match x
    case Select(n) => Deselects(y, n)
    case Install(n, _) => Deselects(y, n)
    case PutSelected(n) => Deselects(y, n)
    case FindSelected => s.selected.Some? && Deselects(y, s.selected.value)
    case PutEngine(d) => Replaces(y, d)
    case Reinstall(d) => Replaces(y, d)
    case OwnBack(own) => own.Some? && Replaces(y, own.value)
    case FindEngine => s.engine.Some? && Replaces(y, s.engine.value)
    case FindOwn => s.engine.Some? && Replaces(y, s.engine.value)
    case DropSlot => s.engine.Some? && Replaces(y, s.engine.value)
    case TestSlot => s.slot.Some? && s.slot.value.Remote? && s.engine.Some? && Replaces(y, s.engine.value)
    case _ => Swaps(x) && NextEngine(x).Some? && Replaces(y, NextEngine(x).value)
  }

  ghost predicate Calm(s: Link, a: Option<Pc>, b: Option<Pc>) {
    a.Some? && b.Some? ==> !Harms(s, a.value, b.value) && !Harms(s, b.value, a.value)
  }

  // ------------------------------------------------------- the unsafe overlaps

  /** Its next access does the damage. */
  predicate Critical(x: Pc) {
    x.Install? || x.PutSelected? || x.PutEngine? || x.Reinstall? || x.OwnBack?
  }

  lemma HarmNow(s: Link, x: Pc, y: Pc)
    requires Harms(s, x, y) && Critical(x)
    ensures !Owned(Complete(Complete(s, y), x))
  {
    OutcomeIs(s, y);
    OutcomeIs(Outcome(s, y), x);
  }

  lemma HarmStays(s: Link, x: Pc, y: Pc)
    requires Harms(s, x, y) && !Critical(x)
    ensures Then(s, x).Some? && Harms(Go(s, x), Then(s, x).value, y)
    ensures Rank(Then(s, x).value) < Rank(x)
  {}

  lemma {:induction false} HarmIsDone(s: Link, x: Pc, y: Pc)
    requires Harms(s, x, y)
    ensures !AllOwned(s, Some(x), Some(y))
    decreases Rank(x)
  {
    if Critical(x) {
      HarmNow(s, x, y);
      AllOwnedSwaps(s, Some(x), Some(y));
      if AllOwned(s, Some(y), Some(x)) { OneThenOther(s, Some(y), Some(x)); }
    } else {
      HarmStays(s, x, y);
      HarmIsDone(Go(s, x), Then(s, x).value, y);
    }
  }

  // --------------------------------------------------------- the safe overlaps

  function Tail(s: Link, prev: Option<nat>): Link {
    s.(closed := Closing(s, prev), gen := s.gen + 1)
  }

  function Swapped(s: Link, next: Option<nat>, left: Option<Transport>): Link {
    s.(engine := next, slot := if next.Some? then Some(Daemon(next.value)) else left)
  }

  function WithoutOwn(s: Link, was: nat): Option<Transport> {
    if s.slot == Some(Daemon(was)) then None else s.slot
  }

  function Closed(s: Link, was: nat): Link {
    s.(closed := s.closed + {Daemon(was)})
  }

  function Unselected(s: Link): Link {
    Tail(s.(selected := None), s.selected)
  }

  function Restored(s: Link): Link {
    s.(slot := if s.engine.Some? then Own(s) else s.slot)
  }

  /** Where what is left of an operation leads when nothing interferes. */
  function Outcome(s: Link, p: Pc): Link {
    match p
    case Select(n) => Tail(s.(selected := Some(n), slot := Some(Remote(n))), s.selected)
    case Install(n, prev) => Tail(s.(slot := Some(Remote(n))), prev)
    case TestSlot =>
      Unselected(if s.slot.Some? && s.slot.value.Remote? then Restored(s.(slot := None)) else s)
    case DropSlot => Unselected(Restored(s.(slot := None)))
    case FindOwn => Unselected(Restored(s))
    case OwnBack(own) => Unselected(if own.Some? then s.(slot := Some(Daemon(own.value))) else s)
    case Unselect => Unselected(s)
    case CloseMachine(prev) => Tail(s, prev)
    case Bump => s.(gen := s.gen + 1)
    case FindSelected => if s.selected.Some? then s.(slot := Some(Remote(s.selected.value))) else s
    case PutSelected(n) => s.(slot := Some(Remote(n)))
    case FindEngine => Restored(s)
    case PutEngine(n) => s.(slot := Some(Daemon(n)))
    case Construct(n) =>
      Swapped(if s.engine.Some? then Closed(s, s.engine.value) else s, Some(n), None)
    case CloseEngine(next) =>
      if s.engine.Some? then Swapped(Closed(s, s.engine.value), next, WithoutOwn(s, s.engine.value))
      else Swapped(s, next, s.slot)
    case TestOwn(was, next) => Swapped(Closed(s, was), next, WithoutOwn(s, was))
    case DropOwn(was, next) => Swapped(Closed(s, was), next, None)
    case CloseConn(was, next) => Swapped(Closed(s, was), next, s.slot)
    case Publish(next) => Swapped(s, next, s.slot)
    case Reinstall(n) => s.(slot := Some(Daemon(n)))
    case WriteClash(value) => s.(clash := value, gen := s.gen + 1)
  }

  lemma OutcomeStep(s: Link, p: Pc)
    ensures Outcome(s, p) == if Then(s, p).Some? then Outcome(Go(s, p), Then(s, p).value) else Go(s, p)
  {}

  lemma {:induction false} OutcomeIs(s: Link, p: Pc)
    ensures Complete(s, p) == Outcome(s, p)
    decreases Rank(p)
  {
    CompleteStep(s, p);
    OutcomeStep(s, p);
    if Then(s, p).Some? { OutcomeIs(Go(s, p), Then(s, p).value); }
  }

  function Ends(s: Link, p: Option<Pc>): Link {
    if p.Some? then Outcome(s, p.value) else s
  }

  /** Both orders end owned and neither operation harms the other. */
  ghost predicate Peace(s: Link, a: Option<Pc>, b: Option<Pc>) {
    Calm(s, a, b) && Owned(Ends(Ends(s, a), b)) && Owned(Ends(Ends(s, b), a))
  }

  lemma StepKeepsAim(s: Link, b: Pc, n: nat)
    requires Then(s, b).Some?
    ensures var b' := Then(s, b).value;
            && (Deselects(b', n) ==> Deselects(b, n) && Go(s, b).selected == s.selected)
            && (Replaces(b', n) ==> Replaces(b, n) && Go(s, b).engine == s.engine)
            && (Replaces(b', n) && Go(s, b).slot != s.slot ==> Go(s, b).slot.None? || Go(s, b).slot.value.Daemon?)
  {}

  lemma CalmForFirst(s: Link, a: Pc, b: Pc)
    requires !Harms(s, a, b) && Then(s, b).Some?
    ensures !Harms(Go(s, b), a, Then(s, b).value)
  {
    forall n: nat
      ensures var b' := Then(s, b).value;
              && (Deselects(b', n) ==> Deselects(b, n) && Go(s, b).selected == s.selected)
              && (Replaces(b', n) ==> Replaces(b, n) && Go(s, b).engine == s.engine)
              && (Replaces(b', n) && Go(s, b).slot != s.slot ==>
                    Go(s, b).slot.None? || Go(s, b).slot.value.Daemon?)
    {
      StepKeepsAim(s, b, n);
    }
  }

  lemma CalmForSecond(s: Link, a: Pc, b: Pc)
    requires !Harms(s, b, a) && Then(s, b).Some?
    ensures !Harms(Go(s, b), Then(s, b).value, a)
  {}

  /** Owned does not look at the generation nor at the Clash override. */
  function Core(s: Link): Link { s.(gen := 0, clash := None) }

  lemma SameCore(s: Link, t: Link, p: Pc)
    requires Core(s) == Core(t)
    ensures Core(Outcome(s, p)) == Core(Outcome(t, p))
  {}

  lemma OwnedCore(s: Link)
    ensures Owned(s) <==> Owned(Core(s))
  {}

  lemma ClosingCommutes(s: Link, a: Pc, more: set<Transport>)
    ensures var s', t := s.(closed := s.closed + more), Outcome(s, a);
            Outcome(s', a) == t.(closed := t.closed + more)
  {
    assert forall x: set<Transport>, y: set<Transport>, z: set<Transport> {:trigger x + y, x + z} :: x + y + z == x + z + y;
  }

  lemma EngineAfter(s: Link, a: Pc)
    ensures Outcome(s, a).engine == if Swaps(a) then NextEngine(a) else s.engine
  {}

  // After an access of b, a and then the rest of b still end owned; by what b is about to do.

  /** Closing commutes with the other operation. */
  lemma AfterClosing(s: Link, a: Pc, b: Pc)
    requires Peace(s, Some(a), Some(b)) && (b.CloseMachine? || b.CloseConn?)
    ensures Owned(Ends(Outcome(Go(s, b), a), Then(s, b)))
  {
    var more := if b.CloseConn? then {Daemon(b.was)} else if b.prev.Some? then {Remote(b.prev.value)} else {};
    assert Go(s, b).closed == s.closed + more;
    assert Go(s, b) == s.(closed := s.closed + more);
    ClosingCommutes(s, a, more);
    OwnedCore(Ends(Outcome(Go(s, b), a), Then(s, b)));
    OwnedCore(Ends(Outcome(s, a), Some(b)));
  }

  /** So do the generation and the Clash override. */
  lemma AfterMarking(s: Link, a: Pc, b: Pc)
    requires Peace(s, Some(a), Some(b)) && (b.Bump? || b.WriteClash?)
    ensures Owned(Ends(Outcome(Go(s, b), a), Then(s, b)))
  {
    SameCore(s, Go(s, b), a);
    OwnedCore(Ends(Outcome(Go(s, b), a), Then(s, b)));
    OwnedCore(Ends(Outcome(s, a), Some(b)));
  }

  /** The selection. */
  lemma AfterSelecting(s: Link, a: Pc, b: Pc)
    requires Peace(s, Some(a), Some(b)) && (b.Select? || b.FindSelected?)
    ensures Owned(Ends(Outcome(Go(s, b), a), Then(s, b)))
  {}

  /** A connect goes into the slot. */
  lemma AfterInstalling(s: Link, a: Pc, b: Pc)
    requires Peace(s, Some(a), Some(b)) && b.Install?
    ensures Owned(Ends(Outcome(Go(s, b), a), Then(s, b)))
  {
    SlotAside(s, Go(s, b).slot, a);
  }

  /** So does a reapply. */
  lemma AfterReapplying(s: Link, a: Pc, b: Pc)
    requires Peace(s, Some(a), Some(b)) && b.PutSelected?
    ensures Owned(Ends(Outcome(Go(s, b), a), Then(s, b)))
  {
    SlotAside(s, Go(s, b).slot, a);
  }

  /** The disconnect, access by access. */
  lemma AfterTestingSlot(s: Link, a: Pc, b: Pc)
    requires Peace(s, Some(a), Some(b)) && b.TestSlot?
    ensures Owned(Ends(Outcome(Go(s, b), a), Then(s, b)))
  {}

  /** Drop the override. */
  lemma AfterDroppingSlot(s: Link, a: Pc, b: Pc)
    requires Peace(s, Some(a), Some(b)) && b.DropSlot?
    ensures Owned(Ends(Outcome(Go(s, b), a), Then(s, b)))
  {}

  /** The engine to put back is read. */
  lemma AfterFindingOwn(s: Link, a: Pc, b: Pc)
    requires Peace(s, Some(a), Some(b)) && b.FindOwn?
    ensures Owned(Ends(Outcome(Go(s, b), a), Then(s, b)))
  {}

  /** Its transport goes into the slot. */
  lemma AfterPuttingOwn(s: Link, a: Pc, b: Pc)
    requires Peace(s, Some(a), Some(b)) && b.OwnBack?
    ensures Owned(Ends(Outcome(Go(s, b), a), Then(s, b)))
  {
    SlotAside(s, Go(s, b).slot, a);
  }

  /** Give up the selection. */
  lemma AfterUnselecting(s: Link, a: Pc, b: Pc)
    requires Peace(s, Some(a), Some(b)) && b.Unselect?
    ensures Owned(Ends(Outcome(Go(s, b), a), Then(s, b)))
  {}

  /** The engine goes into the slot. */
  lemma AfterRestoring(s: Link, a: Pc, b: Pc)
    requires Peace(s, Some(a), Some(b)) && (b.FindEngine? || b.PutEngine? || b.Reinstall?)
    ensures Owned(Ends(Outcome(Go(s, b), a), Then(s, b)))
  {}

  /** A new engine takes the slot at once. */
  lemma AfterConstructing(s: Link, a: Pc, b: Pc)
    requires Peace(s, Some(a), Some(b)) && b.Construct?
    ensures Owned(Ends(Outcome(Go(s, b), a), Then(s, b)))
  {
    SlotAside(s, Some(Daemon(b.n)), a);
  }

  /** The swap reads the engine to close. */
  lemma AfterReadingEngine(s: Link, a: Pc, b: Pc)
    requires Peace(s, Some(a), Some(b)) && b.CloseEngine?
    ensures Owned(Ends(Outcome(Go(s, b), a), Then(s, b)))
  {
    EngineAfter(s, a);
    if Swaps(a) { AfterReadingEngineTwice(s, a, b); }
  }

  /** Two swaps that agree on the next engine: both go back to the classic one. */
  lemma AfterReadingEngineTwice(s: Link, a: Pc, b: Pc)
    requires Peace(s, Some(a), Some(b)) && b.CloseEngine? && Swaps(a)
    ensures Owned(Ends(Outcome(Go(s, b), a), Then(s, b)))
  {
    var t := Outcome(s, a);
    EngineAfter(s, a);
    SwapsAgree(s, a, b);
    assert b.next.None? && t.engine.None? && Owned(t);
    if s.engine.Some? {
      ClosedStays(Outcome(s, b), a);
      assert Daemon(s.engine.value) in Outcome(s, b).closed;
    }
  }

  lemma SwapsAgree(s: Link, a: Pc, b: Pc)
    requires Peace(s, Some(a), Some(b)) && Swaps(a) && Swaps(b)
    ensures NextEngine(a) == NextEngine(b)
    ensures b.CloseEngine? ==> b.next.None?
  {
    EngineAfter(s, a);
  }

  lemma ClosedStays(s: Link, a: Pc)
    ensures s.closed <= Outcome(s, a).closed && Outcome(s, a).unused == s.unused
  {}

  /** Beside a swap to the classic engine nothing puts an engine into the slot. */
  lemma NoEngineComes(s: Link, a: Pc, b: Pc)
    requires !Harms(s, a, b) && Swaps(b) && NextEngine(b).None?
    ensures var slot := Outcome(s, a).slot;
            slot == s.slot || slot.None? || slot.value.Remote?
  {}

  /** The engine to close looks at the slot. */
  lemma AfterTestingOwn(s: Link, a: Pc, b: Pc)
    requires Peace(s, Some(a), Some(b)) && b.TestOwn?
    ensures Owned(Ends(Outcome(Go(s, b), a), Then(s, b)))
  {
    if b.next.None? { NoEngineComes(s, a, b); }
  }

  /** It takes its transport out. */
  lemma AfterDroppingOwn(s: Link, a: Pc, b: Pc)
    requires Peace(s, Some(a), Some(b)) && b.DropOwn?
    ensures Owned(Ends(Outcome(Go(s, b), a), Then(s, b)))
  {
    SlotAside(s, None, a);
    if Swaps(a) { SwapsAgree(s, a, b); }
  }

  /** Everything but the slot comes out the same whatever is in the slot. */
  lemma SlotAside(s: Link, slot: Option<Transport>, a: Pc)
    ensures Outcome(s.(slot := slot), a) == Outcome(s, a).(slot := Outcome(s.(slot := slot), a).slot)
  {}

  /** The next engine is published. */
  lemma AfterPublishing(s: Link, a: Pc, b: Pc)
    requires Peace(s, Some(a), Some(b)) && b.Publish?
    ensures Owned(Ends(Outcome(Go(s, b), a), Then(s, b)))
  {}

  lemma OwnedStays(s: Link, a: Pc, b: Pc)
    requires Peace(s, Some(a), Some(b))
    ensures Owned(Ends(Outcome(Go(s, b), a), Then(s, b)))
  {
    match b {
      case CloseMachine(_) => AfterClosing(s, a, b);
      case CloseConn(_, _) => AfterClosing(s, a, b);
      case Bump => AfterMarking(s, a, b);
      case WriteClash(_) => AfterMarking(s, a, b);
      case Select(_) => AfterSelecting(s, a, b);
      case FindSelected => AfterSelecting(s, a, b);
      case Install(_, _) => AfterInstalling(s, a, b);
      case PutSelected(_) => AfterReapplying(s, a, b);
      case TestSlot => AfterTestingSlot(s, a, b);
      case DropSlot => AfterDroppingSlot(s, a, b);
      case FindOwn => AfterFindingOwn(s, a, b);
      case OwnBack(_) => AfterPuttingOwn(s, a, b);
      case Unselect => AfterUnselecting(s, a, b);
      case FindEngine => AfterRestoring(s, a, b);
      case PutEngine(_) => AfterRestoring(s, a, b);
      case Reinstall(_) => AfterRestoring(s, a, b);
      case Construct(_) => AfterConstructing(s, a, b);
      case CloseEngine(_) => AfterReadingEngine(s, a, b);
      case TestOwn(_, _) => AfterTestingOwn(s, a, b);
      case DropOwn(_, _) => AfterDroppingOwn(s, a, b);
      case Publish(_) => AfterPublishing(s, a, b);
    }
  }

  lemma PeaceStays(s: Link, a: Option<Pc>, b: Pc)
    requires Peace(s, a, Some(b))
    ensures Peace(Go(s, b), a, Then(s, b))
  {
    OutcomeStep(s, b);
    if a.Some? {
      if Then(s, b).Some? {
        CalmForFirst(s, a.value, b);
        CalmForSecond(s, a.value, b);
      }
      OwnedStays(s, a.value, b);
    }
  }

  lemma {:induction false} PeaceHolds(s: Link, a: Option<Pc>, b: Option<Pc>)
    requires Peace(s, a, b)
    ensures AllOwned(s, a, b)
    decreases Size(a) + Size(b)
  {
    if a.Some? {
      PeaceStays(s, b, a.value);
      PeaceHolds(Go(s, a.value), Then(s, a.value), b);
    }
    if b.Some? {
      PeaceStays(s, a, b.value);
      PeaceHolds(Go(s, b.value), a, Then(s, b.value));
    }
  }

  // ------------------------------------------------------------------ beginning

  /** The engine is one that was made. */
  predicate Known(s: Link) {
    s.engine.Some? ==> s.engine.value < s.unused
  }

  /** The first access of an operation, made on a link where object n was the next one. */
  predicate Starts(p: Pc, n: nat) {
    match p
    case Select(m) => m == n
    case Construct(m) => m == n
    case TestSlot => true
    case FindSelected => true
    case FindEngine => true
    case CloseEngine(next) => next.None?
    case WriteClash(_) => true
    case _ => false
  }

  lemma BeginStarts(s: Link, op: Op, running: bool)
    ensures var p := Begin(s, op, running);
            p.Some? ==> Starts(p.value, s.unused) && Allocate(s, p.value).unused >= s.unused
  {}

  lemma UnusedAside(s: Link, more: nat, p: Pc)
    ensures Outcome(s.(unused := more), p) == Outcome(s, p).(unused := more)
  {}

  lemma OneMore(s: Link)
    requires Owned(s)
    ensures Owned(s.(unused := s.unused + 1))
  {}

  lemma StartAlone(s: Link, f: Pc)
    requires Owned(s) && Starts(f, s.unused)
    ensures Owned(Outcome(Allocate(s, f), f))
  {}

  /** The first operation still ends owned when the second runs before it. */
  lemma StartFirst(s: Link, p: Pc, f: Pc)
    requires Begins(s, p, f)
    ensures Owned(Outcome(Outcome(Allocate(s, f), f), p))
  {
    match f {
      case Select(_) => StartConnect(s, p, f);
      case TestSlot => StartDisconnect(s, p, f);
      case FindSelected => StartReapply(s, p, f);
      case FindEngine => StartRestore(s, p, f);
      case CloseEngine(_) => StartClassic(s, p, f);
      case Construct(_) => StartDaemon(s, p, f);
      case WriteClash(_) => StartClash(s, p, f);
    }
  }

  ghost predicate Begins(s: Link, p: Pc, f: Pc) {
    && Owned(Outcome(s, p)) && Starts(f, s.unused) && Known(s)
    && !Harms(Allocate(s, f), p, f) && !Harms(Allocate(s, f), f, p)
  }

  lemma StartConnect(s: Link, p: Pc, f: Pc)
    requires Begins(s, p, f) && f.Select?
    ensures Owned(Outcome(Outcome(Allocate(s, f), f), p))
  {
    if Swaps(p) { StartConnectWhileSwapping(s, p, f); } else { StartConnectOtherwise(s, p, f); }
  }

  lemma StartConnectWhileSwapping(s: Link, p: Pc, f: Pc)
    requires Begins(s, p, f) && f.Select? && Swaps(p)
    ensures Owned(Outcome(Outcome(Allocate(s, f), f), p))
  {}

  lemma StartConnectOtherwise(s: Link, p: Pc, f: Pc)
    requires Begins(s, p, f) && f.Select? && !Swaps(p)
    ensures Owned(Outcome(Outcome(Allocate(s, f), f), p))
  {}

  lemma StartDisconnect(s: Link, p: Pc, f: Pc)
    requires Begins(s, p, f) && f.TestSlot?
    ensures Owned(Outcome(Outcome(Allocate(s, f), f), p))
  {
    if Moves(p) {
      StartDisconnectWhileMoving(s, p, f);
    } else if Swaps(p) {
      StartDisconnectWhileSwapping(s, p, f);
    } else {
      StartDisconnectOtherwise(s, p, f);
    }
  }

  lemma StartDisconnectWhileMoving(s: Link, p: Pc, f: Pc)
    requires Begins(s, p, f) && f.TestSlot? && Moves(p)
    ensures Owned(Outcome(Outcome(Allocate(s, f), f), p))
  {}

  lemma StartDisconnectWhileSwapping(s: Link, p: Pc, f: Pc)
    requires Begins(s, p, f) && f.TestSlot? && Swaps(p)
    ensures Owned(Outcome(Outcome(Allocate(s, f), f), p))
  {}

  lemma StartDisconnectOtherwise(s: Link, p: Pc, f: Pc)
    requires Begins(s, p, f) && f.TestSlot? && !Moves(p) && !Swaps(p)
    ensures Owned(Outcome(Outcome(Allocate(s, f), f), p))
  {}

  lemma StartReapply(s: Link, p: Pc, f: Pc)
    requires Begins(s, p, f) && f.FindSelected?
    ensures Owned(Outcome(Outcome(Allocate(s, f), f), p))
  {}

  lemma StartRestore(s: Link, p: Pc, f: Pc)
    requires Begins(s, p, f) && f.FindEngine?
    ensures Owned(Outcome(Outcome(Allocate(s, f), f), p))
  {}

  lemma StartClassic(s: Link, p: Pc, f: Pc)
    requires Begins(s, p, f) && f.CloseEngine?
    ensures Owned(Outcome(Outcome(Allocate(s, f), f), p))
  {
    if Moves(p) {
      StartClassicWhileMoving(s, p, f);
    } else if Swaps(p) {
      StartClassicWhileSwapping(s, p, f);
    } else {
      StartClassicOtherwise(s, p, f);
    }
  }

  lemma StartClassicWhileMoving(s: Link, p: Pc, f: Pc)
    requires Begins(s, p, f) && f.CloseEngine? && Moves(p)
    ensures Owned(Outcome(Outcome(Allocate(s, f), f), p))
  {}

  lemma StartClassicWhileSwapping(s: Link, p: Pc, f: Pc)
    requires Begins(s, p, f) && f.CloseEngine? && Swaps(p)
    ensures Owned(Outcome(Outcome(Allocate(s, f), f), p))
  {}

  lemma StartClassicOtherwise(s: Link, p: Pc, f: Pc)
    requires Begins(s, p, f) && f.CloseEngine? && !Moves(p) && !Swaps(p)
    ensures Owned(Outcome(Outcome(Allocate(s, f), f), p))
  {}

  lemma StartDaemon(s: Link, p: Pc, f: Pc)
    requires Begins(s, p, f) && f.Construct?
    ensures Owned(Outcome(Outcome(Allocate(s, f), f), p))
  {
    if Moves(p) { StartDaemonWhileMoving(s, p, f); } else { StartDaemonOtherwise(s, p, f); }
  }

  lemma StartDaemonWhileMoving(s: Link, p: Pc, f: Pc)
    requires Begins(s, p, f) && f.Construct? && Moves(p)
    ensures Owned(Outcome(Outcome(Allocate(s, f), f), p))
  {}

  lemma StartDaemonOtherwise(s: Link, p: Pc, f: Pc)
    requires Begins(s, p, f) && f.Construct? && !Moves(p)
    ensures Owned(Outcome(Outcome(Allocate(s, f), f), p))
  {}

  lemma StartClash(s: Link, p: Pc, f: Pc)
    requires Begins(s, p, f) && f.WriteClash?
    ensures Owned(Outcome(Outcome(Allocate(s, f), f), p))
  {}

  lemma StartSecond(s: Link, p: Pc, f: Pc)
    requires Owned(Outcome(s, p)) && Starts(f, s.unused)
    ensures Owned(Outcome(Outcome(Allocate(s, f), p), f))
  {
    UnusedAside(s, s.unused + 1, p);
    ClosedStays(s, p);
    StartAlone(Outcome(s, p), f);
    assert Allocate(Outcome(s, p), f) == Outcome(Allocate(s, f), p);
  }

  lemma StartPeace(s: Link, p: Pc, f: Pc)
    requires Begins(s, p, f)
    ensures Peace(Allocate(s, f), Some(p), Some(f))
  {
    StartFirst(s, p, f);
    StartSecond(s, p, f);
  }

  // ------------------------------------------------------------- in every run

  predicate OnlyMicros(es: seq<Event>) {
    forall i | 0 <= i < |es| :: es[i].Micro?
  }

  /** Every way to run the operations under way to their ends. */
  ghost predicate AlwaysOwned(s: State) {
    forall es :: Runs(s, es) && OnlyMicros(es) && After(s, es).ops == map[] ==> Owned(After(s, es).link)
  }

  function Left(s: State, t: nat): Option<Pc> {
    if t in s.ops then Some(s.ops[t]) else None
  }

  ghost predicate Two(s: State, t: nat, u: nat) {
    t != u && s.ops.Keys <= {t, u}
  }

  lemma MicroSteps(s: State, t: nat, u: nat, e: Event)
    requires Two(s, t, u) && AllOwned(s.link, Left(s, t), Left(s, u)) && Enabled(s, e) && e.Micro?
    ensures Two(Next(s, e), t, u) && AllOwned(Next(s, e).link, Left(Next(s, e), t), Left(Next(s, e), u))
  {}

  lemma {:induction false} MicroRun(s: State, t: nat, u: nat, es: seq<Event>)
    requires Two(s, t, u) && AllOwned(s.link, Left(s, t), Left(s, u)) && Runs(s, es) && OnlyMicros(es)
    ensures Two(After(s, es), t, u) && AllOwned(After(s, es).link, Left(After(s, es), t), Left(After(s, es), u))
    decreases |es|
  {
    if es != [] {
      MicroRun(s, t, u, es[..|es| - 1]);
      MicroSteps(After(s, es[..|es| - 1]), t, u, es[|es| - 1]);
    }
  }

  lemma {:induction false} BadSchedule(s: State, t: nat, u: nat) returns (es: seq<Event>)
    requires Two(s, t, u) && !AllOwned(s.link, Left(s, t), Left(s, u))
    ensures Runs(s, es) && OnlyMicros(es) && After(s, es).ops == map[] && !Owned(After(s, es).link)
    decreases Size(Left(s, t)) + Size(Left(s, u))
  {
    if t in s.ops && !AllOwned(Go(s.link, s.ops[t]), Then(s.link, s.ops[t]), Left(s, u)) {
      es := BadRest(s, t, t, u);
    } else if u in s.ops && !AllOwned(Go(s.link, s.ops[u]), Left(s, t), Then(s.link, s.ops[u])) {
      es := BadRest(s, u, t, u);
    } else {
      assert s.ops == map[];
      es := [];
    }
  }

  lemma {:induction false} BadRest(s: State, v: nat, t: nat, u: nat) returns (es: seq<Event>)
    requires Two(s, t, u) && v in s.ops && v in {t, u}
    requires !AllOwned(Next(s, Micro(v)).link, Left(Next(s, Micro(v)), t), Left(Next(s, Micro(v)), u))
    ensures Runs(s, es) && OnlyMicros(es) && After(s, es).ops == map[] && !Owned(After(s, es).link)
    decreases Size(Left(s, t)) + Size(Left(s, u)), 0
  {
    var e := Micro(v);
    assert Size(Then(s.link, s.ops[v])) < Size(Left(s, v));
    var rest := BadSchedule(Next(s, e), t, u);
    OneEvent(s, e);
    RunConcat(s, [e], rest);
    es := [e] + rest;
  }

  lemma AlwaysOwnedIff(s: State, t: nat, u: nat)
    requires Two(s, t, u)
    ensures AlwaysOwned(s) <==> AllOwned(s.link, Left(s, t), Left(s, u))
  {
    if AllOwned(s.link, Left(s, t), Left(s, u)) {
      forall es | Runs(s, es) && OnlyMicros(es) && After(s, es).ops == map[] ensures Owned(After(s, es).link) {
        MicroRun(s, t, u, es);
      }
    } else {
      var es := BadSchedule(s, t, u);
    }
  }

  predicate NumberedPc(p: Pc, unused: nat) {
    match p
    case Construct(n) => n < unused
    case Reinstall(n) => n < unused
    case PutEngine(n) => n < unused
    case _ => Swaps(p) && NextEngine(p).Some? ==> NextEngine(p).value < unused
  }

  ghost predicate Numbered(s: State) {
    Known(s.link) && forall t <- s.ops :: NumberedPc(s.ops[t], s.link.unused)
  }

  lemma NumberedStep(s: State, e: Event)
    requires Numbered(s) && Enabled(s, e)
    ensures Numbered(Next(s, e))
  {}

  /** In every run. */
  lemma {:induction false} EngineIsKnown(es: seq<Event>)
    requires Runs(Start, es)
    ensures Numbered(After(Start, es)) && Known(After(Start, es).link)
    decreases |es|
  {
    if es != [] {
      EngineIsKnown(es[..|es| - 1]);
      NumberedStep(After(Start, es[..|es| - 1]), es[|es| - 1]);
    }
  }

  // -------------------------------------------------------------- the theorem

  /** One operation under way at any access, which alone would keep ownership. */
  ghost predicate Pending(s: State, t: nat) {
    && t in s.ops && s.ops == map[t := s.ops[t]] && t < s.ids
    && Owned(Complete(s.link, s.ops[t])) && Known(s.link)
  }

  /** The further operation returns at once, or neither makes obsolete what the other is about to install. */
  predicate MayOverlap(s: Link, p: Pc, op: Op, running: bool) {
    var f := Begin(s, op, running);
    f.Some? ==> var s' := Allocate(s, f.value); !Harms(s', p, f.value) && !Harms(s', f.value, p)
  }

  /** With any one operation under way, at any access, and any further operation: every schedule of the two
      ends owned, if and only if they may overlap. */
  lemma OverlapIff(s: State, t: nat, op: Op, running: bool)
    requires Pending(s, t)
    ensures AlwaysOwned(Next(s, Do(op, running))) <==> MayOverlap(s.link, s.ops[t], op, running)
  {
    var p, f, s1 := s.ops[t], Begin(s.link, op, running), Next(s, Do(op, running));
    AlwaysOwnedIff(s1, t, s.ids);
    OutcomeIs(s.link, p);
    if f.None? {
      PeaceHolds(s.link, Some(p), None);
    } else {
      BeginStarts(s.link, op, running);
      var link := s1.link;
      if MayOverlap(s.link, p, op, running) {
        StartPeace(s.link, p, f.value);
        PeaceHolds(link, Some(p), f);
      } else if Harms(link, p, f.value) {
        HarmIsDone(link, p, f.value);
      } else {
        HarmIsDone(link, f.value, p);
        AllOwnedSwaps(link, f, Some(p));
      }
    }
  }
}
