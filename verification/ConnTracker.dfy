/** The connection tracker of core/backend_daemon_traffic_darwin.go: a snapshot that a stream reader
    fills event by event while others may copy it, against the history of the stream. */
module ConnTracker {
  import opened Basics

  /** A connection; `data` stands for the fields protoConnToClash copies. */
  datatype Conn = Conn(id: string, data: string)

  /** NEW and UPDATE carry a connection (or none), CLOSED an id. */
  datatype ConnEvent = Changed(conn: Option<Conn>) | Closed(id: string)

  datatype Batch = Batch(reset: bool, events: seq<ConnEvent>)

  datatype Item = Reset | Ev(ev: ConnEvent)

  function Apply(conns: map<string, Conn>, item: Item): map<string, Conn> {
    match item
    case Reset => map[]
    case Ev(Closed(id)) => conns - {id}
    case Ev(Changed(Some(c))) => conns[c.id := c]
    case Ev(Changed(None)) => conns
  }

  function Replay(items: seq<Item>): map<string, Conn> {
    if items == [] then map[] else Apply(Replay(items[..|items| - 1]), items[|items| - 1])
  }

  /** Read backwards: the last item that says something about the connection decides. */
  function LastWord(items: seq<Item>, id: string): Option<Conn> {
    if items == [] then None
    else
      match items[|items| - 1]
      case Reset => None
      case Ev(Closed(gone)) => if gone == id then None else LastWord(items[..|items| - 1], id)
      case Ev(Changed(Some(c))) => if c.id == id then Some(c) else LastWord(items[..|items| - 1], id)
      case Ev(Changed(None)) => LastWord(items[..|items| - 1], id)
  }

  lemma {:induction false} ReplayIsLastWord(items: seq<Item>, id: string)
    ensures (id in Replay(items)) == LastWord(items, id).Some?
    ensures id in Replay(items) ==> Replay(items)[id] == LastWord(items, id).value
  {
    if items != [] {
      ReplayIsLastWord(items[..|items| - 1], id);
    }
  }

  function EventItems(events: seq<ConnEvent>): seq<Item> {
    seq(|events|, i requires 0 <= i < |events| => Ev(events[i]))
  }

  function BatchItems(b: Batch): seq<Item> {
    (if b.reset then [Reset] else []) + EventItems(b.events)
  }

  /** Everything a stream has delivered. */
  function Items(batches: seq<Batch>): seq<Item> {
    if batches == [] then [] else Items(batches[..|batches| - 1]) + BatchItems(batches[|batches| - 1])
  }

  // ------------------------------------------------------------ interleaving

  /** What the reader still has to do with its batch, one locked section each. */
  datatype Todo = DoReset | SetLive | DoEvent(ev: ConnEvent)

  function EventTodos(events: seq<ConnEvent>): seq<Todo> {
    seq(|events|, i requires 0 <= i < |events| => DoEvent(events[i]))
  }

  function Plan(b: Batch): seq<Todo> {
    (if b.reset then [DoReset] else []) + ([SetLive] + EventTodos(b.events))
  }

  datatype State = State(conns: map<string, Conn>, live: bool, todo: seq<Todo>, batches: seq<Batch>, seen: nat)

  const Start := State(map[], false, [], [], 0)

  datatype Event =
    | Receive(b: Batch, active: bool)    // a batch arrives; a superseded backend skips it
    | Work                               // the reader's next locked section
    | StreamEnds                         // markDead

  predicate Enabled(s: State, e: Event) {
    match e
    case Receive(_, _) => s.todo == []
    case Work => s.todo != []
    case StreamEnds => s.todo == []
  }

  function Next(s: State, e: Event): State
    requires Enabled(s, e)
  {
    match e
    case Receive(b, active) => if active then s.(todo := Plan(b), batches := s.batches + [b]) else s
    case Work =>
      (match s.todo[0]
       case DoReset => s.(conns := map[], seen := s.seen + 1, todo := s.todo[1..])
       case SetLive => s.(live := true, todo := s.todo[1..])
       case DoEvent(ev) => s.(conns := Apply(s.conns, Ev(ev)), seen := s.seen + 1, todo := s.todo[1..]))
    case StreamEnds => State(map[], false, [], [], 0)
  }

  ghost predicate Runs(s: State, es: seq<Event>)
    decreases |es|, 0
  {
    es == [] || (Runs(s, es[..|es| - 1]) && Enabled(After(s, es[..|es| - 1]), es[|es| - 1]))
  }

  ghost function After(s: State, es: seq<Event>): State
    requires Runs(s, es)
    decreases |es|, 1
  {
    if es == [] then s else Next(After(s, es[..|es| - 1]), es[|es| - 1])
  }

  function Rest(todo: seq<Todo>): seq<Item> {
    if todo == [] then []
    else
      match todo[0]
      case DoReset => [Reset] + Rest(todo[1..])
      case SetLive => Rest(todo[1..])
      case DoEvent(ev) => [Ev(ev)] + Rest(todo[1..])
  }

  lemma {:induction false} RestOfEvents(events: seq<ConnEvent>)
    ensures Rest(EventTodos(events)) == EventItems(events)
  {
    if events != [] {
      RestOfEvents(events[1..]);
      assert EventTodos(events)[1..] == EventTodos(events[1..]);
    }
  }

  lemma RestOfPlan(b: Batch)
    ensures Rest(Plan(b)) == BatchItems(b)
  {
    RestOfEvents(b.events);
    var tail := [SetLive] + EventTodos(b.events);
    assert tail[1..] == EventTodos(b.events);
    assert Rest(tail) == EventItems(b.events);
    assert Plan(b) == if b.reset then [DoReset] + tail else tail;
    assert ([DoReset] + tail)[1..] == tail;
  }

  /** The map is the replay of what the reader has worked off. */
  ghost predicate Mirrors(s: State) {
    && s.seen <= |Items(s.batches)|
    && s.conns == Replay(Items(s.batches)[..s.seen])
    && Rest(s.todo) == Items(s.batches)[s.seen..]
  }

  ghost predicate GoesLive(s: State) {
    && (s.live || s.todo != [] ==> s.batches != [])
    && (s.batches != [] && s.todo == [] ==> s.live)
    && (!s.live && s.todo != [] ==> exists i | 0 <= i < |s.todo| :: s.todo[i] == SetLive)
  }

  ghost predicate Tracks(s: State) { Mirrors(s) && GoesLive(s) }

  lemma ReceiveTracks(s: State, b: Batch)
    requires Tracks(s) && s.todo == []
    ensures Tracks(Next(s, Receive(b, true)))
  {
    RestOfPlan(b);
    ReceiveMirrors(s, b);
    assert Plan(b)[if b.reset then 1 else 0] == SetLive;
  }

  lemma ReceiveMirrors(s: State, b: Batch)
    requires Mirrors(s) && s.todo == [] && Rest(Plan(b)) == BatchItems(b)
    ensures Mirrors(Next(s, Receive(b, true)))
  {
    var s' := Next(s, Receive(b, true));
    assert s'.batches[..|s.batches|] == s.batches;
    assert s.seen == |Items(s.batches)|;
    assert Items(s'.batches) == Items(s.batches) + BatchItems(b);
    assert Items(s'.batches)[..s.seen] == Items(s.batches)[..s.seen];
  }

  lemma WorkMirrors(s: State)
    requires Mirrors(s) && s.todo != []
    ensures Mirrors(Next(s, Work))
  {
    var items := Items(s.batches);
    if s.todo[0] != SetLive {
      assert items[s.seen] == Rest(s.todo)[0];
      assert items[..s.seen + 1][..s.seen] == items[..s.seen];
      assert items[s.seen..][1..] == items[s.seen + 1..];
    }
  }

  lemma WorkGoesLive(s: State)
    requires GoesLive(s) && s.todo != []
    ensures GoesLive(Next(s, Work))
  {
    if s.todo[0] != SetLive && !s.live {
      var i :| 0 <= i < |s.todo| && s.todo[i] == SetLive;
      assert Next(s, Work).todo[i - 1] == SetLive;
    }
  }

  lemma WorkTracks(s: State)
    requires Tracks(s) && s.todo != []
    ensures Tracks(Next(s, Work)) && Next(s, Work).batches == s.batches && |Next(s, Work).todo| < |s.todo|
  {
    WorkMirrors(s);
    WorkGoesLive(s);
  }

  lemma {:induction false} TracksRun(es: seq<Event>)
    requires Runs(Start, es)
    ensures Tracks(After(Start, es))
    decreases |es|
  {
    if es != [] {
      TracksRun(es[..|es| - 1]);
      var s, e := After(Start, es[..|es| - 1]), es[|es| - 1];
      match e
      case Receive(b, true) => ReceiveTracks(s, b);
      case Work => WorkTracks(s);
      case _ =>
    }
  }

  /** What the present stream has delivered to an active backend, from the events alone. */
  function Delivered(es: seq<Event>): seq<Batch> {
    if es == [] then []
    else
      var last := es[|es| - 1];
      if last.StreamEnds? then []
      else if last.Receive? && last.active then Delivered(es[..|es| - 1]) + [last.b]
      else Delivered(es[..|es| - 1])
  }

  lemma {:induction false} BatchesAre(es: seq<Event>)
    requires Runs(Start, es)
    ensures After(Start, es).batches == Delivered(es)
    decreases |es|
  {
    if es != [] { BatchesAre(es[..|es| - 1]); }
  }

  /** The reader can always finish its batch, and then has applied everything. */
  lemma {:induction false} ReaderFinishes(s: State) returns (es: seq<Event>)
    requires Tracks(s)
    ensures Runs(s, es) && (forall e <- es :: e.Work?)
    ensures var s' := After(s, es);
            s'.todo == [] && s'.batches == s.batches && Tracks(s') && s'.conns == Replay(Items(s.batches))
    decreases |s.todo|
  {
    if s.todo == [] {
      es := [];
      assert Items(s.batches)[..s.seen] == Items(s.batches);
    } else {
      WorkTracks(s);
      var rest := ReaderFinishes(Next(s, Work));
      OneEvent(s, Work);
      RunConcat(s, [Work], rest);
      es := [Work] + rest;
    }
  }

  lemma OneEvent(s: State, e: Event)
    requires Enabled(s, e)
    ensures Runs(s, [e]) && After(s, [e]) == Next(s, e)
  {
    assert [e][..0] == [] && Runs(s, []) && After(s, []) == s;
  }

  lemma {:induction false} RunConcat(s: State, es: seq<Event>, fs: seq<Event>)
    requires Runs(s, es) && Runs(After(s, es), fs)
    ensures Runs(s, es + fs) && After(s, es + fs) == After(After(s, es), fs)
    decreases |fs|
  {
    if fs == [] {
      assert es + fs == es;
    } else {
      var n := |fs| - 1;
      RunConcat(s, es, fs[..n]);
      assert (es + fs)[..|es + fs| - 1] == es + fs[..n] && (es + fs)[|es + fs| - 1] == fs[n];
    }
  }

  /** Between batches the stream can end, and then everything starts anew. */
  lemma StreamCanEnd(s: State)
    requires s.todo == []
    ensures Enabled(s, StreamEnds) && Next(s, StreamEnds) == Start
    ensures forall b, active :: Enabled(s, Receive(b, active)) && (!active ==> Next(s, Receive(b, false)) == s)
  {}

  function Snapshot(s: State): Option<map<string, Conn>> {
    if s.live then Some(s.conns) else None
  }

  /** A snapshot taken between any two locked sections of the reader, when it is ok, is the replay of a
      prefix of what the current stream delivered: of each connection, the last word in that prefix.
      A stream that ended leaves no snapshot before a new batch arrives. */
  lemma SnapshotRefinesReplay(es: seq<Event>, id: string)
    requires Runs(Start, es)
    ensures var s, items := After(Start, es), Items(Delivered(es));
            && (Snapshot(s).Some? ==>
                  && s.seen <= |items|
                  && (id in Snapshot(s).value) == LastWord(items[..s.seen], id).Some?
                  && (id in Snapshot(s).value ==> Snapshot(s).value[id] == LastWord(items[..s.seen], id).value))
            && (Delivered(es) == [] ==> Snapshot(s).None?)
            && (Delivered(es) != [] && s.todo == [] ==> Snapshot(s).Some? && s.seen == |items|)
  {
    TracksRun(es);
    BatchesAre(es);
    ReplayIsLastWord(Items(Delivered(es))[..After(Start, es).seen], id);
  }

  // ---------------------------------------------------------------- the code

  class Tracker {
    var conns: map<string, Conn>
    var live: bool

    constructor ()
      ensures conns == map[] && !live
    {
      conns, live := map[], false;
    }

    method ApplyEvent(ev: ConnEvent)
      modifies this`conns
      ensures conns == Apply(old(conns), Ev(ev))
    {
      match ev
      case Closed(id) => conns := conns - {id};
      case Changed(c) =>
        if c.Some? { conns := conns[c.value.id := c.value]; }
    }

    method ResetAll()
      modifies this`conns
      ensures conns == map[]
    {
      conns := map[];
    }

    method MarkDead()
      modifies this
      ensures conns == map[] && !live
    {
      conns, live := map[], false;
    }

    method TakeSnapshot() returns (out: map<string, Conn>, ok: bool)
      ensures ok == live && out == if live then conns else map[]
    {
      if !live { return map[], false; }
      out, ok := conns, true;
    }

    method ApplyAll(events: seq<ConnEvent>, ghost items: seq<Item>)
      requires conns == Replay(items)
      modifies this`conns
      ensures conns == Replay(items + EventItems(events))
    {
      assert items + EventItems([]) == items;
      for i := 0 to |events|
        invariant conns == Replay(items + EventItems(events[..i]))
      {
        ApplyEvent(events[i]);
        ghost var longer := items + EventItems(events[..i + 1]);
        assert longer[..|longer| - 1] == items + EventItems(events[..i]);
        assert longer[|longer| - 1] == Ev(events[i]);
      }
      assert events[..|events|] == events;
    }

    /** One batch of consumeConnStream, undisturbed; `history` is what the stream delivered before. */
    method Consume(b: Batch, active: bool, ghost history: seq<Item>)
      requires conns == Replay(history)
      modifies this
      ensures conns == if active then Replay(history + BatchItems(b)) else old(conns)
      ensures live == (old(live) || active)
    {
      if !active { return; }
      ghost var items := history + if b.reset then [Reset] else [];
      assert items + EventItems(b.events) == history + BatchItems(b);
      if b.reset {
        ResetAll();
        assert items[..|history|] == history && items[|history|] == Reset;
      } else {
        assert items == history;
      }
      live := true;
      ApplyAll(b.events, items);
    }
  }
}
