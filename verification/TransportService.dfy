/** The operations on the transport as methods over the shared fields, each proved to be the operation
    of module Transport run without interference, and to keep ownership. */
module TransportService {
  import opened Basics
  import opened Transport

  class Controller {
    var transportOverride: Option<Transport>
    var backend: Option<nat>
    var lxdOverrideTransport: Option<nat>
    var remoteOverride: Option<string>
    var clashConfigGeneration: nat
    var running: bool
    ghost var closed: set<Transport>
    var unused: nat

    ghost function View(): Link
      reads this
    {
      Link(transportOverride, backend, lxdOverrideTransport, remoteOverride, clashConfigGeneration, closed, unused)
    }

    ghost predicate Valid()
      reads this
    {
      Owned(View())
    }

    constructor ()
      ensures Valid() && View() == Initial && !running
    {
      transportOverride, backend, lxdOverrideTransport, remoteOverride := None, None, None, None;
      clashConfigGeneration, running, closed, unused := 0, false, {}, 0;
    }

    /** SetLxdRemoteOverride; `known` is whether the registry has the machine and its identity. */
    method SetLxdRemoteOverride(known: bool) returns (ok: bool)
      requires Valid()
      modifies this
      ensures Valid() && ok == known
      ensures View() == if known then Perform(old(View()), Connect, running) else old(View())
      ensures running == old(running)
    {
      if !known { return false; }
      ConnectIs(View().(unused := unused + 1), unused);
      PerformKeepsOwned(View(), Connect, running);
      var transport := unused;
      unused := unused + 1;
      var prev := lxdOverrideTransport;
      lxdOverrideTransport := Some(transport);
      transportOverride := Some(Remote(transport));
      if prev.Some? {
        closed := closed + {Remote(prev.value)};
      }
      clashConfigGeneration := clashConfigGeneration + 1;
      ok := true;
    }

    method ClearLxdRemoteOverride()
      requires Valid()
      modifies this
      ensures Valid() && View() == Perform(old(View()), Disconnect, running) && running == old(running)
    {
      DisconnectIs(View());
      PerformKeepsOwned(View(), Disconnect, running);
      if transportOverride.Some? && transportOverride.value.Remote? {
        transportOverride := None;
        if backend.Some? {
          transportOverride := Some(Daemon(backend.value));
        }
      }
      var prev := lxdOverrideTransport;
      lxdOverrideTransport := None;
      if prev.Some? {
        closed := closed + {Remote(prev.value)};
      }
      clashConfigGeneration := clashConfigGeneration + 1;
    }

    method ReapplyLxdRemoteTransport()
      requires Valid()
      modifies this
      ensures Valid() && View() == Perform(old(View()), Reapply, running) && running == old(running)
    {
      CompleteStep(View(), FindSelected);
      PerformKeepsOwned(View(), Reapply, running);
      if lxdOverrideTransport.Some? {
        transportOverride := Some(Remote(lxdOverrideTransport.value));
      }
    }

    method RestoreOwnTransport()
      requires Valid()
      modifies this
      ensures Valid() && View() == Perform(old(View()), RestoreOwn, running) && running == old(running)
    {
      CompleteStep(View(), FindEngine);
      PerformKeepsOwned(View(), RestoreOwn, running);
      if backend.Some? {
        transportOverride := Some(Daemon(backend.value));
      }
    }

    /** setBackend: close the previous engine, publish the new one, put its transport back. */
    method SetBackend(b: Option<nat>)
      modifies this
      ensures View() == Complete(old(View()), CloseEngine(b)) && running == old(running)
    {
      SwapIs(View(), b);
      if backend.Some? {
        if transportOverride == Some(Daemon(backend.value)) {
          transportOverride := None;
        }
        closed := closed + {Daemon(backend.value)};
      }
      backend := b;
      if b.Some? {
        transportOverride := Some(Daemon(b.value));
      }
    }

    /** newDaemonBackend: the constructor installs its own transport at once. */
    method NewDaemonBackend(configured: bool) returns (b: Option<nat>)
      modifies this
      ensures b == if configured then Some(old(unused)) else None
      ensures View() == if configured
                        then old(View()).(unused := old(unused) + 1, slot := Some(Daemon(old(unused)))) else old(View())
      ensures running == old(running)
    {
      if !configured { return None; }
      b := Some(unused);
      unused := unused + 1;
      transportOverride := Some(Daemon(b.value));
    }

    /** SwitchBackendMode; `configured` is whether the daemon backend can be built. */
    method SwitchBackendMode(daemon: bool, configured: bool) returns (ok: bool)
      requires Valid()
      modifies this
      ensures Valid() && running == old(running)
      ensures ok <==> daemon == old(backend.Some?) || (!old(running) && (daemon ==> configured))
      ensures ok ==> backend.Some? == daemon
      ensures !ok ==> View() == old(View())
      ensures View() == if daemon && !configured then old(View())
                        else Perform(old(View()), if daemon then ToDaemon else ToClassic, running)
    {
      PerformKeepsOwned(View(), if daemon then ToDaemon else ToClassic, running);
      AfterSwitch(View(), running);
      if backend.Some? == daemon { return true; }
      if running { return false; }
      if !daemon {
        SetBackend(None);
        return true;
      }
      ghost var s0 := View();
      var b := NewDaemonBackend(configured);
      if b.None? { return false; }
      CompleteStep(s0.(unused := s0.unused + 1), Construct(b.value));
      SetBackend(b);
      ok := true;
    }

    method ReloadDaemonBackendIfActive(configured: bool)
      requires Valid()
      modifies this
      ensures Valid() && running == old(running)
      ensures View() == if !configured then old(View()) else Perform(old(View()), ReloadDaemon, running)
    {
      PerformKeepsOwned(View(), ReloadDaemon, running);
      if backend.None? { return; }
      ghost var s0 := View();
      var b := NewDaemonBackend(configured);
      if b.None? { return; }
      CompleteStep(s0.(unused := s0.unused + 1), Construct(b.value));
      SetBackend(b);
    }
  }
}
