/** The node's components over generations (mod/yggstack/func.go, func_init.go, yggstack.go, struct.go):
    staged start with rollback, stop in two phases, and the closers registered in between. */
module Lifecycle {
  import opened Prelude
  import opened Ledger

  /** Whether the configuration asks for multicast, a peer monitor, a SOCKS proxy. */
  datatype Config = Config(multicast: bool, monitor: bool, socks: bool)

  /** How the calls of a start turn out, in the order in which the stages make them. `adminOn` is false
      when the admin socket is configured off, which gives no socket and no error. */
  datatype Outcomes = Outcomes(
    keysOk: bool, coreOk: bool, adminOk: bool, adminOn: bool,
    regexOk: bool, multicastOk: bool, netstackOk: bool, socksOk: bool)

  /** The stage that fails, if any. */
  datatype Stage = AtCore | AtAdmin | AtMulticast | AtNetstack | AtSocks | Complete

  function EndsAt(cfg: Config, out: Outcomes): Stage {
    if !out.keysOk || !out.coreOk then AtCore
    else if !out.adminOk then AtAdmin
    else if cfg.multicast && (!out.regexOk || !out.multicastOk) then AtMulticast
    else if !out.netstackOk then AtNetstack
    else if cfg.socks && !out.socksOk then AtSocks
    else Complete
  }

  /** What a caller may do to a node between its creation and its end. */
  datatype Op =
    | Start(cfg: Config, out: Outcomes)
    | StopSignal
    | StopTeardown
    | Register(closer: nat)

  class Obj {
    var core: Option<nat>
    var admin: Option<nat>
    var multicast: Option<nat>
    var monitor: Option<nat>
    var socks: Option<nat>
    var netstack: Option<nat>
    var generation: Option<nat>      // componentsCtx with componentsCancel
    var socksReady: Option<nat>      // the channel a wake connection waits on
    var closers: seq<nat>

    // History.
    var book: Book                   // parts opened, stopped, dropped
    var channels: nat                // ready channels made so far
    var closedReady: seq<nat>        // ready channels closed
    var registered: seq<nat>         // every closer ever added
    var closed: seq<nat>             // every closer closed

    ghost predicate BookOk()
      reads this
    {
      && Keeps(book, Core, core) && Keeps(book, Admin, admin) && Keeps(book, Multicast, multicast)
      && Keeps(book, Monitor, monitor) && Keeps(book, Socks, socks) && Keeps(book, Netstack, netstack)
    }

    /** No ready channel is closed twice. */
    ghost predicate ReadyOk()
      reads this
    {
      && (forall i :: 0 <= i < |closedReady| ==> closedReady[i] < channels)
      && (forall i, j :: 0 <= i < j < |closedReady| ==> closedReady[i] != closedReady[j])
    }

    /** Every closer added has been closed once, or is still in the list; in the order of addition. */
    ghost predicate ClosersOk()
      reads this
    {
      registered == closed + closers
    }

    ghost predicate Valid()
      reads this
    {
      BookOk() && ReadyOk() && ClosersOk()
    }

    /** Each core, admin socket, multicast, monitor and SOCKS listener ever opened has been stopped exactly
        once, or is in use and has not been stopped; nothing else was ever stopped. */
    ghost predicate PartsSettled()
      reads this
    {
      forall id: nat ::
        && SettledOnce(book.log, Core, core, id) && SettledOnce(book.log, Admin, admin, id)
        && SettledOnce(book.log, Multicast, multicast, id) && SettledOnce(book.log, Monitor, monitor, id)
        && SettledOnce(book.log, Socks, socks, id)
    }

    predicate Down()
      reads this
    {
      core.None? && admin.None? && multicast.None? && monitor.None? && socks.None? && netstack.None? && generation.None?
    }

    /** All that the configuration asks for is in use. */
    predicate UpFor(cfg: Config, out: Outcomes)
      reads this
    {
      && core.Some? && netstack.Some? && generation.Some?
      && (admin.Some? <==> out.adminOn)
      && (cfg.multicast ==> multicast.Some?) && (cfg.monitor ==> monitor.Some?) && (cfg.socks ==> socks.Some?)
    }

    constructor ()
      ensures Valid() && Down() && socksReady == None && book == Book([], 0) && registered == []
    {
      core, admin, multicast, monitor, socks, netstack := None, None, None, None, None, None;
      generation, socksReady, closers := None, None, [];
      book, channels, closedReady, registered, closed := Book([], 0), 0, [], [], [];
    }

    // ---------- Stages ----------

    method InitCore(out: Outcomes) returns (ok: bool)
      requires BookOk()
      modifies this`core, this`book
      ensures BookOk() && ok == (out.keysOk && out.coreOk)
      ensures core.Some? <==> (ok || (!out.keysOk && old(core).Some?))
      ensures book.next >= old(book).next
      ensures Drops(book.log) == Drops(old(book).log) + (if out.keysOk then Forgotten(Core, old(core)) else [])
    {
      hide Keeps, Drop, Replace, Drops;
      if !out.keysOk { return false; }
      if out.coreOk {
        ReplaceKeeps(book, Core, core);
        core, book := Some(book.next), Replace(book, Core, core);
        return true;
      }
      DropKeeps(book, Core, core);
      core, book := None, Drop(book, Core, core);
      return false;
    }

    method InitAdmin(out: Outcomes) returns (ok: bool)
      requires BookOk()
      modifies this`admin, this`book
      ensures BookOk() && ok == out.adminOk
      ensures admin.Some? <==> ok && out.adminOn
      ensures book.next >= old(book).next
      ensures Drops(book.log) == Drops(old(book).log) + Forgotten(Admin, old(admin))
    {
      hide Keeps, Drop, Replace, Drops;
      if out.adminOk && out.adminOn {
        ReplaceKeeps(book, Admin, admin);
        admin, book := Some(book.next), Replace(book, Admin, admin);
      } else {
        DropKeeps(book, Admin, admin);
        admin, book := None, Drop(book, Admin, admin);
      }
      return out.adminOk;
    }

    method InitMulticast(cfg: Config, out: Outcomes) returns (ok: bool)
      requires BookOk()
      modifies this`multicast, this`book
      ensures BookOk() && ok == (!cfg.multicast || (out.regexOk && out.multicastOk))
      ensures cfg.multicast && ok ==> multicast.Some?
      ensures !cfg.multicast || !out.regexOk ==> multicast == old(multicast)
      ensures book.next >= old(book).next
      ensures Drops(book.log)
           == Drops(old(book).log) + (if cfg.multicast && out.regexOk then Forgotten(Multicast, old(multicast)) else [])
    {
      hide Keeps, Drop, Replace, Drops;
      if !cfg.multicast { return true; }
      if !out.regexOk { return false; }
      if out.multicastOk {
        ReplaceKeeps(book, Multicast, multicast);
        multicast, book := Some(book.next), Replace(book, Multicast, multicast);
        return true;
      }
      DropKeeps(book, Multicast, multicast);
      multicast, book := None, Drop(book, Multicast, multicast);
      return false;
    }

    /** Monitor, netstack and SOCKS proxy. The proxy closes the ready channel once it listens. */
    method InitNetworking(cfg: Config, out: Outcomes) returns (ok: bool)
      requires BookOk() && ReadyOk()
      requires cfg.socks && socksReady.Some? ==> socksReady.value < channels && socksReady.value !in closedReady
      modifies this`monitor, this`netstack, this`socks, this`closedReady, this`book
      ensures BookOk() && ReadyOk() && ok == (out.netstackOk && (!cfg.socks || out.socksOk))
      ensures if cfg.monitor then monitor.Some? else monitor == old(monitor)
      ensures if out.netstackOk then netstack.Some? && netstack.value >= old(book).next else netstack == old(netstack)
      ensures if cfg.socks && ok then socks.Some? else socks == old(socks)
      ensures closedReady == old(closedReady) + (if cfg.socks && ok && socksReady.Some? then [socksReady.value] else [])
      ensures Drops(book.log) == Drops(old(book).log)
              + (if cfg.monitor then Forgotten(Monitor, old(monitor)) else [])
              + (if out.netstackOk then Forgotten(Netstack, old(netstack)) else [])
              + (if cfg.socks && ok then Forgotten(Socks, old(socks)) else [])
    {
      hide Keeps, Drop, Replace, Drops;
      if cfg.monitor {
        ReplaceKeeps(book, Monitor, monitor);
        monitor, book := Some(book.next), Replace(book, Monitor, monitor);
      }
      if !out.netstackOk { return false; }
      ReplaceKeeps(book, Netstack, netstack);
      netstack, book := Some(book.next), Replace(book, Netstack, netstack);
      ok := true;
      if cfg.socks {
        ok := StartSocks(out);
      }
    }

    /** `StartSocks`: the listener, then the signal to the wake connections that wait for it. */
    method StartSocks(out: Outcomes) returns (ok: bool)
      requires BookOk() && ReadyOk()
      requires socksReady.Some? ==> socksReady.value < channels && socksReady.value !in closedReady
      modifies this`socks, this`closedReady, this`book
      ensures BookOk() && ReadyOk() && ok == out.socksOk
      ensures if ok then socks.Some? else socks == old(socks)
      ensures closedReady == old(closedReady) + (if ok && socksReady.Some? then [socksReady.value] else [])
      ensures Drops(book.log) == Drops(old(book).log) + (if ok then Forgotten(Socks, old(socks)) else [])
    {
      hide Keeps, Drop, Replace, Drops;
      if !out.socksOk { return false; }
      if socksReady.Some? {
        closedReady := closedReady + [socksReady.value];
      }
      ReplaceKeeps(book, Socks, socks);
      socks, book := Some(book.next), Replace(book, Socks, socks);
      return true;
    }

    /** The four stages, each made only if those before it worked. */
    method RunStages(cfg: Config, out: Outcomes) returns (ok: bool)
      requires BookOk() && ReadyOk()
      requires cfg.socks && socksReady.Some? ==> socksReady.value < channels && socksReady.value !in closedReady
      modifies this`core, this`admin, this`multicast, this`monitor, this`socks, this`netstack, this`closedReady, this`book
      ensures BookOk() && ReadyOk() && ok == EndsAt(cfg, out).Complete?
      ensures ok && generation.Some? ==> UpFor(cfg, out)
      ensures Drops(book.log) == Drops(old(book).log) + Replaced(cfg, out, old(core), old(admin), old(multicast),
                                                                  old(monitor), old(netstack), old(socks))
      ensures if EndsAt(cfg, out).AtSocks? || ok then netstack.Some? && netstack.value >= old(book).next
              else netstack == old(netstack)
      ensures closedReady == old(closedReady) + (if cfg.socks && ok && socksReady.Some? then [socksReady.value] else [])
      ensures old(core.None? && admin.None? && multicast.None? && monitor.None? && socks.None? && netstack.None?) ==>
                && Drops(book.log) == Drops(old(book).log)
                && (!ok ==> socks.None?)
                && (ok ==> (multicast.Some? <==> cfg.multicast) && (monitor.Some? <==> cfg.monitor)
                           && (socks.Some? <==> cfg.socks))
    {
      hide Keeps, Drops, Forgotten;
      NothingForgotten();
      ReplacedInOrder(Drops(book.log), cfg, out, core, admin, multicast, monitor, netstack, socks);
      ok := InitCore(out);
      if !ok { return; }
      ok := InitAdmin(out);
      if !ok { return; }
      ok := InitMulticast(cfg, out);
      if !ok { return; }
      ok := InitNetworking(cfg, out);
    }

    // ---------- Stopping ----------

    /** The end of both the rollback and the stop: core before netstack, whose close waits for it. */
    method StopCoreAndRest()
      requires BookOk()
      modifies this`core, this`admin, this`multicast, this`netstack, this`book
      ensures BookOk() && core.None? && admin.None? && multicast.None? && netstack.None?
      ensures book.log == old(book).log + Ended(Multicast, old(multicast)) + Ended(Admin, old(admin))
              + Ended(Core, old(core)) + Ended(Netstack, old(netstack))
      ensures Drops(book.log) == Drops(old(book).log)
    {
      hide Keeps, Drops;
      CloseKeeps(book, Multicast, multicast);
      multicast, book := None, Close(book, Multicast, multicast);
      CloseKeeps(book, Admin, admin);
      admin, book := None, Close(book, Admin, admin);
      CloseKeeps(book, Core, core);
      core, book := None, Close(book, Core, core);
      CloseKeeps(book, Netstack, netstack);
      netstack, book := None, Close(book, Netstack, netstack);
    }

    /** `rollbackComponents`: every part in use is stopped, core before netstack. */
    method RollbackComponents()
      requires BookOk()
      modifies this`core, this`admin, this`multicast, this`monitor, this`socks, this`netstack, this`book
      ensures BookOk()
      ensures core.None? && admin.None? && multicast.None? && monitor.None? && socks.None? && netstack.None?
      ensures book.log == old(book).log + Ended(Monitor, old(monitor)) + Ended(Socks, old(socks))
              + Ended(Multicast, old(multicast)) + Ended(Admin, old(admin))
              + Ended(Core, old(core)) + Ended(Netstack, old(netstack))
      ensures Drops(book.log) == Drops(old(book).log)
    {
      hide Keeps, Drops;
      CloseKeeps(book, Monitor, monitor);
      monitor, book := None, Close(book, Monitor, monitor);
      CloseKeeps(book, Socks, socks);
      socks, book := None, Close(book, Socks, socks);
      StopCoreAndRest();
    }

    /** `startComponents`. A start drops, unclosed, exactly the parts in use that the stages it reaches
        replace or clear, so none from the stopped state and a whole generation from a running one. If it
        fails, it also forgets the netstack then in use before the rollback: a new one exactly at the SOCKS
        stage, else the old one, if any. */
    method StartComponents(cfg: Config, out: Outcomes) returns (ok: bool, ghost lost: Option<nat>)
      requires Valid()
      modifies this
      ensures Valid() && ok == EndsAt(cfg, out).Complete?
      ensures ok ==> UpFor(cfg, out)
      ensures Drops(book.log) == Drops(old(book).log)
              + Replaced(cfg, out, old(core), old(admin), old(multicast), old(monitor), old(netstack), old(socks))
              + Forgotten(Netstack, lost)
      ensures match EndsAt(cfg, out)
              case Complete => lost == None
              case AtSocks => lost.Some? && lost.value >= old(book).next
              case _ => lost == old(netstack)
      ensures !ok ==> Down()
      ensures old(Down()) ==> NewDrops(Drops(old(book).log), Drops(book.log), if EndsAt(cfg, out) == AtSocks then 1 else 0)
      ensures old(Down()) && ok ==>
                (multicast.Some? <==> cfg.multicast) && (monitor.Some? <==> cfg.monitor) && (socks.Some? <==> cfg.socks)
      ensures closers == old(closers) && closed == old(closed) && registered == old(registered)
      ensures if cfg.socks then socksReady == Some(old(channels)) && channels == old(channels) + 1
              else socksReady == old(socksReady) && channels == old(channels)
      ensures closedReady == old(closedReady) + (if cfg.socks && ok then [old(channels)] else [])
      ensures old(channels) !in old(closedReady)
    {
      hide Keeps, Drops;
      generation := Some(book.next);
      if cfg.socks {
        socksReady := Some(channels);
        channels := channels + 1;
      }
      ok := RunStages(cfg, out);
      lost := None;
      if !ok {
        lost := netstack;
        AbandonStart();
      }
    }

    /** The deferred clean-up of `startComponents`, which clears the netstack before it rolls back. */
    method AbandonStart()
      requires BookOk()
      modifies this`core, this`admin, this`multicast, this`monitor, this`socks, this`netstack, this`generation, this`book
      ensures BookOk() && Down()
      ensures Drops(book.log) == Drops(old(book).log) + Forgotten(Netstack, old(netstack))
    {
      hide Keeps, Drops;
      DropKeeps(book, Netstack, netstack);
      netstack, book := None, Drop(book, Netstack, netstack);
      RollbackComponents();
      generation := None;
    }

    /** `New`: the first start. Its rollback does close the netstack, so it drops nothing. */
    method FirstStart(cfg: Config, out: Outcomes) returns (ok: bool)
      requires Valid() && Down() && socksReady.None?
      modifies this
      ensures Valid() && ok == EndsAt(cfg, out).Complete?
      ensures ok ==> UpFor(cfg, out)
      ensures !ok ==> core.None? && admin.None? && multicast.None? && monitor.None? && socks.None? && netstack.None?
      ensures Drops(book.log) == Drops(old(book).log)
      ensures closedReady == old(closedReady)
    {
      hide Keeps, Drops;
      generation := Some(book.next);
      ok := RunStages(cfg, out);
      if !ok {
        RollbackComponents();
      }
    }

    method AddCloser(c: nat)
      requires Valid()
      modifies this`closers, this`registered
      ensures Valid() && registered == old(registered) + [c] && closers == old(closers) + [c]
    {
      closers := closers + [c];
      registered := registered + [c];
    }

    /** Phase one of `stopComponents`: the SOCKS listener and every closer registered so far. */
    method SignalStop()
      requires Valid()
      modifies this`socks, this`closers, this`closed, this`book
      ensures Valid() && socks.None? && closers == []
      ensures closed == old(registered)
      ensures book.log == old(book).log + Ended(Socks, old(socks))
      ensures Drops(book.log) == Drops(old(book).log)
    {
      hide Keeps, Drops;
      CloseKeeps(book, Socks, socks);
      socks, book := None, Close(book, Socks, socks);
      var i := 0;
      ghost var before, stopped := closed, book;
      while i < |closers|
        invariant 0 <= i <= |closers|
        invariant closed == before + closers[..i]
        invariant BookOk() && socks.None? && book == stopped && ReadyOk() && registered == before + closers
      {
        closed := closed + [closers[i]];
        i := i + 1;
      }
      assert closers[..i] == closers;
      closers := [];
    }

    /** Phase two: the remaining parts, monitor first, core before netstack. */
    method TearDown()
      requires Valid() && socks.None?
      modifies this
      ensures Valid() && Down()
      ensures book.log == old(book).log + Ended(Monitor, old(monitor)) + Ended(Multicast, old(multicast))
              + Ended(Admin, old(admin)) + Ended(Core, old(core)) + Ended(Netstack, old(netstack))
      ensures Drops(book.log) == Drops(old(book).log)
      ensures closers == old(closers) && closed == old(closed) && registered == old(registered)
      ensures socksReady == old(socksReady) && channels == old(channels) && closedReady == old(closedReady)
    {
      hide Keeps, Drops;
      CloseKeeps(book, Monitor, monitor);
      monitor, book := None, Close(book, Monitor, monitor);
      StopCoreAndRest();
      generation := None;
    }

    // ---------- Whole runs ----------

    /** What a node looks like in each phase. */
    predicate InPhase(p: Phase)
      reads this
    {
      match p
      case Resting => Down()
      case Running(cfg, out) => UpFor(cfg, out)
      case Signalled => socks.None?
    }

    method Perform(op: Op, ghost p: Phase)
      requires Valid() && InPhase(p) && (op.StopTeardown? ==> p.Signalled?)
      modifies this
      ensures Valid() && InPhase(NextPhase(op, p))
      ensures op.Start? ==> p.Resting? ==>
                NewDrops(Drops(old(book).log), Drops(book.log), if EndsAt(op.cfg, op.out) == AtSocks then 1 else 0)
      ensures !op.Start? ==> Drops(book.log) == Drops(old(book).log)
      ensures registered == old(registered) + (if op.Register? then [op.closer] else [])
      ensures if IsSocksStart(op) then socksReady == Some(old(channels)) && channels == old(channels) + 1
              else socksReady == old(socksReady) && channels == old(channels)
      ensures closedReady
           == old(closedReady)
              + (if IsSocksStart(op) && EndsAt(op.cfg, op.out).Complete? then [old(channels)] else [])
    {
      hide BookOk, ReadyOk, ClosersOk, Drops, EndsAt, NewDrops;
      match op {
        case Start(cfg, out) =>
          var _, _ := StartComponents(cfg, out);
        case StopSignal =>
          SignalStop();
        case StopTeardown =>
          TearDown();
        case Register(c) =>
          AddCloser(c);
      }
    }

    /** Any run of starts, each failing at any stage, stops and registrations. At rest the node is down or
        up for its configuration. Each start with a SOCKS proxy makes a ready channel of its own, which is
        closed exactly if the start works. If all starts are made from the stopped state, the parts dropped
        unclosed are one netstack for each start that failed at the SOCKS stage, and nothing else; every
        other part opened has been stopped once or is in use. */
    method Run(ops: seq<Op>)
      requires Valid() && Down() && Legal(ops)
      modifies this
      ensures Valid() && InPhase(PhaseAt(ops, |ops|))
      ensures FromRest(ops) ==> NewDrops(Drops(old(book).log), Drops(book.log), SocksFailures(ops, |ops|))
      ensures FromRest(ops) && Drops(old(book).log) == [] ==> PartsSettled()
      ensures registered == old(registered) + Registrations(ops, |ops|)
      ensures channels == old(channels) + SocksStarts(ops, |ops|)
      ensures ReadyByStart(ops, old(channels), closedReady)
      ensures SocksStarts(ops, |ops|) > 0 ==> socksReady == Some(channels - 1)
    {
      hide *;
      ghost var start := Mark(Drops(book.log), registered, channels, closedReady);
      FirstAt(ops, start);
      var n := 0;
      while n < |ops|
        invariant 0 <= n <= |ops| && At(ops, n, start)
      {
        PerformNext(ops, n, start);
        n := n + 1;
      }
      Finish(ops, start);
    }

    /** Where the first `n` operations have led. */
    ghost predicate At(ops: seq<Op>, n: nat, start: Mark)
      requires n <= |ops|
      reads this
    {
      && Valid() && InPhase(PhaseAt(ops, n))
      && (FromRest(ops) ==> NewDrops(start.drops, Drops(book.log), SocksFailures(ops, n)))
      && registered == start.registered + Registrations(ops, n)
      && channels == start.channels + SocksStarts(ops, n)
      && closedReady == start.closedReady + Ready(ops, n, start.channels)
      && (SocksStarts(ops, n) > 0 ==> socksReady == Some(channels - 1))
    }

    lemma FirstAt(ops: seq<Op>, start: Mark)
      requires Valid() && Down() && start == Mark(Drops(book.log), registered, channels, closedReady)
      ensures At(ops, 0, start)
      ensures ReadyByStart(ops, start.channels, start.closedReady + Ready(ops, |ops|, start.channels))
    {
      ReadyOfStarts(ops, channels, closedReady);
    }

    method PerformNext(ops: seq<Op>, n: nat, ghost start: Mark)
      requires n < |ops| && Legal(ops) && At(ops, n, start)
      modifies this
      ensures At(ops, n + 1, start)
    {
      hide Valid, Drops, EndsAt, InPhase, NewDrops;
      ghost var before := Drops(book.log);
      Perform(ops[n], PhaseAt(ops, n));
      if FromRest(ops) && ops[n].Start? {
        DropsAddUp(start.drops, before, Drops(book.log), SocksFailures(ops, n),
                   if EndsAt(ops[n].cfg, ops[n].out) == AtSocks then 1 else 0);
      }
    }

    lemma Finish(ops: seq<Op>, start: Mark)
      requires At(ops, |ops|, start)
      ensures Valid() && InPhase(PhaseAt(ops, |ops|))
      ensures FromRest(ops) ==> NewDrops(start.drops, Drops(book.log), SocksFailures(ops, |ops|))
      ensures FromRest(ops) && start.drops == [] ==> PartsSettled()
      ensures registered == start.registered + Registrations(ops, |ops|)
      ensures channels == start.channels + SocksStarts(ops, |ops|)
      ensures closedReady == start.closedReady + Ready(ops, |ops|, start.channels)
      ensures SocksStarts(ops, |ops|) > 0 ==> socksReady == Some(channels - 1)
    {
      hide Valid, Drops, InPhase, NewDrops, PartsSettled;
      if FromRest(ops) && start.drops == [] {
        SettledIfOnlyNetstacks(this, SocksFailures(ops, |ops|));
      }
    }
  }

  /** What a run is measured from. */
  datatype Mark = Mark(drops: seq<Event>, registered: seq<nat>, channels: nat, closedReady: seq<nat>)

  /** The parts in use that the stages of a start, as far as it gets, replace or clear. */
  function Replaced(cfg: Config, out: Outcomes, core: Option<nat>, admin: Option<nat>, multicast: Option<nat>,
                    monitor: Option<nat>, netstack: Option<nat>, socks: Option<nat>): seq<Event>
  {
    var end := EndsAt(cfg, out);
    (if out.keysOk then Forgotten(Core, core) else [])
    + (if !end.AtCore? then Forgotten(Admin, admin) else [])
    + (if !end.AtCore? && !end.AtAdmin? && cfg.multicast && out.regexOk then Forgotten(Multicast, multicast) else [])
    + (if (end.AtNetstack? || end.AtSocks? || end.Complete?) && cfg.monitor then Forgotten(Monitor, monitor) else [])
    + (if end.AtSocks? || end.Complete? then Forgotten(Netstack, netstack) else [])
    + (if end.Complete? && cfg.socks then Forgotten(Socks, socks) else [])
  }

  lemma ReplacedInOrder(before: seq<Event>, cfg: Config, out: Outcomes, core: Option<nat>, admin: Option<nat>,
                        multicast: Option<nat>, monitor: Option<nat>, netstack: Option<nat>, socks: Option<nat>)
    ensures var end := EndsAt(cfg, out); (
            before + Replaced(cfg, out, core, admin, multicast, monitor, netstack, socks)
            == before + (if out.keysOk then Forgotten(Core, core) else [])
            + (if !end.AtCore? then Forgotten(Admin, admin) else [])
            + (if !end.AtCore? && !end.AtAdmin? && cfg.multicast && out.regexOk then Forgotten(Multicast, multicast) else [])
            + (if (end.AtNetstack? || end.AtSocks? || end.Complete?) && cfg.monitor then Forgotten(Monitor, monitor) else [])
            + (if end.AtSocks? || end.Complete? then Forgotten(Netstack, netstack) else [])
            + (if end.Complete? && cfg.socks then Forgotten(Socks, socks) else []))
  {
    hide Forgotten;
  }

  lemma NothingForgotten()
    ensures forall p: Part :: Forgotten(p, None) == []
  {}

  /** `later` is `earlier` and `n` dropped netstacks. */
  predicate NewDrops(earlier: seq<Event>, later: seq<Event>, n: nat) {
    && |later| == |earlier| + n && later[..|earlier|] == earlier
    && forall i :: |earlier| <= i < |later| ==> later[i].part == Netstack
  }

  lemma NoDropsYet(drops: seq<Event>)
    ensures NewDrops(drops, drops, 0)
  {}

  lemma DropsAddUp(a: seq<Event>, b: seq<Event>, c: seq<Event>, m: nat, n: nat)
    requires NewDrops(a, b, m) && NewDrops(b, c, n)
    ensures NewDrops(a, c, m + n)
  {
    assert c[..|a|] == c[..|b|][..|a|];
    forall i | |a| <= i < |c| ensures c[i].part == Netstack {
      if i < |b| { assert c[i] == c[..|b|][i]; }
    }
  }

  datatype Phase = Resting | Running(cfg: Config, out: Outcomes) | Signalled

  predicate SettledOnce(log: seq<Event>, p: Part, current: Option<nat>, id: nat) {
    Stops(log, p, id) == if Opened(p, id) in log && current != Some(id) then 1 else 0
  }

  /** As long as only netstacks were dropped, every other part opened is stopped once or in use. */
  lemma PartsStoppedOnce(o: Obj)
    requires o.BookOk() && forall e :: e in Drops(o.book.log) ==> e.part == Netstack
    ensures o.PartsSettled()
  {
    hide Drops, Stops, Closings, Numbered, Paired, Trace;
    var b := o.book;
    forall id: nat
      ensures SettledOnce(b.log, Core, o.core, id) && SettledOnce(b.log, Admin, o.admin, id)
              && SettledOnce(b.log, Multicast, o.multicast, id) && SettledOnce(b.log, Monitor, o.monitor, id)
              && SettledOnce(b.log, Socks, o.socks, id)
    {
      StoppedExactlyOnce(b, Core, o.core, id);
      StoppedExactlyOnce(b, Admin, o.admin, id);
      StoppedExactlyOnce(b, Multicast, o.multicast, id);
      StoppedExactlyOnce(b, Monitor, o.monitor, id);
      StoppedExactlyOnce(b, Socks, o.socks, id);
    }
  }

  lemma SettledIfOnlyNetstacks(o: Obj, n: nat)
    requires o.Valid() && NewDrops([], Drops(o.book.log), n)
    ensures o.PartsSettled()
  {
    hide o.BookOk, Drops;
    PartsStoppedOnce(o);
  }

  /** The closing of a part in use. */
  function Ended(p: Part, current: Option<nat>): seq<Event> {
    if current.Some? then [Stopped(p, current.value)] else []
  }

  function NextPhase(op: Op, p: Phase): Phase {
    match op
    case Start(cfg, out) => if EndsAt(cfg, out).Complete? then Running(cfg, out) else Resting
    case StopSignal => Signalled
    case StopTeardown => Resting
    case Register(_) => p
  }

  function PhaseAt(ops: seq<Op>, n: nat): Phase
    requires n <= |ops|
  {
    if n == 0 then Resting else NextPhase(ops[n - 1], PhaseAt(ops, n - 1))
  }

  /** The second phase of a stop follows the first. */
  predicate Legal(ops: seq<Op>) {
    forall n :: 0 <= n < |ops| && ops[n].StopTeardown? ==> PhaseAt(ops, n).Signalled?
  }

  /** Starts are made from the stopped state only. */
  predicate FromRest(ops: seq<Op>) {
    forall n :: 0 <= n < |ops| && ops[n].Start? ==> PhaseAt(ops, n).Resting?
  }

  function SocksFailures(ops: seq<Op>, n: nat): nat
    requires n <= |ops|
  {
    if n == 0 then 0
    else
      var op := ops[n - 1];
      SocksFailures(ops, n - 1) + (if op.Start? && EndsAt(op.cfg, op.out) == AtSocks then 1 else 0)
  }

  predicate IsSocksStart(op: Op) { op.Start? && op.cfg.socks }

  /** Starts with a SOCKS proxy among the first `n` operations: each makes a ready channel. */
  function SocksStarts(ops: seq<Op>, n: nat): nat
    requires n <= |ops|
  {
    if n == 0 then 0 else SocksStarts(ops, n - 1) + (if IsSocksStart(ops[n - 1]) then 1 else 0)
  }

  /** The ready channels closed by the first `n` operations, numbered from `base`. */
  function Ready(ops: seq<Op>, n: nat, base: nat): seq<nat>
    requires n <= |ops|
  {
    if n == 0 then []
    else
      var op := ops[n - 1];
      Ready(ops, n - 1, base)
      + (if IsSocksStart(op) && EndsAt(op.cfg, op.out).Complete? then [base + SocksStarts(ops, n - 1)] else [])
  }

  lemma {:induction false} ReadyExactly(ops: seq<Op>, n: nat, base: nat)
    requires n <= |ops|
    ensures forall c :: c in Ready(ops, n, base) ==> base <= c < base + SocksStarts(ops, n)
    ensures forall k :: 0 <= k < n ==> SocksStarts(ops, k) <= SocksStarts(ops, n)
    ensures forall k :: 0 <= k < n && IsSocksStart(ops[k]) ==>
              && SocksStarts(ops, k) < SocksStarts(ops, n)
              && (base + SocksStarts(ops, k) in Ready(ops, n, base) <==> EndsAt(ops[k].cfg, ops[k].out).Complete?)
  {
    hide EndsAt;
    if n > 0 {
      ReadyExactly(ops, n - 1, base);
    }
  }

  /** Each start with a SOCKS proxy has its own ready channel, closed exactly if the start works. */
  ghost predicate ReadyByStart(ops: seq<Op>, base: nat, closedReady: seq<nat>) {
    forall k :: 0 <= k < |ops| && IsSocksStart(ops[k]) ==>
      (base + SocksStarts(ops, k) in closedReady <==> EndsAt(ops[k].cfg, ops[k].out).Complete?)
  }

  lemma ReadyOfStarts(ops: seq<Op>, base: nat, before: seq<nat>)
    requires forall i :: 0 <= i < |before| ==> before[i] < base
    ensures ReadyByStart(ops, base, before + Ready(ops, |ops|, base))
  {
    hide EndsAt;
    ReadyExactly(ops, |ops|, base);
  }

  /** A start works exactly if each call it makes works; it fails at the SOCKS stage exactly if that call
      alone fails. */
  lemma StartWorksExactly(cfg: Config, out: Outcomes)
    ensures var before := out.keysOk && out.coreOk && out.adminOk && (cfg.multicast ==> out.regexOk && out.multicastOk)
                          && out.netstackOk;
            && (EndsAt(cfg, out).Complete? <==> before && (cfg.socks ==> out.socksOk))
            && (EndsAt(cfg, out).AtSocks? <==> before && cfg.socks && !out.socksOk)
  {}

  function Registrations(ops: seq<Op>, n: nat): seq<nat>
    requires n <= |ops|
  {
    if n == 0 then []
    else Registrations(ops, n - 1) + (if ops[n - 1].Register? then [ops[n - 1].closer] else [])
  }
}
