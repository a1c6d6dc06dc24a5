/** Two runs that lose a UDP session, step by step. In the first, a sweep takes its snapshot, the packet
    loop closes the expired session and opens a newer one for the same source, and the sweep then removes
    the key. In the second, the packet loop dials while the sweeper makes its last pass. */
module LostSession {
  import opened ActivityProtocol
  import opened Orphans

  ghost predicate Chain(run: seq<State>) {
    run != [] && forall i :: 0 <= i < |run| - 1 ==> Next(run[i], run[i + 1])
  }

  lemma Extend(run: seq<State>, step: Step) returns (longer: seq<State>, s: State)
    requires Chain(run) && Enabled(run[|run| - 1], step)
    ensures s == Apply(run[|run| - 1], step) && longer == run + [s] && Chain(longer)
  {
    s := Apply(run[|run| - 1], step);
    longer := run + [s];
    assert Next(run[|run| - 1], s);
  }

  function Session(key: string, phase: Phase, last: int): Conn { Conn(Udp(0, key), phase, last) }

  function At(timeout: nat, clock: int, conns: seq<Conn>, counter: int, reports: seq<nat>, lp: Loop): State {
    State(true, timeout, clock, false, conns, counter, reports, [lp])
  }

  /** One session, open and mapped, its datagram written. */
  function Opened(key: string, timeout: nat): State {
    At(timeout, 0, [Session(key, Open, 0)], 1, [], Loop(map[key := 0], Reading, Waiting))
  }

  /** The sweep has closed it as expired and is about to remove its key; the loop has the next datagram. */
  function Swept(key: string, timeout: nat): State {
    At(timeout, timeout + 1, [Session(key, Closed, 0)], 0, [0],
       Loop(map[key := 0], Loading(key), Removing([Entry(key, 0)], timeout + 1)))
  }

  /** The loop's write to the closed session failed, and the loop removed the key itself. */
  function Dropped(key: string, timeout: nat): State {
    At(timeout, timeout + 1, [Session(key, Closed, timeout + 1)], 0, [0],
       Loop(map[], Reading, Removing([Entry(key, 0)], timeout + 1)))
  }

  /** The next datagram opened a newer session. */
  function Renewed(key: string, timeout: nat): State {
    At(timeout, timeout + 1, [Session(key, Closed, timeout + 1), Session(key, Open, timeout + 1)], 1, [0],
       Loop(map[key := 1], Reading, Removing([Entry(key, 0)], timeout + 1)))
  }

  lemma OpenFirst(key: string, timeout: nat) returns (run: seq<State>)
    ensures Chain(run) && run[0] == Init(true, timeout) && run[|run| - 1] == Opened(key, timeout)
  {
    var s := Init(true, timeout);
    run := [s];
    run, s := Extend(run, StartLoop);
    run, s := Extend(run, InLoop(0, Read(key)));
    run, s := Extend(run, InLoop(0, Load));
    run, s := Extend(run, InLoop(0, DialOk));
    assert s == At(timeout, 0, [Session(key, Announced, 0)], 0, [], Loop(map[], Counting(key, 0), Waiting));
    run, s := Extend(run, InLoop(0, Count));
    run, s := Extend(run, InLoop(0, Store));
    run, s := Extend(run, InLoop(0, Touch));
    run, s := Extend(run, InLoop(0, WriteOk));
  }

  lemma SweepFirst(start: seq<State>, key: string, timeout: nat) returns (run: seq<State>)
    requires Chain(start) && start[|start| - 1] == Opened(key, timeout)
    ensures Chain(run) && run[0] == start[0] && run[|run| - 1] == Swept(key, timeout)
  {
    var s;
    run, s := Extend(start, Advance(timeout + 1));
    run, s := Extend(run, InSweep(0, Tick([Entry(key, 0)])));
    run, s := Extend(run, InSweep(0, Expire));
    run, s := Extend(run, InLoop(0, Read(key)));
    assert s == At(timeout, timeout + 1, [Session(key, Open, 0)], 1, [],
                   Loop(map[key := 0], Loading(key), Evicting([Entry(key, 0)], timeout + 1, false)));
    run, s := Extend(run, InSweep(0, EvictBegin));
    run, s := Extend(run, Report(0));
    run, s := Extend(run, Lower(0));
    run, s := Extend(run, InSweep(0, EvictReturn));
  }

  lemma DropFirst(start: seq<State>, key: string, timeout: nat) returns (run: seq<State>)
    requires Chain(start) && start[|start| - 1] == Swept(key, timeout)
    ensures Chain(run) && run[0] == start[0] && run[|run| - 1] == Dropped(key, timeout)
  {
    var s;
    run, s := Extend(start, InLoop(0, Load));
    run, s := Extend(run, InLoop(0, Touch));
    run, s := Extend(run, InLoop(0, WriteFail));
    run, s := Extend(run, InLoop(0, CloseReturn));
    run, s := Extend(run, InLoop(0, Delete));
    assert map[key := 0] - {key} == map[];
  }

  lemma OpenSecond(start: seq<State>, key: string, timeout: nat) returns (run: seq<State>)
    requires Chain(start) && start[|start| - 1] == Dropped(key, timeout)
    ensures Chain(run) && run[0] == start[0] && run[|run| - 1] == Renewed(key, timeout)
  {
    var s;
    run, s := Extend(start, InLoop(0, Read(key)));
    run, s := Extend(run, InLoop(0, Load));
    run, s := Extend(run, InLoop(0, DialOk));
    run, s := Extend(run, InLoop(0, Count));
    run, s := Extend(run, InLoop(0, Store));
    run, s := Extend(run, InLoop(0, Touch));
    run, s := Extend(run, InLoop(0, WriteOk));
  }

  /** After cancellation, with every goroutine at its end, the newer session is still open and counted. */
  lemma SessionLost(key: string, timeout: nat) returns (run: seq<State>)
    ensures IsRun(run)
    ensures var s := run[|run| - 1];
            && s.cancelled && |s.loops| == 1 && s.loops[0] == Loop(map[], Stopped, Finished)
            && |s.conns| == 2 && s.conns[1].phase == Open && s.counter == 1 && s.reports == [0] && Orphan(s, 1)
  {
    run := OpenFirst(key, timeout);
    run := SweepFirst(run, key, timeout);
    run := DropFirst(run, key, timeout);
    run := OpenSecond(run, key, timeout);
    var s;
    assert LosesSession(run[|run| - 1], InSweep(0, Remove));
    run, s := Extend(run, InSweep(0, Remove));
    assert map[key := 1] - {key} == map[];
    run, s := Extend(run, InSweep(0, PassEnd));
    run, s := Extend(run, Cancel);
    run, s := Extend(run, InSweep(0, CancelPass([])));
    run, s := Extend(run, InSweep(0, PassEnd));
    run, s := Extend(run, InLoop(0, ReadError));
  }

  /** Cancelled with a datagram in hand: the sweeper makes its last pass over an empty map and ends, then
      the loop opens a session. No key is ever removed, and the session is in the map to the end. */
  lemma LateStoreLost(key: string, timeout: nat) returns (run: seq<State>)
    ensures IsRun(run)
    ensures var s := run[|run| - 1];
            && s.cancelled && s.loops == [Loop(map[key := 0], Stopped, Finished)]
            && |s.conns| == 1 && AllMapped(s) && Orphan(s, 0) && s.counter == 1 && s.reports == []
  {
    var s := Init(true, timeout);
    run := [s];
    run, s := Extend(run, StartLoop);
    run, s := Extend(run, InLoop(0, Read(key)));
    run, s := Extend(run, InLoop(0, Load));
    run, s := Extend(run, Cancel);
    run, s := Extend(run, InSweep(0, CancelPass([])));
    run, s := Extend(run, InSweep(0, PassEnd));
    run := StoreAfterLastPass(run, key, timeout);
  }

  lemma StoreAfterLastPass(start: seq<State>, key: string, timeout: nat) returns (run: seq<State>)
    requires Chain(start)
    requires start[|start| - 1] == State(true, timeout, 0, true, [], 0, [], [Loop(map[], Dialing(key), Finished)])
    ensures Chain(run) && run[0] == start[0]
    ensures run[|run| - 1] == State(true, timeout, 0, true, [Session(key, Open, 0)], 1, [],
                                    [Loop(map[key := 0], Stopped, Finished)])
  {
    var s;
    run, s := Extend(start, InLoop(0, DialOk));
    assert s.conns == [Session(key, Announced, 0)];
    run, s := Extend(run, InLoop(0, Count));
    run, s := Extend(run, InLoop(0, Store));
    run, s := Extend(run, InLoop(0, Touch));
    run, s := Extend(run, InLoop(0, WriteOk));
    run, s := Extend(run, InLoop(0, ReadError));
  }

  // ---------- It is lost for good ----------

  lemma EndedIsIdle(s: State, step: Step, l: nat)
    requires Enabled(s, step) && Ended(s, l)
    ensures !((step.InLoop? || step.InSweep?) && step.l == l)
  {}

  /** Nothing ever closes such a session, so from then on the counter never returns to zero. */
  lemma {:induction false} OrphanForever(run: seq<State>, i: nat, j: nat, id: nat)
    requires IsRun(run) && i <= j < |run| && Orphan(run[i], id)
    ensures Orphan(run[j], id)
    ensures run[j].tracked ==> run[j].counter > 0
  {
    hide Apply, Enabled, Inv;
    if i < j {
      OrphanForever(run, i, j - 1, id);
      EveryRun(run, j - 1);
      InvParts(run[j - 1]);
      var step := StepAt(run, j - 1);
      EndedIsIdle(run[j - 1], step, run[j - 1].conns[id].owner.loop);
      Elsewhere(run[j - 1], step, id);
    }
    CounterConserved(run, j);
    OrphanCounts(run[j], id);
  }

  lemma OrphanCounts(s: State, id: nat)
    requires Orphan(s, id)
    ensures |InPhase(s.conns, {Open, Claimed, Reported})| > 0
  {
    assert id in InPhase(s.conns, {Open, Claimed, Reported});
  }
}
