/** Connection tracking under interleaving (mod/activity, mod/mapping/udp.go, tcp.go, socks.go,
    src/types/tcpproxy.go): UDP packet loops with their sweepers, TCP proxies and SOCKS dials share
    one activity counter and one callback. Every map access, counter update and callback is a step. */
module ActivityProtocol {
  import opened Prelude

  /** `Announced`: created callback made, counter not yet raised. `Claimed`: the once-only close has
      begun. `Reported`: closed callback made, counter not yet lowered. */
  datatype Phase = Announced | Open | Claimed | Reported | Closed

  /** UDP sessions belong to a packet loop and a source; the rest are TCP and SOCKS connections. */
  datatype Owner = Udp(loop: nat, source: string) | Stream

  datatype Conn = Conn(owner: Owner, phase: Phase, last: int)

  datatype Entry = Entry(key: string, id: nat)

  /** The packet loop of `runUDPLoop`. */
  datatype LoopPc =
    | Reading
    | Loading(key: string)
    | Dialing(key: string)
    | Counting(key: string, id: nat)
    | Storing(key: string, id: nat)
    | Touching(key: string, id: nat)
    | Writing(key: string, id: nat)
    | Closing(key: string, id: nat)
    | Deleting(key: string, id: nat)
    | Stopped

  /** The cleanup goroutine: the rest of its snapshot, the head being looked at, closed, removed. */
  datatype SweepPc =
    | Waiting
    | Checking(entries: seq<Entry>, now: int, final: bool)
    | Evicting(entries: seq<Entry>, now: int, final: bool)
    | Removing(entries: seq<Entry>, now: int)
    | Finished

  datatype Loop = Loop(data: map<string, nat>, pc: LoopPc, sweep: SweepPc)

  /** Connections are numbered in the order of their creation; `reports` lists the ids for which the
      closed callback was made. */
  datatype State = State(
    tracked: bool, timeout: int, clock: int, cancelled: bool,
    conns: seq<Conn>, counter: int, reports: seq<nat>, loops: seq<Loop>)

  function Init(tracked: bool, timeout: int): State {
    State(tracked, timeout, 0, false, [], 0, [], [])
  }

  datatype LoopAct =
    | Read(key: string) | Load | DialFail | DialOk | Count | Store | Touch
    | WriteOk | WriteFail | CloseBegin | CloseReturn | Delete | ReadError

  datatype SweepAct =
    | Tick(entries: seq<Entry>) | Skip | Expire | EvictBegin | EvictReturn | Remove | PassEnd
    | CancelPass(entries: seq<Entry>)

  datatype Step =
    | Advance(time: int)
    | Cancel
    | StartLoop
    | InLoop(l: nat, act: LoopAct)
    | InSweep(l: nat, sact: SweepAct)
    | AnnounceStream
    | CountStream(id: nat)
    | CloseStream(id: nat)
    | Report(id: nat)
    | Lower(id: nat)
    | FinishUntracked(id: nat)

  // ---------- Steps ----------

  /** `Range` hands out every entry of the map once, in some order. */
  ghost predicate IsSnapshot(entries: seq<Entry>, data: map<string, nat>) {
    && (forall e :: e in entries ==> e.key in data && data[e.key] == e.id)
    && (forall k :: k in data ==> Entry(k, data[k]) in entries)
    && (forall i, j :: 0 <= i < j < |entries| ==> entries[i] != entries[j])
  }

  predicate HasPhase(s: State, id: nat, p: Phase) { id < |s.conns| && s.conns[id].phase == p }

  ghost predicate LoopEnabled(s: State, lp: Loop, act: LoopAct) {
    match act
    case Read(_) => lp.pc.Reading?
    case Load => lp.pc.Loading?
    case DialFail => lp.pc.Dialing?
    case DialOk => lp.pc.Dialing?
    case Count => lp.pc.Counting? && lp.pc.id < |s.conns|
    case Store => lp.pc.Storing?
    case Touch => lp.pc.Touching? && lp.pc.id < |s.conns|
    case WriteOk => lp.pc.Writing?
    case WriteFail => lp.pc.Writing?
    case CloseBegin => lp.pc.Closing? && HasPhase(s, lp.pc.id, Open)
    case CloseReturn => lp.pc.Closing? && HasPhase(s, lp.pc.id, Closed)
    case Delete => lp.pc.Deleting?
    case ReadError => lp.pc.Reading? && s.cancelled
  }

  ghost predicate SweepEnabled(s: State, lp: Loop, act: SweepAct) {
    match act
    case Tick(entries) => lp.sweep.Waiting? && IsSnapshot(entries, lp.data)
    case CancelPass(entries) => lp.sweep.Waiting? && s.cancelled && IsSnapshot(entries, lp.data)
    case Skip => lp.sweep.Checking? && lp.sweep.entries != [] && !Expired(s, lp.sweep)
    case Expire => lp.sweep.Checking? && lp.sweep.entries != [] && Expired(s, lp.sweep)
    case EvictBegin => lp.sweep.Evicting? && lp.sweep.entries != [] && HasPhase(s, lp.sweep.entries[0].id, Open)
    case EvictReturn => lp.sweep.Evicting? && lp.sweep.entries != [] && HasPhase(s, lp.sweep.entries[0].id, Closed)
    case Remove => lp.sweep.Removing? && lp.sweep.entries != []
    case PassEnd => lp.sweep.Checking? && lp.sweep.entries == []
  }

  /** The sweep's test for the head of its snapshot; the pass on cancellation takes every entry. */
  predicate Expired(s: State, sweep: SweepPc)
    requires sweep.Checking? && sweep.entries != []
  {
    var id := sweep.entries[0].id;
    sweep.final || (id < |s.conns| && sweep.now - s.conns[id].last > s.timeout)
  }

  ghost predicate Enabled(s: State, step: Step) {
    match step
    case Advance(time) => time >= s.clock
    case Cancel => true
    case StartLoop => true
    case InLoop(l, act) => l < |s.loops| && LoopEnabled(s, s.loops[l], act)
    case InSweep(l, act) => l < |s.loops| && SweepEnabled(s, s.loops[l], act)
    case AnnounceStream => s.tracked
    case CountStream(id) => HasPhase(s, id, Announced) && s.conns[id].owner.Stream?
    case CloseStream(id) => HasPhase(s, id, Open) && s.conns[id].owner.Stream?
    case Report(id) => s.tracked && HasPhase(s, id, Claimed)
    case Lower(id) => s.tracked && HasPhase(s, id, Reported)
    case FinishUntracked(id) => !s.tracked && HasPhase(s, id, Claimed)
  }

  function SetPhase(s: State, id: nat, p: Phase): State
    requires id < |s.conns|
  {
    s.(conns := s.conns[id := s.conns[id].(phase := p)])
  }

  function SetLoop(s: State, l: nat, lp: Loop): State
    requires l < |s.loops|
  {
    s.(loops := s.loops[l := lp])
  }

  function LoopStep(s: State, l: nat, act: LoopAct): State
    requires l < |s.loops| && LoopEnabled(s, s.loops[l], act)
  {
    var lp := s.loops[l];
    match act
    case Read(key) => SetLoop(s, l, lp.(pc := Loading(key)))
    case Load =>
      var key := lp.pc.key;
      SetLoop(s, l, lp.(pc := if key in lp.data then Touching(key, lp.data[key]) else Dialing(key)))
    case DialFail => SetLoop(s, l, lp.(pc := Reading))
    case DialOk =>
      var key, id := lp.pc.key, |s.conns|;
      var conn := Conn(Udp(l, key), if s.tracked then Announced else Open, s.clock);
      SetLoop(s, l, lp.(pc := if s.tracked then Counting(key, id) else Storing(key, id))).(conns := s.conns + [conn])
    case Count =>
      SetPhase(SetLoop(s, l, lp.(pc := Storing(lp.pc.key, lp.pc.id))), lp.pc.id, Open).(counter := s.counter + 1)
    case Store =>
      SetLoop(s, l, lp.(data := lp.data[lp.pc.key := lp.pc.id], pc := Touching(lp.pc.key, lp.pc.id)))
    case Touch =>
      var id := lp.pc.id;
      SetLoop(s, l, lp.(pc := Writing(lp.pc.key, id))).(conns := s.conns[id := s.conns[id].(last := s.clock)])
    case WriteOk => SetLoop(s, l, lp.(pc := Reading))
    case WriteFail => SetLoop(s, l, lp.(pc := Closing(lp.pc.key, lp.pc.id)))
    case CloseBegin => SetPhase(s, lp.pc.id, Claimed)
    case CloseReturn => SetLoop(s, l, lp.(pc := Deleting(lp.pc.key, lp.pc.id)))
    case Delete => SetLoop(s, l, lp.(data := lp.data - {lp.pc.key}, pc := Reading))
    case ReadError => SetLoop(s, l, lp.(pc := Stopped))
  }

  function SweepStep(s: State, l: nat, act: SweepAct): State
    requires l < |s.loops| && SweepEnabled(s, s.loops[l], act)
  {
    var lp := s.loops[l];
    match act
    case Tick(entries) => SetLoop(s, l, lp.(sweep := Checking(entries, s.clock, false)))
    case CancelPass(entries) => SetLoop(s, l, lp.(sweep := Checking(entries, s.clock, true)))
    case Skip => SetLoop(s, l, lp.(sweep := Checking(lp.sweep.entries[1..], lp.sweep.now, lp.sweep.final)))
    case Expire => SetLoop(s, l, lp.(sweep := Evicting(lp.sweep.entries, lp.sweep.now, lp.sweep.final)))
    case EvictBegin => SetPhase(s, lp.sweep.entries[0].id, Claimed)
    case EvictReturn =>
      var sw := lp.sweep;
      SetLoop(s, l, lp.(sweep := if sw.final then Checking(sw.entries[1..], sw.now, true) else Removing(sw.entries, sw.now)))
    case Remove =>
      var sw := lp.sweep;
      SetLoop(s, l, lp.(data := lp.data - {sw.entries[0].key}, sweep := Checking(sw.entries[1..], sw.now, false)))
    case PassEnd => SetLoop(s, l, lp.(sweep := if lp.sweep.final then Finished else Waiting))
  }

  function Apply(s: State, step: Step): State
    requires Enabled(s, step)
  {
    match step
    case Advance(time) => s.(clock := time)
    case Cancel => s.(cancelled := true)
    case StartLoop => s.(loops := s.loops + [Loop(map[], Reading, Waiting)])
    case InLoop(l, act) => LoopStep(s, l, act)
    case InSweep(l, act) => SweepStep(s, l, act)
    case AnnounceStream => s.(conns := s.conns + [Conn(Stream, Announced, s.clock)])
    case CountStream(id) => SetPhase(s, id, Open).(counter := s.counter + 1)
    case CloseStream(id) => SetPhase(s, id, Claimed)
    case Report(id) => SetPhase(s, id, Reported).(reports := s.reports + [id])
    case Lower(id) => SetPhase(s, id, Closed).(counter := s.counter - 1)
    case FinishUntracked(id) => SetPhase(s, id, Closed)
  }

  ghost predicate Next(s: State, s': State) {
    exists step :: Enabled(s, step) && s' == Apply(s, step)
  }

  ghost predicate IsRun(run: seq<State>) {
    && run != []
    && run[0] == Init(run[0].tracked, run[0].timeout)
    && forall i :: 0 <= i < |run| - 1 ==> Next(run[i], run[i + 1])
  }

  // ---------- Conservation ----------

  predicate Counts(p: Phase) { p.Open? || p.Claimed? || p.Reported? }

  /** Number of connections counted and not yet discounted. */
  function Live(conns: seq<Conn>): nat {
    if conns == [] then 0
    else Live(conns[..|conns| - 1]) + (if Counts(conns[|conns| - 1].phase) then 1 else 0)
  }

  function One(conn: Conn): nat { if Counts(conn.phase) then 1 else 0 }

  lemma {:induction false} LiveUpdate(conns: seq<Conn>, id: nat, conn: Conn)
    requires id < |conns|
    ensures Live(conns[id := conn]) == Live(conns) - One(conns[id]) + One(conn)
  {
    var n := |conns| - 1;
    if id < n {
      LiveUpdate(conns[..n], id, conn);
      assert conns[id := conn][..n] == conns[..n][id := conn];
    } else {
      assert conns[id := conn][..n] == conns[..n];
    }
  }

  /** The counter is what the connections say it is. */
  predicate Tallied(s: State) {
    s.counter == if s.tracked then Live(s.conns) else 0
  }

  predicate AtMostOnce(s: State) {
    forall i, j :: 0 <= i < j < |s.reports| ==> s.reports[i] != s.reports[j]
  }

  /** The closed callback was made for exactly the connections whose close got that far. */
  predicate ReportsMatch(s: State) {
    && (forall id :: id in s.reports ==> s.tracked && id < |s.conns|)
    && (forall id :: 0 <= id < |s.conns| && s.tracked ==> (id in s.reports <==> PastReport(s.conns[id].phase)))
    && (!s.tracked ==> forall id :: 0 <= id < |s.conns| ==> OnlyUntracked(s.conns[id].phase))
  }

  predicate PastReport(p: Phase) { p.Reported? || p.Closed? }

  predicate OnlyUntracked(p: Phase) { !p.Announced? && !p.Reported? }

  // ---------- What the loops know ----------

  /** `id` is a session of this loop for this source, and past its creation. */
  predicate Session(conns: seq<Conn>, l: nat, key: string, id: nat) {
    id < |conns| && conns[id].owner == Udp(l, key) && !conns[id].phase.Announced?
  }

  predicate EntriesOk(conns: seq<Conn>, l: nat, entries: seq<Entry>) {
    forall i :: 0 <= i < |entries| ==> Session(conns, l, entries[i].key, entries[i].id)
  }

  predicate SweepOk(conns: seq<Conn>, l: nat, sweep: SweepPc) {
    match sweep
    case Checking(entries, _, _) => EntriesOk(conns, l, entries)
    case Evicting(entries, _, _) => EntriesOk(conns, l, entries) && entries != []
    case Removing(entries, _) => EntriesOk(conns, l, entries) && entries != [] && conns[entries[0].id].phase.Closed?
    case _ => true
  }

  /** The packet loop alone stores into its map, so what it holds is what the map holds, if anything. */
  predicate PcOk(tracked: bool, conns: seq<Conn>, l: nat, data: map<string, nat>, pc: LoopPc) {
    match pc
    case Dialing(key) => key !in data
    case Counting(key, id) =>
      tracked && key !in data && id < |conns| && conns[id].owner == Udp(l, key) && conns[id].phase.Announced?
    case Storing(key, id) => key !in data && Session(conns, l, key, id)
    case Touching(key, id) => Session(conns, l, key, id) && (key in data ==> data[key] == id)
    case Writing(key, id) => Session(conns, l, key, id) && (key in data ==> data[key] == id)
    case Closing(key, id) => Session(conns, l, key, id) && (key in data ==> data[key] == id)
    case Deleting(key, id) =>
      Session(conns, l, key, id) && (key in data ==> data[key] == id) && conns[id].phase.Closed?
    case _ => true
  }

  predicate DataOk(conns: seq<Conn>, l: nat, data: map<string, nat>) {
    forall k :: k in data ==> Session(conns, l, k, data[k])
  }

  predicate LoopOk(tracked: bool, conns: seq<Conn>, l: nat, lp: Loop) {
    DataOk(conns, l, lp.data) && SweepOk(conns, l, lp.sweep) && PcOk(tracked, conns, l, lp.data, lp.pc)
  }

  predicate LoopsOk(s: State) {
    forall l :: 0 <= l < |s.loops| ==> LoopOk(s.tracked, s.conns, l, s.loops[l])
  }

  predicate Inv(s: State) {
    Tallied(s) && AtMostOnce(s) && ReportsMatch(s) && LoopsOk(s)
  }

  /** Connections only move forward, and the first move of a session is its own loop's. */
  predicate Forward(conns: seq<Conn>, conns': seq<Conn>, l: nat) {
    && |conns| <= |conns'|
    && forall id :: 0 <= id < |conns| ==>
         && conns'[id].owner == conns[id].owner
         && (conns[id].phase != conns'[id].phase && conns[id].owner.Udp? && conns[id].owner.loop == l ==>
               !conns[id].phase.Announced? && !conns'[id].phase.Announced? && !conns[id].phase.Closed?)
  }

  lemma ForwardKeepsLoop(tracked: bool, conns: seq<Conn>, conns': seq<Conn>, l: nat, lp: Loop)
    requires LoopOk(tracked, conns, l, lp) && Forward(conns, conns', l)
    ensures LoopOk(tracked, conns', l, lp)
  {}

  // ---------- Every step keeps the invariant ----------

  /** The connection a step moves, if any, and the phase it moves to. */
  function Moves(s: State, step: Step): (r: Option<(nat, Phase)>)
    requires Enabled(s, step)
  {
    match step
    case InLoop(l, Count) => Some((s.loops[l].pc.id, Open))
    case InLoop(l, CloseBegin) => Some((s.loops[l].pc.id, Claimed))
    case InSweep(l, EvictBegin) => Some((s.loops[l].sweep.entries[0].id, Claimed))
    case CountStream(id) => Some((id, Open))
    case CloseStream(id) => Some((id, Claimed))
    case Report(id) => Some((id, Reported))
    case Lower(id) => Some((id, Closed))
    case FinishUntracked(id) => Some((id, Closed))
    case _ => None
  }

  /** A step adds a connection, touches one, moves one, or leaves them all alone. */
  lemma ConnsAfter(s: State, step: Step)
    requires Enabled(s, step)
    ensures var s' := Apply(s, step);
            match Moves(s, step)
            case Some((id, p)) => id < |s.conns| && s'.conns == s.conns[id := s.conns[id].(phase := p)]
            case None =>
              if step.AnnounceStream? || (step.InLoop? && step.act.DialOk?) then
                && |s'.conns| == |s.conns| + 1 && s'.conns[..|s.conns|] == s.conns
                && s'.conns[|s.conns|].phase == if s.tracked then Announced else Open
              else if step.InLoop? && step.act.Touch? then
                var id := s.loops[step.l].pc.id;
                id < |s.conns| && s'.conns == s.conns[id := s.conns[id].(last := s.clock)]
              else s'.conns == s.conns
  {}

  /** The life of a connection has one order, and only a tracked one is announced and reported. */
  predicate Legal(tracked: bool, p: Phase, q: Phase) {
    || (tracked && p.Announced? && q.Open?)
    || (p.Open? && q.Claimed?)
    || (tracked && p.Claimed? && q.Reported?)
    || (tracked && p.Reported? && q.Closed?)
    || (!tracked && p.Claimed? && q.Closed?)
  }

  lemma MovesAreLegal(s: State, step: Step)
    requires LoopsOk(s) && ReportsMatch(s) && Enabled(s, step) && Moves(s, step).Some?
    ensures var (id, p) := Moves(s, step).value;
            id < |s.conns| && Legal(s.tracked, s.conns[id].phase, p)
  {
    if step.InLoop? {
      assert LoopOk(s.tracked, s.conns, step.l, s.loops[step.l]);
    }
  }

  lemma CounterAfter(s: State, step: Step)
    requires Enabled(s, step)
    ensures Apply(s, step).tracked == s.tracked
    ensures Apply(s, step).counter - s.counter
         == match Moves(s, step)
            case Some((_, Open)) => 1
            case Some((_, Closed)) => if step.Lower? then -1 else 0
            case _ => 0
    ensures Apply(s, step).reports == if step.Report? then s.reports + [step.id] else s.reports
  {}

  lemma StepTallies(s: State, step: Step)
    requires Tallied(s) && LoopsOk(s) && ReportsMatch(s) && Enabled(s, step)
    ensures Tallied(Apply(s, step))
  {
    hide Apply, LoopsOk, ReportsMatch;
    ConnsAfter(s, step);
    CounterAfter(s, step);
    if Moves(s, step).Some? {
      MovesAreLegal(s, step);
      var (id, p) := Moves(s, step).value;
      LiveUpdate(s.conns, id, s.conns[id].(phase := p));
    } else if step.InLoop? && step.act.Touch? {
      var id := s.loops[step.l].pc.id;
      LiveUpdate(s.conns, id, s.conns[id].(last := s.clock));
    }
  }

  lemma StepReports(s: State, step: Step)
    requires AtMostOnce(s) && LoopsOk(s) && ReportsMatch(s) && Enabled(s, step)
    ensures AtMostOnce(Apply(s, step)) && ReportsMatch(Apply(s, step))
  {
    hide Apply, LoopsOk;
    ConnsAfter(s, step);
    CounterAfter(s, step);
    var s' := Apply(s, step);
    if Moves(s, step).Some? {
      MovesAreLegal(s, step);
      var (id, p) := Moves(s, step).value;
      assert forall k :: 0 <= k < |s.conns| ==> s'.conns[k].phase == if k == id then p else s.conns[k].phase;
    } else {
      assert forall k :: 0 <= k < |s.conns| ==> s'.conns[k].phase == s.conns[k].phase;
    }
  }

  lemma StepForward(s: State, step: Step, l: nat)
    requires LoopsOk(s) && ReportsMatch(s) && Enabled(s, step) && step != InLoop(l, Count)
    ensures Forward(s.conns, Apply(s, step).conns, l)
  {
    hide Apply, LoopsOk, LoopOk;
    ConnsAfter(s, step);
    var s' := Apply(s, step);
    if Moves(s, step).Some? {
      MovesAreLegal(s, step);
      if step.InLoop? { CountsOwn(s, step); }
    } else {
      assert forall id :: 0 <= id < |s.conns| ==> s'.conns[id].owner == s.conns[id].owner && s'.conns[id].phase == s.conns[id].phase;
    }
  }

  lemma CountsOwn(s: State, step: Step)
    requires LoopsOk(s) && Enabled(s, step) && step.InLoop?
    ensures step.act.Count? ==>
              var id := s.loops[step.l].pc.id;
              id < |s.conns| && s.conns[id].owner == Udp(step.l, s.loops[step.l].pc.key)
  {
    assert LoopOk(s.tracked, s.conns, step.l, s.loops[step.l]);
  }

  lemma PacketLoopStep(s: State, l: nat, act: LoopAct)
    requires LoopsOk(s) && ReportsMatch(s) && Enabled(s, InLoop(l, act)) && act != Count
    ensures var s' := Apply(s, InLoop(l, act));
            |s'.loops| == |s.loops| && LoopOk(s'.tracked, s'.conns, l, s'.loops[l])
  {
    var s' := Apply(s, InLoop(l, act));
    StepForward(s, InLoop(l, act), l);
    ForwardKeepsLoop(s.tracked, s.conns, s'.conns, l, s.loops[l]);
  }

  lemma CountStep(s: State, l: nat)
    requires LoopsOk(s) && Enabled(s, InLoop(l, Count))
    ensures var s' := Apply(s, InLoop(l, Count));
            |s'.loops| == |s.loops| && LoopOk(s'.tracked, s'.conns, l, s'.loops[l])
  {
    assert LoopOk(s.tracked, s.conns, l, s.loops[l]);
  }

  lemma SweeperStep(s: State, l: nat, act: SweepAct)
    requires LoopsOk(s) && ReportsMatch(s) && Enabled(s, InSweep(l, act))
    ensures var s' := Apply(s, InSweep(l, act));
            |s'.loops| == |s.loops| && LoopOk(s'.tracked, s'.conns, l, s'.loops[l])
  {
    var s' := Apply(s, InSweep(l, act));
    StepForward(s, InSweep(l, act), l);
    ForwardKeepsLoop(s.tracked, s.conns, s'.conns, l, s.loops[l]);
  }

  /** A step changes the loop it belongs to, or adds a fresh one. */
  lemma OtherLoops(s: State, step: Step, l: nat)
    requires Enabled(s, step) && l < |s.loops|
    requires !(step.InLoop? && step.l == l) && !(step.InSweep? && step.l == l)
    ensures l < |Apply(s, step).loops| && Apply(s, step).loops[l] == s.loops[l]
  {}

  lemma NewLoop(s: State, step: Step)
    requires Enabled(s, step)
    ensures |s.loops| <= |Apply(s, step).loops|
    ensures forall l :: |s.loops| <= l < |Apply(s, step).loops| ==> Apply(s, step).loops[l] == Loop(map[], Reading, Waiting)
  {}

  lemma StepLoops(s: State, step: Step)
    requires LoopsOk(s) && ReportsMatch(s) && Enabled(s, step)
    ensures LoopsOk(Apply(s, step))
  {
    hide Apply, Enabled, LoopOk;
    var s' := Apply(s, step);
    CounterAfter(s, step);
    NewLoop(s, step);
    forall l | 0 <= l < |s'.loops| ensures LoopOk(s'.tracked, s'.conns, l, s'.loops[l]) {
      if l >= |s.loops| {
        FreshLoopOk(s'.tracked, s'.conns, l);
      } else if step == InLoop(l, Count) {
        CountStep(s, l);
      } else if step.InLoop? && step.l == l {
        PacketLoopStep(s, l, step.act);
      } else if step.InSweep? && step.l == l {
        SweeperStep(s, l, step.sact);
      } else {
        OtherLoops(s, step, l);
        StepForward(s, step, l);
        ForwardKeepsLoop(s.tracked, s.conns, s'.conns, l, s.loops[l]);
      }
    }
  }

  lemma FreshLoopOk(tracked: bool, conns: seq<Conn>, l: nat)
    ensures LoopOk(tracked, conns, l, Loop(map[], Reading, Waiting))
  {}

  lemma StepKeepsInv(s: State, step: Step)
    requires Inv(s) && Enabled(s, step)
    ensures Inv(Apply(s, step))
  {
    hide Apply, Enabled, LoopsOk, ReportsMatch, AtMostOnce, Tallied;
    StepTallies(s, step);
    StepReports(s, step);
    StepLoops(s, step);
  }

  // ---------- Main results: the counter ----------

  lemma {:induction false} EveryRun(run: seq<State>, i: nat)
    requires IsRun(run) && i < |run|
    ensures Inv(run[i])
  {
    hide Inv, Apply, Enabled;
    if i > 0 {
      EveryRun(run, i - 1);
      assert Next(run[i - 1], run[i]);
      var step :| Enabled(run[i - 1], step) && run[i] == Apply(run[i - 1], step);
      StepKeepsInv(run[i - 1], step);
    } else {
      InitInv(run[0].tracked, run[0].timeout);
    }
  }

  lemma InitInv(tracked: bool, timeout: int)
    ensures Inv(Init(tracked, timeout))
  {}

  /** Connections in one of the phases. */
  function InPhase(conns: seq<Conn>, phases: set<Phase>): set<nat> {
    set id: nat | id < |conns| && conns[id].phase in phases
  }

  lemma {:induction false} LiveIsCardinality(conns: seq<Conn>)
    ensures Live(conns) == |InPhase(conns, {Open, Claimed, Reported})|
  {
    var phases := {Open, Claimed, Reported};
    if conns == [] {
      assert InPhase(conns, phases) == {};
    } else {
      var n := |conns| - 1;
      LiveIsCardinality(conns[..n]);
      assert InPhase(conns, phases) == InPhase(conns[..n], phases) + (if conns[n].phase in phases then {n} else {});
    }
  }

  /** In every interleaving of loops, sweepers, TCP proxies and SOCKS dials, the counter equals the
      tracked connections that are open or whose once-only close is under way; no id is reported closed
      twice; and an id is reported exactly when its close got past the callback. */
  lemma CounterConserved(run: seq<State>, i: nat)
    requires IsRun(run) && i < |run|
    ensures var s := run[i];
            && (s.tracked ==> s.counter == |InPhase(s.conns, {Open, Claimed, Reported})|)
            && (!s.tracked ==> s.counter == 0 && s.reports == [])
            && (forall j, k :: 0 <= j < k < |s.reports| ==> s.reports[j] != s.reports[k])
            && (forall id: nat :: id in s.reports <==> s.tracked && id in InPhase(s.conns, {Reported, Closed}))
  {
    EveryRun(run, i);
    LiveIsCardinality(run[i].conns);
    assert run[i].reports != [] ==> run[i].reports[0] in run[i].reports;
  }

  // ---------- Main results: open sessions and the map ----------

  /** Every open session is in the map of its loop, or about to be stored there. */
  predicate AllMapped(s: State) {
    forall id :: 0 <= id < |s.conns| && s.conns[id].owner.Udp? && s.conns[id].phase.Open? ==>
      Mapped(s, s.conns[id].owner.loop, s.conns[id].owner.source, id)
  }

  predicate Mapped(s: State, l: nat, key: string, id: nat) {
    l < |s.loops| && (s.loops[l].pc == Storing(key, id) || (key in s.loops[l].data && s.loops[l].data[key] == id))
  }

  /** The sweeper is about to remove a key that by now maps to a newer session, still open. */
  predicate LosesSession(s: State, step: Step) {
    && step.InSweep? && step.sact.Remove? && step.l < |s.loops|
    && var lp := s.loops[step.l];
       && lp.sweep.Removing? && lp.sweep.entries != []
       && var e := lp.sweep.entries[0];
          && e.key in lp.data && lp.data[e.key] != e.id
          && HasPhase(s, lp.data[e.key], Open)
  }

  lemma MappedAfterLoopStep(s: State, step: Step, id: nat)
    requires LoopsOk(s) && Enabled(s, step) && step.InLoop? && id < |s.conns| && s.conns[id].owner.Udp?
    requires var o := s.conns[id].owner; Mapped(s, o.loop, o.source, id)
    requires Apply(s, step).conns[id].phase.Open?
    ensures var o := s.conns[id].owner; Mapped(Apply(s, step), o.loop, o.source, id)
  {
    if step.l == s.conns[id].owner.loop {
      MappedInOwnLoop(s, step, id);
    } else {
      OtherLoops(s, step, s.conns[id].owner.loop);
    }
  }

  lemma MappedInOwnLoop(s: State, step: Step, id: nat)
    requires LoopsOk(s) && Enabled(s, step) && step.InLoop? && id < |s.conns|
    requires s.conns[id].owner.Udp? && s.conns[id].owner.loop == step.l
    requires Mapped(s, step.l, s.conns[id].owner.source, id)
    requires Apply(s, step).conns[id].phase.Open?
    ensures Mapped(Apply(s, step), step.l, s.conns[id].owner.source, id)
  {
    assert LoopOk(s.tracked, s.conns, step.l, s.loops[step.l]);
  }

  lemma MappedAfterSweepStep(s: State, step: Step, id: nat)
    requires LoopsOk(s) && Enabled(s, step) && step.InSweep? && id < |s.conns| && s.conns[id].owner.Udp?
    requires var o := s.conns[id].owner; Mapped(s, o.loop, o.source, id)
    requires Apply(s, step).conns[id].phase.Open? && !LosesSession(s, step)
    ensures var o := s.conns[id].owner; Mapped(Apply(s, step), o.loop, o.source, id)
  {
    assert LoopOk(s.tracked, s.conns, step.l, s.loops[step.l]);
  }

  lemma LostAfterRemove(s: State, step: Step)
    requires LoopsOk(s) && Enabled(s, step) && LosesSession(s, step)
    ensures !AllMapped(Apply(s, step))
  {
    var lp := s.loops[step.l];
    assert LoopOk(s.tracked, s.conns, step.l, lp);
    var e := lp.sweep.entries[0];
    var id := lp.data[e.key];
    var s' := Apply(s, step);
    assert s'.conns == s.conns && s'.loops[step.l].data == lp.data - {e.key};
    assert !Mapped(s', step.l, e.key, id);
  }

  /** A session that a step opens is about to be stored by its loop. */
  lemma OpenedIsStoring(s: State, step: Step, id: nat)
    requires LoopsOk(s) && Enabled(s, step) && id < |Apply(s, step).conns|
    requires Apply(s, step).conns[id].phase.Open? && Apply(s, step).conns[id].owner.Udp?
    requires id >= |s.conns| || !s.conns[id].phase.Open?
    ensures var s', o := Apply(s, step), Apply(s, step).conns[id].owner;
            o.loop < |s'.loops| && s'.loops[o.loop].pc == Storing(o.source, id) && Mapped(s', o.loop, o.source, id)
  {
    if step.InLoop? {
      assert LoopOk(s.tracked, s.conns, step.l, s.loops[step.l]);
    }
  }

  lemma MappedAfterOther(s: State, step: Step, id: nat)
    requires Enabled(s, step) && !step.InLoop? && !step.InSweep? && id < |s.conns| && s.conns[id].owner.Udp?
    requires var o := s.conns[id].owner; Mapped(s, o.loop, o.source, id)
    ensures var o := s.conns[id].owner; Mapped(Apply(s, step), o.loop, o.source, id)
  {
    OtherLoops(s, step, s.conns[id].owner.loop);
  }

  lemma OwnersStay(s: State, step: Step)
    requires Enabled(s, step)
    ensures var s' := Apply(s, step);
            |s.conns| <= |s'.conns| && forall id :: 0 <= id < |s.conns| ==> s'.conns[id].owner == s.conns[id].owner
  {
    hide Apply;
    ConnsAfter(s, step);
    var s' := Apply(s, step);
    if Moves(s, step).None? && |s'.conns| > |s.conns| {
      assert forall id :: 0 <= id < |s.conns| ==> s'.conns[id] == s'.conns[..|s.conns|][id];
    }
  }

  /** A step leaves every open session mapped exactly if it is not that removal. */
  lemma StepKeepsMapped(s: State, step: Step)
    requires Inv(s) && AllMapped(s) && Enabled(s, step)
    ensures AllMapped(Apply(s, step)) <==> !LosesSession(s, step)
  {
    hide Apply, Enabled, LoopsOk, Mapped;
    if LosesSession(s, step) {
      LostAfterRemove(s, step);
    } else {
      var s' := Apply(s, step);
      OwnersStay(s, step);
      forall id | 0 <= id < |s'.conns| && s'.conns[id].owner.Udp? && s'.conns[id].phase.Open?
        ensures Mapped(s', s'.conns[id].owner.loop, s'.conns[id].owner.source, id)
      {
        if id >= |s.conns| || !s.conns[id].phase.Open? {
          OpenedIsStoring(s, step, id);
        } else if step.InLoop? {
          MappedAfterLoopStep(s, step, id);
        } else if step.InSweep? {
          MappedAfterSweepStep(s, step, id);
        } else {
          MappedAfterOther(s, step, id);
        }
      }
    }
  }

  /** In any run, an open session goes missing from the map only after such a removal. */
  lemma {:induction false} MappedUntilLost(run: seq<State>, i: nat)
    requires IsRun(run) && i < |run|
    ensures AllMapped(run[i]) || exists j, step ::
              0 <= j < i && Enabled(run[j], step) && run[j + 1] == Apply(run[j], step) && LosesSession(run[j], step)
  {
    hide Inv, Apply, Enabled, AllMapped, LosesSession;
    if i > 0 {
      MappedUntilLost(run, i - 1);
      EveryRun(run, i - 1);
      assert Next(run[i - 1], run[i]);
      var step :| Enabled(run[i - 1], step) && run[i] == Apply(run[i - 1], step);
      if AllMapped(run[i - 1]) {
        StepKeepsMapped(run[i - 1], step);
        if LosesSession(run[i - 1], step) {
          assert Enabled(run[i - 1], step) && run[i - 1 + 1] == Apply(run[i - 1], step);
        }
      }
    } else {
      NoneYet(run[0].tracked, run[0].timeout);
    }
  }

  lemma NoneYet(tracked: bool, timeout: int)
    ensures AllMapped(Init(tracked, timeout))
  {}
}
