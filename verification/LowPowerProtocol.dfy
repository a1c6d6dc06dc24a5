/** The low-power protocol (mod/lowpower): the goroutine that owns all transitions, wake requests on a
    one-slot channel, the wake listener with its accept loops, the connection handlers counted by a
    wait group, and `Stop`, interleaved step by step. Times are in nanoseconds. */
module LowPowerProtocol {
  import opened Prelude

  const SECOND := 1_000_000_000

  /** `socks`: the node has a SOCKS address. */
  datatype Config = Config(socks: bool, idleTimeout: int)

  datatype Power = FullPower | Stopping | LowPower | Starting

  /** Where `Run` is: at its select, in the tick case, in `transitionToLowPower`, at the drain that
      follows it, in `doTransitionToFullPower`, or gone. */
  datatype Pc =
    | Select
    | TickRead | TickTouch | TickIdle
    | SleepMark | SleepStop | SleepListen | SleepArm(gen: nat) | SleepRestart | SleepTouch | SleepFull | SleepLow
    | Drain
    | WakeMark | WakeClose | WakeStart | WakeListen | WakeArm(gen: nat) | WakeLow | WakeTouch | WakeFull
    | Exited

  /** The manager. `lastTouch` is the moment `lastActivity` (in whole seconds) was last set;
      `listenFailed` says how the last listen call ended. */
  datatype Owner = Owner(
    pc: Pc, power: Power, running: bool, lastActivity: int, lastTouch: int, listenFailed: bool)

  datatype AcceptPc = Unborn | Accepting | Holding(conn: nat) | Quit

  /** One listener and its accept loop. */
  datatype Gen = Gen(open: bool, loop: AcceptPc)

  datatype HandlerPc =
    | Spawned | Waiting | DialingSocks | EarlyClose
    | Proxying | CloseFirst | CloseSecond | LastCopy
    | Returning

  datatype Sock = NoSock | SockOpen | SockClosed

  /** An accepted wake connection: held by an accept loop, closed unserved, with its handler, or past it. */
  datatype Conn =
    | HeldBy(gen: nat)
    | Dropped
    | Handled(pc: HandlerPc, closed: bool, sock: Sock)
    | Done(closed: bool, sock: Sock)

  datatype Trigger = Trigger(listener: Option<nat>, gens: seq<Gen>, conns: seq<Conn>, wg: int)

  /** `Stop`: not called, context cancelled, listener closed and waiting, returned. */
  datatype StopPc = NotCalled | Cancelling | AwaitingHandlers | Returned

  datatype State = State(
    cfg: Config, owner: Owner, trigger: Trigger, token: bool,
    clock: int, active: nat, cancelled: bool, stop: StopPc)

  const DEFAULT_IDLE_TIMEOUT := 60 * SECOND

  /** `NewManager`, called with the components up. */
  function Init(socks: bool, idleTimeout: int, clock: nat): State {
    State(Config(socks, if idleTimeout <= 0 then DEFAULT_IDLE_TIMEOUT else idleTimeout),
          Owner(Select, FullPower, true, clock / SECOND, clock, false),
          Trigger(None, [], [], 0), false, clock, 0, false, NotCalled)
  }

  // ---------- Steps of Run ----------

  datatype RunAct = SelectDone | SelectWake | SelectTick | Go | Try(ok: bool) | DrainTake | DrainEmpty

  predicate IsCall(pc: Pc) { pc.SleepListen? || pc.SleepRestart? || pc.WakeStart? || pc.WakeListen? }

  predicate RunEnabled(s: State, act: RunAct) {
    match act
    case SelectDone => s.owner.pc.Select? && s.cancelled
    case SelectWake => s.owner.pc.Select? && s.token
    case SelectTick => s.owner.pc.Select?
    case Go => !s.owner.pc.Select? && !s.owner.pc.Drain? && !s.owner.pc.Exited? && !IsCall(s.owner.pc)
    case Try(_) => IsCall(s.owner.pc)
    case DrainTake => s.owner.pc.Drain? && s.token
    case DrainEmpty => s.owner.pc.Drain? && !s.token
  }

  /** `idleSeconds() * time.Second >= IdleTimeout`. */
  predicate Idle(s: State) {
    (s.clock / SECOND - s.owner.lastActivity) * SECOND >= s.cfg.idleTimeout
  }

  function Touch(o: Owner, clock: int): Owner {
    o.(lastActivity := clock / SECOND, lastTouch := clock)
  }

  /** `closeWakeListener`. */
  function CloseListener(t: Trigger): Trigger {
    match t.listener
    case None => t
    case Some(g) =>
      t.(listener := None, gens := if g < |t.gens| then t.gens[g := t.gens[g].(open := false)] else t.gens)
  }

  /** A listener just bound, its accept loop not started. */
  function Listen(t: Trigger): Trigger {
    t.(gens := t.gens + [Gen(true, Unborn)])
  }

  /** The listener becomes the current one and its accept loop starts. */
  function Arm(t: Trigger, g: nat): Trigger {
    t.(listener := Some(g), gens := if g < |t.gens| then t.gens[g := t.gens[g].(loop := Accepting)] else t.gens)
  }

  /** Steps whose course is fixed. */
  function RunGo(s: State): State
    requires RunEnabled(s, Go)
  {
    var o := s.owner;
    match o.pc
    case TickRead => s.(owner := o.(pc := if s.active > 0 then TickTouch else TickIdle))
    case TickTouch => s.(owner := Touch(o, s.clock).(pc := Select))
    case TickIdle => s.(owner := o.(pc := if Idle(s) then SleepMark else Select))
    case SleepMark =>
      if o.power.FullPower? then s.(owner := o.(pc := SleepStop, power := Stopping))
      else s.(owner := o.(pc := Drain))
    case SleepStop => s.(owner := o.(pc := if s.cfg.socks then SleepListen else SleepLow, running := false))
    case SleepArm(g) => s.(owner := o.(pc := SleepLow), trigger := Arm(s.trigger, g))
    case SleepTouch => s.(owner := Touch(o, s.clock).(pc := SleepFull))
    case SleepFull => s.(owner := o.(pc := Drain, power := FullPower))
    case SleepLow => s.(owner := o.(pc := Drain, power := LowPower))
    case WakeMark => s.(owner := o.(pc := WakeClose, power := Starting))
    case WakeClose => s.(owner := o.(pc := WakeStart), trigger := CloseListener(s.trigger))
    case WakeArm(g) => s.(owner := o.(pc := WakeLow), trigger := Arm(s.trigger, g))
    case WakeLow => s.(owner := o.(pc := Select, power := LowPower))
    case WakeTouch => s.(owner := Touch(o, s.clock).(pc := WakeFull))
    case WakeFull => s.(owner := o.(pc := Select, power := FullPower))
    case _ => s
  }

  /** Calls that may fail: `net.Listen` and `StartComponents`. A failed start leaves nothing running. */
  function RunTry(s: State, ok: bool): State
    requires IsCall(s.owner.pc)
  {
    var o := s.owner;
    match o.pc
    case SleepListen =>
      if ok then s.(owner := o.(pc := SleepArm(|s.trigger.gens|), listenFailed := false), trigger := Listen(s.trigger))
      else s.(owner := o.(pc := SleepRestart, listenFailed := true))
    case SleepRestart =>
      if ok then s.(owner := o.(pc := SleepTouch, running := true))
      else s.(owner := o.(pc := SleepLow, running := false))
    case WakeStart =>
      if ok then s.(owner := o.(pc := WakeTouch, running := true))
      else s.(owner := o.(pc := if s.cfg.socks then WakeListen else WakeLow, running := false))
    case _ =>
      if ok then s.(owner := o.(pc := WakeArm(|s.trigger.gens|), listenFailed := false), trigger := Listen(s.trigger))
      else s.(owner := o.(pc := WakeLow, listenFailed := true))
  }

  function RunStep(s: State, act: RunAct): State
    requires RunEnabled(s, act)
  {
    var o := s.owner;
    match act
    case SelectDone => s.(owner := o.(pc := Exited))
    case SelectWake =>
      s.(token := false, owner := o.(pc := if o.power.FullPower? then Select else WakeMark))
    case SelectTick => s.(owner := o.(pc := if o.power.FullPower? then TickRead else Select))
    case Go => RunGo(s)
    case Try(ok) => RunTry(s, ok)
    case DrainTake => s.(token := false, owner := o.(pc := WakeMark))
    case DrainEmpty => s.(owner := o.(pc := Select))
  }

  // ---------- Steps of the accept loops and handlers ----------

  datatype AcceptAct = Accept | AcceptError | Admit | Refuse

  predicate AcceptEnabled(t: Trigger, g: nat, act: AcceptAct) {
    && g < |t.gens|
    && match act
       case Accept => t.gens[g].loop.Accepting? && t.gens[g].open
       case AcceptError => t.gens[g].loop.Accepting?
       case Admit => t.gens[g].loop.Holding? && t.gens[g].loop.conn < |t.conns| && t.listener.Some?
       case Refuse => t.gens[g].loop.Holding? && t.gens[g].loop.conn < |t.conns| && t.listener.None?
  }

  /** Under the lock a held connection is counted if there is a listener, of whichever generation. */
  function AcceptStep(t: Trigger, g: nat, act: AcceptAct): Trigger
    requires AcceptEnabled(t, g, act)
  {
    var gen := t.gens[g];
    match act
    case Accept => t.(gens := t.gens[g := gen.(loop := Holding(|t.conns|))], conns := t.conns + [HeldBy(g)])
    case AcceptError => t.(gens := t.gens[g := gen.(loop := Quit)])
    case Admit =>
      t.(gens := t.gens[g := gen.(loop := Accepting)],
         conns := t.conns[gen.loop.conn := Handled(Spawned, false, NoSock)], wg := t.wg + 1)
    case Refuse =>
      t.(gens := t.gens[g := gen.(loop := Quit)], conns := t.conns[gen.loop.conn := Dropped])
  }

  /** `handleWakeConnection`, `ProxyTCP` inside it, and the watcher that closes both ends on cancellation. */
  datatype HandlerAct =
    | RequestWake | SocksReady | SocksTimeout | SeeCancel | DialFail | DialOk | CloseEarly
    | CopyEnd | CloseConn | CloseSock | CopyEndOrTimeout | WatchConn | WatchSock | WgDone

  predicate InProxy(pc: HandlerPc) { pc.Proxying? || pc.CloseFirst? || pc.CloseSecond? || pc.LastCopy? }

  predicate HandlerEnabled(s: State, id: nat, act: HandlerAct) {
    && id < |s.trigger.conns| && s.trigger.conns[id].Handled?
    && var pc := s.trigger.conns[id].pc;
       match act
       case RequestWake => pc.Spawned?
       case SocksReady => pc.Waiting?
       case SocksTimeout => pc.Waiting?
       case SeeCancel => pc.Waiting? && s.cancelled
       case DialFail => pc.DialingSocks?
       case DialOk => pc.DialingSocks?
       case CloseEarly => pc.EarlyClose?
       case CopyEnd => pc.Proxying?
       case CloseConn => pc.CloseFirst?
       case CloseSock => pc.CloseSecond?
       case CopyEndOrTimeout => pc.LastCopy?
       case WatchConn => InProxy(pc) && s.cancelled
       case WatchSock => InProxy(pc) && s.cancelled
       case WgDone => pc.Returning?
  }

  function HandlerAfter(c: Conn, act: HandlerAct): Conn
    requires c.Handled?
  {
    match act
    case RequestWake => c.(pc := Waiting)
    case SocksReady => c.(pc := DialingSocks)
    case SocksTimeout => c.(pc := EarlyClose)
    case SeeCancel => c.(pc := EarlyClose)
    case DialFail => c.(pc := EarlyClose)
    case DialOk => c.(pc := Proxying, sock := SockOpen)
    case CloseEarly => c.(pc := Returning, closed := true)
    case CopyEnd => c.(pc := CloseFirst)
    case CloseConn => c.(pc := CloseSecond, closed := true)
    case CloseSock => c.(pc := LastCopy, sock := SockClosed)
    case CopyEndOrTimeout => c.(pc := Returning)
    case WatchConn => Handled(c.pc, true, c.sock)
    case WatchSock => Handled(c.pc, c.closed, SockClosed)
    case WgDone => Done(c.closed, c.sock)
  }

  // ---------- Everything else ----------

  /** Other callers of `TransitionToFullPower`, the tracked connections, time, cancellation, `Stop`. */
  datatype EnvAct =
    | Advance(time: int) | SetActive(n: nat) | Request | Cancel | StopCancel | StopClose | StopReturn

  predicate EnvEnabled(s: State, act: EnvAct) {
    match act
    case Advance(time) => time >= s.clock
    case SetActive(_) => true
    case Request => true
    case Cancel => true
    case StopCancel => s.stop.NotCalled?
    case StopClose => s.stop.Cancelling?
    case StopReturn => s.stop.AwaitingHandlers? && s.trigger.wg == 0
  }

  function EnvStep(s: State, act: EnvAct): State {
    match act
    case Advance(time) => s.(clock := time)
    case SetActive(n) => s.(active := n)
    case Request => s.(token := true)
    case Cancel => s.(cancelled := true)
    case StopCancel => s.(cancelled := true, stop := Cancelling)
    case StopClose => s.(trigger := CloseListener(s.trigger), stop := AwaitingHandlers)
    case StopReturn => s.(stop := Returned)
  }

  datatype Step =
    | InRun(run: RunAct)
    | InLoop(g: nat, accept: AcceptAct)
    | InHandler(id: nat, handler: HandlerAct)
    | InEnv(env: EnvAct)

  predicate Enabled(s: State, step: Step) {
    match step
    case InRun(act) => RunEnabled(s, act)
    case InLoop(g, act) => AcceptEnabled(s.trigger, g, act)
    case InHandler(id, act) => HandlerEnabled(s, id, act)
    case InEnv(act) => EnvEnabled(s, act)
  }

  function Apply(s: State, step: Step): State
    requires Enabled(s, step)
  {
    match step
    case InRun(act) => RunStep(s, act)
    case InLoop(g, act) => s.(trigger := AcceptStep(s.trigger, g, act))
    case InHandler(id, act) =>
      var t := s.trigger;
      s.(trigger := t.(conns := t.conns[id := HandlerAfter(t.conns[id], act)],
                       wg := if act.WgDone? then t.wg - 1 else t.wg),
         token := s.token || act.RequestWake?)
    case InEnv(act) => EnvStep(s, act)
  }

  ghost predicate Next(s: State, s': State) {
    exists step :: Enabled(s, step) && s' == Apply(s, step)
  }

  ghost predicate IsChain(run: seq<State>) {
    run != [] && forall i :: 0 <= i < |run| - 1 ==> Next(run[i], run[i + 1])
  }

  ghost predicate IsInitial(s: State) {
    exists socks, idleTimeout, clock :: s == Init(socks, idleTimeout, clock)
  }

  ghost predicate IsRun(run: seq<State>) { IsChain(run) && IsInitial(run[0]) }

  lemma StepAt(run: seq<State>, i: nat) returns (step: Step)
    requires IsChain(run) && i + 1 < |run|
    ensures Enabled(run[i], step) && run[i + 1] == Apply(run[i], step)
  {
    hide Enabled, Apply;
    assert Next(run[i], run[i + 1]);
    step :| Enabled(run[i], step) && run[i + 1] == Apply(run[i], step);
  }

  // ---------- Invariant of the owner ----------

  /** Asleep with a SOCKS address and no listener only if the last listen call failed, or `Stop` closed it. */
  predicate Armed(s: State) {
    && (s.cfg.socks && (s.stop.NotCalled? || s.stop.Cancelling?) ==> s.trigger.listener.Some? || s.owner.listenFailed)
    && (!s.cfg.socks ==> s.trigger.listener.None?)
  }

  predicate Awake(s: State, power: Power) {
    s.owner.power == power && s.owner.running && s.trigger.listener.None?
  }

  predicate Asleep(s: State, power: Power) {
    s.owner.power == power && !s.owner.running && Armed(s)
  }

  predicate Down(s: State, power: Power) {
    s.owner.power == power && !s.owner.running && s.trigger.listener.None? && s.cfg.socks
  }

  predicate PowerOk(s: State) {
    var o := s.owner;
    match o.pc
    case Select => Awake(s, FullPower) || Asleep(s, LowPower)
    case Exited => Awake(s, FullPower) || Asleep(s, LowPower)
    case TickRead => Awake(s, FullPower)
    case TickTouch => Awake(s, FullPower)
    case TickIdle => Awake(s, FullPower)
    case SleepMark => Awake(s, FullPower)
    case SleepStop => Awake(s, Stopping)
    case SleepListen => Down(s, Stopping)
    case SleepArm(_) => Down(s, Stopping)
    case SleepRestart => Down(s, Stopping) && o.listenFailed
    case SleepTouch => Awake(s, Stopping)
    case SleepFull => Awake(s, Stopping)
    case SleepLow => Asleep(s, Stopping)
    case Drain => Awake(s, FullPower) || Asleep(s, LowPower)
    case WakeMark => Awake(s, FullPower) || Asleep(s, LowPower)
    case WakeClose => Awake(s, Starting) || Asleep(s, Starting)
    case WakeStart => o.power.Starting? && s.trigger.listener.None?
    case WakeListen => Down(s, Starting)
    case WakeArm(_) => Down(s, Starting)
    case WakeLow => Asleep(s, Starting)
    case WakeTouch => Awake(s, Starting)
    case WakeFull => Awake(s, Starting)
  }

  predicate TouchOk(s: State) {
    s.owner.lastActivity == s.owner.lastTouch / SECOND && s.owner.lastTouch <= s.clock
  }

  predicate OwnerInv(s: State) {
    PowerOk(s) && TouchOk(s)
  }

  // ---------- Invariant of the trigger ----------

  predicate ArmingAt(pc: Pc, g: nat) { pc == SleepArm(g) || pc == WakeArm(g) }

  /** At most one listener is open: the current one, or the one about to become current. */
  predicate GensOk(t: Trigger, pc: Pc) {
    && (t.listener.Some? ==> t.listener.value < |t.gens|)
    && (pc.SleepArm? || pc.WakeArm? ==> pc.gen < |t.gens|)
    && forall g :: 0 <= g < |t.gens| ==>
         && (t.gens[g].open ==> t.listener == Some(g) || ArmingAt(pc, g))
         && (t.listener == Some(g) ==> t.gens[g].open && !t.gens[g].loop.Unborn?)
         && (t.gens[g].loop.Unborn? <==> ArmingAt(pc, g))
         && (ArmingAt(pc, g) ==> t.gens[g].open)
  }

  /** A held connection and the accept loop that holds it point at each other. */
  predicate HeldOk(t: Trigger) {
    && (forall g :: 0 <= g < |t.gens| && t.gens[g].loop.Holding? ==>
          t.gens[g].loop.conn < |t.conns| && t.conns[t.gens[g].loop.conn] == HeldBy(g))
    && (forall c :: 0 <= c < |t.conns| && t.conns[c].HeldBy? ==>
          t.conns[c].gen < |t.gens| && t.gens[t.conns[c].gen].loop == Holding(c))
  }

  /** What is open and closed at each point of a handler. */
  predicate ConnOk(c: Conn) {
    match c
    case Handled(pc, closed, sock) =>
      (match pc
       case Spawned => !closed && sock.NoSock?
       case Waiting => !closed && sock.NoSock?
       case DialingSocks => !closed && sock.NoSock?
       case EarlyClose => !closed && sock.NoSock?
       case Proxying => !sock.NoSock?
       case CloseFirst => !sock.NoSock?
       case CloseSecond => closed && !sock.NoSock?
       case LastCopy => closed && sock.SockClosed?
       case Returning => closed && !sock.SockOpen?)
    case Done(closed, sock) => closed && !sock.SockOpen?
    case _ => true
  }

  predicate ConnsOk(t: Trigger) {
    forall c :: 0 <= c < |t.conns| ==> ConnOk(t.conns[c])
  }

  function One(c: Conn): nat { if c.Handled? then 1 else 0 }

  function Handlers(conns: seq<Conn>): nat {
    if conns == [] then 0 else Handlers(conns[..|conns| - 1]) + One(conns[|conns| - 1])
  }

  predicate TriggerInv(t: Trigger, pc: Pc) {
    GensOk(t, pc) && HeldOk(t) && ConnsOk(t) && t.wg == Handlers(t.conns)
  }

  predicate Inv(s: State) { OwnerInv(s) && TriggerInv(s.trigger, s.owner.pc) }

  // ---------- Every step keeps the invariant ----------

  predicate InSleep(pc: Pc) {
    pc.SleepMark? || pc.SleepStop? || pc.SleepArm? || pc.SleepTouch? || pc.SleepFull? || pc.SleepLow?
  }

  predicate InTick(pc: Pc) { pc.TickRead? || pc.TickTouch? || pc.TickIdle? }

  lemma SleepKeepsOwner(s: State)
    requires OwnerInv(s) && InSleep(s.owner.pc)
    ensures OwnerInv(RunGo(s))
  {}

  lemma TickKeepsOwner(s: State)
    requires OwnerInv(s) && InTick(s.owner.pc)
    ensures OwnerInv(RunGo(s))
  {}

  lemma ListenerKeepsOwner(s: State)
    requires OwnerInv(s) && (s.owner.pc.WakeClose? || s.owner.pc.WakeArm?)
    ensures OwnerInv(RunGo(s))
  {}

  lemma WakeKeepsOwner(s: State)
    requires OwnerInv(s) && RunEnabled(s, Go) && !InSleep(s.owner.pc) && !InTick(s.owner.pc)
    requires !s.owner.pc.WakeClose? && !s.owner.pc.WakeArm?
    ensures OwnerInv(RunGo(s))
  {
    hide CloseListener, Arm, Idle;
  }

  lemma TryKeepsOwner(s: State, ok: bool)
    requires OwnerInv(s) && IsCall(s.owner.pc)
    ensures OwnerInv(RunTry(s, ok))
  {}

  lemma ChoiceKeepsOwner(s: State, act: RunAct)
    requires OwnerInv(s) && RunEnabled(s, act) && !act.Go? && !act.Try?
    ensures OwnerInv(RunStep(s, act))
  {}

  lemma RunKeepsOwner(s: State, act: RunAct)
    requires OwnerInv(s) && RunEnabled(s, act)
    ensures OwnerInv(RunStep(s, act))
  {
    hide OwnerInv, RunGo, RunTry;
    if act.Try? { TryKeepsOwner(s, act.ok); }
    else if !act.Go? { ChoiceKeepsOwner(s, act); }
    else if InSleep(s.owner.pc) { SleepKeepsOwner(s); }
    else if InTick(s.owner.pc) { TickKeepsOwner(s); }
    else if s.owner.pc.WakeClose? || s.owner.pc.WakeArm? { ListenerKeepsOwner(s); }
    else { WakeKeepsOwner(s); }
  }

  lemma EnvKeepsOwner(s: State, act: EnvAct)
    requires OwnerInv(s) && EnvEnabled(s, act)
    ensures OwnerInv(EnvStep(s, act))
  {}

  lemma StepKeepsOwner(s: State, step: Step)
    requires OwnerInv(s) && Enabled(s, step)
    ensures OwnerInv(Apply(s, step))
  {
    match step
    case InRun(act) => RunKeepsOwner(s, act);
    case InEnv(act) => EnvKeepsOwner(s, act);
    case _ => assert Apply(s, step).trigger.listener == s.trigger.listener;
  }

  lemma {:induction false} HandlersUpdate(conns: seq<Conn>, c: nat, conn: Conn)
    requires c < |conns|
    ensures Handlers(conns[c := conn]) == Handlers(conns) - One(conns[c]) + One(conn)
  {
    var n := |conns| - 1;
    if c < n {
      HandlersUpdate(conns[..n], c, conn);
      assert conns[c := conn][..n] == conns[..n][c := conn];
    } else {
      assert conns[c := conn][..n] == conns[..n];
    }
  }

  lemma CloseKeepsTrigger(t: Trigger, pc: Pc)
    requires TriggerInv(t, pc)
    ensures TriggerInv(CloseListener(t), pc)
  {
    hide Handlers, ConnOk;
  }

  lemma ListenKeepsTrigger(t: Trigger, pc: Pc, pc': Pc)
    requires TriggerInv(t, pc) && !pc.SleepArm? && !pc.WakeArm?
    requires ArmingAt(pc', |t.gens|)
    ensures TriggerInv(Listen(t), pc')
  {
    hide GensOk, HeldOk, Handlers, ConnOk;
    ListenKeepsGens(t, pc, pc');
    ListenKeepsHeld(t);
  }

  lemma ListenKeepsGens(t: Trigger, pc: Pc, pc': Pc)
    requires GensOk(t, pc) && !pc.SleepArm? && !pc.WakeArm? && ArmingAt(pc', |t.gens|)
    ensures GensOk(Listen(t), pc')
  {}

  lemma ListenKeepsHeld(t: Trigger)
    requires HeldOk(t)
    ensures HeldOk(Listen(t))
  {}

  lemma ArmKeepsTrigger(t: Trigger, pc: Pc, pc': Pc, g: nat)
    requires TriggerInv(t, pc) && ArmingAt(pc, g) && t.listener.None? && !pc'.SleepArm? && !pc'.WakeArm?
    ensures TriggerInv(Arm(t, g), pc')
  {
    hide GensOk, HeldOk, Handlers, ConnOk;
    ArmKeepsGens(t, pc, pc', g);
    ArmKeepsHeld(t, pc, g);
  }

  lemma ArmKeepsGens(t: Trigger, pc: Pc, pc': Pc, g: nat)
    requires GensOk(t, pc) && ArmingAt(pc, g) && t.listener.None? && !pc'.SleepArm? && !pc'.WakeArm?
    ensures GensOk(Arm(t, g), pc')
  {}

  lemma ArmKeepsHeld(t: Trigger, pc: Pc, g: nat)
    requires GensOk(t, pc) && HeldOk(t) && ArmingAt(pc, g)
    ensures HeldOk(Arm(t, g))
  {}

  lemma PcKeepsTrigger(t: Trigger, pc: Pc, pc': Pc)
    requires TriggerInv(t, pc) && !pc.SleepArm? && !pc.WakeArm? && !pc'.SleepArm? && !pc'.WakeArm?
    ensures TriggerInv(t, pc')
  {
    hide Handlers, ConnOk;
  }

  /** `Run` touches the trigger to listen, to arm and to close. */
  predicate TriggerFollows(s: State, s': State) {
    var pc, pc' := s.owner.pc, s'.owner.pc;
    if pc.SleepArm? || pc.WakeArm? then
      s'.trigger == Arm(s.trigger, pc.gen) && !pc'.SleepArm? && !pc'.WakeArm?
    else if pc'.SleepArm? || pc'.WakeArm? then
      s'.trigger == Listen(s.trigger) && ArmingAt(pc', |s.trigger.gens|)
    else s'.trigger == s.trigger || s'.trigger == CloseListener(s.trigger)
  }

  lemma TriggerAfterGo(s: State)
    requires RunEnabled(s, Go)
    ensures TriggerFollows(s, RunGo(s))
  {
    hide Arm, Listen, CloseListener, Touch, Idle;
  }

  lemma TriggerAfterTry(s: State, ok: bool)
    requires IsCall(s.owner.pc)
    ensures TriggerFollows(s, RunTry(s, ok))
  {
    hide Arm, Listen, CloseListener;
  }

  lemma TriggerAfterRun(s: State, act: RunAct)
    requires RunEnabled(s, act)
    ensures TriggerFollows(s, RunStep(s, act))
  {
    hide RunGo, RunTry, Arm, Listen, CloseListener;
    if act.Go? { TriggerAfterGo(s); }
    else if act.Try? { TriggerAfterTry(s, act.ok); }
  }

  lemma RunKeepsTrigger(s: State, act: RunAct)
    requires Inv(s) && RunEnabled(s, act)
    ensures TriggerInv(RunStep(s, act).trigger, RunStep(s, act).owner.pc)
  {
    hide TriggerInv, RunStep, Arm, Listen, CloseListener;
    TriggerAfterRun(s, act);
    var s' := RunStep(s, act);
    var pc, pc' := s.owner.pc, s'.owner.pc;
    if pc.SleepArm? || pc.WakeArm? {
      ArmKeepsTrigger(s.trigger, pc, pc', pc.gen);
    } else if pc'.SleepArm? || pc'.WakeArm? {
      ListenKeepsTrigger(s.trigger, pc, pc');
    } else {
      PcKeepsTrigger(s.trigger, pc, pc');
      CloseKeepsTrigger(s.trigger, pc');
    }
  }

  lemma AcceptKeepsTrigger(t: Trigger, pc: Pc, g: nat)
    requires TriggerInv(t, pc) && AcceptEnabled(t, g, Accept)
    ensures TriggerInv(AcceptStep(t, g, Accept), pc)
  {
    hide GensOk, HeldOk, ConnOk;
    AcceptKeepsGens(t, pc, g);
    AcceptKeepsHeld(t, g);
    HeldIsOk(g);
    assert (t.conns + [HeldBy(g)])[..|t.conns|] == t.conns;
  }

  lemma AcceptKeepsGens(t: Trigger, pc: Pc, g: nat)
    requires GensOk(t, pc) && AcceptEnabled(t, g, Accept)
    ensures GensOk(AcceptStep(t, g, Accept), pc)
  {}

  lemma AcceptKeepsHeld(t: Trigger, g: nat)
    requires HeldOk(t) && AcceptEnabled(t, g, Accept)
    ensures HeldOk(AcceptStep(t, g, Accept))
  {
    var t' := AcceptStep(t, g, Accept);
    forall h | 0 <= h < |t'.gens| && t'.gens[h].loop.Holding?
      ensures t'.gens[h].loop.conn < |t'.conns| && t'.conns[t'.gens[h].loop.conn] == HeldBy(h)
    {
      assert h != g ==> t'.gens[h] == t.gens[h];
    }
    forall c | 0 <= c < |t'.conns| && t'.conns[c].HeldBy?
      ensures t'.conns[c].gen < |t'.gens| && t'.gens[t'.conns[c].gen].loop == Holding(c)
    {
      assert c < |t.conns| ==> t'.conns[c] == t.conns[c];
    }
  }

  lemma HeldIsOk(g: nat)
    ensures ConnOk(HeldBy(g))
  {}

  lemma ErrorKeepsTrigger(t: Trigger, pc: Pc, g: nat)
    requires TriggerInv(t, pc) && AcceptEnabled(t, g, AcceptError)
    ensures TriggerInv(AcceptStep(t, g, AcceptError), pc)
  {
    hide Handlers, ConnOk;
  }

  lemma DecideKeepsTrigger(t: Trigger, pc: Pc, g: nat, act: AcceptAct)
    requires TriggerInv(t, pc) && AcceptEnabled(t, g, act) && (act.Admit? || act.Refuse?)
    ensures TriggerInv(AcceptStep(t, g, act), pc)
  {
    HandlersUpdate(t.conns, t.gens[g].loop.conn, if act.Admit? then Handled(Spawned, false, NoSock) else Dropped);
  }

  lemma HandlerKeepsTrigger(s: State, id: nat, act: HandlerAct)
    requires TriggerInv(s.trigger, s.owner.pc) && HandlerEnabled(s, id, act)
    ensures TriggerInv(Apply(s, InHandler(id, act)).trigger, s.owner.pc)
  {
    hide GensOk, ConnOk, HandlerAfter;
    var t := s.trigger;
    HandlerKeepsConn(s, id, act);
    HandlersUpdate(t.conns, id, HandlerAfter(t.conns[id], act));
    GensIgnoreConns(t, Apply(s, InHandler(id, act)).trigger, s.owner.pc);
  }

  lemma HandlerKeepsConn(s: State, id: nat, act: HandlerAct)
    requires HandlerEnabled(s, id, act) && ConnOk(s.trigger.conns[id])
    ensures var c := HandlerAfter(s.trigger.conns[id], act);
            ConnOk(c) && !c.HeldBy? && (c.Handled? <==> !act.WgDone?)
  {}

  lemma GensIgnoreConns(t: Trigger, t': Trigger, pc: Pc)
    requires GensOk(t, pc) && t'.gens == t.gens && t'.listener == t.listener
    ensures GensOk(t', pc)
  {}

  lemma StepKeepsInv(s: State, step: Step)
    requires Inv(s) && Enabled(s, step)
    ensures Inv(Apply(s, step))
  {
    hide TriggerInv, OwnerInv;
    StepKeepsOwner(s, step);
    match step
    case InRun(act) => RunKeepsTrigger(s, act);
    case InLoop(g, act) =>
      if act.Accept? {
        AcceptKeepsTrigger(s.trigger, s.owner.pc, g);
      } else if act.AcceptError? {
        ErrorKeepsTrigger(s.trigger, s.owner.pc, g);
      } else {
        DecideKeepsTrigger(s.trigger, s.owner.pc, g, act);
      }
    case InHandler(id, act) => HandlerKeepsTrigger(s, id, act);
    case InEnv(act) => CloseKeepsTrigger(s.trigger, s.owner.pc);
  }

  lemma {:induction false} EveryRun(run: seq<State>, i: nat)
    requires IsRun(run) && i < |run|
    ensures Inv(run[i])
  {
    hide Inv, Apply, Enabled, Init;
    if i > 0 {
      EveryRun(run, i - 1);
      var step := StepAt(run, i - 1);
      StepKeepsInv(run[i - 1], step);
    } else {
      var socks, idleTimeout, clock :| run[0] == Init(socks, idleTimeout, clock);
      InitInv(socks, idleTimeout, clock);
    }
  }

  lemma InitInv(socks: bool, idleTimeout: int, clock: nat)
    ensures Inv(Init(socks, idleTimeout, clock))
  {}
}
