/** What every run of the low-power protocol guarantees. */
module LowPowerResults {
  import opened Prelude
  import opened LowPowerProtocol

  // ---------- Power, components and listener ----------

  /** Whenever `Run` is at its select: full power means components running and no wake listener; low
      power means components stopped, and with a SOCKS address a listener, unless the last listen
      call failed or `Stop` has closed it. */
  lemma AtSelect(run: seq<State>, i: nat)
    requires IsRun(run) && i < |run| && run[i].owner.pc.Select?
    ensures var s, o := run[i], run[i].owner;
            && (o.power.FullPower? || o.power.LowPower?)
            && (o.power.FullPower? ==> o.running && s.trigger.listener.None?)
            && (o.power.LowPower? ==> !o.running)
            && (o.power.LowPower? && s.cfg.socks && s.trigger.listener.None? ==>
                  o.listenFailed || s.stop.AwaitingHandlers? || s.stop.Returned?)
            && (!s.cfg.socks ==> s.trigger.listener.None?)
  {
    EveryRun(run, i);
  }

  /** At most one wake listener is ever open. */
  lemma OneListener(run: seq<State>, i: nat, g: nat, h: nat)
    requires IsRun(run) && i < |run|
    requires var gens := run[i].trigger.gens; g < |gens| && h < |gens| && gens[g].open && gens[h].open
    ensures g == h
  {
    EveryRun(run, i);
  }

  // ---------- Starts that find components running ----------

  /** From step `a` to `i`, `Run` does not come back to its select. */
  ghost predicate NoSelect(run: seq<State>, a: nat, i: nat)
    requires i < |run|
  {
    forall k :: a <= k <= i ==> !run[k].owner.pc.Select?
  }

  /** In this sleep attempt, the wake listener failed at step `a`. */
  ghost predicate ListenFailed(run: seq<State>, a: nat, i: nat)
    requires i < |run|
  {
    a < i && run[a].owner.pc.SleepListen? && run[a + 1].owner.pc.SleepRestart? && NoSelect(run, a, i)
  }

  /** And the restart that follows such a failure worked at step `b`. */
  ghost predicate Bounced(run: seq<State>, a: nat, b: nat, i: nat)
    requires i < |run|
  {
    a < b < i && ListenFailed(run, a, i) && run[b].owner.pc.SleepRestart? && run[b + 1].owner.pc.SleepTouch?
  }

  /** And the drain after it found a wake request at step `d`. */
  ghost predicate BouncedIntoWake(run: seq<State>, a: nat, b: nat, d: nat, i: nat)
    requires i < |run|
  {
    b < d < i && Bounced(run, a, b, i) && run[d].owner.pc.Drain? && run[d].token && run[d + 1].owner.pc.WakeMark?
  }

  predicate Restarted(s: State) {
    s.owner.running && (s.owner.pc.SleepTouch? || s.owner.pc.SleepFull? || s.owner.pc.Drain?)
  }

  predicate Doubling(s: State) {
    s.owner.running && (s.owner.pc.WakeMark? || s.owner.pc.WakeClose? || s.owner.pc.WakeStart?)
  }

  predicate AfterStart(pc: Pc) {
    pc.WakeListen? || pc.WakeArm? || pc.WakeLow? || pc.WakeTouch? || pc.WakeFull?
  }

  /** Where a run is in such a sleep attempt tells where it was before. */
  predicate BackFrom(s: State, s': State) {
    && (s'.owner.pc.SleepRestart? ==> s.owner.pc.SleepRestart? || s.owner.pc.SleepListen?)
    && (Restarted(s') ==> Restarted(s) || (s.owner.pc.SleepRestart? && s'.owner.pc.SleepTouch?))
    && (Doubling(s') ==> Doubling(s) || (Restarted(s) && s.owner.pc.Drain? && s.token && s'.owner.pc.WakeMark?))
  }

  lemma BackGo(s: State)
    requires PowerOk(s) && RunEnabled(s, Go)
    ensures BackFrom(s, RunGo(s))
  {
    hide CloseListener, Arm, Touch, Idle, Armed;
  }

  lemma BackTry(s: State, ok: bool)
    requires PowerOk(s) && IsCall(s.owner.pc)
    ensures BackFrom(s, RunTry(s, ok))
  {
    hide Listen, Armed;
  }

  lemma BackStep(s: State, step: Step)
    requires PowerOk(s) && Enabled(s, step)
    ensures BackFrom(s, Apply(s, step))
  {
    hide CloseListener, AcceptStep, HandlerAfter, RunGo, RunTry, Armed;
    if step == InRun(Go) { BackGo(s); }
    if step.InRun? && step.run.Try? { BackTry(s, step.run.ok); }
  }

  lemma OnwardStep(s: State, step: Step)
    requires Enabled(s, step) && (Restarted(s) || Doubling(s) || AfterStart(s.owner.pc))
    ensures var s' := Apply(s, step);
            s'.owner.pc.Select? || Restarted(s') || Doubling(s') || AfterStart(s'.owner.pc)
  {
    hide CloseListener, AcceptStep, HandlerAfter, RunGo, RunTry;
    if step == InRun(Go) { OnwardGo(s); }
    if step.InRun? && step.run.Try? { OnwardTry(s, step.run.ok); }
  }

  lemma OnwardGo(s: State)
    requires RunEnabled(s, Go) && (Restarted(s) || Doubling(s) || AfterStart(s.owner.pc))
    ensures var s' := RunGo(s);
            s'.owner.pc.Select? || Restarted(s') || Doubling(s') || AfterStart(s'.owner.pc)
  {
    hide CloseListener, Arm, Idle;
  }

  lemma OnwardTry(s: State, ok: bool)
    requires IsCall(s.owner.pc) && (Restarted(s) || Doubling(s) || AfterStart(s.owner.pc))
    ensures AfterStart(RunTry(s, ok).owner.pc)
  {
    hide Listen;
  }

  ghost predicate TrailOk(run: seq<State>, i: nat)
    requires i < |run|
  {
    && (run[i].owner.pc.SleepRestart? ==> exists a :: ListenFailed(run, a, i))
    && (Restarted(run[i]) ==> exists a, b :: Bounced(run, a, b, i))
    && (Doubling(run[i]) ==> exists a, b, d :: BouncedIntoWake(run, a, b, d, i))
  }

  lemma {:induction false} Trail(run: seq<State>, i: nat)
    requires IsRun(run) && i < |run|
    ensures TrailOk(run, i)
  {
    hide Inv, Enabled, Apply, Init;
    if i == 0 {
      var socks, idleTimeout, clock :| run[0] == Init(socks, idleTimeout, clock);
      StartsAtSelect(socks, idleTimeout, clock);
    } else {
      Trail(run, i - 1);
      EveryRun(run, i - 1);
      InvGivesPower(run[i - 1]);
      var step := StepAt(run, i - 1);
      BackStep(run[i - 1], step);
      TrailOnward(run, i);
    }
  }

  lemma TrailOnward(run: seq<State>, i: nat)
    requires 0 < i < |run| && TrailOk(run, i - 1)
    requires BackFrom(run[i - 1], run[i])
    ensures TrailOk(run, i)
  {
    var s, s' := run[i - 1], run[i];
    if s'.owner.pc.SleepRestart? {
      if s.owner.pc.SleepRestart? {
        var a :| ListenFailed(run, a, i - 1);
        assert ListenFailed(run, a, i);
      } else {
        assert ListenFailed(run, i - 1, i);
      }
    } else if Restarted(s') {
      if Restarted(s) {
        var a, b :| Bounced(run, a, b, i - 1);
        assert Bounced(run, a, b, i);
      } else {
        var a :| ListenFailed(run, a, i - 1);
        assert Bounced(run, a, i - 1, i);
      }
    } else if Doubling(s') {
      if Doubling(s) {
        var a, b, d :| BouncedIntoWake(run, a, b, d, i - 1);
        assert BouncedIntoWake(run, a, b, d, i);
      } else {
        var a, b :| Bounced(run, a, b, i - 1);
        assert BouncedIntoWake(run, a, b, i - 1, i);
      }
    }
  }

  lemma {:induction false} Onward(run: seq<State>, a: nat, b: nat, i: nat)
    requires IsRun(run) && i < |run| && Bounced(run, a, b, i)
    ensures Restarted(run[i]) || Doubling(run[i]) || AfterStart(run[i].owner.pc)
  {
    hide Inv, Enabled, Apply, Restarted, Doubling, AfterStart;
    if b + 1 < i {
      Onward(run, a, b, i - 1);
      var step := StepAt(run, i - 1);
      OnwardStep(run[i - 1], step);
    } else {
      EveryRun(run, i);
      TouchIsRestarted(run[i]);
    }
  }

  lemma TouchIsRestarted(s: State)
    requires Inv(s) && s.owner.pc.SleepTouch?
    ensures Restarted(s)
  {}

  lemma StartsAtSelect(socks: bool, idleTimeout: int, clock: nat)
    ensures Init(socks, idleTimeout, clock).owner.pc.Select?
  {}

  lemma InvGivesPower(s: State)
    requires Inv(s)
    ensures PowerOk(s)
  {}

  /** A wake finds components running exactly if, since `Run` was last at its select, the wake listener
      failed, the restart after it worked, and the drain then found a wake request. */
  lemma DoubleStartExactly(run: seq<State>, i: nat)
    requires IsRun(run) && i < |run| && run[i].owner.pc.WakeStart?
    ensures run[i].owner.running <==> exists a, b, d :: BouncedIntoWake(run, a, b, d, i)
  {
    Trail(run, i);
    if a, b, d :| BouncedIntoWake(run, a, b, d, i) {
      Onward(run, a, b, i);
    }
  }

  /** The drain leaves out the test that the select makes before a wake: at its entry, whether it will
      find components running can be read off the state. */
  lemma {:induction false} PowerTellsDoubleStart(run: seq<State>, w: nat, i: nat)
    requires IsRun(run) && w < i < |run| && run[w].owner.pc.WakeMark? && run[i].owner.pc.WakeStart?
    requires forall k :: w < k < i ==> !run[k].owner.pc.WakeStart?
    ensures run[i].owner.running <==> run[w].owner.power.FullPower?
  {
    hide Inv, Enabled, Apply;
    EveryRun(run, w);
    InvGivesPower(run[w]);
    UntilStart(run, w, i);
  }

  lemma {:induction false} UntilStart(run: seq<State>, w: nat, i: nat)
    requires IsRun(run) && w <= i < |run| && run[w].owner.pc.WakeMark?
    requires forall k :: w < k < i ==> !run[k].owner.pc.WakeStart?
    ensures run[i].owner.pc.WakeMark? || run[i].owner.pc.WakeClose? || run[i].owner.pc.WakeStart?
    ensures run[i].owner.running == run[w].owner.running
  {
    hide Enabled, Apply;
    if w < i {
      UntilStart(run, w, i - 1);
      var step := StepAt(run, i - 1);
      EntryStep(run[i - 1], step);
    }
  }

  lemma EntryStep(s: State, step: Step)
    requires Enabled(s, step) && (s.owner.pc.WakeMark? || s.owner.pc.WakeClose?)
    ensures var o' := Apply(s, step).owner;
            o'.running == s.owner.running && (o'.pc.WakeMark? || o'.pc.WakeClose? || o'.pc.WakeStart?)
  {
    hide CloseListener, AcceptStep, HandlerAfter;
  }

  // ---------- Wake requests ----------

  predicate Waking(pc: Pc) {
    pc.WakeMark? || pc.WakeClose? || pc.WakeStart? || AfterStart(pc)
  }

  predicate AfterFailure(pc: Pc) { pc.WakeListen? || pc.WakeArm? || pc.WakeLow? }

  /** `StartComponents` returned an error. */
  predicate StartFails(s: State, s': State) {
    s.owner.pc.WakeStart? && AfterFailure(s'.owner.pc)
  }

  ghost predicate FailsAt(run: seq<State>, k: nat) {
    k + 1 < |run| && StartFails(run[k], run[k + 1])
  }

  /** A start failed from step `c` up to `n`. */
  ghost predicate StartFailed(run: seq<State>, c: nat, n: nat) {
    exists k: nat :: c <= k < n && FailsAt(run, k)
  }

  predicate Consumes(s: State, s': State) { s.token && !s'.token }

  /** Only the two receives of `Run` take the token out of the channel. */
  lemma OnlyRunConsumes(s: State, step: Step)
    requires s.token && Enabled(s, step)
    ensures Consumes(s, Apply(s, step)) <==> step == InRun(SelectWake) || step == InRun(DrainTake)
  {
    hide RunGo, RunTry;
    if step == InRun(Go) { GoKeepsToken(s); }
    if step.InRun? && step.run.Try? { TryKeepsToken(s, step.run.ok); }
  }

  lemma GoKeepsToken(s: State)
    requires RunEnabled(s, Go)
    ensures RunGo(s).token == s.token
  {
    hide CloseListener, Arm, Touch, Idle;
  }

  lemma TryKeepsToken(s: State, ok: bool)
    requires IsCall(s.owner.pc)
    ensures RunTry(s, ok).token == s.token
  {
    hide Listen;
  }

  /** Either starts a wake, or finds the node at full power. */
  lemma ConsumeStep(s: State, step: Step)
    requires Enabled(s, step) && Consumes(s, Apply(s, step))
    ensures var o, o' := s.owner, Apply(s, step).owner;
            (o.pc.Select? || o.pc.Drain?) && (o'.pc.WakeMark? || (o'.pc.Select? && o'.power.FullPower?))
  {
    hide RunGo, RunTry;
    OnlyRunConsumes(s, step);
  }

  predicate WakesOn(s: State, s': State) {
    if s'.owner.pc.Select? then
      !StartFails(s, s') && (s'.owner.power.FullPower? <==> !AfterFailure(s.owner.pc))
    else
      Waking(s'.owner.pc) && (AfterFailure(s'.owner.pc) <==> AfterFailure(s.owner.pc) || StartFails(s, s'))
  }

  lemma WakingGo(s: State)
    requires RunEnabled(s, Go) && Waking(s.owner.pc)
    ensures WakesOn(s, RunGo(s))
  {
    hide CloseListener, Arm, Touch, Idle;
  }

  lemma WakingTry(s: State, ok: bool)
    requires IsCall(s.owner.pc) && Waking(s.owner.pc)
    ensures WakesOn(s, RunTry(s, ok))
  {
    hide Listen;
  }

  lemma WakingStep(s: State, step: Step)
    requires Enabled(s, step) && Waking(s.owner.pc)
    ensures WakesOn(s, Apply(s, step))
  {
    hide CloseListener, AcceptStep, HandlerAfter, RunGo, RunTry;
    if step == InRun(Go) { WakingGo(s); }
    if step.InRun? && step.run.Try? { WakingTry(s, step.run.ok); }
  }

  lemma {:induction false} WakeUnderWay(run: seq<State>, c: nat, m: nat)
    requires IsChain(run) && c < m < |run| && Consumes(run[c], run[c + 1])
    requires forall k :: c < k <= m ==> !run[k].owner.pc.Select?
    ensures Waking(run[m].owner.pc)
    ensures AfterFailure(run[m].owner.pc) <==> StartFailed(run, c, m)
  {
    hide Enabled, Apply;
    var step := StepAt(run, m - 1);
    if m == c + 1 {
      ConsumeStep(run[c], step);
    } else {
      WakeUnderWay(run, c, m - 1);
      WakingStep(run[m - 1], step);
      FailedLater(run, c, m);
    }
  }

  lemma FailedLater(run: seq<State>, c: nat, m: nat)
    requires c < m < |run|
    ensures StartFailed(run, c, m) <==> StartFailed(run, c, m - 1) || StartFails(run[m - 1], run[m])
  {
    hide StartFails;
    assert FailsAt(run, m - 1) <==> StartFails(run[m - 1], run[m]);
  }

  /** `n` is the first select point after step `c`. */
  ghost predicate NextSelect(run: seq<State>, c: nat, n: nat) {
    c < n < |run| && run[n].owner.pc.Select? && forall k :: c < k < n ==> !run[k].owner.pc.Select?
  }

  /** When a token has been taken at step `c`, the next select point finds the node at full power exactly
      if no start has returned an error since. */
  lemma WakeAnswered(run: seq<State>, c: nat, n: nat)
    requires IsChain(run) && NextSelect(run, c, n) && Consumes(run[c], run[c + 1])
    ensures run[n].owner.power.FullPower? <==> !StartFailed(run, c, n)
  {
    hide Enabled, Apply;
    var step := StepAt(run, n - 1);
    if n == c + 1 {
      ConsumeStep(run[c], step);
    } else {
      WakeUnderWay(run, c, n - 1);
      WakingStep(run[n - 1], step);
      FailedLater(run, c, n);
    }
  }

  lemma {:induction false} FindConsume(run: seq<State>, i: nat, j: nat) returns (c: nat)
    requires i < j < |run| && run[i].token && !run[j].token
    ensures i <= c < j && Consumes(run[c], run[c + 1]) && forall k :: i <= k <= c ==> run[k].token
    decreases j - i
  {
    if run[i + 1].token { c := FindConsume(run, i + 1, j); } else { c := i; }
  }

  lemma {:induction false} FindSelect(run: seq<State>, c: nat, j: nat) returns (n: nat)
    requires c < j < |run| && run[j].owner.pc.Select?
    ensures n <= j && NextSelect(run, c, n)
    decreases j - c
  {
    if run[c + 1].owner.pc.Select? { n := c + 1; } else { n := FindSelect(run, c + 1, j); }
  }

  // ---------- Who asks for a wake ----------

  predicate AtStart(t: Trigger, c: nat) { c < |t.conns| && t.conns[c].Handled? && t.conns[c].pc.Spawned? }

  /** The handler of wake connection `c` makes its first step. */
  predicate SetsOut(s: State, s': State, c: nat) { AtStart(s.trigger, c) && !AtStart(s'.trigger, c) }

  predicate HasHandler(t: Trigger, c: nat) { c < |t.conns| && (t.conns[c].Handled? || t.conns[c].Done?) }

  /** A connection comes to its handler at the start, and the first step puts a token in the channel. */
  lemma HandlerStart(s: State, step: Step, c: nat)
    requires TriggerInv(s.trigger, s.owner.pc) && Enabled(s, step)
    ensures var s' := Apply(s, step);
            && (SetsOut(s, s', c) ==> s'.token)
            && (HasHandler(s'.trigger, c) ==> HasHandler(s.trigger, c) || AtStart(s'.trigger, c))
  {
    hide RunGo, RunTry, GensOk, ConnsOk, Handlers;
    if step.InRun? {
      RunKeepsConns(s, step.run);
    } else if step.InLoop? {
      HandlerStartInLoop(s, step.g, step.accept, c);
    }
  }

  lemma RunKeepsConns(s: State, act: RunAct)
    requires RunEnabled(s, act)
    ensures RunStep(s, act).trigger.conns == s.trigger.conns
  {
    hide RunStep;
    TriggerAfterRun(s, act);
  }

  lemma HandlerStartInLoop(s: State, g: nat, act: AcceptAct, c: nat)
    requires HeldOk(s.trigger) && AcceptEnabled(s.trigger, g, act)
    ensures var t' := AcceptStep(s.trigger, g, act);
            && (AtStart(s.trigger, c) ==> AtStart(t', c))
            && (HasHandler(t', c) ==> HasHandler(s.trigger, c) || AtStart(t', c))
  {}

  /** The handler of every wake connection asks for a wake before anything else. */
  lemma {:induction false} HandlerHasAsked(run: seq<State>, i: nat, c: nat) returns (k: nat)
    requires IsRun(run) && i < |run| && HasHandler(run[i].trigger, c) && !AtStart(run[i].trigger, c)
    ensures k < i && SetsOut(run[k], run[k + 1], c) && run[k + 1].token
  {
    hide Inv, TriggerInv, Enabled, Apply, AtStart, HasHandler;
    if i == 0 {
      NoConnsYet(run, c);
    } else {
      EveryRun(run, i - 1);
      InvGivesTrigger(run[i - 1]);
      var step := StepAt(run, i - 1);
      HandlerStart(run[i - 1], step, c);
      if AtStart(run[i - 1].trigger, c) {
        k := i - 1;
      } else {
        k := HandlerHasAsked(run, i - 1, c);
      }
    }
  }

  lemma NoConnsYet(run: seq<State>, c: nat)
    requires IsRun(run)
    ensures !HasHandler(run[0].trigger, c)
  {}

  ghost predicate SetsOutAt(run: seq<State>, i: nat, c: nat) {
    i + 1 < |run| && SetsOut(run[i], run[i + 1], c)
  }

  /** A wake is asked for: by `TransitionToFullPower`, or by a wake connection. */
  ghost predicate AsksForWake(run: seq<State>, i: nat) {
    i + 1 < |run| && (run[i + 1] == Apply(run[i], InEnv(Request)) || exists c: nat :: SetsOutAt(run, i, c))
  }

  lemma AskingLeavesToken(run: seq<State>, i: nat)
    requires IsRun(run) && AsksForWake(run, i)
    ensures run[i + 1].token
  {
    hide Inv, TriggerInv, Apply;
    EveryRun(run, i);
    InvGivesTrigger(run[i]);
    var step := StepAt(run, i);
    if c: nat :| SetsOutAt(run, i, c) {
      HandlerStart(run[i], step, c);
    } else {
      RequestLeavesToken(run[i]);
    }
  }

  lemma RequestLeavesToken(s: State)
    ensures Apply(s, InEnv(Request)).token
  {}

  /** No wake request is lost. A request at step `i`, made by a wake connection or another caller, puts the
      token in the channel or finds it there. If the token is gone at a later select point `j`, then it
      stayed in the channel until `Run` took it at some step `c`, and the next select point `n`, at `j` or
      before, found the node at full power, or a start made for this token had returned an error. */
  lemma NoWakeLost(run: seq<State>, i: nat, j: nat) returns (c: nat, n: nat)
    requires IsRun(run) && i < j < |run| && AsksForWake(run, i)
    requires run[j].owner.pc.Select? && !run[j].token
    ensures i < c < n <= j && Consumes(run[c], run[c + 1]) && forall k :: i < k <= c ==> run[k].token
    ensures NextSelect(run, c, n)
    ensures run[n].owner.power.FullPower? <==> !StartFailed(run, c, n)
  {
    hide Apply;
    AskingLeavesToken(run, i);
    c := FindConsume(run, i + 1, j);
    n := FindSelect(run, c, j);
    WakeAnswered(run, c, n);
  }

  /** `Run` always has a step to make until it has ended, and never waits with a wake request at hand. */
  lemma RunGoesOn(run: seq<State>, i: nat)
    requires IsRun(run) && i < |run| && !run[i].owner.pc.Exited?
    ensures exists act :: Enabled(run[i], InRun(act))
    ensures run[i].token && (run[i].owner.pc.Select? || run[i].owner.pc.Drain?) ==>
              exists act :: Enabled(run[i], InRun(act)) && Consumes(run[i], Apply(run[i], InRun(act)))
    ensures run[i].owner.pc.Select? && run[i].owner.power.LowPower? && run[i].token ==>
              Enabled(run[i], InRun(SelectWake)) && Apply(run[i], InRun(SelectWake)).owner.pc.WakeMark?
  {
    hide RunGo, RunTry;
    var s, pc := run[i], run[i].owner.pc;
    var act := if pc.Select? then (if s.token then SelectWake else SelectTick)
               else if pc.Drain? then (if s.token then DrainTake else DrainEmpty)
               else if IsCall(pc) then Try(true) else Go;
    assert Enabled(s, InRun(act));
    if s.token && (pc.Select? || pc.Drain?) {
      assert Enabled(s, InRun(act)) && Consumes(s, Apply(s, InRun(act)));
    }
  }

  /** A sleep attempt does not come back to the select with a wake request left in the channel. */
  lemma DrainLeavesNone(run: seq<State>, i: nat)
    requires IsRun(run) && i + 1 < |run| && run[i].owner.pc.Drain? && run[i + 1].owner.pc.Select?
    ensures !run[i + 1].token
  {
    hide RunGo, RunTry;
    var step := StepAt(run, i);
  }

  predicate Sleeping(s: State) {
    s.token && s.owner.power.LowPower? && (s.owner.pc.Select? || s.owner.pc.Exited?)
  }

  lemma SleepingStep(s: State, step: Step)
    requires Sleeping(s) && Enabled(s, step)
    ensures Sleeping(Apply(s, step)) || Apply(s, step).owner.pc.WakeMark?
  {}

  /** A token pending while asleep at the select leaves only by waking: until then the node stays
      asleep with the token in place, or `Run` has ended on cancellation. */
  lemma {:induction false} PendingTokenWakes(run: seq<State>, i: nat, j: nat)
    requires IsChain(run) && i <= j < |run| && Sleeping(run[i])
    ensures Sleeping(run[j]) || exists k :: i < k <= j && run[k].owner.pc.WakeMark?
  {
    hide Enabled, Apply, Sleeping;
    if i < j {
      PendingTokenWakes(run, i, j - 1);
      if Sleeping(run[j - 1]) {
        var step := StepAt(run, j - 1);
        SleepingStep(run[j - 1], step);
      }
    }
  }

  // ---------- Wake connections and the wait group ----------

  function InHandlers(conns: seq<Conn>): set<nat> {
    set c: nat | c < |conns| && conns[c].Handled?
  }

  lemma {:induction false} HandlersIsCardinality(conns: seq<Conn>)
    ensures Handlers(conns) == |InHandlers(conns)|
  {
    if conns == [] {
      assert InHandlers(conns) == {};
    } else {
      var n := |conns| - 1;
      HandlersIsCardinality(conns[..n]);
      assert InHandlers(conns) == InHandlers(conns[..n]) + (if conns[n].Handled? then {n} else {});
    }
  }

  /** In every interleaving the wait group counts the handlers started and not finished; a handler
      past its end has closed its connection, and the SOCKS connection if it dialled one; a connection
      not yet decided on is in the hands of exactly the accept loop that took it. */
  lemma WaitGroupCounts(run: seq<State>, i: nat)
    requires IsRun(run) && i < |run|
    ensures var t := run[i].trigger;
            && t.wg == |InHandlers(t.conns)|
            && (forall c :: 0 <= c < |t.conns| && t.conns[c].Done? ==> t.conns[c].closed && !t.conns[c].sock.SockOpen?)
            && (forall g, c :: 0 <= g < |t.gens| && 0 <= c < |t.conns| ==>
                  (t.conns[c] == HeldBy(g) <==> t.gens[g].loop == Holding(c)))
  {
    EveryRun(run, i);
    HandlersIsCardinality(run[i].trigger.conns);
  }

  /** The only ways on for an accepted connection: dropped for good, or to one handler and past it. */
  predicate Follows(c: Conn, c': Conn) {
    match c
    case HeldBy(_) => !c'.HeldBy? || c' == c
    case Dropped => c' == c
    case Handled(_, closed, _) => (c'.Handled? && (closed ==> c'.closed)) || (c'.Done? && (closed ==> c'.closed))
    case Done(_, _) => c' == c
  }

  lemma LifeStep(s: State, step: Step, c: nat)
    requires TriggerInv(s.trigger, s.owner.pc) && Enabled(s, step) && c < |s.trigger.conns|
    ensures var t' := Apply(s, step).trigger;
            c < |t'.conns| && Follows(s.trigger.conns[c], t'.conns[c])
  {
    hide RunGo, RunTry;
    if step.InRun? {
      TriggerAfterRun(s, step.run);
    }
  }

  /** A connection never changes hands twice, is never dropped once handled, and stays closed. */
  lemma {:induction false} ConnectionLife(run: seq<State>, i: nat, j: nat, c: nat)
    requires IsRun(run) && i <= j < |run| && c < |run[i].trigger.conns|
    ensures c < |run[j].trigger.conns| && Follows(run[i].trigger.conns[c], run[j].trigger.conns[c])
  {
    hide Inv, TriggerInv, Enabled, Apply;
    if i < j {
      ConnectionLife(run, i, j - 1, c);
      EveryRun(run, j - 1);
      var step := StepAt(run, j - 1);
      InvGivesTrigger(run[j - 1]);
      LifeStep(run[j - 1], step, c);
    }
  }

  lemma InvGivesTrigger(s: State)
    requires Inv(s)
    ensures TriggerInv(s.trigger, s.owner.pc)
  {}

  // ---------- Wake connections that are not served ----------

  ghost predicate Takes(run: seq<State>, k: nat, step: Step) {
    k + 1 < |run| && Enabled(run[k], step) && run[k + 1] == Apply(run[k], step)
  }

  /** The handler of `c` gives up: no readiness in time, cancellation, or a dial that failed. */
  ghost predicate GivesUpAt(run: seq<State>, k: nat, c: nat) {
    || Takes(run, k, InHandler(c, SocksTimeout))
    || (Takes(run, k, InHandler(c, SeeCancel)) && run[k].cancelled)
    || Takes(run, k, InHandler(c, DialFail))
  }

  ghost predicate GaveUp(run: seq<State>, i: nat, c: nat) { exists k: nat :: k < i && GivesUpAt(run, k, c) }

  predicate GivingUp(act: HandlerAct) { act.SocksTimeout? || act.SeeCancel? || act.DialFail? }

  /** On the way out without a SOCKS connection, or out. */
  predicate Unserved(t: Trigger, c: nat) {
    c < |t.conns|
    && match t.conns[c]
       case Handled(pc, _, sock) => pc.EarlyClose? || (pc.Returning? && sock.NoSock?)
       case Done(_, sock) => sock.NoSock?
       case _ => false
  }

  lemma UnservedAfterHandler(s: State, id: nat, act: HandlerAct, c: nat)
    requires ConnsOk(s.trigger) && HandlerEnabled(s, id, act)
    ensures Unserved(Apply(s, InHandler(id, act)).trigger, c) <==>
              Unserved(s.trigger, c) || (id == c && GivingUp(act))
  {
    assert ConnOk(s.trigger.conns[id]);
  }

  lemma UnservedAfterAccept(t: Trigger, g: nat, act: AcceptAct, c: nat)
    requires HeldOk(t) && AcceptEnabled(t, g, act)
    ensures Unserved(AcceptStep(t, g, act), c) <==> Unserved(t, c)
  {}

  lemma UnservedStep(s: State, step: Step, c: nat)
    requires TriggerInv(s.trigger, s.owner.pc) && Enabled(s, step)
    ensures Unserved(Apply(s, step).trigger, c) <==>
              Unserved(s.trigger, c) || (step.InHandler? && step.id == c && GivingUp(step.handler))
  {
    hide RunStep, AcceptStep, HandlerAfter, GensOk, HeldOk, ConnsOk, Handlers, AcceptEnabled;
    match step
    case InRun(act) => RunKeepsConns(s, act);
    case InLoop(g, act) => UnservedAfterAccept(s.trigger, g, act, c);
    case InHandler(id, act) => UnservedAfterHandler(s, id, act, c);
    case InEnv(act) =>
  }

  lemma {:induction false} UnservedOnRuns(run: seq<State>, i: nat, c: nat)
    requires IsRun(run) && i < |run|
    ensures Unserved(run[i].trigger, c) <==> GaveUp(run, i, c)
  {
    hide Inv, TriggerInv, Enabled, Apply, Unserved;
    if i == 0 {
      NoneUnservedYet(run, c);
    } else {
      UnservedOnRuns(run, i - 1, c);
      EveryRun(run, i - 1);
      InvGivesTrigger(run[i - 1]);
      var step := StepAt(run, i - 1);
      if step.InHandler? && step.handler.SeeCancel? { CancelSeen(run[i - 1], step); }
      if GivesUpAt(run, i - 1, c) {
        GivingUpIsUnserved(run, i - 1, c);
      } else {
        UnservedStep(run[i - 1], step, c);
      }
      assert GaveUp(run, i, c) <==> GaveUp(run, i - 1, c) || GivesUpAt(run, i - 1, c);
    }
  }

  lemma CancelSeen(s: State, step: Step)
    requires Enabled(s, step) && step.InHandler? && step.handler.SeeCancel?
    ensures s.cancelled
  {}

  lemma GivingUpIsUnserved(run: seq<State>, k: nat, c: nat)
    requires k + 1 < |run| && TriggerInv(run[k].trigger, run[k].owner.pc) && GivesUpAt(run, k, c)
    ensures Unserved(run[k + 1].trigger, c)
  {
    hide TriggerInv, Enabled, Apply, Unserved;
    if Takes(run, k, InHandler(c, SocksTimeout)) { UnservedStep(run[k], InHandler(c, SocksTimeout), c); }
    else if Takes(run, k, InHandler(c, SeeCancel)) { UnservedStep(run[k], InHandler(c, SeeCancel), c); }
    else { UnservedStep(run[k], InHandler(c, DialFail), c); }
  }

  lemma NoneUnservedYet(run: seq<State>, c: nat)
    requires IsRun(run)
    ensures !Unserved(run[0].trigger, c)
  {}

  /** A handler that has finished never reached the SOCKS proxy exactly if it gave up. */
  lemma UnservedExactly(run: seq<State>, i: nat, c: nat)
    requires IsRun(run) && i < |run| && c < |run[i].trigger.conns| && run[i].trigger.conns[c].Done?
    ensures run[i].trigger.conns[c].sock.NoSock? <==> GaveUp(run, i, c)
  {
    hide GaveUp, IsRun;
    UnservedOnRuns(run, i, c);
  }

  /** A handler can always go on until it has finished: while it waits it may find the proxy ready, or not in
      time, and cancelled once that is so; then its dial may work or fail. */
  lemma HandlerGoesOn(run: seq<State>, i: nat, c: nat)
    requires IsRun(run) && i < |run| && c < |run[i].trigger.conns| && run[i].trigger.conns[c].Handled?
    ensures exists act :: Enabled(run[i], InHandler(c, act))
    ensures run[i].trigger.conns[c].pc.Waiting? ==>
              && Enabled(run[i], InHandler(c, SocksReady)) && Enabled(run[i], InHandler(c, SocksTimeout))
              && (Enabled(run[i], InHandler(c, SeeCancel)) <==> run[i].cancelled)
    ensures run[i].trigger.conns[c].pc.DialingSocks? ==>
              Enabled(run[i], InHandler(c, DialOk)) && Enabled(run[i], InHandler(c, DialFail))
  {
    var act :=
      match run[i].trigger.conns[c].pc
      case Spawned => RequestWake
      case Waiting => SocksReady
      case DialingSocks => DialOk
      case EarlyClose => CloseEarly
      case Proxying => CopyEnd
      case CloseFirst => CloseConn
      case CloseSecond => CloseSock
      case LastCopy => CopyEndOrTimeout
      case Returning => WgDone;
    assert Enabled(run[i], InHandler(c, act));
  }

  /** An accept loop that holds a connection can go on, and counts it exactly if there is a listener. */
  lemma DecidesByListener(run: seq<State>, i: nat, g: nat)
    requires IsRun(run) && i < |run| && g < |run[i].trigger.gens| && run[i].trigger.gens[g].loop.Holding?
    ensures Enabled(run[i], InLoop(g, Admit)) <==> run[i].trigger.listener.Some?
    ensures Enabled(run[i], InLoop(g, Refuse)) <==> run[i].trigger.listener.None?
  {
    EveryRun(run, i);
  }

  /** An accept loop takes a connection only from a listener that is open. */
  lemma AcceptsOnlyOpen(run: seq<State>, i: nat, g: nat)
    requires IsRun(run) && i + 1 < |run| && g < |run[i].trigger.gens| && g < |run[i + 1].trigger.gens|
    requires !run[i].trigger.gens[g].loop.Holding? && run[i + 1].trigger.gens[g].loop.Holding?
    ensures run[i].trigger.gens[g].open
  {
    hide RunStep, HandlerAfter;
    var step := StepAt(run, i);
    if step.InRun? { RunHoldsNothing(run[i], step.run, g); }
  }

  lemma RunHoldsNothing(s: State, act: RunAct, g: nat)
    requires RunEnabled(s, act) && g < |s.trigger.gens| && g < |RunStep(s, act).trigger.gens|
    ensures RunStep(s, act).trigger.gens[g].loop.Holding? ==> s.trigger.gens[g].loop.Holding?
  {
    hide RunStep;
    TriggerAfterRun(s, act);
  }

  /** Whether an end of `c` was closed while its traffic was still being copied. */
  predicate Cut(t: Trigger, c: nat) {
    && c < |t.conns| && t.conns[c].Handled?
    && (|| ((t.conns[c].pc.Proxying? || t.conns[c].pc.CloseFirst?) && t.conns[c].closed)
        || ((t.conns[c].pc.Proxying? || t.conns[c].pc.CloseFirst? || t.conns[c].pc.CloseSecond?)
            && t.conns[c].sock.SockClosed?))
  }

  lemma CutStep(s: State, step: Step, c: nat)
    requires TriggerInv(s.trigger, s.owner.pc) && Enabled(s, step) && (Cut(s.trigger, c) ==> s.cancelled)
    ensures Cut(Apply(s, step).trigger, c) ==> Apply(s, step).cancelled
  {
    hide RunStep, GensOk, Handlers;
    if step.InRun? { RunKeepsConns(s, step.run); RunKeepsCancel(s, step.run); }
    if step.InHandler? && step.id == c { assert ConnOk(s.trigger.conns[c]); }
  }

  lemma RunKeepsCancel(s: State, act: RunAct)
    requires RunEnabled(s, act)
    ensures RunStep(s, act).cancelled == s.cancelled
  {
    hide RunGo, RunTry;
    if act.Go? { GoKeepsCancel(s); }
    if act.Try? { TryKeepsCancel(s, act.ok); }
  }

  lemma GoKeepsCancel(s: State)
    requires RunEnabled(s, Go)
    ensures RunGo(s).cancelled == s.cancelled
  {
    hide CloseListener, Arm, Touch, Idle;
  }

  lemma TryKeepsCancel(s: State, ok: bool)
    requires IsCall(s.owner.pc)
    ensures RunTry(s, ok).cancelled == s.cancelled
  {
    hide Listen;
  }

  /** A proxied connection is cut off before its end only after cancellation. */
  lemma {:induction false} CutOnlyCancelled(run: seq<State>, i: nat, c: nat)
    requires IsRun(run) && i < |run|
    ensures Cut(run[i].trigger, c) ==> run[i].cancelled
  {
    hide Inv, TriggerInv, Enabled, Apply, Cut;
    if i > 0 {
      CutOnlyCancelled(run, i - 1, c);
      EveryRun(run, i - 1);
      InvGivesTrigger(run[i - 1]);
      var step := StepAt(run, i - 1);
      CutStep(run[i - 1], step, c);
    } else {
      NothingCutYet(run, c);
    }
  }

  lemma NothingCutYet(run: seq<State>, c: nat)
    requires IsRun(run)
    ensures !Cut(run[0].trigger, c)
  {}

  lemma GrowthStep(s: State, step: Step)
    requires Enabled(s, step) && s.trigger.listener.None?
    ensures Apply(s, step).trigger.wg <= s.trigger.wg
  {
    hide RunGo, RunTry;
    if step.InRun? {
      TriggerAfterRun(s, step.run);
    }
  }

  /** While there is no listener, from its close to the next re-arm, no handler is added. */
  lemma {:induction false} NoGrowthWithoutListener(run: seq<State>, i: nat, j: nat)
    requires IsChain(run) && i <= j < |run|
    requires forall k :: i <= k < j ==> run[k].trigger.listener.None?
    ensures run[j].trigger.wg <= run[i].trigger.wg
  {
    hide Enabled, Apply;
    if i < j {
      NoGrowthWithoutListener(run, i, j - 1);
      var step := StepAt(run, j - 1);
      GrowthStep(run[j - 1], step);
    }
  }

  lemma EndStep(s: State, step: Step)
    requires Enabled(s, step)
    ensures var s' := Apply(s, step);
            && (s.cancelled ==> s'.cancelled)
            && (s'.owner.pc.Exited? ==> s.owner.pc.Exited? || s.cancelled)
            && (s'.stop.Cancelling? && !s.stop.Cancelling? ==> s'.cancelled && s'.trigger == s.trigger)
            && (s'.stop.AwaitingHandlers? && !s.stop.AwaitingHandlers? ==>
                  s.stop.Cancelling? && s'.trigger.listener.None?)
            && (s'.stop.Returned? && !s.stop.Returned? ==> s.stop.AwaitingHandlers? && s.trigger.wg == 0)
  {
    hide RunGo, RunTry, AcceptStep, HandlerAfter;
    if step.InRun? { RunKeepsCancel(s, step.run); }
    if step == InRun(Go) { GoKeepsStop(s); GoNeverEnds(s); }
    if step.InRun? && step.run.Try? { TryKeepsStop(s, step.run.ok); TryNeverEnds(s, step.run.ok); }
  }

  lemma GoNeverEnds(s: State)
    requires RunEnabled(s, Go)
    ensures !RunGo(s).owner.pc.Exited?
  {
    hide CloseListener, Arm, Touch, Idle;
  }

  lemma TryNeverEnds(s: State, ok: bool)
    requires IsCall(s.owner.pc)
    ensures !RunTry(s, ok).owner.pc.Exited?
  {
    hide Listen;
  }

  /** `Run` ends only on cancellation. */
  lemma {:induction false} EndsOnlyCancelled(run: seq<State>, i: nat)
    requires IsRun(run) && i < |run| && run[i].owner.pc.Exited?
    ensures run[i].cancelled
  {
    hide Enabled, Apply, Init;
    if i == 0 {
      var socks, idleTimeout, clock :| run[0] == Init(socks, idleTimeout, clock);
      StartsAtSelect(socks, idleTimeout, clock);
    } else {
      var step := StepAt(run, i - 1);
      EndStep(run[i - 1], step);
      if run[i - 1].owner.pc.Exited? { EndsOnlyCancelled(run, i - 1); }
    }
  }

  /** `Stop` returns, at step `i`, only when no handler is under way. */
  lemma StopWaits(run: seq<State>, i: nat)
    requires IsRun(run) && i + 1 < |run| && !run[i].stop.Returned? && run[i + 1].stop.Returned?
    ensures run[i].stop.AwaitingHandlers? && InHandlers(run[i].trigger.conns) == {}
  {
    hide Inv, Enabled, Apply, IsRun;
    WaitGroupCounts(run, i);
    assert IsChain(run) by { RunIsChain(run); }
    var step := StepAt(run, i);
    EndStep(run[i], step);
  }

  lemma RunIsChain(run: seq<State>)
    requires IsRun(run)
    ensures IsChain(run)
  {}

  predicate Halted(s: State) { s.owner.pc.Exited? && s.trigger.listener.None? }

  lemma HaltedStep(s: State, step: Step)
    requires Halted(s) && Enabled(s, step)
    ensures Halted(Apply(s, step)) && Apply(s, step).trigger.wg <= s.trigger.wg
  {}

  /** Once `Run` has ended and the listener is closed, what `Stop` waits for only shrinks, and the
      listener stays closed. */
  lemma {:induction false} StopIsFinal(run: seq<State>, i: nat, j: nat)
    requires IsChain(run) && i <= j < |run| && Halted(run[i])
    ensures Halted(run[j]) && run[j].trigger.wg <= run[i].trigger.wg
  {
    hide Enabled, Apply, Halted;
    if i < j {
      StopIsFinal(run, i, j - 1);
      var step := StepAt(run, j - 1);
      HaltedStep(run[j - 1], step);
    }
  }

  /** A listener becomes the current one; `Run` closes the current one before a wake. */
  predicate Arms(s: State, s': State) {
    (s.owner.pc.SleepArm? || s.owner.pc.WakeArm?) && s'.owner.pc != s.owner.pc
  }

  predicate Disarms(s: State, s': State) { s.owner.pc.WakeClose? && s'.owner.pc != s.owner.pc }

  ghost predicate ArmedSince(run: seq<State>, c: nat, a: nat, i: nat)
    requires i < |run|
  {
    c < a < i && Arms(run[a], run[a + 1]) && forall k :: a < k < i ==> !Disarms(run[k], run[k + 1])
  }

  predicate PastClose(s: State) { s.stop.AwaitingHandlers? || s.stop.Returned? }

  lemma ArmGo(s: State)
    requires RunEnabled(s, Go)
    ensures var s' := RunGo(s);
            s'.trigger.listener.Some? <==> Arms(s, s') || (s.trigger.listener.Some? && !Disarms(s, s'))
  {
    hide Touch, Idle;
  }

  lemma ArmStep(s: State, step: Step)
    requires Enabled(s, step) && PastClose(s)
    ensures var s' := Apply(s, step);
            && PastClose(s')
            && (s'.trigger.listener.Some? <==> Arms(s, s') || (s.trigger.listener.Some? && !Disarms(s, s')))
  {
    hide RunGo, HandlerAfter;
    if step == InRun(Go) { ArmGo(s); GoKeepsStop(s); }
  }

  /** `Stop` has closed the listener at step `c`. Later there is a listener exactly if `Run`, not joined,
      has armed one since and not closed it for a wake. */
  lemma {:induction false} ListenerAfterStop(run: seq<State>, c: nat, i: nat)
    requires IsRun(run) && c < i < |run|
    requires run[c].stop.Cancelling? && run[c + 1].stop.AwaitingHandlers?
    ensures PastClose(run[i])
    ensures run[i].trigger.listener.Some? <==> exists a :: ArmedSince(run, c, a, i)
  {
    hide Enabled, Apply, Arms, Disarms;
    var step := StepAt(run, i - 1);
    if i == c + 1 {
      CloseStep(run[c], step);
    } else {
      ListenerAfterStop(run, c, i - 1);
      ArmStep(run[i - 1], step);
      var h: nat := i - 1;
      if !Disarms(run[h], run[i]) {
        if a: nat :| ArmedSince(run, c, a, h) {
          assert ArmedSince(run, c, a, i);
        }
      }
      if Arms(run[i - 1], run[i]) {
        assert ArmedSince(run, c, i - 1, i);
      }
      if a: nat :| ArmedSince(run, c, a, i) && a < i - 1 {
        assert ArmedSince(run, c, a, i - 1);
      }
    }
  }

  lemma CloseStep(s: State, step: Step)
    requires Enabled(s, step) && s.stop.Cancelling? && Apply(s, step).stop.AwaitingHandlers?
    ensures Apply(s, step).trigger.listener.None?
  {
    hide RunGo, RunTry;
    if step == InRun(Go) { GoKeepsStop(s); }
    if step.InRun? && step.run.Try? { TryKeepsStop(s, step.run.ok); }
  }

  lemma GoKeepsStop(s: State)
    requires RunEnabled(s, Go)
    ensures RunGo(s).stop == s.stop
  {
    hide CloseListener, Arm, Touch, Idle;
  }

  lemma TryKeepsStop(s: State, ok: bool)
    requires IsCall(s.owner.pc)
    ensures RunTry(s, ok).stop == s.stop
  {
    hide Listen;
  }

  // ---------- Idle bound ----------

  predicate IsTouch(pc: Pc) { pc.TickTouch? || pc.WakeTouch? || pc.SleepTouch? }

  /** The time of last activity changes at the three touches, to the clock, and nowhere else. */
  predicate TouchFollows(s: State, s': State) {
    && TouchOk(s') && s.clock <= s'.clock && s'.cfg == s.cfg
    && s'.owner.lastTouch == if IsTouch(s.owner.pc) && s'.owner.pc != s.owner.pc then s.clock else s.owner.lastTouch
  }

  lemma TouchGo(s: State)
    requires TouchOk(s) && RunEnabled(s, Go)
    ensures TouchFollows(s, RunGo(s))
  {
    hide Arm, CloseListener, Idle;
  }

  lemma TouchRun(s: State, act: RunAct)
    requires TouchOk(s) && RunEnabled(s, act)
    ensures TouchFollows(s, RunStep(s, act))
  {
    hide RunGo, Listen;
    if act.Go? { TouchGo(s); }
  }

  lemma TouchStep(s: State, step: Step)
    requires TouchOk(s) && Enabled(s, step)
    ensures TouchFollows(s, Apply(s, step))
  {
    hide RunStep, CloseListener, AcceptStep, HandlerAfter;
    if step.InRun? { TouchRun(s, step.run); }
  }

  lemma {:induction false} TouchesAdvance(run: seq<State>, i: nat, j: nat)
    requires IsRun(run) && i <= j < |run|
    ensures run[i].owner.lastTouch <= run[j].owner.lastTouch && run[j].cfg == run[i].cfg && run[i].clock <= run[j].clock
  {
    hide Inv, Enabled, Apply;
    if i < j {
      TouchesAdvance(run, i, j - 1);
      EveryRun(run, j - 1);
      InvGivesTouch(run[j - 1]);
      var step := StepAt(run, j - 1);
      TouchStep(run[j - 1], step);
    }
  }

  lemma InvGivesTouch(s: State)
    requires Inv(s)
    ensures TouchOk(s)
  {}

  /** The test in whole seconds, against the exact time since the last touch. */
  lemma IdleBounds(s: State)
    requires TouchOk(s)
    ensures Idle(s) ==> s.clock - s.owner.lastTouch > s.cfg.idleTimeout - SECOND
    ensures s.clock - s.owner.lastTouch >= s.cfg.idleTimeout + SECOND ==> Idle(s)
  {
    var t := s.owner.lastTouch;
    assert s.clock == s.clock / SECOND * SECOND + s.clock % SECOND;
    assert t == t / SECOND * SECOND + t % SECOND;
  }

  // ---------- What counts as activity ----------

  /** A tick reads a counter above zero. */
  ghost predicate BusyTick(run: seq<State>, k: nat) {
    && k + 1 < |run| && run[k].owner.pc.TickRead? && run[k + 1].owner.pc != run[k].owner.pc
    && run[k].active > 0
  }

  /** `StartComponents` returns without an error. */
  ghost predicate StartWorks(run: seq<State>, k: nat) {
    && k + 1 < |run| && (run[k].owner.pc.WakeStart? || run[k].owner.pc.SleepRestart?)
    && run[k + 1].owner.pc != run[k].owner.pc && run[k + 1].owner.running && !AfterFailure(run[k + 1].owner.pc)
  }

  /** The start of the manager, a start of the components, or a tick with connections open. */
  ghost predicate IsActivity(run: seq<State>, k: nat) { k == 0 || BusyTick(run, k) || StartWorks(run, k) }

  /** A step that sets the time of last activity. */
  ghost predicate TouchesAt(run: seq<State>, t: nat) {
    t + 1 < |run| && IsTouch(run[t].owner.pc) && run[t + 1].owner.pc != run[t].owner.pc
  }

  lemma ActivityStep(s: State, step: Step)
    requires PowerOk(s) && Enabled(s, step)
    ensures var s' := Apply(s, step);
            && (s.owner.pc.TickRead? && s'.owner.pc != s.owner.pc ==>
                  s'.owner.pc == if s.active > 0 then TickTouch else TickIdle)
            && ((s.owner.pc.WakeStart? || s.owner.pc.SleepRestart?) && s'.owner.pc != s.owner.pc ==>
                  (s'.owner.running && !AfterFailure(s'.owner.pc) <==> IsTouch(s'.owner.pc)))
            && (IsTouch(s'.owner.pc) ==>
                  s.owner.pc == s'.owner.pc || s.owner.pc.TickRead? || s.owner.pc.WakeStart? || s.owner.pc.SleepRestart?)
  {
    hide CloseListener, AcceptStep, HandlerAfter, RunGo, RunTry, Armed;
    if step == InRun(Go) { ActivityGo(s); }
    if step.InRun? && step.run.Try? { ActivityTry(s, step.run.ok); }
  }

  lemma ActivityGo(s: State)
    requires RunEnabled(s, Go)
    ensures var s' := RunGo(s);
            && (s.owner.pc.TickRead? ==> s'.owner.pc == if s.active > 0 then TickTouch else TickIdle)
            && (IsTouch(s'.owner.pc) ==> s.owner.pc.TickRead?)
  {
    hide CloseListener, Arm, Touch, Idle;
  }

  lemma ActivityTry(s: State, ok: bool)
    requires PowerOk(s) && IsCall(s.owner.pc)
    ensures var s' := RunTry(s, ok);
            && (IsTouch(s'.owner.pc) ==> s.owner.pc.WakeStart? || s.owner.pc.SleepRestart?)
            && (s.owner.pc.WakeStart? || s.owner.pc.SleepRestart? ==>
                  (s'.owner.running && !AfterFailure(s'.owner.pc) <==> IsTouch(s'.owner.pc)))
  {
    hide Listen, Armed;
  }

  /** The idle timeout of a manager is the one it was made with, or 60 seconds in place of none. */
  lemma TimeoutOfRun(run: seq<State>, i: nat, socks: bool, idleTimeout: int, clock: nat)
    requires IsRun(run) && i < |run| && run[0] == Init(socks, idleTimeout, clock)
    ensures run[i].cfg == Config(socks, if idleTimeout > 0 then idleTimeout else 60_000_000_000)
  {
    TouchesAdvance(run, 0, i);
  }

  /** Every activity sets the time of last activity, at once or in the steps that follow. */
  lemma {:induction false} TouchedSince(run: seq<State>, k: nat, i: nat)
    requires IsRun(run) && k <= i < |run| && IsActivity(run, k) && (k == i ==> k == 0)
    ensures run[i].owner.lastTouch >= run[k].clock || IsTouch(run[i].owner.pc)
  {
    hide Inv, Enabled, Apply, Init;
    if i == 0 {
      var socks, idleTimeout, clock :| run[0] == Init(socks, idleTimeout, clock);
      StartTouches(socks, idleTimeout, clock);
    } else {
      EveryRun(run, i - 1);
      InvGivesPower(run[i - 1]);
      InvGivesTouch(run[i - 1]);
      var step := StepAt(run, i - 1);
      ActivityStep(run[i - 1], step);
      TouchStep(run[i - 1], step);
      if i - 1 > k || k == 0 {
        TouchedSince(run, k, i - 1);
        TouchesAdvance(run, k, i - 1);
      }
    }
  }

  lemma StartTouches(socks: bool, idleTimeout: int, clock: nat)
    ensures var s := Init(socks, idleTimeout, clock);
            s.owner.lastTouch == s.clock && s.owner.pc.Select? && s.cfg.idleTimeout > 0
  {}

  /** And only an activity does. */
  lemma {:induction false} TouchHasCause(run: seq<State>, t: nat) returns (k: nat)
    requires IsRun(run) && t < |run| && IsTouch(run[t].owner.pc)
    ensures k < t && (BusyTick(run, k) || StartWorks(run, k))
    ensures forall x :: k < x <= t ==> run[x].owner.pc == run[t].owner.pc
  {
    hide Inv, Enabled, Apply, Init;
    if t == 0 {
      var socks, idleTimeout, clock :| run[0] == Init(socks, idleTimeout, clock);
      StartTouches(socks, idleTimeout, clock);
    } else {
      EveryRun(run, t - 1);
      InvGivesPower(run[t - 1]);
      var step := StepAt(run, t - 1);
      ActivityStep(run[t - 1], step);
      if run[t - 1].owner.pc == run[t].owner.pc {
        k := TouchHasCause(run, t - 1);
      } else {
        k := t - 1;
      }
    }
  }

  /** The time of last activity is that of the last touch, or of the start. */
  lemma {:induction false} LastTouchIsTouch(run: seq<State>, i: nat) returns (t: nat)
    requires IsRun(run) && i < |run|
    ensures t <= i && run[i].owner.lastTouch == run[t].clock && (t == 0 || (t < i && TouchesAt(run, t)))
  {
    hide Inv, Enabled, Apply, Init;
    if i == 0 {
      var socks, idleTimeout, clock :| run[0] == Init(socks, idleTimeout, clock);
      StartTouches(socks, idleTimeout, clock);
      t := 0;
    } else {
      EveryRun(run, i - 1);
      InvGivesTouch(run[i - 1]);
      var step := StepAt(run, i - 1);
      TouchStep(run[i - 1], step);
      if TouchesAt(run, i - 1) {
        t := i - 1;
      } else {
        t := LastTouchIsTouch(run, i - 1);
      }
    }
  }

  // ---------- When the node goes to sleep ----------

  /** The manager leaves full power to stop the components. */
  ghost predicate FallsAsleep(run: seq<State>, m: nat) {
    m + 1 < |run| && run[m].owner.power.FullPower? && run[m + 1].owner.power.Stopping?
  }

  lemma SleepStepBack(s: State, step: Step)
    requires PowerOk(s) && Enabled(s, step)
    ensures var s' := Apply(s, step);
            && (s.owner.power.FullPower? && s'.owner.power.Stopping? ==> s.owner.pc.SleepMark?)
            && (s'.owner.pc.SleepMark? && !s.owner.pc.SleepMark? ==> s.owner.pc.TickIdle? && Idle(s))
            && (s'.owner.pc.TickIdle? && !s.owner.pc.TickIdle? ==> s.owner.pc.TickRead? && s.active == 0)
  {
    hide CloseListener, AcceptStep, HandlerAfter, RunGo, RunTry, Armed, Idle;
    if step == InRun(Go) { SleepGoBack(s); }
    if step.InRun? && step.run.Try? { SleepTryBack(s, step.run.ok); }
  }

  lemma SleepGoBack(s: State)
    requires PowerOk(s) && RunEnabled(s, Go)
    ensures var s' := RunGo(s);
            && (s.owner.power.FullPower? && s'.owner.power.Stopping? ==> s.owner.pc.SleepMark?)
            && (s'.owner.pc.SleepMark? ==> s.owner.pc.TickIdle? && Idle(s))
            && (s'.owner.pc.TickIdle? ==> s.owner.pc.TickRead? && s.active == 0)
  {
    hide CloseListener, Arm, Idle, Armed;
  }

  lemma SleepTryBack(s: State, ok: bool)
    requires PowerOk(s) && IsCall(s.owner.pc)
    ensures var o, o' := s.owner, RunTry(s, ok).owner;
            && (o.power.FullPower? && o'.power.Stopping? ==> false)
            && !o'.pc.SleepMark? && !o'.pc.TickIdle?
  {
    hide Listen, Armed;
  }

  /** Up to step `m` the manager has been at `pc`, since step `j` led there. */
  ghost predicate Reached(run: seq<State>, j: nat, m: nat, pc: Pc) {
    j < m < |run| && run[j].owner.pc != pc && forall x :: j < x <= m ==> run[x].owner.pc == pc
  }

  lemma {:induction false} LastEntry(run: seq<State>, m: nat) returns (j: nat)
    requires IsRun(run) && m < |run| && !run[m].owner.pc.Select?
    ensures Reached(run, j, m, run[m].owner.pc)
  {
    hide Init;
    if m == 0 {
      var socks, idleTimeout, clock :| run[0] == Init(socks, idleTimeout, clock);
      StartsAtSelect(socks, idleTimeout, clock);
    } else if run[m - 1].owner.pc == run[m].owner.pc {
      j := LastEntry(run, m - 1);
    } else {
      j := m - 1;
    }
  }

  /** The node goes to sleep only in a tick that has read a counter of zero, at step `k`, and then found
      the node idle, at step `j`. */
  lemma SleepsOnlyIdle(run: seq<State>, m: nat) returns (k: nat, j: nat)
    requires IsRun(run) && FallsAsleep(run, m)
    ensures k < j < m && run[k].owner.pc.TickRead? && run[k].active == 0 && Reached(run, k, j, TickIdle)
    ensures Idle(run[j]) && Reached(run, j, m, SleepMark)
  {
    hide Inv, Enabled, Apply, Idle;
    SleepCause(run, m);
    j := LastEntry(run, m);
    SleepCause(run, j);
    k := LastEntry(run, j);
    SleepCause(run, k);
  }

  lemma SleepCause(run: seq<State>, m: nat)
    requires IsRun(run) && m + 1 < |run|
    ensures var s, s' := run[m], run[m + 1];
            && (s.owner.power.FullPower? && s'.owner.power.Stopping? ==> s.owner.pc.SleepMark?)
            && (s'.owner.pc.SleepMark? && !s.owner.pc.SleepMark? ==> s.owner.pc.TickIdle? && Idle(s))
            && (s'.owner.pc.TickIdle? && !s.owner.pc.TickIdle? ==> s.owner.pc.TickRead? && s.active == 0)
  {
    hide Inv, Enabled, Apply, Idle;
    EveryRun(run, m);
    InvGivesPower(run[m]);
    var step := StepAt(run, m);
    SleepStepBack(run[m], step);
  }

  /** The node goes to sleep, at step `m`, only more than `idleTimeout` minus one second after every
      activity `k` before: the start, a start of the components, a tick with connections open. */
  lemma NoEarlySleep(run: seq<State>, k: nat, m: nat)
    requires IsRun(run) && k < m && IsActivity(run, k) && FallsAsleep(run, m)
    ensures run[m].clock - run[k].clock > run[m].cfg.idleTimeout - SECOND
  {
    hide Inv, Enabled, Apply, Idle, Init;
    var z, j := SleepsOnlyIdle(run, m);
    if k == 0 {
      var socks, idleTimeout, clock :| run[0] == Init(socks, idleTimeout, clock);
      StartsAtSelect(socks, idleTimeout, clock);
    }
    assert run[k].owner.pc != SleepMark && run[k].owner.pc != TickIdle;
    assert k < j;
    TouchedSince(run, k, j);
    TouchesAdvance(run, j, m);
    EveryRun(run, j);
    InvGivesTouch(run[j]);
    IdleBounds(run[j]);
  }

  /** A tick at full power reads the counter, and if that is zero tests the idle time; the test puts the
      node to sleep whenever one second more than the timeout has passed since every touch. */
  lemma LateTickSleeps(run: seq<State>, i: nat)
    requires IsRun(run) && i < |run|
    ensures run[i].owner.pc.Select? && run[i].owner.power.FullPower? ==>
              Enabled(run[i], InRun(SelectTick)) && Apply(run[i], InRun(SelectTick)).owner.pc.TickRead?
    ensures run[i].owner.pc.TickRead? && run[i].active == 0 ==>
              Enabled(run[i], InRun(Go)) && Apply(run[i], InRun(Go)).owner.pc.TickIdle?
    ensures run[i].owner.pc.TickIdle?
            && (forall t: nat :: t == 0 || (t < i && TouchesAt(run, t)) ==>
                  run[i].clock - run[t].clock >= run[i].cfg.idleTimeout + SECOND) ==>
              Enabled(run[i], InRun(Go)) && Apply(run[i], InRun(Go)).owner.pc.SleepMark?
    ensures run[i].owner.pc.SleepMark? ==>
              Enabled(run[i], InRun(Go)) && Apply(run[i], InRun(Go)).owner.power.Stopping?
  {
    EveryRun(run, i);
    InvGivesTouch(run[i]);
    var t := LastTouchIsTouch(run, i);
    IdleBounds(run[i]);
  }

  // ---------- A start while running ----------

  lemma Extend(run: seq<State>, step: Step) returns (longer: seq<State>, s: State)
    requires IsRun(run) && Enabled(run[|run| - 1], step)
    ensures s == Apply(run[|run| - 1], step) && longer == run + [s] && IsRun(longer)
  {
    hide Init, Apply, Enabled;
    s := Apply(run[|run| - 1], step);
    longer := run + [s];
    assert Next(run[|run| - 1], s);
  }

  lemma TickToStop() returns (run: seq<State>)
    ensures IsRun(run)
    ensures var s := run[|run| - 1];
            && s.owner.pc.SleepStop? && s.cfg.socks && s.stop.NotCalled?
            && s.trigger == Trigger(None, [], [], 0) && !s.token
  {
    var s := Init(true, SECOND, 0);
    run := [s];
    run, s := Extend(run, InEnv(Advance(2 * SECOND)));
    run, s := Extend(run, InRun(SelectTick));
    run, s := Extend(run, InRun(Go));
    run, s := Extend(run, InRun(Go));
    run, s := Extend(run, InRun(Go));
  }

  /** `Stop` may return and leave a wake listener open that nobody closes any more: `Stop` closes the
      listener while `Run` is between `net.Listen` and the assignment that makes it the current one. */
  lemma StopLeavesListener() returns (run: seq<State>)
    ensures IsRun(run)
    ensures var s := run[|run| - 1];
            && s.owner.pc.Exited? && s.stop.Returned?
            && s.trigger.listener == Some(0) && s.trigger.gens == [Gen(true, Accepting)]
  {
    hide IsRun;
    var s;
    run := TickToStop();
    run, s := Extend(run, InRun(Go));
    run, s := Extend(run, InEnv(StopCancel));
    run, s := Extend(run, InRun(Try(true)));
    run, s := Extend(run, InEnv(StopClose));
    run, s := Extend(run, InRun(Go));
    run := LeaveArmed(run);
  }

  lemma LeaveArmed(start: seq<State>) returns (run: seq<State>)
    requires IsRun(start)
    requires var s := start[|start| - 1];
             && s.owner.pc.SleepLow? && s.cancelled && s.stop.AwaitingHandlers? && !s.token
             && s.trigger == Trigger(Some(0), [Gen(true, Accepting)], [], 0)
    ensures IsRun(run)
    ensures var s := run[|run| - 1];
            && s.owner.pc.Exited? && s.stop.Returned?
            && s.trigger.listener == Some(0) && s.trigger.gens == [Gen(true, Accepting)]
  {
    hide IsRun;
    var s;
    run, s := Extend(start, InRun(Go));
    run, s := Extend(run, InRun(DrainEmpty));
    run, s := Extend(run, InRun(SelectDone));
    run, s := Extend(run, InEnv(StopReturn));
  }

  /** The double start does happen: a wake request meets a sleep attempt whose listener failed. */
  lemma DoubleStartHappens() returns (run: seq<State>)
    ensures IsRun(run)
    ensures run[|run| - 1].owner.pc.WakeStart? && run[|run| - 1].owner.running
  {
    run := TickToStop();
    run := SleepToBounce(run);
    run := BounceToWake(run);
  }

  lemma SleepToBounce(start: seq<State>) returns (run: seq<State>)
    requires IsRun(start)
    requires var s := start[|start| - 1]; s.owner.pc.SleepStop? && s.cfg.socks
    ensures IsRun(run)
    ensures var s := run[|run| - 1]; s.owner.pc.SleepTouch? && s.owner.running && s.token
  {
    hide IsRun;
    var s;
    run, s := Extend(start, InRun(Go));
    run, s := Extend(run, InRun(Try(false)));
    run, s := Extend(run, InRun(Try(true)));
    run, s := Extend(run, InEnv(Request));
  }

  lemma BounceToWake(start: seq<State>) returns (run: seq<State>)
    requires IsRun(start)
    requires var s := start[|start| - 1]; s.owner.pc.SleepTouch? && s.owner.running && s.token
    ensures IsRun(run)
    ensures run[|run| - 1].owner.pc.WakeStart? && run[|run| - 1].owner.running
  {
    hide IsRun;
    var s;
    run, s := Extend(start, InRun(Go));
    run, s := Extend(run, InRun(Go));
    run, s := Extend(run, InRun(DrainTake));
    run, s := Extend(run, InRun(Go));
    run, s := Extend(run, InRun(Go));
  }
}
