/** The manager's own methods (mod/lowpower/manager.go): the steps of `Run` in the order in which the code
    takes them, with any steps of other goroutines between any two of them. */
module LowPowerManager {
  import opened Prelude
  import opened LowPowerProtocol

  predicate StopHasClosed(s: State) { s.stop.AwaitingHandlers? || s.stop.Returned? }

  /** What other goroutines can do to the state: queue a wake request, pass time, close the listener for
      `Stop`; the rest of the trigger is theirs. */
  predicate ByOthers(s: State, s': State) {
    && s'.owner == s.owner && s'.cfg == s.cfg && (s.token ==> s'.token) && s.clock <= s'.clock
    && |s'.trigger.gens| == |s.trigger.gens| && (StopHasClosed(s) ==> StopHasClosed(s'))
    && (s'.trigger.listener == s.trigger.listener || (s'.trigger.listener.None? && StopHasClosed(s')))
  }

  lemma OthersStep(s: State, step: Step)
    requires Enabled(s, step) && !step.InRun?
    ensures ByOthers(s, Apply(s, step))
  {
    hide HandlerAfter;
  }

  class ManagerObj {
    var sys: State
    var schedule: seq<seq<Step>>   // what other goroutines try after each further step of Run

    ghost predicate Valid()
      reads this
    {
      Inv(sys)
    }

    constructor (socks: bool, idleTimeout: int, clock: nat, schedule: seq<seq<Step>>)
      ensures Valid() && sys == Init(socks, idleTimeout, clock)
    {
      InitInv(socks, idleTimeout, clock);
      sys, this.schedule := Init(socks, idleTimeout, clock), schedule;
    }

    /** Steps of other goroutines; those not enabled when their turn comes are passed over. */
    method Yield()
      requires Valid()
      modifies this
      ensures Valid() && ByOthers(old(sys), sys)
    {
      hide Inv, Apply, Enabled;
      if schedule == [] { return; }
      var others := schedule[0];
      schedule := schedule[1..];
      for i := 0 to |others|
        invariant Valid() && ByOthers(old(sys), sys)
      {
        if !others[i].InRun? && Enabled(sys, others[i]) {
          StepKeepsInv(sys, others[i]);
          OthersStep(sys, others[i]);
          sys := Apply(sys, others[i]);
        }
      }
    }

    /** One step of `Run`, and then steps of others. */
    method Do(act: RunAct)
      requires Valid() && RunEnabled(sys, act)
      modifies this
      ensures Valid() && ByOthers(RunStep(old(sys), act), sys)
    {
      hide Inv, RunStep;
      StepKeepsInv(sys, InRun(act));
      sys := RunStep(sys, act);
      Yield();
    }

    /** `TransitionToFullPower`, from any goroutine: never blocks, and a request already queued is enough. */
    method TransitionToFullPower()
      requires Valid()
      modifies this`sys
      ensures Valid() && sys == old(sys).(token := true)
    {
      StepKeepsInv(sys, InEnv(Request));
      sys := EnvStep(sys, Request);
    }

    /** `startWakeTrigger`, up to the start of the accept loop. */
    method StartWakeTrigger(ok: bool)
      requires Valid() && (sys.owner.pc.SleepListen? || sys.owner.pc.WakeListen?)
      modifies this
      ensures Valid() && sys.cfg == old(sys).cfg && (old(sys).token ==> sys.token) && old(sys).clock <= sys.clock
      ensures var o := old(sys).owner;
              var pc' := if o.pc.WakeListen? then WakeLow else if ok then SleepLow else SleepRestart;
              sys.owner == o.(pc := pc', listenFailed := !ok)
      ensures ok ==> sys.trigger.listener == Some(|old(sys).trigger.gens|)
                     || (sys.trigger.listener.None? && StopHasClosed(sys))
      ensures !ok ==> sys.trigger.listener.None?
    {
      hide Inv;
      ListensWithout(sys);
      Do(Try(ok));
      if ok { Do(Go); }
    }

    /** `transitionToLowPower`. It ends asleep, with a listener if there is a SOCKS address and `Stop` has
        not closed it, or asleep without one after both calls failed, or back at full power if only the
        listener failed. */
    method TransitionToLowPower(listenOk: bool, startOk: bool)
      requires Valid() && sys.owner.pc.SleepMark?
      modifies this
      ensures Valid() && sys.owner.pc.Drain? && sys.cfg == old(sys).cfg && (old(sys).token ==> sys.token)
      ensures old(sys).clock <= sys.clock
      ensures var bounce := sys.cfg.socks && !listenOk && startOk;
              && (sys.owner.power == if bounce then FullPower else LowPower)
              && (sys.owner.running <==> bounce)
              && (if bounce then old(sys).clock / SECOND <= sys.owner.lastActivity <= sys.clock / SECOND
                  else sys.owner.lastActivity == old(sys).owner.lastActivity)
      ensures sys.trigger.listener.Some? ==> sys.cfg.socks && listenOk
      ensures sys.cfg.socks && listenOk ==> sys.trigger.listener.Some? || StopHasClosed(sys)
    {
      hide Inv;
      SleepsFromFullPower(sys);
      Do(Go);
      Do(Go);
      if sys.cfg.socks {
        StartWakeTrigger(listenOk);
        if !listenOk {
          RestartComponents(startOk);
          return;
        }
      }
      Do(Go);
    }

    /** The branch of `transitionToLowPower` for a listener that failed. */
    method RestartComponents(startOk: bool)
      requires Valid() && sys.owner.pc.SleepRestart?
      modifies this
      ensures Valid() && sys.cfg == old(sys).cfg && (old(sys).token ==> sys.token) && sys.trigger.listener.None?
      ensures old(sys).clock <= sys.clock
      ensures var o, o' := old(sys).owner, sys.owner;
              && o'.pc.Drain? && (o'.power == if startOk then FullPower else LowPower) && (o'.running <==> startOk)
              && (if startOk then old(sys).clock / SECOND <= o'.lastActivity <= sys.clock / SECOND
                  else o'.lastActivity == o.lastActivity)
    {
      hide Inv;
      RestartsWithout(sys);
      Do(Try(startOk));
      if startOk { Do(Go); }
      Do(Go);
    }

    /** `doTransitionToFullPower`. It ends awake, or asleep with the listener armed again if that works
        and `Stop` has not closed it. */
    method DoTransitionToFullPower(startOk: bool, listenOk: bool)
      requires Valid() && sys.owner.pc.WakeMark?
      modifies this
      ensures Valid() && sys.owner.pc.Select? && sys.cfg == old(sys).cfg && (old(sys).token ==> sys.token)
      ensures old(sys).clock <= sys.clock
      ensures sys.owner.power == if startOk then FullPower else LowPower
      ensures sys.owner.running <==> startOk
      ensures sys.trigger.listener.Some? ==> !startOk && sys.cfg.socks && listenOk
      ensures !startOk && sys.cfg.socks && listenOk ==> sys.trigger.listener.Some? || StopHasClosed(sys)
      ensures if startOk then old(sys).clock / SECOND <= sys.owner.lastActivity <= sys.clock / SECOND
              else sys.owner.lastActivity == old(sys).owner.lastActivity
    {
      hide Inv;
      CloseAndStart(startOk);
      if startOk {
        Do(Go);
        Do(Go);
        return;
      }
      if sys.cfg.socks {
        StartWakeTrigger(listenOk);
      }
      Do(Go);
    }

    /** `doTransitionToFullPower` up to the outcome of `StartComponents`. */
    method CloseAndStart(startOk: bool)
      requires Valid() && sys.owner.pc.WakeMark?
      modifies this
      ensures Valid() && sys.trigger.listener.None? && sys.cfg == old(sys).cfg && (old(sys).token ==> sys.token)
      ensures old(sys).clock <= sys.clock
      ensures var pc' := if startOk then WakeTouch else if sys.cfg.socks then WakeListen else WakeLow;
              sys.owner == old(sys).owner.(pc := pc', power := Starting, running := startOk)
    {
      hide Inv;
      Do(Go);
      Do(Go);
      Do(Try(startOk));
    }

    /** One tick in `Run`. `seen` is the counter as read in state `read`; `slept` says that the idle test, made on the state
        `tested`, led to a sleep attempt, and `drained` that a wake request was then found. A request
        queued before the tick is found by the drain, so a sleep attempt never leaves it waiting. */
    method Tick(listenOk: bool, restartOk: bool, startOk: bool, relistenOk: bool)
      returns (seen: nat, read: State, tested: State, slept: bool, drained: bool)
      requires Valid() && sys.owner.pc.Select?
      modifies this
      ensures Valid() && sys.owner.pc.Select? && sys.cfg == old(sys).cfg
      ensures ByOthers(RunStep(old(sys), SelectTick), read)
      ensures old(sys).owner.power.FullPower? ==> seen == read.active
      ensures slept <==> old(sys).owner.power.FullPower? && seen == 0 && Idle(tested)
      ensures tested.owner.lastActivity == old(sys).owner.lastActivity && tested.cfg == old(sys).cfg
      ensures slept ==> old(sys).clock <= tested.clock <= sys.clock
      ensures !slept ==> sys.owner.power == old(sys).owner.power && sys.owner.running == old(sys).owner.running
      ensures !slept && old(sys).token ==> sys.token
      ensures !slept ==> if seen > 0 then old(sys).clock / SECOND <= sys.owner.lastActivity <= sys.clock / SECOND
                         else sys.owner.lastActivity == old(sys).owner.lastActivity
      ensures slept && old(sys).token ==> drained
      ensures slept && drained ==> sys.owner.power == if startOk then FullPower else LowPower
      ensures slept && !drained ==>
                sys.owner.power == if sys.cfg.socks && !listenOk && restartOk then FullPower else LowPower
    {
      hide Inv;
      seen, tested, slept, drained := 0, sys, false, false;
      FullOrLow(sys);
      Do(SelectTick);
      read := sys;
      if !sys.owner.power.FullPower? { return; }
      seen := sys.active;
      Do(Go);
      if sys.owner.pc.TickTouch? {
        Do(Go);
        return;
      }
      tested := sys;
      Do(Go);
      if sys.owner.pc.Select? { return; }
      slept := true;
      TransitionToLowPower(listenOk, restartOk);
      drained := sys.token;
      if drained {
        Do(DrainTake);
        DoTransitionToFullPower(startOk, relistenOk);
      } else {
        Do(DrainEmpty);
      }
    }

    /** The wake case of the select: the request is consumed, and the node is awake after it unless a
        start was needed and failed. */
    method Wake(startOk: bool, listenOk: bool)
      requires Valid() && sys.owner.pc.Select? && sys.token
      modifies this
      ensures Valid() && sys.owner.pc.Select? && sys.cfg == old(sys).cfg
      ensures sys.owner.power.FullPower? <==> old(sys).owner.power.FullPower? || startOk
      ensures sys.owner.running <==> sys.owner.power.FullPower?
    {
      hide Inv;
      FullOrLow(sys);
      Do(SelectWake);
      if !sys.owner.pc.Select? {
        DoTransitionToFullPower(startOk, listenOk);
      }
    }
  }

  lemma SleepsFromFullPower(s: State)
    requires Inv(s) && s.owner.pc.SleepMark?
    ensures s.owner.power.FullPower? && s.owner.running && s.trigger.listener.None?
  {}

  lemma ListensWithout(s: State)
    requires Inv(s) && (s.owner.pc.SleepListen? || s.owner.pc.WakeListen?)
    ensures s.trigger.listener.None?
  {}

  lemma RestartsWithout(s: State)
    requires Inv(s) && s.owner.pc.SleepRestart?
    ensures s.trigger.listener.None? && s.owner.power.Stopping?
  {}

  lemma FullOrLow(s: State)
    requires Inv(s) && s.owner.pc.Select?
    ensures s.owner.power.FullPower? ==> s.owner.running && s.trigger.listener.None?
    ensures s.owner.power.FullPower? || (s.owner.power.LowPower? && !s.owner.running)
  {}
}
