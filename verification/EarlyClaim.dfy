/** Expiry under interleaving (mod/mapping/udp.go:168-177): the sweeper tests the idle time of a session
    in one step and begins to close it in a later one, and the packet loop may touch the session between. */
module EarlyClaim {
  import opened ActivityProtocol
  import opened Orphans
  import LostSession

  // ---------- From the test to the close ----------

  lemma EvictingFrom(s: State, step: Step, l: nat)
    requires Enabled(s, step) && l < |Apply(s, step).loops| && Apply(s, step).loops[l].sweep.Evicting?
    ensures l < |s.loops|
    ensures var before, after := s.loops[l].sweep, Apply(s, step).loops[l].sweep;
            || before == after
            || (step == InSweep(l, Expire) && before == Checking(after.entries, after.now, after.final))
  {
    hide Apply, Enabled;
    NewLoop(s, step);
    if step.InLoop? && step.l == l { LoopEffect(s, l, step.act); }
    else if step.InSweep? && step.l == l { EvictingInSweep(s, l, step.sact); }
    else { OtherLoops(s, step, l); }
  }

  lemma EvictingInSweep(s: State, l: nat, act: SweepAct)
    requires Enabled(s, InSweep(l, act)) && Apply(s, InSweep(l, act)).loops[l].sweep.Evicting?
    ensures var before, after := s.loops[l].sweep, Apply(s, InSweep(l, act)).loops[l].sweep;
            || before == after
            || (act.Expire? && before == Checking(after.entries, after.now, after.final))
  {}

  /** The test that a close goes back to, with the sweeper at that entry all the way. */
  lemma {:induction false} TestOf(run: seq<State>, j: nat, l: nat) returns (x: nat)
    requires IsRun(run) && j < |run| && l < |run[j].loops| && run[j].loops[l].sweep.Evicting?
    ensures x < j && Takes(run, x, InSweep(l, Expire)) && l < |run[x].loops|
    ensures var sw := run[j].loops[l].sweep; run[x].loops[l].sweep == Checking(sw.entries, sw.now, sw.final)
    ensures forall k :: x < k <= j ==> l < |run[k].loops| && run[k].loops[l].sweep == run[j].loops[l].sweep
  {
    hide Apply, Enabled;
    var step := StepAt(run, j - 1);
    EvictingFrom(run[j - 1], step, l);
    if run[j - 1].loops[l].sweep == run[j].loops[l].sweep {
      x := TestOf(run, j - 1, l);
    } else {
      x := j - 1;
    }
  }

  // ---------- Touches ----------

  /** The packet loop of loop `l` touches session `id`. */
  ghost predicate TouchedAt(run: seq<State>, t: nat, l: nat, id: nat) {
    Takes(run, t, InLoop(l, Touch)) && run[t].loops[l].pc.Touching? && run[t].loops[l].pc.id == id
  }

  lemma TouchStep(s: State, step: Step, l: nat, id: nat)
    requires LoopsOk(s) && Enabled(s, step) && id < |s.conns| && s.conns[id].owner.Udp? && s.conns[id].owner.loop == l
    ensures var s' := Apply(s, step);
            && id < |s'.conns| && s'.conns[id].owner == s.conns[id].owner
            && s.clock <= s'.clock && s'.timeout == s.timeout
            && (s'.conns[id].last == s.conns[id].last || s'.conns[id].last == s.clock)
            && (step == InLoop(l, Touch) && s.loops[l].pc.id == id ==> s'.conns[id].last == s.clock)
            && (!(step == InLoop(l, Touch) && s.loops[l].pc.id == id) ==> s'.conns[id].last == s.conns[id].last)
  {
    hide Apply, LoopsOk;
    ConnsAfter(s, step);
    OwnersStay(s, step);
    ClockAdvances(s, step);
    var s' := Apply(s, step);
    if step.InLoop? && step.act.Touch? {
      TouchesOwn(s, step);
    } else if Moves(s, step).None? && |s'.conns| > |s.conns| {
      assert s'.conns[id] == s'.conns[..|s.conns|][id];
    }
  }

  lemma TouchesOwn(s: State, step: Step)
    requires LoopsOk(s) && Enabled(s, step) && step.InLoop? && step.act.Touch?
    ensures var id := s.loops[step.l].pc.id;
            id < |s.conns| && s.conns[id].owner.Udp? && s.conns[id].owner.loop == step.l
  {
    assert LoopOk(s.tracked, s.conns, step.l, s.loops[step.l]);
  }

  lemma ClockAdvances(s: State, step: Step)
    requires Enabled(s, step)
    ensures s.clock <= Apply(s, step).clock && Apply(s, step).timeout == s.timeout
  {}

  lemma {:induction false} ClockOnRuns(run: seq<State>, x: nat, j: nat)
    requires IsRun(run) && x <= j < |run|
    ensures run[x].clock <= run[j].clock && run[j].timeout == run[x].timeout
  {
    hide Apply, Enabled;
    if x < j {
      ClockOnRuns(run, x, j - 1);
      var step := StepAt(run, j - 1);
      ClockAdvances(run[j - 1], step);
    }
  }

  /** A touch of the session from step `x` up to `j`. */
  ghost predicate TouchIn(run: seq<State>, x: nat, j: nat, t: nat, l: nat, id: nat) {
    x <= t < j && TouchedAt(run, t, l, id)
  }

  /** From step `x` on, the time of last activity is as it was or that of some touch, and no touch is later. */
  ghost predicate LastTouch(run: seq<State>, x: nat, j: nat, l: nat, id: nat)
    requires x <= j < |run|
  {
    && id < |run[x].conns| && id < |run[j].conns| && run[j].conns[id].owner == run[x].conns[id].owner
    && (|| run[j].conns[id].last == run[x].conns[id].last
        || exists t: nat :: TouchIn(run, x, j, t, l, id) && run[j].conns[id].last == run[t].clock)
    && (forall t: nat :: TouchIn(run, x, j, t, l, id) ==> run[t].clock <= run[j].conns[id].last)
  }

  lemma {:induction false} TouchHistory(run: seq<State>, x: nat, j: nat, l: nat, id: nat)
    requires IsRun(run) && x <= j < |run| && id < |run[x].conns|
    requires run[x].conns[id].owner.Udp? && run[x].conns[id].owner.loop == l
    ensures LastTouch(run, x, j, l, id)
  {
    hide Apply, Enabled, Inv, TouchedAt;
    if x < j {
      TouchHistory(run, x, j - 1, l, id);
      EveryRun(run, j - 1);
      InvParts(run[j - 1]);
      var step := StepAt(run, j - 1);
      if TouchedAt(run, j - 1, l, id) {
        TouchedNow(run, j - 1, l, id);
        assert TouchIn(run, x, j, j - 1, l, id);
        forall t: nat | TouchIn(run, x, j, t, l, id) ensures run[t].clock <= run[j].conns[id].last {
          ClockOnRuns(run, t, j - 1);
        }
      } else {
        TouchStep(run[j - 1], step, l, id);
        NotTouched(run, j - 1, step, l, id);
        forall t: nat | TouchIn(run, x, j, t, l, id) ensures run[t].clock <= run[j].conns[id].last {
          assert TouchIn(run, x, j - 1, t, l, id);
        }
        if t: nat :| TouchIn(run, x, j - 1, t, l, id) && run[j - 1].conns[id].last == run[t].clock {
          assert TouchIn(run, x, j, t, l, id);
        }
      }
    }
  }

  lemma TouchedNow(run: seq<State>, t: nat, l: nat, id: nat)
    requires t + 1 < |run| && LoopsOk(run[t]) && TouchedAt(run, t, l, id)
    requires id < |run[t].conns| && run[t].conns[id].owner.Udp? && run[t].conns[id].owner.loop == l
    ensures id < |run[t + 1].conns| && run[t + 1].conns[id].owner == run[t].conns[id].owner
    ensures run[t + 1].conns[id].last == run[t].clock
  {
    hide Apply, LoopsOk;
    TouchStep(run[t], InLoop(l, Touch), l, id);
  }

  lemma NotTouched(run: seq<State>, t: nat, step: Step, l: nat, id: nat)
    requires Takes(run, t, step) && !TouchedAt(run, t, l, id)
    ensures !(step == InLoop(l, Touch) && run[t].loops[l].pc.id == id)
  {
    hide Apply;
  }

  // ---------- The clock of a pass ----------

  predicate ReadBy(sweep: SweepPc, clock: int) {
    sweep.Checking? || sweep.Evicting? || sweep.Removing? ==> sweep.now <= clock
  }

  ghost predicate ReadBefore(s: State) { forall l :: 0 <= l < |s.loops| ==> ReadBy(s.loops[l].sweep, s.clock) }

  lemma ReadStep(s: State, step: Step)
    requires ReadBefore(s) && Enabled(s, step)
    ensures ReadBefore(Apply(s, step))
  {
    hide Apply, Enabled;
    var s' := Apply(s, step);
    NewLoop(s, step);
    ClockAdvances(s, step);
    forall l | 0 <= l < |s'.loops| ensures ReadBy(s'.loops[l].sweep, s'.clock) {
      if l < |s.loops| {
        if (step.InLoop? || step.InSweep?) && step.l == l { ReadAtHome(s, step); } else { OtherLoops(s, step, l); }
      }
    }
  }

  lemma ReadAtHome(s: State, step: Step)
    requires ReadBefore(s) && Enabled(s, step) && (step.InLoop? || step.InSweep?)
    ensures step.l < |Apply(s, step).loops| && ReadBy(Apply(s, step).loops[step.l].sweep, s.clock)
  {
    assert ReadBy(s.loops[step.l].sweep, s.clock);
  }

  lemma {:induction false} ReadOnRuns(run: seq<State>, i: nat)
    requires IsRun(run) && i < |run|
    ensures ReadBefore(run[i])
  {
    hide Apply, Enabled;
    if i > 0 {
      ReadOnRuns(run, i - 1);
      var step := StepAt(run, i - 1);
      ReadStep(run[i - 1], step);
    }
  }

  // ---------- Main results ----------

  lemma TestedIdle(s: State, l: nat)
    requires LoopsOk(s) && ReadBefore(s) && Enabled(s, InSweep(l, Expire)) && !s.loops[l].sweep.final
    ensures var id := s.loops[l].sweep.entries[0].id;
            id < |s.conns| && s.conns[id].owner.Udp? && s.conns[id].owner.loop == l
            && s.clock - s.conns[id].last > s.timeout
  {
    assert LoopOk(s.tracked, s.conns, l, s.loops[l]) && ReadBy(s.loops[l].sweep, s.clock);
  }

  /** A tick begins to close a session at step `j`, having tested it at step `x`. The session has then been
      idle for no more than the timeout exactly if its packet loop touched it between the two steps, no
      longer than the timeout ago. */
  lemma EarlyClaimExactly(run: seq<State>, j: nat, l: nat) returns (x: nat)
    requires IsRun(run) && Takes(run, j, InSweep(l, EvictBegin)) && !run[j].loops[l].sweep.final
    ensures x < j && Takes(run, x, InSweep(l, Expire))
    ensures forall k :: x < k <= j ==> l < |run[k].loops| && run[k].loops[l].sweep == run[j].loops[l].sweep
    ensures var s, id := run[j], run[j].loops[l].sweep.entries[0].id;
            s.clock - s.conns[id].last <= s.timeout
            <==> exists t: nat :: x < t < j && TouchedAt(run, t, l, id) && s.clock - run[t].clock <= s.timeout
  {
    hide Apply, Inv, LoopsOk, TouchedAt;
    x := TestOf(run, j, l);
    var s, id := run[j], run[j].loops[l].sweep.entries[0].id;
    EveryRun(run, x);
    InvParts(run[x]);
    ReadOnRuns(run, x);
    TestedIdle(run[x], l);
    ExpireKeepsConns(run, x, l);
    ClockOnRuns(run, x, j);
    TouchHistory(run, x + 1, j, l, id);
    if t: nat :| TouchIn(run, x + 1, j, t, l, id) && s.conns[id].last == run[t].clock {
      assert x < t < j && TouchedAt(run, t, l, id);
    }
    forall t: nat | x < t < j && TouchedAt(run, t, l, id) ensures run[t].clock <= s.conns[id].last {
      assert TouchIn(run, x + 1, j, t, l, id);
    }
  }

  lemma ExpireKeepsConns(run: seq<State>, x: nat, l: nat)
    requires Takes(run, x, InSweep(l, Expire))
    ensures run[x + 1].conns == run[x].conns
  {}

  /** A run in which it happens: a datagram arrives between the test and the close, and the session is
      closed at the very moment of its last activity. */
  lemma EarlyClaimHappens(key: string, timeout: nat) returns (run: seq<State>, j: nat)
    ensures IsRun(run) && Takes(run, j, InSweep(0, EvictBegin)) && !run[j].loops[0].sweep.final
    ensures !run[j].cancelled && run[j].timeout == timeout && run[j].loops[0].sweep.entries == [Entry(key, 0)]
    ensures |run[j].conns| == 1 && run[j].conns[0].last == run[j].clock
  {
    var s;
    run := LostSession.OpenFirst(key, timeout);
    run, s := LostSession.Extend(run, Advance(timeout + 1));
    run, s := LostSession.Extend(run, InSweep(0, Tick([Entry(key, 0)])));
    run, s := LostSession.Extend(run, InSweep(0, Expire));
    run := TouchBeforeClaim(run, key, timeout);
    j := |run| - 1;
    run, s := LostSession.Extend(run, InSweep(0, EvictBegin));
  }

  lemma TouchBeforeClaim(start: seq<State>, key: string, timeout: nat) returns (run: seq<State>)
    requires LostSession.Chain(start)
    requires start[|start| - 1] == Tested(key, timeout, 0)
    ensures LostSession.Chain(run) && run[0] == start[0] && run[|run| - 1] == Tested(key, timeout, timeout + 1)
  {
    var s;
    run, s := LostSession.Extend(start, InLoop(0, Read(key)));
    run, s := LostSession.Extend(run, InLoop(0, Load));
    run, s := LostSession.Extend(run, InLoop(0, Touch));
    run, s := LostSession.Extend(run, InLoop(0, WriteOk));
  }

  /** The sweep has found the session idle and is about to close it. */
  function Tested(key: string, timeout: nat, last: int): State {
    LostSession.At(timeout, timeout + 1, [LostSession.Session(key, Open, last)], 1, [],
                   Loop(map[key := 0], Reading, Evicting([Entry(key, 0)], timeout + 1, false)))
  }
}
