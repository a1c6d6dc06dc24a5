/** The course of packet loops and sweeps under interleaving (mod/mapping/udp.go:88-180): every datagram is
    written to the session of its own source or its dial fails, a pass of the sweeper leaves no idle session
    open, and both goroutines end only after cancellation. */
module UdpCourse {
  import opened ActivityProtocol
  import opened Orphans
  import opened EarlyClaim

  // ---------- Every datagram is served ----------

  /** A datagram from `key` has been read and not yet written. */
  predicate OnWay(pc: LoopPc, key: string) {
    (pc.Loading? || pc.Dialing? || pc.Counting? || pc.Storing? || pc.Touching? || pc.Writing?) && pc.key == key
  }

  /** Loop `l` writes a datagram to a session of its own for source `key`. */
  ghost predicate WritesAt(run: seq<State>, k: nat, l: nat, key: string) {
    && k + 1 < |run| && l < |run[k].loops| && l < |run[k + 1].loops|
    && run[k].loops[l].pc.Writing? && run[k + 1].loops[l].pc != run[k].loops[l].pc
    && run[k].loops[l].pc.id < |run[k].conns| && run[k].conns[run[k].loops[l].pc.id].owner == Udp(l, key)
  }

  ghost predicate DialFailsAt(run: seq<State>, k: nat, l: nat, key: string) {
    && k + 1 < |run| && l < |run[k].loops| && l < |run[k + 1].loops|
    && run[k].loops[l].pc == Dialing(key) && run[k + 1].loops[l].pc == Reading
  }

  lemma ServeInLoop(s: State, l: nat, act: LoopAct, key: string)
    requires LoopsOk(s) && Enabled(s, InLoop(l, act)) && OnWay(s.loops[l].pc, key)
    ensures var pc, pc' := s.loops[l].pc, Apply(s, InLoop(l, act)).loops[l].pc;
            || OnWay(pc', key)
            || (pc == Dialing(key) && pc' == Reading)
            || (pc.Writing? && pc' != pc && pc.id < |s.conns| && s.conns[pc.id].owner == Udp(l, key))
  {
    assert LoopOk(s.tracked, s.conns, l, s.loops[l]);
  }

  lemma ServeStep(s: State, step: Step, l: nat, key: string)
    requires LoopsOk(s) && Enabled(s, step) && l < |s.loops| && OnWay(s.loops[l].pc, key)
    ensures l < |Apply(s, step).loops|
    ensures var pc, pc' := s.loops[l].pc, Apply(s, step).loops[l].pc;
            || OnWay(pc', key)
            || (pc == Dialing(key) && pc' == Reading)
            || (pc.Writing? && pc' != pc && pc.id < |s.conns| && s.conns[pc.id].owner == Udp(l, key))
  {
    hide Apply, Enabled, LoopsOk, OnWay;
    NewLoop(s, step);
    if step.InLoop? && step.l == l { ServeInLoop(s, l, step.act, key); }
    else if step.InSweep? && step.l == l { EntriesAfter(s, l, step.sact); }
    else { OtherLoops(s, step, l); }
  }

  ghost predicate Served(run: seq<State>, i: nat, j: nat, l: nat, key: string) {
    exists k: nat :: i <= k < j && (WritesAt(run, k, l, key) || DialFailsAt(run, k, l, key))
  }

  lemma {:induction false} OnWayOrServed(run: seq<State>, i: nat, j: nat, l: nat, key: string)
    requires IsRun(run) && i <= j < |run| && l < |run[i].loops| && OnWay(run[i].loops[l].pc, key)
    ensures (l < |run[j].loops| && OnWay(run[j].loops[l].pc, key)) || Served(run, i, j, l, key)
  {
    hide Inv, Apply, Enabled, OnWay;
    if i < j {
      OnWayOrServed(run, i, j - 1, l, key);
      if !Served(run, i, j - 1, l, key) {
        EveryRun(run, j - 1);
        InvParts(run[j - 1]);
        var step := StepAt(run, j - 1);
        ServeStep(run[j - 1], step, l, key);
        assert WritesAt(run, j - 1, l, key) || DialFailsAt(run, j - 1, l, key) ==> Served(run, i, j, l, key);
      } else {
        var k: nat :| i <= k < j - 1 && (WritesAt(run, k, l, key) || DialFailsAt(run, k, l, key));
        assert i <= k < j && (WritesAt(run, k, l, key) || DialFailsAt(run, k, l, key));
      }
    }
  }

  /** Before a packet loop reads again, or ends, it has written the datagram in hand to a session of its own
      source, or a dial for it has failed. */
  lemma DatagramServed(run: seq<State>, i: nat, j: nat, l: nat, key: string)
    requires IsRun(run) && i <= j < |run| && l < |run[i].loops| && run[i].loops[l].pc == Loading(key)
    requires l < |run[j].loops| && (run[j].loops[l].pc.Reading? || run[j].loops[l].pc.Stopped?)
    ensures Served(run, i, j, l, key)
  {
    hide IsRun, Served;
    OnWayOrServed(run, i, j, l, key);
  }

  /** A step of packet loop `l`, or one that takes further the close it waits for. */
  predicate Furthers(s: State, l: nat, step: Step) {
    || (step.InLoop? && step.l == l)
    || (l < |s.loops| && s.loops[l].pc.Closing?
        && (step.Report? || step.Lower? || step.FinishUntracked?) && step.id == s.loops[l].pc.id)
  }

  /** A packet loop that has not ended can always go on, or wait for a close that can. */
  lemma LoopGoesOn(run: seq<State>, i: nat, l: nat)
    requires IsRun(run) && i < |run| && l < |run[i].loops| && !run[i].loops[l].pc.Stopped?
    ensures exists step :: Furthers(run[i], l, step) && Enabled(run[i], step)
  {
    hide Inv, Apply, DataOk, SweepOk, AtMostOnce, Tallied;
    EveryRun(run, i);
    InvParts(run[i]);
    var s, pc := run[i], run[i].loops[l].pc;
    assert LoopOk(s.tracked, s.conns, l, s.loops[l]);
    var step :=
      match pc
      case Reading => InLoop(l, Read(""))
      case Loading(_) => InLoop(l, Load)
      case Dialing(_) => InLoop(l, DialOk)
      case Counting(_, _) => InLoop(l, Count)
      case Storing(_, _) => InLoop(l, Store)
      case Touching(_, _) => InLoop(l, Touch)
      case Writing(_, _) => InLoop(l, WriteOk)
      case Closing(_, id) =>
        if s.conns[id].phase.Open? then InLoop(l, CloseBegin)
        else if s.conns[id].phase.Closed? then InLoop(l, CloseReturn)
        else if !s.tracked then FinishUntracked(id)
        else if s.conns[id].phase.Claimed? then Report(id) else Lower(id)
      case _ => InLoop(l, Delete);
    assert Furthers(s, l, step) && Enabled(s, step);
  }

  /** A step of the sweeper of loop `l`, or one that takes further the close it waits for. */
  predicate FurthersSweep(s: State, l: nat, step: Step) {
    || (step.InSweep? && step.l == l)
    || (l < |s.loops| && s.loops[l].sweep.Evicting? && s.loops[l].sweep.entries != []
        && (step.Report? || step.Lower? || step.FinishUntracked?) && step.id == s.loops[l].sweep.entries[0].id)
  }

  /** A sweeper in a pass can always go on, or wait for a close that can. */
  lemma SweepGoesOn(run: seq<State>, i: nat, l: nat)
    requires IsRun(run) && i < |run| && l < |run[i].loops|
    requires !run[i].loops[l].sweep.Waiting? && !run[i].loops[l].sweep.Finished?
    ensures exists step :: FurthersSweep(run[i], l, step) && Enabled(run[i], step)
  {
    hide Inv, Apply, DataOk, PcOk, AtMostOnce, Tallied;
    EveryRun(run, i);
    InvParts(run[i]);
    var s, sweep := run[i], run[i].loops[l].sweep;
    assert LoopOk(s.tracked, s.conns, l, s.loops[l]);
    var step :=
      match sweep
      case Checking(entries, _, _) =>
        if entries == [] then InSweep(l, PassEnd)
        else if Expired(s, sweep) then InSweep(l, Expire) else InSweep(l, Skip)
      case Evicting(entries, _, _) =>
        var id := entries[0].id;
        if s.conns[id].phase.Open? then InSweep(l, EvictBegin)
        else if s.conns[id].phase.Closed? then InSweep(l, EvictReturn)
        else if !s.tracked then FinishUntracked(id)
        else if s.conns[id].phase.Claimed? then Report(id) else Lower(id)
      case _ => InSweep(l, Remove);
    assert FurthersSweep(s, l, step) && Enabled(s, step);
  }

  // ---------- Every pass closes what is idle ----------

  /** The sweeper of loop `l` is in a pass that began at time `now`, and has session `id` still to come
      unless it is open no more. */
  predicate InPass(s: State, l: nat, key: string, id: nat, now: int) {
    && l < |s.loops| && Session(s.conns, l, key, id)
    && var sweep := s.loops[l].sweep;
       && (sweep.Checking? || sweep.Evicting? || sweep.Removing?) && sweep.now == now && !LastPass(sweep)
       && (s.conns[id].phase.Open? ==> Entry(key, id) in sweep.entries)
  }

  lemma PassInSweep(s: State, l: nat, act: SweepAct, key: string, id: nat, now: int)
    requires LoopsOk(s) && Enabled(s, InSweep(l, act)) && InPass(s, l, key, id, now)
    requires now - s.conns[id].last > s.timeout
    requires !Apply(s, InSweep(l, act)).loops[l].sweep.Waiting?
    ensures InPass(Apply(s, InSweep(l, act)), l, key, id, now)
  {
    assert LoopOk(s.tracked, s.conns, l, s.loops[l]);
    var entries := s.loops[l].sweep.entries;
    if entries != [] {
      assert entries == [entries[0]] + entries[1..];
    }
  }

  lemma PassInLoop(s: State, l: nat, act: LoopAct, key: string, id: nat, now: int)
    requires LoopsOk(s) && Enabled(s, InLoop(l, act)) && InPass(s, l, key, id, now)
    ensures InPass(Apply(s, InLoop(l, act)), l, key, id, now)
  {
    hide Apply, Enabled;
    assert LoopOk(s.tracked, s.conns, l, s.loops[l]);
    LoopEffect(s, l, act);
    PhaseInLoop(s, l, act, id);
  }

  lemma PassStep(s: State, step: Step, l: nat, key: string, id: nat, now: int)
    requires LoopsOk(s) && ReportsMatch(s) && Enabled(s, step) && InPass(s, l, key, id, now)
    requires now - s.conns[id].last > s.timeout
    requires l < |Apply(s, step).loops| && !Apply(s, step).loops[l].sweep.Waiting?
    ensures InPass(Apply(s, step), l, key, id, now)
  {
    hide Apply, Enabled, LoopsOk, ReportsMatch, LastPass;
    if step.InLoop? && step.l == l { PassInLoop(s, l, step.act, key, id, now); }
    else if step.InSweep? && step.l == l { PassInSweep(s, l, step.sact, key, id, now); }
    else { Elsewhere(s, step, id); }
  }

  /** No touch of session `id` from step `i` up to `j`. */
  ghost predicate Untouched(run: seq<State>, i: nat, j: nat, l: nat, id: nat) {
    forall t: nat :: i <= t < j ==> !TouchedAt(run, t, l, id)
  }

  lemma {:induction false} PassGoesOn(run: seq<State>, i: nat, j: nat, l: nat, key: string, id: nat)
    requires IsRun(run) && i < j < |run| && id < |run[i].conns|
    requires InPass(run[i + 1], l, key, id, run[i].clock) && run[i + 1].conns == run[i].conns
    requires run[i].conns[id].owner == Udp(l, key) && run[i].clock - run[i].conns[id].last > run[i].timeout
    requires Untouched(run, i, j, l, id)
    requires forall k :: i < k <= j ==> l < |run[k].loops| && !run[k].loops[l].sweep.Waiting?
    ensures InPass(run[j], l, key, id, run[i].clock)
  {
    hide Inv, Apply, Enabled, TouchedAt, InPass;
    if i + 1 < j {
      PassGoesOn(run, i, j - 1, l, key, id);
      EveryRun(run, j - 1);
      InvParts(run[j - 1]);
      TouchHistory(run, i, j - 1, l, id);
      ClockOnRuns(run, i, j - 1);
      NotTouchedYet(run, i, j - 1, l, id);
      var step := StepAt(run, j - 1);
      PassStep(run[j - 1], step, l, key, id, run[i].clock);
    }
  }

  lemma NotTouchedYet(run: seq<State>, x: nat, j: nat, l: nat, id: nat)
    requires x <= j < |run| && LastTouch(run, x, j, l, id) && Untouched(run, x, j, l, id)
    ensures run[j].conns[id].last == run[x].conns[id].last
  {
    hide TouchedAt;
  }

  /** A tick at step `i` finds session `id` in the map and idle for more than the timeout. Unless its packet
      loop touches it before the pass is over, at step `j`, it is then no longer open. */
  lemma SweptUnlessTouched(run: seq<State>, i: nat, j: nat, l: nat, entries: seq<Entry>, key: string, id: nat)
    requires IsRun(run) && i < j < |run| && Takes(run, i, InSweep(l, Tick(entries)))
    requires Maps(run[i].loops[l], key, id) && id < |run[i].conns|
    requires run[i].clock - run[i].conns[id].last > run[i].timeout
    requires Untouched(run, i, j, l, id)
    requires forall k :: i < k <= j ==> l < |run[k].loops| && !run[k].loops[l].sweep.Waiting?
    requires Entries(run[j].loops[l].sweep) == []
    ensures id < |run[j].conns| && !run[j].conns[id].phase.Open?
  {
    hide Inv, Untouched, TouchedAt;
    EveryRun(run, i);
    InvParts(run[i]);
    assert LoopOk(run[i].tracked, run[i].conns, l, run[i].loops[l]);
    PassGoesOn(run, i, j, l, key, id);
  }

  // ---------- Ends ----------

  predicate EndOk(cancelled: bool, lp: Loop) {
    lp.pc.Stopped? || LastPass(lp.sweep) ==> cancelled
  }

  lemma EndInLoop(s: State, l: nat, act: LoopAct)
    requires Enabled(s, InLoop(l, act)) && EndOk(s.cancelled, s.loops[l])
    ensures EndOk(Apply(s, InLoop(l, act)).cancelled, Apply(s, InLoop(l, act)).loops[l])
  {}

  lemma EndInSweep(s: State, l: nat, act: SweepAct)
    requires Enabled(s, InSweep(l, act)) && EndOk(s.cancelled, s.loops[l])
    ensures EndOk(Apply(s, InSweep(l, act)).cancelled, Apply(s, InSweep(l, act)).loops[l])
  {}

  lemma CancelStays(s: State, step: Step)
    requires Enabled(s, step)
    ensures s.cancelled ==> Apply(s, step).cancelled
  {}

  /** A packet loop ends, and a sweeper begins its last pass, only after cancellation. */
  lemma {:induction false} EndsOnlyCancelled(run: seq<State>, i: nat, l: nat)
    requires IsRun(run) && i < |run| && l < |run[i].loops|
    ensures run[i].loops[l].pc.Stopped? || LastPass(run[i].loops[l].sweep) ==> run[i].cancelled
  {
    hide Apply, Enabled, LastPass;
    if i > 0 {
      var s := run[i - 1];
      var step := StepAt(run, i - 1);
      NewLoop(s, step);
      CancelStays(s, step);
      if l >= |s.loops| {
        FreshEndOk(run[i].cancelled);
      } else {
        EndsOnlyCancelled(run, i - 1, l);
        if step.InLoop? && step.l == l { EndInLoop(s, l, step.act); }
        else if step.InSweep? && step.l == l { EndInSweep(s, l, step.sact); }
        else { OtherLoops(s, step, l); }
      }
    }
  }

  lemma FreshEndOk(cancelled: bool)
    ensures EndOk(cancelled, Loop(map[], Reading, Waiting))
  {}

  // ---------- The time of last activity ----------

  /** Session `id` is created at step `t`. */
  predicate CreatedAt(run: seq<State>, t: nat, id: nat) {
    t + 1 < |run| && |run[t].conns| <= id < |run[t + 1].conns|
  }

  lemma CreatedNow(s: State, step: Step, id: nat)
    requires Enabled(s, step) && |s.conns| <= id < |Apply(s, step).conns|
    ensures Apply(s, step).conns[id].last == s.clock
  {}

  /** The time of last activity of a session is that of its creation or of a touch. */
  lemma {:induction false} LastIsActivity(run: seq<State>, i: nat, id: nat) returns (t: nat)
    requires IsRun(run) && i < |run| && id < |run[i].conns| && run[i].conns[id].owner.Udp?
    ensures t < i && run[i].conns[id].last == run[t].clock
    ensures CreatedAt(run, t, id) || TouchedAt(run, t, run[i].conns[id].owner.loop, id)
  {
    hide Inv, Apply, Enabled, TouchedAt;
    var step := StepAt(run, i - 1);
    if id >= |run[i - 1].conns| {
      CreatedNow(run[i - 1], step, id);
      t := i - 1;
    } else {
      EveryRun(run, i - 1);
      InvParts(run[i - 1]);
      OwnersStay(run[i - 1], step);
      var l := run[i].conns[id].owner.loop;
      TouchStep(run[i - 1], step, l, id);
      if TouchedAt(run, i - 1, l, id) {
        TouchedNow(run, i - 1, l, id);
        t := i - 1;
      } else {
        NotTouched(run, i - 1, step, l, id);
        t := LastIsActivity(run, i - 1, id);
      }
    }
  }
}
