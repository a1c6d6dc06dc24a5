/** UDP sessions that nothing closes (mod/mapping/udp.go:66-180). When a packet loop and its sweeper have
    ended, each of their sessions should be closed and the activity counter should be back. This module
    says for which sessions that fails. */
module Orphans {
  import opened Prelude
  import opened ActivityProtocol

  predicate Ended(s: State, l: nat) {
    l < |s.loops| && s.loops[l].pc.Stopped? && s.loops[l].sweep.Finished?
  }

  /** An open session whose packet loop and sweeper have both ended. */
  predicate Orphan(s: State, id: nat) {
    HasPhase(s, id, Open) && s.conns[id].owner.Udp? && Ended(s, s.conns[id].owner.loop)
  }

  /** The sweeper has taken its last snapshot, on cancellation. */
  predicate LastPass(sweep: SweepPc) {
    sweep.Finished? || ((sweep.Checking? || sweep.Evicting?) && sweep.final)
  }

  function Entries(sweep: SweepPc): seq<Entry> {
    if sweep.Checking? || sweep.Evicting? || sweep.Removing? then sweep.entries else []
  }

  predicate Maps(lp: Loop, key: string, id: nat) { key in lp.data && lp.data[key] == id }

  // ---------- The two ways to miss a session, and the one way to close it all the same ----------

  /** The sweeper removes the key of session `id`, still open, in the name of an older session. */
  predicate Unmaps(s: State, step: Step, id: nat) {
    LosesSession(s, step) && s.loops[step.l].data[s.loops[step.l].sweep.entries[0].key] == id
  }

  /** The packet loop stores session `id` after the sweeper's last snapshot. */
  predicate StoresLate(s: State, step: Step, id: nat) {
    && step.InLoop? && step.act.Store? && step.l < |s.loops|
    && s.loops[step.l].pc.Storing? && s.loops[step.l].pc.id == id && LastPass(s.loops[step.l].sweep)
  }

  predicate Misses(s: State, step: Step, id: nat) { Unmaps(s, step, id) || StoresLate(s, step, id) }

  /** A write to session `id` fails, so the packet loop closes it. */
  predicate FailsWrite(s: State, step: Step, id: nat) {
    && step.InLoop? && step.act.WriteFail? && step.l < |s.loops|
    && s.loops[step.l].pc.Writing? && s.loops[step.l].pc.id == id
  }

  ghost predicate Takes(run: seq<State>, j: nat, step: Step) {
    j + 1 < |run| && Enabled(run[j], step) && run[j + 1] == Apply(run[j], step)
  }

  ghost predicate MissedAt(run: seq<State>, j: nat, id: nat) {
    exists step :: Takes(run, j, step) && Misses(run[j], step, id)
  }

  ghost predicate WriteFailedAt(run: seq<State>, j: nat, id: nat) {
    exists step :: Takes(run, j, step) && FailsWrite(run[j], step, id)
  }

  ghost predicate Missed(run: seq<State>, i: nat, id: nat) {
    exists j: nat :: j < i && MissedAt(run, j, id)
  }

  ghost predicate WriteFailed(run: seq<State>, i: nat, id: nat) {
    exists j: nat :: j < i && WriteFailedAt(run, j, id)
  }

  lemma StepAt(run: seq<State>, j: nat) returns (step: Step)
    requires IsRun(run) && j + 1 < |run|
    ensures Takes(run, j, step)
  {
    hide Enabled, Apply;
    assert Next(run[j], run[j + 1]);
    step :| Enabled(run[j], step) && run[j + 1] == Apply(run[j], step);
  }

  // ---------- A step away from a session's own loop ----------

  predicate IsSession(s: State, id: nat) {
    id < |s.conns| && s.conns[id].owner.Udp? && s.conns[id].owner.loop < |s.loops|
  }

  predicate AtHome(s: State, step: Step, id: nat)
    requires IsSession(s, id)
  {
    (step.InLoop? || step.InSweep?) && step.l == s.conns[id].owner.loop
  }

  predicate ClosesOn(p: Phase, q: Phase) {
    p == q || (p.Claimed? && (q.Reported? || q.Closed?)) || (p.Reported? && q.Closed?)
  }

  /** Then its loop is left alone, and at most its close goes on. */
  lemma Elsewhere(s: State, step: Step, id: nat)
    requires LoopsOk(s) && ReportsMatch(s) && Enabled(s, step) && IsSession(s, id) && !AtHome(s, step, id)
    ensures var s' := Apply(s, step);
            && IsSession(s', id) && s'.conns[id].owner == s.conns[id].owner
            && s'.loops[s.conns[id].owner.loop] == s.loops[s.conns[id].owner.loop]
            && ClosesOn(s.conns[id].phase, s'.conns[id].phase)
  {
    hide Apply, Enabled, LoopsOk;
    OtherLoops(s, step, s.conns[id].owner.loop);
    OwnersStay(s, step);
    ConnsAfter(s, step);
    if Moves(s, step).Some? {
      MovesAreLegal(s, step);
      MovesOwn(s, step);
    } else if |Apply(s, step).conns| > |s.conns| {
      assert Apply(s, step).conns[id] == Apply(s, step).conns[..|s.conns|][id];
    }
  }

  /** A loop or sweeper moves no session but its own; other steps open no session and begin no close. */
  lemma MovesOwn(s: State, step: Step)
    requires LoopsOk(s) && Enabled(s, step) && Moves(s, step).Some?
    ensures var (id, p) := Moves(s, step).value;
            id < |s.conns| && s.conns[id].owner.Udp? ==>
              if step.InLoop? || step.InSweep? then s.conns[id].owner.loop == step.l
              else (p.Reported? || p.Closed?)
  {
    if step.InLoop? || step.InSweep? {
      assert LoopOk(s.tracked, s.conns, step.l, s.loops[step.l]);
    }
  }

  // ---------- What a step of the packet loop does ----------

  /** The loop's map and where it comes from and goes to, as far as stores and closes are concerned. */
  predicate LoopMoves(s: State, l: nat, act: LoopAct, lp: Loop, lp': Loop) {
    var pc, pc' := lp.pc, lp'.pc;
    && lp'.sweep == lp.sweep
    && (match act
        case Store => pc.Storing? && lp'.data == lp.data[pc.key := pc.id] && !pc'.Closing? && !pc'.Storing?
        case Delete => pc.Deleting? && lp'.data == lp.data - {pc.key} && pc' == Reading
        case DialOk => pc.Dialing? && lp'.data == lp.data
                       && pc' == if s.tracked then Counting(pc.key, |s.conns|) else Storing(pc.key, |s.conns|)
        case Count => pc.Counting? && lp'.data == lp.data && pc' == Storing(pc.key, pc.id)
        case WriteFail => pc.Writing? && lp'.data == lp.data && pc' == Closing(pc.key, pc.id)
        case CloseBegin => pc.Closing? && HasPhase(s, pc.id, Open) && lp' == lp
        case CloseReturn => pc.Closing? && HasPhase(s, pc.id, Closed) && lp'.data == lp.data && pc'.Deleting?
        case _ => lp'.data == lp.data && !pc.Storing? && !pc.Counting? && !pc.Closing?
                  && !pc'.Storing? && !pc'.Closing?)
  }

  lemma LoopEffect(s: State, l: nat, act: LoopAct)
    requires Enabled(s, InLoop(l, act))
    ensures var s' := Apply(s, InLoop(l, act));
            l < |s.loops| == |s'.loops| && LoopMoves(s, l, act, s.loops[l], s'.loops[l])
  {}

  /** A session changes phase in its loop only by being counted or claimed. */
  lemma PhaseInLoop(s: State, l: nat, act: LoopAct, id: nat)
    requires Enabled(s, InLoop(l, act)) && id < |s.conns|
    ensures var s' := Apply(s, InLoop(l, act));
            && |s.conns| <= |s'.conns| && s'.conns[id].owner == s.conns[id].owner
            && s'.conns[id].phase == if act.Count? && s.loops[l].pc.id == id then Open
                                     else if act.CloseBegin? && s.loops[l].pc.id == id then Claimed
                                     else s.conns[id].phase
  {}

  // ---------- A session that has not been missed is closed in the end ----------

  /** A session while it is open: about to be stored, or mapped and the last pass still to come, or in
      the entries of the last pass. */
  predicate Covered(s: State, id: nat) {
    id < |s.conns| && s.conns[id].owner.Udp? && s.conns[id].phase.Open? ==>
      var o := s.conns[id].owner;
      o.loop < |s.loops| && CoveredBy(s.loops[o.loop], o.source, id)
  }

  predicate CoveredBy(lp: Loop, key: string, id: nat) {
    || lp.pc == Storing(key, id)
    || (if LastPass(lp.sweep) then Entry(key, id) in Entries(lp.sweep) else Maps(lp, key, id))
  }

  lemma StoringCovers(lp: Loop, key: string, id: nat)
    requires lp.pc == Storing(key, id)
    ensures CoveredBy(lp, key, id)
  {}

  lemma CoveredInLoop(s: State, l: nat, act: LoopAct, id: nat)
    requires LoopsOk(s) && Enabled(s, InLoop(l, act)) && IsSession(s, id) && s.conns[id].owner.loop == l
    requires s.conns[id].phase.Open? && Covered(s, id) && !StoresLate(s, InLoop(l, act), id)
    ensures Covered(Apply(s, InLoop(l, act)), id)
  {
    hide Apply, Enabled;
    assert LoopOk(s.tracked, s.conns, l, s.loops[l]);
    LoopEffect(s, l, act);
    PhaseInLoop(s, l, act, id);
  }

  /** In the last pass an entry leaves the sweeper's list only once its session is closed. */
  lemma CoveredInLastPass(s: State, l: nat, act: SweepAct, id: nat, e: Entry)
    requires Enabled(s, InSweep(l, act)) && LastPass(s.loops[l].sweep)
    requires HasPhase(s, id, Open) && e.id == id && e in Entries(s.loops[l].sweep)
    ensures var lp' := Apply(s, InSweep(l, act)).loops[l];
            LastPass(lp'.sweep) && e in Entries(lp'.sweep)
  {
    var entries := s.loops[l].sweep.entries;
    assert entries == [entries[0]] + entries[1..];
  }

  lemma CoveredBeforeLastPass(s: State, l: nat, act: SweepAct, id: nat, key: string)
    requires Enabled(s, InSweep(l, act)) && !LastPass(s.loops[l].sweep) && Maps(s.loops[l], key, id)
    requires LoopOk(s.tracked, s.conns, l, s.loops[l]) && HasPhase(s, id, Open)
    requires !Unmaps(s, InSweep(l, act), id)
    ensures var lp' := Apply(s, InSweep(l, act)).loops[l];
            if LastPass(lp'.sweep) then Entry(key, id) in Entries(lp'.sweep) else Maps(lp', key, id)
  {
    hide DataOk, PcOk;
  }

  lemma CoveredInSweep(s: State, l: nat, act: SweepAct, id: nat)
    requires l < |s.loops| && LoopsOk(s) && Enabled(s, InSweep(l, act)) && IsSession(s, id)
    requires s.conns[id].owner.loop == l && Covered(s, id) && !Misses(s, InSweep(l, act), id) && s.conns[id].phase.Open?
    ensures Covered(Apply(s, InSweep(l, act)), id)
  {
    hide Apply, Enabled, LoopOk, Unmaps, StoresLate;
    var lp, key := s.loops[l], s.conns[id].owner.source;
    assert LoopOk(s.tracked, s.conns, l, lp);
    OwnersStay(s, InSweep(l, act));
    EntriesAfter(s, l, act);
    LastPassLasts(s, l, act);
    if lp.pc != Storing(key, id) {
      if LastPass(lp.sweep) {
        CoveredInLastPass(s, l, act, id, Entry(key, id));
      } else {
        CoveredBeforeLastPass(s, l, act, id, key);
      }
    }
  }

  lemma CoveredStep(s: State, step: Step, id: nat)
    requires LoopsOk(s) && ReportsMatch(s) && Enabled(s, step) && Covered(s, id) && !Misses(s, step, id)
    requires LoopsOk(Apply(s, step))
    ensures Covered(Apply(s, step), id)
  {
    hide Apply, Enabled, LoopsOk, ReportsMatch, Unmaps, StoresLate, CoveredBy;
    var s' := Apply(s, step);
    if id < |s'.conns| && s'.conns[id].owner.Udp? && s'.conns[id].phase.Open? {
      if id >= |s.conns| || !s.conns[id].phase.Open? {
        OpenedIsStoring(s, step, id);
        assert s'.loops[s'.conns[id].owner.loop].pc == Storing(s'.conns[id].owner.source, id);
        StoringCovers(s'.loops[s'.conns[id].owner.loop], s'.conns[id].owner.source, id);
      } else {
        OwnersStay(s, step);
        if !AtHome(s, step, id) { Elsewhere(s, step, id); }
        else if step.InLoop? { CoveredInLoop(s, step.l, step.act, id); }
        else { CoveredInSweep(s, step.l, step.sact, id); }
      }
    }
  }

  lemma {:induction false} CoveredUnlessMissed(run: seq<State>, i: nat, id: nat)
    requires IsRun(run) && i < |run|
    ensures Covered(run[i], id) || Missed(run, i, id)
  {
    hide Inv, Apply, Enabled, Covered, Misses;
    if i > 0 {
      CoveredUnlessMissed(run, i - 1, id);
      EveryRun(run, i - 1);
      EveryRun(run, i);
      InvParts(run[i - 1]);
      InvParts(run[i]);
      var step := StepAt(run, i - 1);
      if Misses(run[i - 1], step, id) {
        assert MissedAt(run, i - 1, id);
      } else if Covered(run[i - 1], id) {
        CoveredStep(run[i - 1], step, id);
      }
    } else {
      NothingYet(run[0].tracked, run[0].timeout, id);
    }
  }

  lemma NothingYet(tracked: bool, timeout: int, id: nat)
    ensures Covered(Init(tracked, timeout), id)
  {}

  lemma InvParts(s: State)
    requires Inv(s)
    ensures LoopsOk(s) && ReportsMatch(s)
  {}

  // ---------- A failed write closes a session before its loop ends ----------

  predicate Doomed(s: State, id: nat) {
    && IsSession(s, id) && !s.conns[id].phase.Announced?
    && (s.conns[id].phase.Open? ==>
          s.loops[s.conns[id].owner.loop].pc == Closing(s.conns[id].owner.source, id))
  }

  lemma WriteFailDooms(s: State, step: Step, id: nat)
    requires LoopsOk(s) && Enabled(s, step) && FailsWrite(s, step, id)
    ensures Doomed(Apply(s, step), id)
  {
    assert LoopOk(s.tracked, s.conns, step.l, s.loops[step.l]);
  }

  lemma DoomedInLoop(s: State, l: nat, act: LoopAct, id: nat)
    requires Enabled(s, InLoop(l, act)) && LoopsOk(s) && Doomed(s, id) && s.conns[id].owner.loop == l
    ensures Doomed(Apply(s, InLoop(l, act)), id)
  {
    hide Apply, Enabled;
    assert LoopOk(s.tracked, s.conns, l, s.loops[l]);
    LoopEffect(s, l, act);
    PhaseInLoop(s, l, act, id);
  }

  lemma DoomedInSweep(s: State, l: nat, act: SweepAct, id: nat)
    requires Enabled(s, InSweep(l, act)) && Doomed(s, id) && s.conns[id].owner.loop == l
    ensures Doomed(Apply(s, InSweep(l, act)), id)
  {}

  lemma DoomedStep(s: State, step: Step, id: nat)
    requires LoopsOk(s) && ReportsMatch(s) && Enabled(s, step) && Doomed(s, id)
    ensures Doomed(Apply(s, step), id)
  {
    hide Apply, Enabled, LoopsOk, ReportsMatch;
    if !AtHome(s, step, id) { Elsewhere(s, step, id); }
    else if step.InLoop? { DoomedInLoop(s, step.l, step.act, id); }
    else { DoomedInSweep(s, step.l, step.sact, id); }
  }

  lemma {:induction false} DoomedLater(run: seq<State>, j: nat, i: nat, id: nat)
    requires IsRun(run) && j <= i < |run| && Doomed(run[j], id)
    ensures Doomed(run[i], id)
  {
    hide Inv, Apply, Enabled, Doomed;
    if j < i {
      DoomedLater(run, j, i - 1, id);
      EveryRun(run, i - 1);
      InvParts(run[i - 1]);
      var step := StepAt(run, i - 1);
      DoomedStep(run[i - 1], step, id);
    }
  }

  // ---------- What the sweeper's entries are ----------

  /** No key twice, and never a session that is not stored yet; such a session is open. */
  predicate ListOk(conns: seq<Conn>, lp: Loop) {
    var entries := Entries(lp.sweep);
    && (forall i, j :: 0 <= i < j < |entries| ==> entries[i].key != entries[j].key)
    && (lp.pc.Counting? || lp.pc.Storing? ==> forall i :: 0 <= i < |entries| ==> entries[i].id != lp.pc.id)
    && (lp.pc.Storing? ==> lp.pc.id < |conns| && conns[lp.pc.id].phase.Open?)
  }

  ghost predicate ListsOk(s: State) { forall l :: 0 <= l < |s.loops| ==> ListOk(s.conns, s.loops[l]) }

  lemma ListInLoop(s: State, l: nat, act: LoopAct)
    requires LoopsOk(s) && Enabled(s, InLoop(l, act)) && ListOk(s.conns, s.loops[l])
    ensures ListOk(Apply(s, InLoop(l, act)).conns, Apply(s, InLoop(l, act)).loops[l])
  {
    assert LoopOk(s.tracked, s.conns, l, s.loops[l]);
  }

  /** A snapshot is taken, dropped at the end, or loses its head. */
  lemma EntriesAfter(s: State, l: nat, act: SweepAct)
    requires Enabled(s, InSweep(l, act))
    ensures var before, after := Entries(s.loops[l].sweep), Entries(Apply(s, InSweep(l, act)).loops[l].sweep);
            if act.Tick? || act.CancelPass? then after == act.entries && IsSnapshot(after, s.loops[l].data)
            else after == before || after == [] || (before != [] && after == before[1..])
    ensures Apply(s, InSweep(l, act)).loops[l].pc == s.loops[l].pc
  {}

  lemma SnapshotKeys(entries: seq<Entry>, data: map<string, nat>)
    requires IsSnapshot(entries, data)
    ensures forall i :: 0 <= i < |entries| ==> entries[i].key in data && data[entries[i].key] == entries[i].id
    ensures forall i, j :: 0 <= i < j < |entries| ==> entries[i].key != entries[j].key
  {
    forall i | 0 <= i < |entries| ensures entries[i].key in data && data[entries[i].key] == entries[i].id {
      assert entries[i] in entries;
    }
  }

  /** The sweeper begins the close of no session but the head of its entries. */
  lemma SweepCloses(s: State, l: nat, act: SweepAct, id: nat)
    requires Enabled(s, InSweep(l, act)) && id < |s.conns|
    requires forall i :: 0 <= i < |Entries(s.loops[l].sweep)| ==> Entries(s.loops[l].sweep)[i].id != id
    ensures |Apply(s, InSweep(l, act)).conns| == |s.conns| && Apply(s, InSweep(l, act)).conns[id] == s.conns[id]
  {
    var entries := Entries(s.loops[l].sweep);
    assert entries != [] ==> entries[0].id != id;
  }

  lemma ListInSweep(s: State, l: nat, act: SweepAct)
    requires l < |s.loops| && LoopsOk(s) && Enabled(s, InSweep(l, act)) && ListOk(s.conns, s.loops[l])
    ensures ListOk(Apply(s, InSweep(l, act)).conns, Apply(s, InSweep(l, act)).loops[l])
  {
    hide Apply, Enabled, IsSnapshot;
    var s', lp := Apply(s, InSweep(l, act)), s.loops[l];
    assert LoopOk(s.tracked, s.conns, l, lp);
    EntriesAfter(s, l, act);
    OwnersStay(s, InSweep(l, act));
    if lp.pc.Storing? {
      SweepCloses(s, l, act, lp.pc.id);
    }
    if act.Tick? || act.CancelPass? {
      SnapshotKeys(act.entries, lp.data);
    }
  }

  lemma ListElsewhere(s: State, step: Step, l: nat)
    requires LoopsOk(s) && ReportsMatch(s) && Enabled(s, step) && l < |s.loops| && ListOk(s.conns, s.loops[l])
    requires !((step.InLoop? || step.InSweep?) && step.l == l)
    ensures l < |Apply(s, step).loops| && ListOk(Apply(s, step).conns, Apply(s, step).loops[l])
  {
    hide Apply, Enabled, ReportsMatch;
    OtherLoops(s, step, l);
    var lp := s.loops[l];
    if lp.pc.Storing? {
      assert LoopOk(s.tracked, s.conns, l, lp);
      Elsewhere(s, step, lp.pc.id);
    }
  }

  lemma ListStep(s: State, step: Step)
    requires LoopsOk(s) && ReportsMatch(s) && ListsOk(s) && Enabled(s, step)
    ensures ListsOk(Apply(s, step))
  {
    hide Apply, Enabled, LoopsOk, ReportsMatch, ListOk;
    var s' := Apply(s, step);
    NewLoop(s, step);
    forall l | 0 <= l < |s'.loops| ensures ListOk(s'.conns, s'.loops[l]) {
      if l >= |s.loops| { FreshListOk(s'.conns); }
      else if step.InLoop? && step.l == l { ListInLoop(s, l, step.act); }
      else if step.InSweep? && step.l == l { ListInSweep(s, l, step.sact); }
      else { ListElsewhere(s, step, l); }
    }
  }

  lemma FreshListOk(conns: seq<Conn>)
    ensures ListOk(conns, Loop(map[], Reading, Waiting))
  {}

  lemma {:induction false} ListsOnRuns(run: seq<State>, i: nat)
    requires IsRun(run) && i < |run|
    ensures ListsOk(run[i])
  {
    hide Inv, Apply, Enabled, ListOk;
    if i > 0 {
      ListsOnRuns(run, i - 1);
      EveryRun(run, i - 1);
      InvParts(run[i - 1]);
      var step := StepAt(run, i - 1);
      ListStep(run[i - 1], step);
    }
  }

  // ---------- A missed session stays open unless a write to it fails ----------

  /** Open, not being closed by the loop, not in the sweeper's entries, and never to be. */
  predicate Abandoned(s: State, id: nat) {
    && IsSession(s, id) && s.conns[id].phase.Open?
    && AbandonedBy(s.loops[s.conns[id].owner.loop], s.conns[id].owner.source, id)
  }

  predicate AbandonedBy(lp: Loop, key: string, id: nat) {
    && !((lp.pc.Storing? || lp.pc.Closing?) && lp.pc.id == id)
    && (forall i :: 0 <= i < |Entries(lp.sweep)| ==> Entries(lp.sweep)[i].id != id)
    && (LastPass(lp.sweep) || !Maps(lp, key, id))
  }

  predicate NotClosing(s: State, id: nat) {
    forall l :: 0 <= l < |s.loops| ==> !(s.loops[l].pc.Closing? && s.loops[l].pc.id == id)
  }

  lemma UnmapsAbandons(s: State, step: Step, id: nat)
    requires LoopsOk(s) && ListsOk(s) && Enabled(s, step) && Unmaps(s, step, id) && NotClosing(s, id)
    ensures Abandoned(Apply(s, step), id)
  {
    var lp := s.loops[step.l];
    assert LoopOk(s.tracked, s.conns, step.l, lp) && ListOk(s.conns, lp);
    var rest := lp.sweep.entries[1..];
    forall i | 0 <= i < |rest| ensures rest[i].id != id {
      assert rest[i] == lp.sweep.entries[i + 1];
      assert Session(s.conns, step.l, rest[i].key, rest[i].id);
    }
  }

  lemma StoresLateAbandons(s: State, step: Step, id: nat)
    requires LoopsOk(s) && ListsOk(s) && Enabled(s, step) && StoresLate(s, step, id)
    ensures Abandoned(Apply(s, step), id)
  {
    assert LoopOk(s.tracked, s.conns, step.l, s.loops[step.l]) && ListOk(s.conns, s.loops[step.l]);
  }

  lemma AbandonedInLoop(s: State, l: nat, act: LoopAct, id: nat)
    requires LoopsOk(s) && Enabled(s, InLoop(l, act)) && Abandoned(s, id) && s.conns[id].owner.loop == l
    requires !FailsWrite(s, InLoop(l, act), id)
    ensures Abandoned(Apply(s, InLoop(l, act)), id)
  {
    hide Apply, Enabled;
    assert LoopOk(s.tracked, s.conns, l, s.loops[l]);
    LoopEffect(s, l, act);
    PhaseInLoop(s, l, act, id);
  }

  lemma AbandonedInSweep(s: State, l: nat, act: SweepAct, id: nat)
    requires LoopsOk(s) && Enabled(s, InSweep(l, act)) && Abandoned(s, id) && s.conns[id].owner.loop == l
    ensures Abandoned(Apply(s, InSweep(l, act)), id)
  {
    hide Apply, Enabled, IsSnapshot;
    var lp := s.loops[l];
    assert LoopOk(s.tracked, s.conns, l, lp);
    EntriesAfter(s, l, act);
    SweepCloses(s, l, act, id);
    LastPassLasts(s, l, act);
    if act.Tick? || act.CancelPass? {
      SnapshotKeys(act.entries, lp.data);
      forall i | 0 <= i < |act.entries| ensures act.entries[i].id != id {
        assert Session(s.conns, l, act.entries[i].key, act.entries[i].id);
      }
    }
  }

  /** The sweeper never takes a snapshot after its last, and only removes keys from the map. */
  lemma LastPassLasts(s: State, l: nat, act: SweepAct)
    requires Enabled(s, InSweep(l, act))
    ensures var lp, lp' := s.loops[l], Apply(s, InSweep(l, act)).loops[l];
            && |Apply(s, InSweep(l, act)).loops| == |s.loops|
            && (LastPass(lp.sweep) ==> LastPass(lp'.sweep) && !act.Tick? && !act.CancelPass?)
            && (forall k :: k in lp'.data ==> k in lp.data && lp'.data[k] == lp.data[k])
  {}

  lemma AbandonedStep(s: State, step: Step, id: nat)
    requires LoopsOk(s) && ReportsMatch(s) && Enabled(s, step) && Abandoned(s, id) && !FailsWrite(s, step, id)
    ensures Abandoned(Apply(s, step), id)
  {
    hide Apply, Enabled, LoopsOk, ReportsMatch, FailsWrite, AbandonedBy;
    if !AtHome(s, step, id) { Elsewhere(s, step, id); }
    else if step.InLoop? { AbandonedInLoop(s, step.l, step.act, id); }
    else { AbandonedInSweep(s, step.l, step.sact, id); }
  }

  lemma NotClosingStep(s: State, step: Step, id: nat)
    requires Enabled(s, step) && NotClosing(s, id) && !FailsWrite(s, step, id)
    ensures NotClosing(Apply(s, step), id)
  {
    hide Apply, Enabled;
    var s' := Apply(s, step);
    NewLoop(s, step);
    forall l | 0 <= l < |s'.loops| ensures !(s'.loops[l].pc.Closing? && s'.loops[l].pc.id == id) {
      if l < |s.loops| {
        if step.InLoop? && step.l == l { LoopEffect(s, l, step.act); }
        else if step.InSweep? && step.l == l { EntriesAfter(s, l, step.sact); }
        else { OtherLoops(s, step, l); }
      }
    }
  }

  lemma {:induction false} NotClosingYet(run: seq<State>, i: nat, id: nat)
    requires IsRun(run) && i < |run| && !WriteFailed(run, i, id)
    ensures NotClosing(run[i], id)
  {
    hide Apply, Enabled, FailsWrite;
    if i > 0 {
      NotClosingYet(run, i - 1, id);
      var step := StepAt(run, i - 1);
      assert !WriteFailedAt(run, i - 1, id);
      NotClosingStep(run[i - 1], step, id);
    }
  }

  lemma {:induction false} AbandonedLater(run: seq<State>, j: nat, i: nat, id: nat)
    requires IsRun(run) && j <= i < |run| && Abandoned(run[j], id) && !WriteFailed(run, i, id)
    ensures Abandoned(run[i], id)
  {
    hide Inv, Apply, Enabled, FailsWrite, Abandoned;
    if j < i {
      AbandonedLater(run, j, i - 1, id);
      EveryRun(run, i - 1);
      InvParts(run[i - 1]);
      var step := StepAt(run, i - 1);
      assert !WriteFailedAt(run, i - 1, id);
      AbandonedStep(run[i - 1], step, id);
    }
  }

  lemma MissedIsAbandoned(run: seq<State>, j: nat, i: nat, id: nat)
    requires IsRun(run) && j < i < |run| && MissedAt(run, j, id) && !WriteFailed(run, i, id)
    ensures Abandoned(run[i], id)
  {
    hide Inv, Apply, Enabled, Abandoned, Unmaps, StoresLate;
    var step :| Takes(run, j, step) && Misses(run[j], step, id);
    EveryRun(run, j);
    InvParts(run[j]);
    ListsOnRuns(run, j);
    NotClosingYet(run, j, id);
    if Unmaps(run[j], step, id) {
      UnmapsAbandons(run[j], step, id);
    } else {
      StoresLateAbandons(run[j], step, id);
    }
    AbandonedLater(run, j + 1, i, id);
  }

  // ---------- Main results ----------

  /** When the packet loop and the sweeper of a session have ended, the session is still open exactly if
      it was missed and no write to it ever failed: the sweeper removed its key in the name of an
      older session, or the packet loop stored it after the sweeper's last snapshot. */
  lemma OrphanExactly(run: seq<State>, i: nat, id: nat)
    requires IsRun(run) && i < |run| && id < |run[i].conns| && run[i].conns[id].owner.Udp?
    requires Ended(run[i], run[i].conns[id].owner.loop)
    ensures run[i].conns[id].phase.Open? <==> Missed(run, i, id) && !WriteFailed(run, i, id)
  {
    hide Inv, Apply, Enabled, Misses, FailsWrite;
    if WriteFailed(run, i, id) {
      var j: nat :| j < i && WriteFailedAt(run, j, id);
      var step :| Takes(run, j, step) && FailsWrite(run[j], step, id);
      EveryRun(run, j);
      InvParts(run[j]);
      WriteFailDooms(run[j], step, id);
      DoomedLater(run, j + 1, i, id);
    } else if Missed(run, i, id) {
      var j: nat :| j < i && MissedAt(run, j, id);
      MissedIsAbandoned(run, j, i, id);
    } else {
      CoveredUnlessMissed(run, i, id);
    }
  }

  /** A session in the middle of its opening or close is in the hands of its loop or sweeper. */
  predicate InHand(s: State, id: nat) {
    id < |s.conns| && s.conns[id].owner.Udp? ==>
      && IsSession(s, id)
      && InHandOf(s.loops[s.conns[id].owner.loop], s.conns[id].owner.source, id, s.conns[id].phase)
  }

  predicate InHandOf(lp: Loop, key: string, id: nat, phase: Phase) {
    && (phase.Announced? ==> lp.pc == Counting(key, id))
    && (phase.Claimed? || phase.Reported? ==>
          lp.pc == Closing(key, id) || (lp.sweep.Evicting? && lp.sweep.entries != [] && lp.sweep.entries[0].id == id))
  }

  lemma InHandInLoop(s: State, l: nat, act: LoopAct, id: nat)
    requires LoopsOk(s) && Enabled(s, InLoop(l, act))
    requires IsSession(s, id) && InHand(s, id) && s.conns[id].owner.loop == l
    ensures InHand(Apply(s, InLoop(l, act)), id)
  {
    hide Apply, Enabled;
    assert LoopOk(s.tracked, s.conns, l, s.loops[l]);
    LoopEffect(s, l, act);
    PhaseInLoop(s, l, act, id);
  }

  lemma InHandInSweep(s: State, l: nat, act: SweepAct, id: nat)
    requires Enabled(s, InSweep(l, act)) && IsSession(s, id) && InHand(s, id) && s.conns[id].owner.loop == l
    ensures InHand(Apply(s, InSweep(l, act)), id)
  {}

  lemma InHandFirst(s: State, step: Step, id: nat)
    requires Enabled(s, step) && id >= |s.conns|
    ensures InHand(Apply(s, step), id)
  {}

  lemma InHandStep(s: State, step: Step, id: nat)
    requires LoopsOk(s) && ReportsMatch(s) && Enabled(s, step) && InHand(s, id)
    ensures InHand(Apply(s, step), id)
  {
    hide Apply, Enabled, LoopsOk, ReportsMatch;
    if id >= |s.conns| {
      InHandFirst(s, step, id);
    } else {
      OwnersStay(s, step);
      if s.conns[id].owner.Udp? {
        if !AtHome(s, step, id) { Elsewhere(s, step, id); }
        else if step.InLoop? { InHandInLoop(s, step.l, step.act, id); }
        else { InHandInSweep(s, step.l, step.sact, id); }
      }
    }
  }

  lemma {:induction false} InHandOnRuns(run: seq<State>, i: nat, id: nat)
    requires IsRun(run) && i < |run|
    ensures InHand(run[i], id)
  {
    hide Inv, Apply, Enabled, InHandOf;
    if i > 0 {
      InHandOnRuns(run, i - 1, id);
      EveryRun(run, i - 1);
      InvParts(run[i - 1]);
      var step := StepAt(run, i - 1);
      InHandStep(run[i - 1], step, id);
    }
  }

  /** The sessions that nothing closes. */
  ghost function Leaked(run: seq<State>, i: nat): set<nat>
    requires i < |run|
  {
    set id: nat | id < |run[i].conns| && run[i].conns[id].owner.Udp? && Missed(run, i, id) && !WriteFailed(run, i, id)
  }

  /** When every packet loop and sweeper has ended and every TCP and SOCKS connection is closed, the
      activity counter is the number of missed sessions: it is back at zero exactly if there are none. */
  lemma CounterAtEnd(run: seq<State>, i: nat)
    requires IsRun(run) && i < |run| && run[i].tracked
    requires forall l :: 0 <= l < |run[i].loops| ==> Ended(run[i], l)
    requires forall id :: 0 <= id < |run[i].conns| && run[i].conns[id].owner.Stream? ==> run[i].conns[id].phase.Closed?
    ensures run[i].counter == |Leaked(run, i)|
    ensures run[i].counter == 0 <==> Leaked(run, i) == {}
  {
    hide Missed, WriteFailed, IsRun, Inv;
    CounterConserved(run, i);
    var live := InPhase(run[i].conns, {Open, Claimed, Reported});
    forall id: nat | id < |run[i].conns| ensures id in live <==> id in Leaked(run, i) {
      if run[i].conns[id].owner.Udp? {
        InHandOnRuns(run, i, id);
        OrphanExactly(run, i, id);
      }
    }
    assert live == Leaked(run, i);
  }
}
