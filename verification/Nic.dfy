/** The outbound path of the network interface (src/netstack/yggdrasil.go): `WritePackets` and
    `Close`, each run without interference on the state of the RST queue protocol. */
module Nic {
  import opened RstQueue

  /** `dataSize` is the payload size; the flags come from the network and transport headers. */
  datatype Packet = Packet(id: Pkt, dataSize: nat, isTcp: bool, rstFlag: bool) {
    predicate IsBareRst() { dataSize == 0 && isTcp && rstFlag }
  }

  /** How `writePacket` ends. A panic is recovered, and its caller then sees no error. */
  datatype WriteOutcome = Written | Recovered | Aborted

  // ---------- Reference ----------

  function Rsts(list: seq<Packet>): seq<Pkt> {
    if list == [] then []
    else
      var last := list[|list| - 1];
      Rsts(list[..|list| - 1]) + (if last.IsBareRst() then [last.id] else [])
  }

  /** The other packets of `list` that `writePacket` put on the wire. */
  function Wire(list: seq<Packet>, outcomes: seq<WriteOutcome>): seq<Pkt>
    requires |list| <= |outcomes|
  {
    if list == [] then []
    else
      var n := |list| - 1;
      Wire(list[..n], outcomes) + (if !list[n].IsBareRst() && outcomes[n].Written? then [list[n].id] else [])
  }

  /** Position of the packet whose write aborts, or the length of the list. */
  function StopsAt(list: seq<Packet>, outcomes: seq<WriteOutcome>, from: nat): (n: nat)
    requires from <= |list| <= |outcomes|
    ensures from <= n <= |list|
    decreases |list| - from
  {
    if from == |list| || (!list[from].IsBareRst() && outcomes[from].Aborted?) then from
    else StopsAt(list, outcomes, from + 1)
  }

  /** `ids` are those of the packets of `list` at the positions `ks`, which ascend. */
  predicate Picks(ids: seq<Pkt>, list: seq<Packet>, ks: seq<nat>) {
    && |ids| == |ks|
    && (forall i :: 0 <= i < |ks| ==> ks[i] < |list| && ids[i] == list[ks[i]].id)
    && (forall i, j :: 0 <= i < j < |ks| ==> ks[i] < ks[j])
  }

  lemma PickMore(ids: seq<Pkt>, list: seq<Packet>, ks: seq<nat>)
    requires list != [] && Picks(ids, list[..|list| - 1], ks)
    ensures Picks(ids, list, ks)
    ensures Picks(ids + [list[|list| - 1].id], list, ks + [|list| - 1])
  {}

  function SetOf(ks: seq<nat>): set<nat> {
    set k | k in ks
  }

  lemma SetOfMore(ks: seq<nat>, n: nat)
    ensures SetOf(ks + [n]) == SetOf(ks) + {n}
  {}

  /** Positions of the packets that are TCP, without data and with the RST flag. */
  function PutOff(list: seq<Packet>): set<nat> {
    set k: nat | k < |list| && list[k].dataSize == 0 && list[k].isTcp && list[k].rstFlag
  }

  lemma PutOffMore(list: seq<Packet>)
    requires list != []
    ensures var n := |list| - 1; PutOff(list) == PutOff(list[..n]) + (if list[n].IsBareRst() then {n} else {})
  {
    var n := |list| - 1;
    forall k: nat | k < n ensures k in PutOff(list) <==> k in PutOff(list[..n]) {
      assert list[..n][k] == list[k];
    }
  }

  lemma NothingPutOff(list: seq<Packet>)
    requires list == []
    ensures Picks(Rsts(list), list, []) && SetOf([]) == PutOff(list)
  {}

  lemma RstsMore(list: seq<Packet>)
    requires list != []
    ensures var n, rsts := |list| - 1, Rsts(list[..|list| - 1]);
            Rsts(list) == if list[n].IsBareRst() then rsts + [list[n].id] else rsts
  {}

  /** The RSTs of a list are its packets that are put off, in order. */
  lemma {:induction false} RstsExactly(list: seq<Packet>) returns (ks: seq<nat>)
    ensures Picks(Rsts(list), list, ks) && SetOf(ks) == PutOff(list)
  {
    hide Picks, PutOff, SetOf, Rsts;
    ks := [];
    if list == [] {
      NothingPutOff(list);
    } else {
      var n := |list| - 1;
      ks := RstsExactly(list[..n]);
      PickMore(Rsts(list[..n]), list, ks);
      PutOffMore(list);
      RstsMore(list);
      SetOfMore(ks, n);
      if list[n].IsBareRst() { ks := ks + [n]; }
    }
  }

  /** Positions of the other packets whose write worked. */
  function Sent(list: seq<Packet>, outcomes: seq<WriteOutcome>): set<nat>
    requires |list| <= |outcomes|
  {
    set k: nat | k < |list| && k !in PutOff(list) && outcomes[k].Written?
  }

  lemma SentMore(list: seq<Packet>, outcomes: seq<WriteOutcome>)
    requires list != [] && |list| <= |outcomes|
    ensures Sent(list, outcomes)
         == Sent(list[..|list| - 1], outcomes)
            + (if !list[|list| - 1].IsBareRst() && outcomes[|list| - 1].Written? then {|list| - 1} else {})
  {
    var n := |list| - 1;
    forall k: nat | k < n ensures k in Sent(list, outcomes) <==> k in Sent(list[..n], outcomes) {
      assert list[..n][k] == list[k];
    }
  }

  lemma NothingSent(list: seq<Packet>, outcomes: seq<WriteOutcome>)
    requires list == []
    ensures Picks(Wire(list, outcomes), list, []) && SetOf([]) == Sent(list, outcomes)
  {}

  lemma WireMore(list: seq<Packet>, outcomes: seq<WriteOutcome>)
    requires list != [] && |list| <= |outcomes|
    ensures var n, wire := |list| - 1, Wire(list[..|list| - 1], outcomes);
            Wire(list, outcomes) == if !list[n].IsBareRst() && outcomes[n].Written? then wire + [list[n].id] else wire
  {}

  /** The packets on the wire are those, in order. */
  lemma {:induction false} WireExactly(list: seq<Packet>, outcomes: seq<WriteOutcome>) returns (ks: seq<nat>)
    requires |list| <= |outcomes|
    ensures Picks(Wire(list, outcomes), list, ks) && SetOf(ks) == Sent(list, outcomes)
  {
    hide Picks, Sent, SetOf, Wire;
    ks := [];
    if list == [] {
      NothingSent(list, outcomes);
    } else {
      var n := |list| - 1;
      ks := WireExactly(list[..n], outcomes);
      PickMore(Wire(list[..n], outcomes), list, ks);
      SentMore(list, outcomes);
      WireMore(list, outcomes);
      SetOfMore(ks, n);
      if !list[n].IsBareRst() && outcomes[n].Written? { ks := ks + [n]; }
    }
  }

  /** A batch stops at its first packet that is written at once and whose write aborts. */
  lemma {:induction false} StopsAtFirstAbort(list: seq<Packet>, outcomes: seq<WriteOutcome>, from: nat)
    requires from <= |list| <= |outcomes|
    ensures var n := StopsAt(list, outcomes, from);
            && (n < |list| ==> outcomes[n].Aborted? && !(list[n].dataSize == 0 && list[n].isTcp && list[n].rstFlag))
            && (forall k :: from <= k < n && outcomes[k].Aborted? ==>
                  list[k].dataSize == 0 && list[k].isTcp && list[k].rstFlag)
    decreases |list| - from
  {
    if from < |list| && StopsAt(list, outcomes, from) != from {
      StopsAtFirstAbort(list, outcomes, from + 1);
    }
  }

  // ---------- Protocol paths that one goroutine takes without interference ----------

  /** A writer with a bare RST: it takes a reference, then queues the packet or gives it back. */
  function Defer(s: State, p: Pkt): (s': State)
    ensures Inv(s) ==> Inv(s')
  {
    StepKeepsInv'(s, IncRef(p));
    var s1 := Apply(s, IncRef(p));
    if |s1.queue| < CAPACITY then
      StepKeepsInv'(s1, Enqueue(p));
      Apply(s1, Enqueue(p))
    else
      StepKeepsInv'(s1, Refuse(p));
      var s2 := Apply(s1, Refuse(p));
      StepKeepsInv'(s2, DropRef(p));
      Apply(s2, DropRef(p))
  }

  /** The sender with a packet in the queue. */
  function Send(s: State): (s': State)
    requires s.sender.Selecting? && s.queue != []
    ensures Inv(s) ==> Inv(s')
  {
    StepKeepsInv'(s, Receive);
    var s1 := Apply(s, Receive);
    StepKeepsInv'(s1, Write);
    var s2 := Apply(s1, Write);
    StepKeepsInv'(s2, Release);
    Apply(s2, Release)
  }

  /** The draining sender with a packet in the queue. */
  function Discard(s: State): (s': State)
    requires s.sender.Draining? && s.queue != []
    ensures Inv(s) ==> Inv(s')
  {
    StepKeepsInv'(s, DrainOne);
    var s1 := Apply(s, DrainOne);
    StepKeepsInv'(s1, DrainRelease);
    Apply(s1, DrainRelease)
  }

  lemma StepKeepsInv'(s: State, step: Step)
    requires Enabled(s, step)
    ensures Inv(s) ==> Inv(Apply(s, step))
  {
    if Inv(s) { StepKeepsInv(s, step); }
  }

  function DeferAll(s: State, rsts: seq<Pkt>): (s': State)
    ensures Inv(s) ==> Inv(s')
  {
    if rsts == [] then s else Defer(DeferAll(s, rsts[..|rsts| - 1]), rsts[|rsts| - 1])
  }

  lemma DeferShape(s: State, p: Pkt)
    ensures Defer(s, p) == s.(taken := s.taken + multiset{p},
                              queue := Defer(s, p).queue, enqueued := Defer(s, p).enqueued,
                              released := Defer(s, p).released)
    ensures |s.queue| < CAPACITY ==>
              && Defer(s, p).queue == s.queue + [p] && Defer(s, p).enqueued == s.enqueued + [p]
              && Defer(s, p).released == s.released
    ensures |s.queue| >= CAPACITY ==>
              && Defer(s, p).queue == s.queue && Defer(s, p).enqueued == s.enqueued
              && Defer(s, p).released == s.released + multiset{p}
  {
    assert s.offered + multiset{p} - multiset{p} == s.offered;
    assert s.refused + multiset{p} - multiset{p} == s.refused;
  }

  /** The RSTs of a batch that get a slot, given the length of the queue before it. */
  function Slots(length: nat, rsts: seq<Pkt>): nat {
    if length >= CAPACITY then 0 else if |rsts| < CAPACITY - length then |rsts| else CAPACITY - length
  }

  /** `s'` is `s` after a batch of RSTs: the first ones are queued in order while there is room, the
      others dropped with their reference given back, and nothing else changes. */
  ghost predicate IsAfterBatch(s: State, s': State, rsts: seq<Pkt>) {
    var k := Slots(|s.queue|, rsts);
    && k <= |rsts|
    && s'.queue == s.queue + rsts[..k] && s'.enqueued == s.enqueued + rsts[..k]
    && s'.taken == s.taken + multiset(rsts)
    && s'.released == s.released + multiset(rsts[k..])
    && s' == s.(queue := s'.queue, enqueued := s'.enqueued, taken := s'.taken, released := s'.released)
  }

  lemma BatchGrows(s: State, s1: State, before: seq<Pkt>, p: Pkt)
    requires |s.queue| <= CAPACITY && IsAfterBatch(s, s1, before)
    ensures IsAfterBatch(s, Defer(s1, p), before + [p])
  {
    hide Defer, Inv;
    DeferShape(s1, p);
    SlotsGrow(|s.queue|, before, p);
    var rsts := before + [p];
    if |s1.queue| < CAPACITY {
      assert s.queue + rsts[..Slots(|s.queue|, rsts)] == s1.queue + [p];
    }
  }

  lemma {:induction false} DeferAllShape(s: State, rsts: seq<Pkt>)
    requires |s.queue| <= CAPACITY
    ensures IsAfterBatch(s, DeferAll(s, rsts), rsts)
  {
    if rsts == [] {
      NoSlots(|s.queue|);
    } else {
      hide Defer, Inv, IsAfterBatch;
      var n := |rsts| - 1;
      assert rsts == rsts[..n] + [rsts[n]];
      DeferAllShape(s, rsts[..n]);
      BatchGrows(s, DeferAll(s, rsts[..n]), rsts[..n], rsts[n]);
    }
  }

  lemma NoSlots(length: nat)
    ensures Slots(length, []) == 0
  {}

  lemma SlotsGrow(length: nat, before: seq<Pkt>, p: Pkt)
    ensures var rsts := before + [p];
            var j, k := Slots(length, before), Slots(length, rsts);
            && j <= |before| && k <= |rsts|
            && multiset(rsts) == multiset(before) + multiset{p}
            && if length + j < CAPACITY then rsts[..k] == before[..j] + [p] && rsts[k..] == before[j..] == []
               else rsts[..k] == before[..j] && multiset(rsts[k..]) == multiset(before[j..]) + multiset{p}
  {
    var rsts := before + [p];
    var j, k := Slots(length, before), Slots(length, rsts);
    if length + j >= CAPACITY {
      assert rsts[k..] == before[j..] + [p];
    }
  }

  lemma NothingYet(list: seq<Packet>, outcomes: seq<WriteOutcome>, s: State)
    requires |list| <= |outcomes|
    ensures Wire(list[..0], outcomes) == [] && DeferAll(s, Rsts(list[..0])) == s
  {}

  /** What one more packet adds to the two reference lists. */
  lemma OneMore(list: seq<Packet>, outcomes: seq<WriteOutcome>, n: nat, s: State)
    requires n < |list| <= |outcomes|
    ensures var p, wire, rsts := list[n], Wire(list[..n], outcomes), Rsts(list[..n]);
            && Wire(list[..n + 1], outcomes) == wire + (if !p.IsBareRst() && outcomes[n].Written? then [p.id] else [])
            && DeferAll(s, Rsts(list[..n + 1])) == if p.IsBareRst() then Defer(DeferAll(s, rsts), p.id) else DeferAll(s, rsts)
  {
    hide Defer;
    var rsts := Rsts(list[..n]);
    assert list[..n + 1][..n] == list[..n];
    assert (rsts + [list[n].id])[..|rsts|] == rsts;
    assert rsts + [] == rsts;
  }

  class YggdrasilNic {
    var chan: State
    var wire: seq<Pkt>   // packets put on the wire by WritePackets
    var closed: bool     // closeOnce

    ghost predicate Valid()
      reads this
    {
      Inv(chan) && (chan.done <==> closed)
    }

    constructor ()
      ensures Valid() && chan == INIT && wire == [] && !closed
    {
      chan, wire, closed := INIT, [], false;
    }

    /** The processed prefix splits into packets on the wire in order, RSTs queued in order up to the
        free room, and RSTs dropped with their reference given back (`DeferAllShape`). The count
        returned is that of the whole list, or the position of the first packet whose write aborts. */
    method WritePackets(list: seq<Packet>, outcomes: seq<WriteOutcome>) returns (n: nat, failed: bool)
      requires Valid() && |outcomes| == |list|
      modifies this`chan, this`wire
      ensures Valid()
      ensures n == StopsAt(list, outcomes, 0) && (failed <==> n < |list|)
      ensures wire == old(wire) + Wire(list[..n], outcomes)
      ensures chan == DeferAll(old(chan), Rsts(list[..n]))
    {
      hide Inv, Defer, DeferAll, Rsts, Wire;
      n, failed := 0, false;
      NothingYet(list, outcomes, chan);
      while n < |list|
        invariant n <= |list| && !failed
        invariant Inv(chan) && chan.done == old(chan.done)
        invariant StopsAt(list, outcomes, 0) == StopsAt(list, outcomes, n)
        invariant wire == old(wire) + Wire(list[..n], outcomes)
        invariant chan == DeferAll(old(chan), Rsts(list[..n]))
      {
        OneMore(list, outcomes, n, old(chan));
        if list[n].IsBareRst() {
          DeferShape(chan, list[n].id);
          chan := Defer(chan, list[n].id);
        } else {
          if outcomes[n].Aborted? {
            failed := true;
            return;
          }
          if outcomes[n].Written? {
            wire := wire + [list[n].id];
          }
        }
        n := n + 1;
      }
      assert list[..n] == list;
    }

    /** With no call of `WritePackets` under way and the sender at its select: `Close` signals it and
        returns when it has exited. It may still send some of the queue before it sees the signal;
        it discards the rest, in order. Later calls do nothing. */
    method Close()
      requires Valid() && chan.offered == chan.refused == multiset{}
      requires if closed then chan.sender.Exited? else chan.sender.Selecting?
      modifies this`chan, this`closed
      ensures Valid() && closed && chan.sender.Exited?
      ensures old(closed) ==> chan == old(chan)
      ensures !old(closed) ==>
                && chan.queue == []
                && (exists k :: 0 <= k <= |old(chan.queue)|
                      && chan.sent == old(chan.sent) + old(chan.queue)[..k]
                      && chan.discarded == old(chan.discarded) + old(chan.queue)[k..])
                && chan.taken == chan.released
    {
      if closed { return; }
      closed := true;
      StepKeepsInv(chan, CloseDone);
      chan := Apply(chan, CloseDone);
      ghost var all := chan.queue;
      ghost var k := SendSome(all);
      StepKeepsInv(chan, SeeDone);
      chan := Apply(chan, SeeDone);
      DrainAll(all[k..]);
      StepKeepsInv(chan, DrainEnd);
      chan := Apply(chan, DrainEnd);
      forall p ensures chan.taken[p] == chan.released[p] {
        assert Balanced(chan, p);
      }
    }

    /** The sender's select with the close signal up: either ready case may be chosen. */
    method SendSome(ghost all: seq<Pkt>) returns (ghost k: nat)
      requires Inv(chan) && chan.sender.Selecting? && chan.queue == all
      modifies this`chan
      ensures Inv(chan) && k <= |all|
      ensures chan == old(chan).(queue := all[k..], sent := old(chan.sent) + all[..k], released := chan.released)
    {
      hide Inv;
      k := 0;
      while true
        invariant Inv(chan) && k <= |all|
        invariant chan == old(chan).(queue := all[k..], sent := old(chan.sent) + all[..k], released := chan.released)
        decreases |all| - k
      {
        var seesDone: bool := *;
        if seesDone || chan.queue == [] { break; }
        assert all[..k + 1] == all[..k] + [all[k]];
        chan := Send(chan);
        k := k + 1;
      }
    }

    method DrainAll(ghost all: seq<Pkt>)
      requires Inv(chan) && chan.sender.Draining? && chan.queue == all
      modifies this`chan
      ensures Inv(chan)
      ensures chan == old(chan).(queue := [], discarded := old(chan.discarded) + all, released := chan.released)
    {
      hide Inv;
      ghost var d := 0;
      while chan.queue != []
        invariant Inv(chan) && d <= |all|
        invariant chan == old(chan).(queue := all[d..], discarded := old(chan.discarded) + all[..d],
                                     released := chan.released)
        decreases |all| - d
      {
        assert all[..d + 1] == all[..d] + [all[d]];
        chan := Discard(chan);
        d := d + 1;
      }
      assert all[..d] == all;
    }
  }
}
