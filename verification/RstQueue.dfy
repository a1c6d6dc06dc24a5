/** The deferred-RST queue of the network interface (src/netstack/yggdrasil.go) as a protocol: any
    number of writers, one sender goroutine, a channel of 100 slots and a close signal, interleaved
    at every channel operation and every change of a reference count. */
module RstQueue {

  const CAPACITY := 100

  type Pkt = nat

  /** Where the sender goroutine is. `Sending` holds a packet received from its select, `Discarding`
      one received while draining. */
  datatype Sender = Selecting | Sending(pkt: Pkt) | Sent(pkt: Pkt) | Draining | Discarding(pkt: Pkt) | Exited

  /** `offered`: references taken by writers that are at their select; `refused`: those whose select
      found the channel full. The last five fields are history. */
  datatype State = State(
    queue: seq<Pkt>,
    sender: Sender,
    done: bool,
    offered: multiset<Pkt>,
    refused: multiset<Pkt>,
    taken: multiset<Pkt>,
    released: multiset<Pkt>,
    enqueued: seq<Pkt>,
    sent: seq<Pkt>,
    discarded: seq<Pkt>)

  const INIT := State([], Selecting, false, multiset{}, multiset{}, multiset{}, multiset{}, [], [], [])

  datatype Step =
    | IncRef(pkt: Pkt)
    | Enqueue(pkt: Pkt)
    | Refuse(pkt: Pkt)
    | DropRef(pkt: Pkt)
    | CloseDone
    | Receive
    | Write
    | Release
    | SeeDone
    | DrainOne
    | DrainRelease
    | DrainEnd

  predicate Enabled(s: State, step: Step) {
    match step
    case IncRef(_) => true
    case Enqueue(p) => p in s.offered && |s.queue| < CAPACITY
    case Refuse(p) => p in s.offered && |s.queue| >= CAPACITY
    case DropRef(p) => p in s.refused
    case CloseDone => !s.done
    case Receive => s.sender.Selecting? && s.queue != []
    case Write => s.sender.Sending?
    case Release => s.sender.Sent?
    case SeeDone => s.sender.Selecting? && s.done
    case DrainOne => s.sender.Draining? && s.queue != []
    case DrainRelease => s.sender.Discarding?
    case DrainEnd => s.sender.Draining? && s.queue == []
  }

  function Apply(s: State, step: Step): State
    requires Enabled(s, step)
  {
    match step
    case IncRef(p) => s.(taken := s.taken + multiset{p}, offered := s.offered + multiset{p})
    case Enqueue(p) => s.(offered := s.offered - multiset{p}, queue := s.queue + [p], enqueued := s.enqueued + [p])
    case Refuse(p) => s.(offered := s.offered - multiset{p}, refused := s.refused + multiset{p})
    case DropRef(p) => s.(refused := s.refused - multiset{p}, released := s.released + multiset{p})
    case CloseDone => s.(done := true)
    case Receive => s.(queue := s.queue[1..], sender := Sending(s.queue[0]))
    case Write => s.(sender := Sent(s.sender.pkt), sent := s.sent + [s.sender.pkt])
    case Release => s.(sender := Selecting, released := s.released + multiset{s.sender.pkt})
    case SeeDone => s.(sender := Draining)
    case DrainOne => s.(queue := s.queue[1..], sender := Discarding(s.queue[0]))
    case DrainRelease =>
      s.(sender := Draining, released := s.released + multiset{s.sender.pkt}, discarded := s.discarded + [s.sender.pkt])
    case DrainEnd => s.(sender := Exited)
  }

  ghost predicate Next(s: State, s': State) {
    exists step :: Enabled(s, step) && s' == Apply(s, step)
  }

  ghost predicate IsRun(run: seq<State>) {
    run != [] && run[0] == INIT && forall i :: 0 <= i < |run| - 1 ==> Next(run[i], run[i + 1])
  }

  // ---------- What every run keeps ----------

  /** The packet whose reference the sender holds. */
  function Held(s: State): multiset<Pkt> {
    if s.sender.Sending? || s.sender.Sent? || s.sender.Discarding? then multiset{s.sender.pkt} else multiset{}
  }

  /** References taken for the queue and not given back. */
  function Outstanding(s: State): multiset<Pkt> {
    multiset(s.queue) + Held(s)
  }

  /** Every reference taken is in one place: given back once, or with a writer, the queue or the sender. */
  ghost predicate Conserved(s: State) {
    (forall p :: Balanced(s, p)) && |s.queue| <= CAPACITY
  }

  predicate Balanced(s: State, p: Pkt) {
    s.taken[p] == s.released[p] + Outstanding(s)[p] + s.offered[p] + s.refused[p]
  }

  /** Packets received by the sender, in order: first those it wrote, then those it discarded. */
  function Received(s: State): seq<Pkt> {
    s.sent + (if s.sender.Sending? then [s.sender.pkt] else [])
    + s.discarded + (if s.sender.Discarding? then [s.sender.pkt] else [])
  }

  ghost predicate Fifo(s: State) {
    && s.enqueued == Received(s) + s.queue
    && (s.discarded != [] ==> s.sender.Draining? || s.sender.Discarding? || s.sender.Exited?)
    && (s.sender.Draining? || s.sender.Discarding? || s.sender.Exited? ==> s.done)
  }

  ghost predicate Inv(s: State) { Conserved(s) && Fifo(s) }

  predicate AtFullChannel(step: Step) { step.Refuse? || step.DropRef? }

  predicate TakesFromQueue(step: Step) { step.Receive? || step.DrainOne? }

  lemma EnqueueBalances(s: State, step: Step, p: Pkt)
    requires Balanced(s, p) && Enabled(s, step) && step.Enqueue?
    ensures Balanced(Apply(s, step), p)
  {
    assert multiset(s.queue + [step.pkt]) == multiset(s.queue) + multiset{step.pkt};
  }

  lemma RefuseBalances(s: State, step: Step, p: Pkt)
    requires Balanced(s, p) && Enabled(s, step) && AtFullChannel(step)
    ensures Balanced(Apply(s, step), p)
  {}

  lemma TakeBalances(s: State, step: Step, p: Pkt)
    requires Balanced(s, p) && Enabled(s, step) && TakesFromQueue(step)
    ensures Balanced(Apply(s, step), p)
  {
    assert s.queue == [s.queue[0]] + s.queue[1..];
    assert multiset(s.queue)[p] == multiset{s.queue[0]}[p] + multiset(s.queue[1..])[p];
  }

  lemma OtherStepBalances(s: State, step: Step, p: Pkt)
    requires Balanced(s, p) && Enabled(s, step) && !step.Enqueue? && !AtFullChannel(step) && !TakesFromQueue(step)
    ensures Balanced(Apply(s, step), p)
  {}

  lemma TakeKeepsOrder(s: State, step: Step)
    requires Fifo(s) && Enabled(s, step) && TakesFromQueue(step)
    ensures Fifo(Apply(s, step))
  {
    assert s.queue == [s.queue[0]] + s.queue[1..];
    assert Received(Apply(s, step)) == Received(s) + [s.queue[0]];
  }

  lemma StepKeepsOrder(s: State, step: Step)
    requires Fifo(s) && Enabled(s, step)
    ensures Fifo(Apply(s, step))
  {
    if TakesFromQueue(step) {
      TakeKeepsOrder(s, step);
    } else {
      assert Received(Apply(s, step)) == Received(s);
    }
  }

  lemma StepKeepsInv(s: State, step: Step)
    requires Inv(s) && Enabled(s, step)
    ensures Inv(Apply(s, step))
  {
    StepKeepsOrder(s, step);
    forall p ensures Balanced(Apply(s, step), p) {
      if step.Enqueue? { EnqueueBalances(s, step, p); }
      else if AtFullChannel(step) { RefuseBalances(s, step, p); }
      else if TakesFromQueue(step) { TakeBalances(s, step, p); }
      else { OtherStepBalances(s, step, p); }
    }
  }

  /** In every interleaving: references are conserved, at most 101 are out through the queue and the
      sender, and packets leave the queue in the order they entered it. */
  lemma {:induction false} EveryRun(run: seq<State>, i: nat)
    requires IsRun(run) && i < |run|
    ensures Inv(run[i]) && |Outstanding(run[i])| <= CAPACITY + 1
  {
    if i > 0 {
      EveryRun(run, i - 1);
      assert Next(run[i - 1], run[i]);
      var step :| Enabled(run[i - 1], step) && run[i] == Apply(run[i - 1], step);
      StepKeepsInv(run[i - 1], step);
    }
  }

  /** A writer at its select can always go on: it queues its packet if there is room, else gives it up. */
  lemma OfferDecided(run: seq<State>, i: nat, p: Pkt)
    requires IsRun(run) && i < |run| && p in run[i].offered
    ensures Enabled(run[i], Enqueue(p)) <==> |run[i].queue| < CAPACITY
    ensures Enabled(run[i], Refuse(p)) <==> |run[i].queue| == CAPACITY
  {
    EveryRun(run, i);
  }

  /** The sender, until it has ended, waits only at its select, with no packet in the queue and no close
      signal. */
  lemma SenderGoesOn(run: seq<State>, i: nat)
    requires IsRun(run) && i < |run| && !run[i].sender.Exited?
    ensures run[i].queue != [] || run[i].done || !run[i].sender.Selecting? <==>
              exists step :: BySender(step) && Enabled(run[i], step)
  {
    hide Inv, Enabled, BySender;
    EveryRun(run, i);
    DrainsWhenDone(run[i]);
    SenderCan(run[i]);
  }

  lemma SenderCan(s: State)
    requires !s.sender.Exited? && (s.sender.Draining? || s.sender.Discarding? ==> s.done)
    ensures s.queue != [] || s.done || !s.sender.Selecting? <==> exists step :: BySender(step) && Enabled(s, step)
  {
    var step :=
      match s.sender
      case Selecting => if s.queue != [] then Receive else SeeDone
      case Sending(_) => Write
      case Sent(_) => Release
      case Draining => if s.queue != [] then DrainOne else DrainEnd
      case _ => DrainRelease;
    assert BySender(step);
  }

  lemma DrainsWhenDone(s: State)
    requires Inv(s)
    ensures s.sender.Draining? || s.sender.Discarding? ==> s.done
  {
    hide Conserved;
  }

  predicate BySender(step: Step) {
    || step.Receive? || step.Write? || step.Release?
    || step.SeeDone? || step.DrainOne? || step.DrainRelease? || step.DrainEnd?
  }

  // ---------- Packets queued too late ----------

  /** The sender finds the queue empty and ends. */
  predicate Exits(s: State, s': State) { !s.sender.Exited? && s'.sender.Exited? }

  lemma ExitStep(s: State, step: Step)
    requires Enabled(s, step) && Exits(s, Apply(s, step))
    ensures s.queue == [] && Apply(s, step).queue == [] && Apply(s, step).enqueued == s.enqueued
  {}

  /** What a late writer puts in the queue stays there: nothing is received after the sender's exit. */
  lemma {:induction false} LateEnqueueStays(run: seq<State>, i: nat, j: nat)
    requires IsRun(run) && i <= j < |run| && run[i].sender.Exited?
    ensures run[j].sender.Exited? && run[i].enqueued <= run[j].enqueued
    ensures run[j].queue == run[i].queue + run[j].enqueued[|run[i].enqueued|..]
    ensures run[j].sent == run[i].sent && run[j].discarded == run[i].discarded
  {
    if i < j {
      LateEnqueueStays(run, i, j - 1);
      assert Next(run[j - 1], run[j]);
    }
  }

  /** The sender ends at step `e`. Whenever no writer is at its select after that, the references not
      given back are those of the packets queued after the exit, so every one has been given back
      exactly if no packet was queued after the exit. */
  lemma AllReleasedExactly(run: seq<State>, e: nat, i: nat)
    requires IsRun(run) && e < i < |run| && Exits(run[e], run[e + 1])
    requires run[i].offered == multiset{} && run[i].refused == multiset{}
    ensures run[e].enqueued <= run[i].enqueued
    ensures run[i].taken == run[i].released + multiset(run[i].enqueued[|run[e].enqueued|..])
    ensures run[i].taken == run[i].released <==> run[i].enqueued == run[e].enqueued
  {
    hide Enabled, Apply, Inv;
    assert Next(run[e], run[e + 1]);
    var step :| Enabled(run[e], step) && run[e + 1] == Apply(run[e], step);
    ExitStep(run[e], step);
    LateEnqueueStays(run, e + 1, i);
    EveryRun(run, i);
    var late := run[i].enqueued[|run[e].enqueued|..];
    assert run[i].queue == late;
    Unreturned(run[i]);
    assert run[i].enqueued == run[e].enqueued + late;
    EmptyOrMore(run[i].released, late);
  }

  lemma Unreturned(s: State)
    requires Inv(s) && s.sender.Exited? && s.offered == multiset{} && s.refused == multiset{}
    ensures s.taken == s.released + multiset(s.queue)
  {
    hide Fifo;
    forall p ensures s.taken[p] == (s.released + multiset(s.queue))[p] {
      assert Balanced(s, p);
    }
  }

  lemma EmptyOrMore(m: multiset<Pkt>, late: seq<Pkt>)
    ensures m + multiset(late) == m <==> late == []
  {
    if late != [] {
      assert late[0] in multiset(late);
      assert (m + multiset(late))[late[0]] > m[late[0]];
    }
  }

  lemma Extend(run: seq<State>, step: Step) returns (longer: seq<State>, s: State)
    requires IsRun(run) && Enabled(run[|run| - 1], step)
    ensures s == Apply(run[|run| - 1], step) && longer == run + [s] && IsRun(longer)
  {
    hide Enabled, Apply;
    s := Apply(run[|run| - 1], step);
    longer := run + [s];
    assert Next(run[|run| - 1], s);
  }

  /** Such a run exists: a writer enqueues after the drain, and its reference is never given back. */
  lemma LateEnqueueHappens(p: Pkt) returns (run: seq<State>)
    ensures IsRun(run)
    ensures var s := run[|run| - 1];
            s.sender.Exited? && s.queue == [p] && s.offered == s.refused == multiset{} && p in s.taken && p !in s.released
  {
    hide IsRun;
    var s := INIT;
    run := InitialRun();
    run, s := Extend(run, CloseDone);
    run, s := Extend(run, SeeDone);
    run, s := Extend(run, DrainEnd);
    run, s := Extend(run, IncRef(p));
    run, s := Extend(run, Enqueue(p));
  }

  lemma InitialRun() returns (run: seq<State>)
    ensures run == [INIT] && IsRun(run)
  {
    run := [INIT];
  }
}
