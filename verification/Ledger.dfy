/** A record of what the node opens and closes, part by part. */
module Ledger {
  import opened Prelude

  datatype Part = Core | Admin | Multicast | Monitor | Socks | Netstack

  /** `Dropped`: the node forgot the part without closing it. */
  datatype Event = Opened(part: Part, id: nat) | Stopped(part: Part, id: nat) | Dropped(part: Part, id: nat)

  function Trace(log: seq<Event>, p: Part): seq<Event> {
    if log == [] then []
    else
      var last := log[|log| - 1];
      Trace(log[..|log| - 1], p) + (if last.part == p then [last] else [])
  }

  /** A part's history: openings each answered by one closing of the same instance, then perhaps the
      instance in use. */
  predicate Paired(trace: seq<Event>, current: Option<nat>) {
    var n := |trace|;
    match current
    case Some(id) => n > 0 && trace[n - 1].Opened? && trace[n - 1].id == id && Paired(trace[..n - 1], None)
    case None =>
      n == 0 || (n > 1 && !trace[n - 1].Opened? && trace[n - 2].Opened? && trace[n - 1].id == trace[n - 2].id
                 && Paired(trace[..n - 2], None))
  }

  /** Instances are numbered in the order of their opening, from below `next`. */
  predicate Numbered(log: seq<Event>, next: nat) {
    && (forall i :: 0 <= i < |log| ==> log[i].id < next)
    && (forall i, j :: 0 <= i < j < |log| && log[i].Opened? && log[j].Opened? ==> log[i].id < log[j].id)
  }

  lemma TraceAppend(log: seq<Event>, e: Event, p: Part)
    ensures Trace(log + [e], p) == Trace(log, p) + (if e.part == p then [e] else [])
  {
    assert (log + [e])[..|log|] == log;
  }

  lemma OpenPairs(log: seq<Event>, p: Part, id: nat, next: nat)
    requires Paired(Trace(log, p), None) && Numbered(log, next) && next <= id
    ensures Paired(Trace(log + [Opened(p, id)], p), Some(id))
    ensures Numbered(log + [Opened(p, id)], id + 1)
  {
    TraceAppend(log, Opened(p, id), p);
    assert (Trace(log, p) + [Opened(p, id)])[..|Trace(log, p)|] == Trace(log, p);
  }

  lemma ClosePairs(log: seq<Event>, e: Event, next: nat)
    requires !e.Opened? && Paired(Trace(log, e.part), Some(e.id)) && Numbered(log, next)
    ensures Paired(Trace(log + [e], e.part), None)
    ensures Numbered(log + [e], next)
  {
    var t := Trace(log, e.part);
    TraceAppend(log, e, e.part);
    assert (t + [e])[..|t| - 1] == t[..|t| - 1];
    TraceMember(log, e.part, |t| - 1);
  }

  lemma {:induction false} TraceMember(log: seq<Event>, p: Part, k: nat)
    requires k < |Trace(log, p)|
    ensures Trace(log, p)[k] in log && Trace(log, p)[k].part == p
  {
    var n := |log| - 1;
    if k < |Trace(log[..n], p)| {
      TraceMember(log[..n], p, k);
    }
  }

  function Openings(log: seq<Event>, p: Part, id: nat): nat {
    if log == [] then 0 else Openings(log[..|log| - 1], p, id) + (if log[|log| - 1] == Opened(p, id) then 1 else 0)
  }

  function Closings(log: seq<Event>, p: Part, id: nat): nat {
    if log == [] then 0
    else
      var e := log[|log| - 1];
      Closings(log[..|log| - 1], p, id) + (if !e.Opened? && e.part == p && e.id == id then 1 else 0)
  }

  lemma {:induction false} CountInTrace(log: seq<Event>, p: Part, id: nat)
    ensures Openings(log, p, id) == Openings(Trace(log, p), p, id)
    ensures Closings(log, p, id) == Closings(Trace(log, p), p, id)
  {
    if log != [] {
      var n := |log| - 1;
      CountInTrace(log[..n], p, id);
      var t := Trace(log[..n], p);
      assert (t + [log[n]])[..|t|] == t;
      assert Trace(log, p) == if log[n].part == p then t + [log[n]] else t;
    }
  }

  lemma {:induction false} CountPaired(trace: seq<Event>, p: Part, current: Option<nat>, id: nat)
    requires Paired(trace, current) && forall k :: 0 <= k < |trace| ==> trace[k].part == p
    ensures Openings(trace, p, id) == Closings(trace, p, id) + (if current == Some(id) then 1 else 0)
    decreases |trace|
  {
    var n := |trace|;
    if current.Some? {
      CountPaired(trace[..n - 1], p, None, id);
    } else if n > 0 {
      CountPaired(trace[..n - 2], p, None, id);
      assert trace[..n - 1][..n - 2] == trace[..n - 2];
    }
  }

  lemma {:induction false} OpenedOnce(log: seq<Event>, p: Part, id: nat, next: nat)
    requires Numbered(log, next)
    ensures Openings(log, p, id) <= 1
    ensures Openings(log, p, id) == 1 <==> Opened(p, id) in log
  {
    if log != [] {
      var n := |log| - 1;
      OpenedOnce(log[..n], p, id, next);
      assert log[n].Opened? ==> forall i :: 0 <= i < n && log[..n][i].Opened? ==> log[i].id < log[n].id;
      assert log == log[..n] + [log[n]];
    }
  }

  /** What a paired and numbered record means: an instance was closed exactly once if it was opened and
      is not in use, and not at all otherwise. */
  lemma ClosedExactlyOnce(log: seq<Event>, p: Part, current: Option<nat>, next: nat, id: nat)
    requires Paired(Trace(log, p), current) && Numbered(log, next)
    ensures Closings(log, p, id) == if Opened(p, id) in log && current != Some(id) then 1 else 0
  {
    CountInTrace(log, p, id);
    forall k | 0 <= k < |Trace(log, p)| ensures Trace(log, p)[k].part == p {
      TraceMember(log, p, k);
    }
    CountPaired(Trace(log, p), p, current, id);
    OpenedOnce(log, p, id, next);
  }

  // ---------- Keeping the record ----------

  datatype Book = Book(log: seq<Event>, next: nat)

  /** The book is in order for part `p`, of which `current` is in use. */
  predicate Keeps(b: Book, p: Part, current: Option<nat>) {
    Paired(Trace(b.log, p), current) && Numbered(b.log, b.next)
  }

  /** The parts dropped so far, in order. */
  function Drops(log: seq<Event>): seq<Event> {
    if log == [] then []
    else Drops(log[..|log| - 1]) + (if log[|log| - 1].Dropped? then [log[|log| - 1]] else [])
  }

  function Close(b: Book, p: Part, current: Option<nat>): Book {
    if current.Some? then b.(log := b.log + [Stopped(p, current.value)]) else b
  }

  function Drop(b: Book, p: Part, current: Option<nat>): Book {
    if current.Some? then b.(log := b.log + [Event.Dropped(p, current.value)]) else b
  }

  /** A new instance takes the place of the current one, if there is one. */
  function Replace(b: Book, p: Part, current: Option<nat>): Book {
    var b' := Drop(b, p, current);
    Book(b'.log + [Opened(p, b'.next)], b'.next + 1)
  }

  function Forgotten(p: Part, current: Option<nat>): seq<Event> {
    if current.Some? then [Dropped(p, current.value)] else []
  }

  lemma AppendKeepsOthers(b: Book, e: Event, next: nat, q: Part, f: Option<nat>)
    requires Keeps(b, q, f) && q != e.part && b.next <= next && e.id < next && (e.Opened? ==> b.next <= e.id)
    ensures Keeps(Book(b.log + [e], next), q, f)
  {
    TraceAppend(b.log, e, q);
    assert Trace(b.log, q) + [] == Trace(b.log, q);
  }

  lemma DropsAppend(log: seq<Event>, e: Event)
    ensures Drops(log + [e]) == Drops(log) + (if e.Dropped? then [e] else [])
  {
    assert (log + [e])[..|log|] == log;
  }

  lemma CloseKeeps(b: Book, p: Part, current: Option<nat>)
    requires Keeps(b, p, current)
    ensures Keeps(Close(b, p, current), p, None)
    ensures forall q, f :: q != p && Keeps(b, q, f) ==> Keeps(Close(b, p, current), q, f)
    ensures Drops(Close(b, p, current).log) == Drops(b.log)
  {
    if current.Some? {
      EndKeeps(b, Stopped(p, current.value));
    }
  }

  lemma DropKeeps(b: Book, p: Part, current: Option<nat>)
    requires Keeps(b, p, current)
    ensures Keeps(Drop(b, p, current), p, None)
    ensures forall q, f :: q != p && Keeps(b, q, f) ==> Keeps(Drop(b, p, current), q, f)
    ensures Drops(Drop(b, p, current).log) == Drops(b.log) + Forgotten(p, current)
    ensures Drop(b, p, current).next == b.next
  {
    if current.Some? {
      EndKeeps(b, Event.Dropped(p, current.value));
    }
  }

  lemma EndKeeps(b: Book, e: Event)
    requires !e.Opened? && Keeps(b, e.part, Some(e.id))
    ensures var b' := b.(log := b.log + [e]);
            && Keeps(b', e.part, None)
            && (forall q, f :: q != e.part && Keeps(b, q, f) ==> Keeps(b', q, f))
            && Drops(b'.log) == Drops(b.log) + (if e.Dropped? then [e] else [])
  {
    var b' := b.(log := b.log + [e]);
    ClosePairs(b.log, e, b.next);
    DropsAppend(b.log, e);
    TraceMember(b.log, e.part, |Trace(b.log, e.part)| - 1);
    forall q, f | q != e.part && Keeps(b, q, f) ensures Keeps(b', q, f) {
      AppendKeepsOthers(b, e, b.next, q, f);
    }
  }

  lemma ReplaceKeeps(b: Book, p: Part, current: Option<nat>)
    requires Keeps(b, p, current)
    ensures Keeps(Replace(b, p, current), p, Some(b.next))
    ensures forall q, f :: q != p && Keeps(b, q, f) ==> Keeps(Replace(b, p, current), q, f)
    ensures Drops(Replace(b, p, current).log) == Drops(b.log) + Forgotten(p, current)
    ensures Replace(b, p, current).next == b.next + 1
  {
    DropKeeps(b, p, current);
    var b1, e := Drop(b, p, current), Opened(p, b.next);
    OpenPairs(b1.log, p, b.next, b.next);
    DropsAppend(b1.log, e);
    forall q, f | q != p && Keeps(b, q, f) ensures Keeps(Replace(b, p, current), q, f) {
      AppendKeepsOthers(b1, e, b.next + 1, q, f);
    }
  }

  function Stops(log: seq<Event>, p: Part, id: nat): nat {
    if log == [] then 0 else Stops(log[..|log| - 1], p, id) + (if log[|log| - 1] == Stopped(p, id) then 1 else 0)
  }

  lemma {:induction false} StopsAreClosings(log: seq<Event>, p: Part, id: nat)
    requires forall e :: e in Drops(log) ==> e.part != p
    ensures Stops(log, p, id) == Closings(log, p, id)
  {
    if log != [] {
      var n := |log| - 1;
      assert forall e :: e in Drops(log[..n]) ==> e in Drops(log);
      StopsAreClosings(log[..n], p, id);
      assert log[n].Dropped? ==> log[n] in Drops(log);
    }
  }

  /** For a part never dropped: stopped exactly once if opened and not in use, else not at all. */
  lemma StoppedExactlyOnce(b: Book, p: Part, current: Option<nat>, id: nat)
    requires Keeps(b, p, current) && forall e :: e in Drops(b.log) ==> e.part != p
    ensures Stops(b.log, p, id) == if Opened(p, id) in b.log && current != Some(id) then 1 else 0
  {
    ClosedExactlyOnce(b.log, p, current, b.next, id);
    StopsAreClosings(b.log, p, id);
  }
}
