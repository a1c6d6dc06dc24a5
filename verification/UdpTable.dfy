/** UDP forwarding seen as a table from source address to time of last activity, with expiry: what the
    session map of mod/mapping/udp.go amounts to when a sweep is taken as one step. Times and the
    timeout are in whole milliseconds. */
module ExpiryTable {

  type Table = map<string, int>

  /** One pass of the packet loop for a datagram of `size` bytes from `source`, or one tick of the
      cleanup. `dialOk` is the outcome of a dial, if there is one; `writeOk` that of the write. */
  datatype Event =
    | Datagram(now: int, source: string, size: nat, dialOk: bool, writeOk: bool)
    | Sweep(now: int)

  function After(table: Table, e: Event, timeout: int): Table {
    match e
    case Datagram(now, source, size, dialOk, writeOk) =>
      if size == 0 || (source !in table && !dialOk) then table
      else if writeOk then table[source := now]
      else table - {source}
    case Sweep(now) => map k | k in table && now - table[k] <= timeout :: table[k]
  }

  /** The table after the first `n` events of a run that starts empty. */
  function At(events: seq<Event>, n: nat, timeout: int): Table
    requires n <= |events|
  {
    if n == 0 then map[] else After(At(events, n - 1, timeout), events[n - 1], timeout)
  }

  ghost predicate Ordered(events: seq<Event>) {
    forall i, j :: 0 <= i < j < |events| ==> events[i].now <= events[j].now
  }

  /** Events `i` up to `j` hold no datagram from `source`. */
  ghost predicate Untouched(events: seq<Event>, i: nat, j: nat, source: string)
    requires i <= j <= |events|
  {
    forall m :: i <= m < j ==> !(events[m].Datagram? && events[m].source == source)
  }

  /** Events `i` up to `j` hold no failed write to the session of `source`. */
  ghost predicate NoFailedWrite(events: seq<Event>, i: nat, j: nat, source: string)
    requires i <= j <= |events|
  {
    forall m :: i <= m < j ==>
      !(events[m].Datagram? && events[m].source == source && events[m].size > 0 && !events[m].writeOk)
  }

  // ---------- The table told from the events alone ----------

  /** Event `m` is a datagram from `source` that is written to its session, old or new. */
  ghost predicate DeliveredAt(events: seq<Event>, m: nat, source: string, timeout: int) {
    && m < |events| && events[m].Datagram? && events[m].source == source && events[m].size > 0 && events[m].writeOk
    && (source in At(events, m, timeout) || events[m].dialOk)
  }

  /** Event `k` ends a session of `source` last used at `last`: a write to it fails, or a sweep finds it
      idle for more than the timeout. */
  predicate EndsSession(e: Event, source: string, last: int, timeout: int) {
    match e
    case Datagram(_, src, size, _, writeOk) => src == source && size > 0 && !writeOk
    case Sweep(now) => now - last > timeout
  }

  /** Up to event `n`, the last datagram delivered from `source` was `m`, and nothing has ended its session. */
  ghost predicate LastUse(events: seq<Event>, m: nat, n: nat, source: string, timeout: int)
    requires n <= |events|
  {
    && m < n && DeliveredAt(events, m, source, timeout)
    && forall k :: m < k < n ==>
         !DeliveredAt(events, k, source, timeout) && !EndsSession(events[k], source, events[m].now, timeout)
  }

  /** A source has an entry exactly if its last delivered datagram has not been followed by a failed write or
      by a sweep that came too late, and the entry's time is the time of that datagram. */
  lemma {:induction false} EntryExactly(events: seq<Event>, n: nat, source: string, timeout: int)
    requires n <= |events|
    ensures source in At(events, n, timeout) <==> exists m: nat :: LastUse(events, m, n, source, timeout)
    ensures forall m: nat :: LastUse(events, m, n, source, timeout) ==>
              source in At(events, n, timeout) && At(events, n, timeout)[source] == events[m].now
  {
    if n > 0 {
      EntryExactly(events, n - 1, source, timeout);
      OneMoreUse(events, n, source, timeout);
      EntryAfter(events, n, source, timeout);
    }
  }

  lemma EntryAfter(events: seq<Event>, n: nat, source: string, timeout: int)
    requires 0 < n <= |events|
    ensures var before, after := At(events, n - 1, timeout), At(events, n, timeout);
            && (source in after <==>
                  || DeliveredAt(events, n - 1, source, timeout)
                  || (source in before && !EndsSession(events[n - 1], source, before[source], timeout)))
            && (source in after ==>
                  after[source]
                  == if DeliveredAt(events, n - 1, source, timeout) then events[n - 1].now else before[source])
  {}

  lemma OneMoreUse(events: seq<Event>, n: nat, source: string, timeout: int)
    requires 0 < n <= |events|
    ensures forall m: nat :: LastUse(events, m, n, source, timeout) <==>
              if DeliveredAt(events, n - 1, source, timeout) then m == n - 1
              else
                && LastUse(events, m, n - 1, source, timeout)
                && !EndsSession(events[n - 1], source, events[m].now, timeout)
  {}

  /** No delivered datagram of the source is later than the time of its entry. */
  lemma UsesAreNoLater(events: seq<Event>, m: nat, n: nat, source: string, timeout: int)
    requires Ordered(events) && m < n <= |events| && DeliveredAt(events, m, source, timeout)
    requires source in At(events, n, timeout)
    ensures At(events, n, timeout)[source] >= events[m].now
  {
    EntryExactly(events, n, source, timeout);
    var last :| LastUse(events, last, n, source, timeout);
    assert m <= last;
  }

  /** At event `k`, the source has been heard of within the timeout. */
  ghost predicate HeardWithin(events: seq<Event>, k: nat, source: string, timeout: int)
    requires k < |events|
  {
    exists m :: 0 <= m < k && DeliveredAt(events, m, source, timeout) && events[k].now - events[m].now <= timeout
  }

  /** A busy source keeps its session: if every sweep comes within the timeout after some datagram delivered
      from it, and no write to it fails, no sweep closes it. */
  lemma {:induction false} BusyNeverSwept(events: seq<Event>, i: nat, j: nat, source: string, timeout: int)
    requires Ordered(events) && i <= j <= |events|
    requires source in At(events, i, timeout) && NoFailedWrite(events, i, j, source)
    requires forall k :: i <= k < j && events[k].Sweep? ==> HeardWithin(events, k, source, timeout)
    ensures source in At(events, j, timeout)
  {
    if i < j {
      BusyNeverSwept(events, i, j - 1, source, timeout);
      if events[j - 1].Sweep? {
        var m :| 0 <= m < j - 1 && DeliveredAt(events, m, source, timeout)
                 && events[j - 1].now - events[m].now <= timeout;
        UsesAreNoLater(events, m, j - 1, source, timeout);
      }
    }
  }

  // ---------- Expiry ----------

  /** No session is swept while it has been idle for no more than the timeout: an entry last touched at
      `last` is still there, no older, after every event up to `last + timeout`. */
  lemma {:induction false} NeverSweptEarly(events: seq<Event>, i: nat, j: nat, source: string, timeout: int)
    requires Ordered(events) && i <= j <= |events|
    requires source in At(events, i, timeout)
    requires forall m :: i <= m < j ==> events[m].now >= At(events, i, timeout)[source]
    requires NoFailedWrite(events, i, j, source)
    requires j > i ==> events[j - 1].now <= At(events, i, timeout)[source] + timeout
    ensures source in At(events, j, timeout)
    ensures At(events, j, timeout)[source] >= At(events, i, timeout)[source]
  {
    if i < j {
      if i < j - 1 { assert events[j - 2].now <= events[j - 1].now; }
      NeverSweptEarly(events, i, j - 1, source, timeout);
    }
  }

  /** Without a datagram from it, a source keeps its time of last activity or loses its entry. */
  lemma {:induction false} UntouchedKeepsTime(events: seq<Event>, i: nat, j: nat, source: string, timeout: int)
    requires i <= j <= |events| && Untouched(events, i, j, source)
    requires source in At(events, i, timeout)
    ensures source in At(events, j, timeout) ==>
              At(events, j, timeout)[source] == At(events, i, timeout)[source]
    ensures source !in At(events, j, timeout) ==>
              exists m :: i <= m < j && events[m].Sweep? && events[m].now - At(events, i, timeout)[source] > timeout
  {
    if i < j {
      UntouchedKeepsTime(events, i, j - 1, source, timeout);
      if source in At(events, j - 1, timeout) && source !in At(events, j, timeout) {
        assert events[j - 1].Sweep?;
      }
    }
  }

  /** Sweeps come at most `period` apart up to `horizon`. */
  ghost predicate TicksEvery(events: seq<Event>, period: nat, from: int, horizon: int) {
    forall t :: from <= t <= horizon - period ==> SweepWithin(events, t, period)
  }

  ghost predicate SweepWithin(events: seq<Event>, t: int, period: nat) {
    exists m :: 0 <= m < |events| && events[m].Sweep? && t <= events[m].now <= t + period
  }

  /** If sweeps come at most `period` apart, a session that hears nothing more from its source is closed
      by a sweep no later than `timeout + 1 ms + period` after its last datagram. */
  lemma SweptInTime(events: seq<Event>, i: nat, source: string, timeout: nat, period: nat)
    returns (m: nat)
    requires Ordered(events) && i <= |events|
    requires source in At(events, i, timeout)
    requires i > 0 ==> events[i - 1].now <= At(events, i, timeout)[source] + timeout
    requires Untouched(events, i, |events|, source)
    requires var last := At(events, i, timeout)[source];
             TicksEvery(events, period, last, last + timeout + 1 + period)
    ensures i <= m < |events| && events[m].Sweep?
    ensures events[m].now <= At(events, i, timeout)[source] + timeout + 1 + period
    ensures source !in At(events, m + 1, timeout)
  {
    var last := At(events, i, timeout)[source];
    assert SweepWithin(events, last + timeout + 1, period);
    m :| 0 <= m < |events| && events[m].Sweep? && last + timeout + 1 <= events[m].now <= last + timeout + 1 + period;
    UntouchedKeepsTime(events, i, m, source, timeout);
  }
}

/** The packet loop and the cleanup of mod/mapping/udp.go with the session map of
    mod/mapping/udp_session.go, each datagram and each sweep taken as one step. */
module UdpForwarding {
  import opened ExpiryTable

  class UdpSession {
    const source: string
    var lastActivity: int
    var open: bool   // CloseOnce has not fired

    constructor (source: string, now: int)
      ensures this.source == source && lastActivity == now && open
    {
      this.source, lastActivity, open := source, now, true;
    }
  }

  class UdpLoop {
    const timeout: int
    const tracked: bool                  // an activity callback is set
    var data: map<string, UdpSession>
    var counted: int                     // what this loop contributes to the activity counter
    ghost var created: set<UdpSession>   // every session ever opened

    /** The map holds exactly the open sessions, each under its own source. */
    ghost predicate Valid()
      reads this, created
    {
      && (forall k :: k in data ==> data[k] in created && data[k].open && data[k].source == k)
      && (forall s :: s in created && s.open ==> s.source in data && data[s.source] == s)
      && counted == if tracked then |data| else 0
    }

    ghost function Table(): Table
      reads this, created
      requires Valid()
    {
      map k | k in data :: data[k].lastActivity
    }

    constructor (timeout: int, tracked: bool)
      ensures Valid() && Table() == map[] && created == {}
      ensures this.timeout == timeout && this.tracked == tracked
    {
      this.timeout, this.tracked, data, counted, created := timeout, tracked, map[], 0, {};
    }

    /** `CloseUDPSession`: only the first call has an effect. */
    method CloseSession(s: UdpSession)
      modifies s`open, this`counted
      ensures !s.open
      ensures counted == old(counted) - (if old(s.open) && tracked then 1 else 0)
    {
      if s.open {
        s.open := false;
        if tracked { counted := counted - 1; }
      }
    }

    /** A source without a session, after a successful dial. */
    method OpenSession(source: string, now: int) returns (session: UdpSession)
      requires Valid() && source !in data
      modifies this`data, this`counted, this`created
      ensures Valid() && fresh(session) && session.source == source && created == old(created) + {session}
      ensures data == old(data)[source := session]
      ensures Table() == old(Table())[source := now]
    {
      session := new UdpSession(source, now);
      created := created + {session};
      if tracked { counted := counted + 1; }
      data := data[source := session];
    }

    /** Touch the session and write to it; a failed write closes and unmaps it. */
    method Deliver(session: UdpSession, now: int, writeOk: bool)
      requires Valid() && session.source in data && data[session.source] == session
      modifies this`data, this`counted, session
      ensures Valid() && created == old(created)
      ensures session.open <==> writeOk
      ensures Table() == if writeOk then old(Table())[session.source := now] else old(Table()) - {session.source}
    {
      session.lastActivity := now;
      if !writeOk {
        CloseSession(session);
        data := data - {session.source};
      }
    }

    /** One pass of the loop in `runUDPLoop`. `target` is the session written to. */
    method HandleDatagram(source: string, size: nat, now: int, dialOk: bool, writeOk: bool)
      returns (target: UdpSession?)
      requires Valid()
      modifies this`data, this`counted, this`created, created
      ensures Valid() && fresh(created - old(created)) && old(created) <= created
      ensures Table() == After(old(Table()), Datagram(now, source, size, dialOk, writeOk), timeout)
      ensures target == null <==> size == 0 || (source !in old(data) && !dialOk)
      ensures target != null ==> target in created && target.source == source && (target.open <==> writeOk)
      ensures source in old(data) && size > 0 ==> target == old(data[source])
      ensures source !in old(data) && target != null ==> fresh(target)
    {
      target := null;
      if size == 0 { return; }
      if source in data {
        target := data[source];
      } else {
        if !dialOk { return; }
        target := OpenSession(source, now);
      }
      Deliver(target, now, writeOk);
    }

    /** `Range` copies the map under its lock before the callback sees an entry. */
    method Snapshot() returns (keys: seq<string>, vals: seq<UdpSession>)
      ensures |keys| == |vals|
      ensures forall i :: 0 <= i < |keys| ==> keys[i] in data && vals[i] == data[keys[i]]
      ensures forall k :: k in data ==> k in keys
      ensures forall i, j :: 0 <= i < j < |keys| ==> keys[i] != keys[j]
    {
      keys, vals := [], [];
      var rest := data.Keys;
      while rest != {}
        invariant |keys| == |vals| && rest <= data.Keys
        invariant forall i :: 0 <= i < |keys| ==> keys[i] in data && keys[i] !in rest && vals[i] == data[keys[i]]
        invariant forall k :: k in data ==> k in rest || k in keys
        invariant forall i, j :: 0 <= i < j < |keys| ==> keys[i] != keys[j]
        decreases rest
      {
        var k :| k in rest;
        keys, vals := keys + [k], vals + [data[k]];
        rest := rest - {k};
      }
    }

    /** The callback of the sweep, for one entry of the snapshot. */
    method Evict(key: string, session: UdpSession, now: int)
      requires Valid() && key in data && data[key] == session
      modifies this`data, this`counted, session`open
      ensures Valid()
      ensures data == if now - session.lastActivity > timeout then old(data) - {key} else old(data)
      ensures session.open <==> now - session.lastActivity <= timeout
    {
      if now - session.lastActivity > timeout {
        CloseSession(session);
        data := data - {key};
      }
    }

    /** One tick of `CleanupUDPSessions`: exactly the idle sessions are closed and unmapped. */
    method SweepIdle(now: int)
      requires Valid()
      modifies this`data, this`counted, created`open
      ensures Valid()
      ensures Table() == After(old(Table()), Sweep(now), timeout)
      ensures forall k :: k in old(data) ==> (old(data)[k].open <==> k in data)
    {
      var keys, vals := Snapshot();
      for i := 0 to |keys|
        invariant Valid()
        invariant forall k :: k in data ==> k in old(data) && data[k] == old(data)[k]
        invariant forall j :: 0 <= j < i ==> (vals[j].open <==> keys[j] in data)
        invariant forall j :: i <= j < |keys| ==> keys[j] in data
        invariant forall j :: 0 <= j < i ==> (keys[j] in data <==> now - vals[j].lastActivity <= timeout)
      {
        Evict(keys[i], vals[i], now);
      }
      assert forall k :: k in old(data) ==> k in keys;
    }

    /** On cancellation every mapped session is closed, and the map is left as it is. */
    method CloseAll()
      requires Valid()
      modifies this`counted, created`open
      ensures forall s :: s in created ==> !s.open
      ensures counted == 0
    {
      var keys, vals := Snapshot();
      for i := 0 to |keys|
        invariant forall j :: 0 <= j < |vals| ==> (vals[j].open <==> j >= i)
        invariant forall s :: s in created && s.open ==> old(s.open)
        invariant counted == if tracked then |data| - i else 0
      {
        CloseSession(vals[i]);
      }
      assert forall s :: s in created && old(s.open) ==> s == old(data)[s.source] && s.source in keys;
      SameLength(keys, data.Keys);
    }

    /** A run of the loop with sweeps in between: the map is the expiry table of the same events. */
    method Run(events: seq<Event>)
      requires Valid() && Table() == map[]
      modifies this, created
      ensures Valid() && Table() == At(events, |events|, timeout)
    {
      for n := 0 to |events|
        invariant Valid() && Table() == At(events, n, timeout)
        invariant fresh(created - old(created))
      {
        match events[n]
        case Datagram(now, source, size, dialOk, writeOk) =>
          var _ := HandleDatagram(source, size, now, dialOk, writeOk);
        case Sweep(now) =>
          SweepIdle(now);
      }
    }
  }

  lemma {:induction false} SameLength(keys: seq<string>, all: set<string>)
    requires forall k :: k in all <==> k in keys
    requires forall i, j :: 0 <= i < j < |keys| ==> keys[i] != keys[j]
    ensures |keys| == |all|
  {
    if keys == [] {
      assert all == {};
    } else {
      var k := keys[|keys| - 1];
      assert forall x :: x in keys[..|keys| - 1] <==> x in all - {k};
      SameLength(keys[..|keys| - 1], all - {k});
    }
  }
}
