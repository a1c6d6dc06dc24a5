/** The peer monitor (mod/peers/monitor.go): a callback for every change of the peer counts. */
module PeerMonitor {

  /** Connected peers, and all peers. */
  datatype Counts = Counts(connected: nat, total: nat)

  /** Peers of a poll, each up or down. */
  function CountsOf(peers: seq<bool>): (c: Counts)
    ensures c.connected <= c.total == |peers|
  {
    Counts(multiset(peers)[true], |peers|)
  }

  /** Connected are the peers that are up. */
  lemma {:induction false} ConnectedAreUp(peers: seq<bool>)
    ensures CountsOf(peers).connected == |set i | 0 <= i < |peers| && peers[i]|
  {
    var up := set i | 0 <= i < |peers| && peers[i];
    if peers == [] {
      assert up == {};
    } else {
      var n := |peers| - 1;
      ConnectedAreUp(peers[..n]);
      assert peers == peers[..n] + [peers[n]];
      assert up == (set i | 0 <= i < |peers[..n]| && peers[..n][i]) + (if peers[n] then {n} else {});
    }
  }

  /** `s` without the items that repeat their predecessor. */
  function Dedup(s: seq<Counts>): (r: seq<Counts>)
    ensures s != [] ==> r != [] && r[0] == s[0] && r[|r| - 1] == s[|s| - 1]
    ensures forall i :: 0 < i < |r| ==> r[i - 1] != r[i]
  {
    if |s| <= 1 then s
    else
      var rest := Dedup(s[..|s| - 1]);
      if s[|s| - 2] == s[|s| - 1] then rest else rest + [s[|s| - 1]]
  }

  /** Nothing is lost by leaving repeats out: at any moment the last item kept is the current one. */
  lemma {:induction false} DedupPrefix(s: seq<Counts>, n: nat)
    requires 0 < n <= |s|
    ensures Dedup(s[..n]) <= Dedup(s)
    ensures Dedup(s[..n])[|Dedup(s[..n])| - 1] == s[n - 1]
  {
    if n == |s| {
      hide Dedup;
      assert s[..n] == s;
    } else {
      var shorter := s[..|s| - 1];
      DedupPrefix(shorter, n);
      assert shorter[..n] == s[..n];
      DedupGrows(s);
    }
  }

  lemma DedupGrows(s: seq<Counts>)
    requires |s| > 1
    ensures Dedup(s[..|s| - 1]) <= Dedup(s)
  {
  }

  predicate ChangesAt(s: seq<Counts>, i: nat) { 0 < i < |s| && s[i] != s[i - 1] }

  function Changes(s: seq<Counts>): set<nat> {
    set i: nat | i < |s| && ChangesAt(s, i)
  }

  /** One item for the first, and one for each change after it. */
  lemma {:induction false} DedupCounts(s: seq<Counts>)
    requires s != []
    ensures |Dedup(s)| == 1 + |Changes(s)|
  {
    var n := |s| - 1;
    if n == 0 {
      assert Changes(s) == {};
    } else {
      hide Changes;
      DedupCounts(s[..n]);
      OneMoreChange(s);
    }
  }

  lemma OneMoreChange(s: seq<Counts>)
    requires |s| > 1
    ensures var n := |s| - 1; |Changes(s)| == |Changes(s[..n])| + (if s[n] == s[n - 1] then 0 else 1)
  {
    var n := |s| - 1;
    forall i: nat | i < n ensures i in Changes(s) <==> i in Changes(s[..n]) {
      assert s[..n][i] == s[i];
    }
    assert Changes(s) == Changes(s[..n]) + (if s[n] != s[n - 1] then {n} else {});
  }

  const START := Counts(0, 0)

  /** The callbacks a history of polls must give. */
  function Expected(history: seq<Counts>): seq<Counts> {
    Dedup([START] + history)[1..]
  }

  class Monitor {
    var lastConn: nat
    var lastTotal: nat
    var cancelled: bool
    ghost var history: seq<Counts>   // counts of every poll made before cancellation
    var reported: seq<Counts>        // calls of OnPeerCountChanged, in order

    ghost predicate Valid()
      reads this
    {
      && Counts(lastConn, lastTotal) == ([START] + history)[|history|]
      && reported == Expected(history)
    }

    constructor ()
      ensures Valid() && history == [] && !cancelled
    {
      lastConn, lastTotal, cancelled, history, reported := 0, 0, false, [], [];
    }

    method Cancel()
      requires Valid()
      modifies this`cancelled
      ensures Valid() && cancelled
    {
      cancelled := true;
    }

    /** With `Valid`, this says that the callbacks are the poll history without repeats. */
    method Poll(peers: seq<bool>)
      requires Valid()
      modifies this`lastConn, this`lastTotal, this`history, this`reported
      ensures Valid()
      ensures history == if cancelled then old(history) else old(history) + [CountsOf(peers)]
    {
      if cancelled { return; }
      var connected, total := 0, 0;
      for i := 0 to |peers|
        invariant Counts(connected, total) == CountsOf(peers[..i])
      {
        assert peers[..i + 1] == peers[..i] + [peers[i]];
        total := total + 1;
        if peers[i] { connected := connected + 1; }
      }
      assert peers[..|peers|] == peers;
      ghost var before := [START] + history;
      history := history + [CountsOf(peers)];
      ghost var now := [START] + history;
      assert now[..|now| - 1] == before;
      if connected != lastConn || total != lastTotal {
        lastConn := connected;
        lastTotal := total;
        reported := reported + [Counts(connected, total)];
      }
    }

    method PollAll(polls: seq<seq<bool>>)
      requires Valid() && !cancelled && history == []
      modifies this`lastConn, this`lastTotal, this`history, this`reported
      ensures reported == Expected(CountsOfAll(polls))
    {
      hide Expected;
      for n := 0 to |polls|
        invariant Valid() && history == CountsOfAll(polls[..n])
      {
        assert polls[..n + 1] == polls[..n] + [polls[n]];
        CountsOfMore(polls[..n], polls[n]);
        Poll(polls[n]);
      }
      assert polls[..|polls|] == polls;
    }
  }

  function CountsOfAll(polls: seq<seq<bool>>): (counts: seq<Counts>)
    ensures |counts| == |polls|
    ensures forall i :: 0 <= i < |polls| ==> counts[i] == CountsOf(polls[i])
  {
    seq(|polls|, i requires 0 <= i < |polls| => CountsOf(polls[i]))
  }

  lemma CountsOfMore(polls: seq<seq<bool>>, peers: seq<bool>)
    ensures CountsOfAll(polls + [peers]) == CountsOfAll(polls) + [CountsOf(peers)]
  {}
}
