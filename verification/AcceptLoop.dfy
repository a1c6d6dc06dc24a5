/** The TCP accept loops (mod/mapping/tcp.go): retry delays for transient errors, and what becomes
    of each accepted connection. Delays are in nanoseconds. */
module AcceptLoop {

  const RETRY_INITIAL := 5_000_000
  const RETRY_MAX := 1_000_000_000

  /** What one `Accept` and the code after it meet: a connection, whose dial succeeds or not; a
      transient error, during whose delay the context may end; another error; a cancelled context. */
  datatype Event =
    | Accepted(dialOk: bool)
    | Transient(cancelled: bool)
    | Fatal
    | Cancelled
  {
    predicate Ends() { Fatal? || Cancelled? || (Transient? && cancelled) }
  }

  // ---------- Reference: the delay as a closed form ----------

  function Pow2(k: nat): (p: nat)
    ensures p >= 1
  {
    if k == 0 then 1 else 2 * Pow2(k - 1)
  }

  function Min(a: nat, b: nat): nat { if a < b then a else b }

  /** Delay after `k` transient errors in a row. */
  function Delay(k: nat): nat {
    if k == 0 then 0 else Min(RETRY_INITIAL * Pow2(k - 1), RETRY_MAX)
  }

  /** Length of the streak of transient errors that ends with event `i`. */
  function Streak(events: seq<Event>, i: int): nat
    requires -1 <= i < |events|
  {
    if i < 0 || !events[i].Transient? then 0 else 1 + Streak(events, i - 1)
  }

  lemma {:induction false} StreakIsMaximal(events: seq<Event>, i: int)
    requires -1 <= i < |events|
    ensures var k := Streak(events, i);
            && k <= i + 1
            && (forall j :: i - k < j <= i ==> events[j].Transient?)
            && (k <= i ==> !events[i - k].Transient?)
  {
    if i >= 0 && events[i].Transient? {
      StreakIsMaximal(events, i - 1);
    }
  }

  /** The delay never falls within a streak, stays within the two constants, and reaches the upper
      one with the ninth error. */
  lemma {:induction false} DelayShape(j: nat, k: nat)
    requires 1 <= j <= k
    ensures RETRY_INITIAL <= Delay(j) <= Delay(k) <= RETRY_MAX
    ensures Delay(k) == RETRY_MAX <==> k >= 9
  {
    Pow2Monotone(0, j - 1);
    Pow2Monotone(j - 1, k - 1);
    assert Pow2(7) == 128 && Pow2(8) == 256 by {
      assert Pow2(4) == 16;
    }
    if k >= 9 { Pow2Monotone(8, k - 1); } else { Pow2Monotone(k - 1, 7); }
  }

  lemma {:induction false} Pow2Monotone(j: nat, k: nat)
    requires j <= k
    ensures Pow2(j) <= Pow2(k)
    decreases k - j
  {
    if j < k { Pow2Monotone(j + 1, k); }
  }

  /** The source's doubling step follows the closed form. */
  lemma NextDelay(k: nat)
    ensures Delay(k + 1) == if Delay(k) == 0 then RETRY_INITIAL
                             else if 2 * Delay(k) > RETRY_MAX then RETRY_MAX else 2 * Delay(k)
    ensures Delay(k) == 0 <==> k == 0
  {}

  // ---------- The loop ----------

  /** Positions of `e` among the first `n` events, in order. */
  function Positions(events: seq<Event>, n: nat, e: Event): seq<nat>
    requires n <= |events|
  {
    if n == 0 then []
    else Positions(events, n - 1, e) + (if events[n - 1] == e then [n - 1] else [])
  }

  /** `r` lists the positions of `e` before `n`: only those, all of those, in order. */
  predicate Lists(r: seq<nat>, events: seq<Event>, n: nat, e: Event)
    requires n <= |events|
  {
    && (forall k :: 0 <= k < |r| ==> r[k] < n && events[r[k]] == e)
    && (forall i :: 0 <= i < n && events[i] == e ==> i in r)
    && (forall j, k :: 0 <= j < k < |r| ==> r[j] < r[k])
  }

  lemma {:induction false} PositionsAreExact(events: seq<Event>, n: nat, e: Event)
    requires n <= |events|
    ensures Lists(Positions(events, n, e), events, n, e)
  {
    if n > 0 {
      var rest := Positions(events, n - 1, e);
      PositionsAreExact(events, n - 1, e);
      if events[n - 1] == e {
        var r := rest + [n - 1];
        assert r[|rest|] == n - 1;
        forall i | 0 <= i < n - 1 && events[i] == e ensures i in r {
          assert i in rest;
        }
        assert Lists(r, events, n, e);
      }
    }
  }

  /** The delay after one more transient error. */
  method NextRetry(delay: nat, ghost k: nat) returns (retryDelay: nat)
    requires delay == Delay(k)
    ensures retryDelay == Delay(k + 1)
  {
    NextDelay(k);
    retryDelay := delay;
    if retryDelay == 0 {
      retryDelay := RETRY_INITIAL;
    } else {
      retryDelay := retryDelay * 2;
      if retryDelay > RETRY_MAX {
        retryDelay := RETRY_MAX;
      }
    }
  }

  /** The accept loop over a run of events: the delay kept after each event it got through, the
      connections handed to `ProxyTCP`, those closed unserved, and the rise of the counter. */
  method Serve(events: seq<Event>, tracked: bool)
    returns (delays: seq<nat>, proxied: seq<nat>, refused: seq<nat>, counted: nat)
    ensures |delays| <= |events|
    ensures forall i :: 0 <= i < |delays| ==> delays[i] == Delay(Streak(events, i))
    ensures forall i :: 0 <= i < |delays| - 1 ==> events[i].Accepted? || events[i] == Transient(false)
    ensures |delays| == |events|
            || (delays != [] && events[|delays| - 1] in {Fatal, Cancelled, Transient(true)})
    ensures proxied == Positions(events, |delays|, Accepted(true))
    ensures refused == Positions(events, |delays|, Accepted(false))
    ensures counted == if tracked then |proxied| else 0
  {
    hide Delay;
    NextDelay(0);
    delays, proxied, refused, counted := [], [], [], 0;
    var retryDelay := 0;
    for n := 0 to |events|
      invariant |delays| == n
      invariant retryDelay == Delay(Streak(events, n - 1))
      invariant forall i :: 0 <= i < n ==> delays[i] == Delay(Streak(events, i))
      invariant forall i :: 0 <= i < n ==> !events[i].Ends()
      invariant proxied == Positions(events, n, Accepted(true))
      invariant refused == Positions(events, n, Accepted(false))
      invariant counted == if tracked then |proxied| else 0
    {
      var e := events[n];
      if e.Accepted? {
        retryDelay := 0;
        if e.dialOk {
          if tracked { counted := counted + 1; }
          proxied := proxied + [n];
        } else {
          refused := refused + [n];
        }
      } else if e.Transient? {
        retryDelay := NextRetry(retryDelay, Streak(events, n - 1));
      } else {
        retryDelay := 0;
      }
      delays := delays + [retryDelay];
      if e.Ends() { return; }
    }
  }
}
