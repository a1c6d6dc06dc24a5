/** Connection ids (mod/activity/tracked_conn.go): prefix, address and a 64-bit counter, joined by dashes. */
module ConnIds {
  import opened Text

  const TWO_64 := 0x1_0000_0000_0000_0000

  datatype Request = Request(prefix: string, addr: string)

  /** The text before the last dash. */
  function Stem(q: Request): string { q.prefix + "-" + q.addr }

  function IdText(q: Request, counter: nat): string { Stem(q) + "-" + Decimal(counter) }

  /** Counter value of the k-th call after `start`: the atomic add wraps at 2^64. */
  function CounterAfter(start: nat, k: nat): nat { (start + k) % TWO_64 }

  lemma CounterStep(start: nat, k: nat)
    ensures CounterAfter(start, k + 1) == CounterAfter(CounterAfter(start, k), 1)
    ensures start < TWO_64 ==> CounterAfter(start, 0) == start
  {}

  /** The ids of a run of calls made one after another, the first incrementing `start`. */
  function IdsOf(start: nat, requests: seq<Request>): (ids: seq<string>)
    ensures |ids| == |requests|
    ensures forall i :: 0 <= i < |ids| ==> ids[i] == IdText(requests[i], CounterAfter(start, i + 1))
  {
    seq(|requests|, i requires 0 <= i < |requests| => IdText(requests[i], CounterAfter(start, i + 1)))
  }

  /** `idCounter` with `GenerateConnId`. */
  class Generator {
    var counter: nat

    ghost predicate Valid()
      reads this
    {
      counter < TWO_64
    }

    constructor ()
      ensures Valid() && counter == 0
    {
      counter := 0;
    }

    method Generate(prefix: string, addr: string) returns (id: string)
      requires Valid()
      modifies this
      ensures Valid() && counter == CounterAfter(old(counter), 1)
      ensures id == IdText(Request(prefix, addr), counter) == prefix + "-" + addr + "-" + Decimal(counter)
    {
      counter := (counter + 1) % TWO_64;
      var buf: seq<char> := [];
      buf := buf + prefix;
      buf := buf + "-";
      buf := buf + addr;
      buf := buf + "-";
      buf := buf + Decimal(counter);
      id := buf;
    }

    method GenerateAll(requests: seq<Request>) returns (ids: seq<string>)
      requires Valid()
      modifies this
      ensures Valid()
      ensures ids == IdsOf(old(counter), requests)
    {
      hide CounterAfter, IdText;
      ids := [];
      CounterStep(counter, 0);
      for i := 0 to |requests|
        invariant Valid() && |ids| == i
        invariant counter == CounterAfter(old(counter), i)
        invariant forall j :: 0 <= j < i ==> ids[j] == IdText(requests[j], CounterAfter(old(counter), j + 1))
      {
        CounterStep(old(counter), i);
        var id := Generate(requests[i].prefix, requests[i].addr);
        ids := ids + [id];
      }
    }
  }

  /** The text after the last dash is the counter, so an id gives back both its parts. */
  lemma IdDetermines(q1: Request, n1: nat, q2: Request, n2: nat)
    ensures IdText(q1, n1) == IdText(q2, n2) <==> Stem(q1) == Stem(q2) && n1 == n2
  {
    if IdText(q1, n1) == IdText(q2, n2) {
      LastDash(Stem(q1), n1);
      LastDash(Stem(q2), n2);
      var s := IdText(q1, n1);
      assert s[..|Stem(q1)|] == Stem(q1) && s[..|Stem(q2)|] == Stem(q2);
      assert s[|Stem(q1)| + 1..] == Decimal(n1) && s[|Stem(q2)| + 1..] == Decimal(n2);
      DecimalRoundTrip(n1);
      DecimalRoundTrip(n2);
    }
  }

  lemma LastDash(stem: string, n: nat)
    ensures LastIndex(stem + "-" + Decimal(n), '-') == |stem|
  {
    var s := stem + "-" + Decimal(n);
    assert s[|stem|] == '-';
    assert forall j :: |stem| < j < |s| ==> IsDigit(s[j]);
  }

  /** Two calls of a run get the same id exactly when they agree on prefix and address and are a
      multiple of 2^64 calls apart. */
  lemma CollisionExactly(start: nat, requests: seq<Request>, i: nat, j: nat)
    requires i < j < |requests|
    ensures IdsOf(start, requests)[i] == IdsOf(start, requests)[j]
       <==> Stem(requests[i]) == Stem(requests[j]) && (j - i) % TWO_64 == 0
  {
    hide Stem, IdText, CounterAfter;
    IdDetermines(requests[i], CounterAfter(start, i + 1), requests[j], CounterAfter(start, j + 1));
    CounterRepeats(start, i + 1, j + 1);
  }

  lemma CounterRepeats(start: nat, m: nat, n: nat)
    requires m <= n
    ensures CounterAfter(start, m) == CounterAfter(start, n) <==> (n - m) % TWO_64 == 0
  {
    var a, b := start + m, start + n;
    assert a == a / TWO_64 * TWO_64 + a % TWO_64 && b == b / TWO_64 * TWO_64 + b % TWO_64;
    assert n - m == b - a;
    if a % TWO_64 == b % TWO_64 {
      assert n - m == (b / TWO_64 - a / TWO_64) * TWO_64;
    }
  }

  /** Over any run of up to 2^64 calls the ids are pairwise distinct, even when prefixes and
      addresses hold dashes. */
  lemma IdsDistinct(start: nat, requests: seq<Request>)
    requires |requests| <= TWO_64
    ensures forall i, j :: 0 <= i < j < |requests| ==> IdsOf(start, requests)[i] != IdsOf(start, requests)[j]
  {
    forall i, j | 0 <= i < j < |requests|
      ensures IdsOf(start, requests)[i] != IdsOf(start, requests)[j]
    {
      CollisionExactly(start, requests, i, j);
      assert (j - i) % TWO_64 == j - i;
    }
  }
}
