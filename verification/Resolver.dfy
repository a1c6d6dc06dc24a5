/** Name resolution (src/types/resolver.go): names under `.pk.ygg` carry a public key in hex. */
module Resolver {
  import opened Prelude
  import opened Text

  type Byte = b: nat | b < 256

  const SUFFIX := ".pk.ygg"
  const KEY_SIZE := 32

  datatype ResolveError<+E> =
    | BadHex
    | BadKeyLength(got: nat)
    | LookupFailed(error: E)
    | NoAddresses

  // ---------- Hexadecimal (section 8 of RFC 4648) ----------

  /** Value of a hex digit in either case. */
  function Nibble(c: char): (r: Option<nat>)
    ensures r.Some? ==> r.value < 16 && c != '.'
  {
    if '0' <= c <= '9' then Some(c as int - '0' as int)
    else if 'a' <= c <= 'f' then Some(c as int - 'a' as int + 10)
    else if 'A' <= c <= 'F' then Some(c as int - 'A' as int + 10)
    else None
  }

  /** `hex.DecodeString`. */
  function HexDecode(s: string): Option<seq<Byte>> {
    if s == "" then Some([])
    else if |s| == 1 then None
    else
      match (Nibble(s[0]), Nibble(s[1]), HexDecode(s[2..]))
      case (Some(hi), Some(lo), Some(rest)) =>
        Some([hi * 16 + lo] + rest)
      case _ => None
  }

  /** `h` writes `key` with two digits a byte, each in upper or lower case. */
  predicate IsHexOf(h: string, key: seq<Byte>) {
    && |h| == 2 * |key|
    && forall i :: 0 <= i < |key| ==>
         Nibble(h[2 * i]) == Some(key[i] / 16) && Nibble(h[2 * i + 1]) == Some(key[i] % 16)
  }

  /** Decoding is the inverse of writing in hex, whatever the case of each digit. */
  lemma {:induction false} HexRoundTrip(h: string, key: seq<Byte>)
    ensures HexDecode(h) == Some(key) <==> IsHexOf(h, key)
  {
    if |h| >= 2 {
      if key != [] {
        HexRoundTrip(h[2..], key[1..]);
        if IsHexOf(h, key) {
          HexTail(h, key);
          assert key[0] / 16 * 16 + key[0] % 16 == key[0];
          assert [key[0]] + key[1..] == key;
        }
        if HexDecode(h) == Some(key) {
          var hi, lo := Nibble(h[0]).value, Nibble(h[1]).value;
          assert key == [hi * 16 + lo] + HexDecode(h[2..]).value;
          assert key[0] / 16 == hi && key[0] % 16 == lo;
          HexCons(h, key);
        }
      }
    }
  }

  lemma HexTail(h: string, key: seq<Byte>)
    requires IsHexOf(h, key) && key != []
    ensures IsHexOf(h[2..], key[1..])
    ensures Nibble(h[0]) == Some(key[0] / 16) && Nibble(h[1]) == Some(key[0] % 16)
  {
    assert Nibble(h[2 * 0]) == Some(key[0] / 16);
    forall i | 0 <= i < |key| - 1
      ensures Nibble(h[2..][2 * i]) == Some(key[1..][i] / 16) && Nibble(h[2..][2 * i + 1]) == Some(key[1..][i] % 16)
    {
      assert h[2..][2 * i] == h[2 * (i + 1)] && h[2..][2 * i + 1] == h[2 * (i + 1) + 1];
    }
  }

  lemma HexCons(h: string, key: seq<Byte>)
    requires |h| >= 2 && key != [] && IsHexOf(h[2..], key[1..])
    requires Nibble(h[0]) == Some(key[0] / 16) && Nibble(h[1]) == Some(key[0] % 16)
    ensures IsHexOf(h, key)
  {
    forall i | 0 <= i < |key|
      ensures Nibble(h[2 * i]) == Some(key[i] / 16) && Nibble(h[2 * i + 1]) == Some(key[i] % 16)
    {
      if i > 0 {
        assert h[2 * i] == h[2..][2 * (i - 1)] && h[2 * i + 1] == h[2..][2 * (i - 1) + 1];
        assert key[i] == key[1..][i - 1];
      }
    }
  }

  lemma HexHasNoDot(h: string, key: seq<Byte>)
    requires IsHexOf(h, key)
    ensures '.' !in h
  {
    forall j | 0 <= j < |h| ensures h[j] != '.' {
      var i := j / 2;
      assert Nibble(h[2 * i]).Some? && Nibble(h[2 * i + 1]).Some?;
      assert j == 2 * i || j == 2 * i + 1;
    }
  }

  // ---------- Resolve ----------

  /** The label that holds the key: what stands after the last dot before the suffix. */
  function KeyLabel(name: string): string {
    var base := CutSuffix(name, SUFFIX);
    base[LastIndex(base, '.') + 1..]
  }

  /** `Resolve`. Parsing an address, deriving one from a key, and the DNS lookup are parameters. */
  function Resolve<Addr, E>(
    name: string,
    parseIP: string -> Option<Addr>,
    lookup: string -> Result<seq<Addr>, E>,
    addrForKey: seq<Byte> -> Addr
  ): Result<Addr, ResolveError<E>>
  {
    if HasSuffix(name, SUFFIX) then
      match HexDecode(KeyLabel(name))
      case None => Err(BadHex)
      case Some(key) =>
        if |key| != KEY_SIZE then Err(BadKeyLength(|key|)) else Ok(addrForKey(key))
    else
      match parseIP(name)
      case Some(ip) => Ok(ip)
      case None =>
        match lookup(name)
        case Err(e) => Err(LookupFailed(e))
        case Ok(addrs) => if addrs == [] then Err(NoAddresses) else Ok(addrs[0])
  }

  /** The subdomains that may precede the key: none, or labels closed by a dot. */
  predicate IsSubdomain(p: string) { p == "" || p[|p| - 1] == '.' }

  /** `name` is subdomain + 64 hex digits of `key` + suffix. */
  predicate Names(name: string, subdomain: string, h: string, key: seq<Byte>) {
    name == subdomain + h + SUFFIX && IsSubdomain(subdomain) && |key| == KEY_SIZE && IsHexOf(h, key)
  }

  lemma KeyLabelOf(subdomain: string, h: string)
    requires IsSubdomain(subdomain) && '.' !in h
    ensures var name := subdomain + h + SUFFIX;
            HasSuffix(name, SUFFIX) && KeyLabel(name) == h
  {
    var name, base := subdomain + h + SUFFIX, subdomain + h;
    assert name[|name| - |SUFFIX|..] == SUFFIX && name[..|name| - |SUFFIX|] == base;
    assert forall j :: |subdomain| <= j < |base| ==> base[j] == h[j - |subdomain|] && base[j] != '.';
    assert subdomain != "" ==> base[|subdomain| - 1] == '.';
    assert LastIndex(base, '.') == |subdomain| - 1;
    assert base[|subdomain|..] == h;
  }

  /** Every name built from a key reaches the address function with that key. */
  lemma ResolveKeyName<Addr, E>(
    name: string, subdomain: string, h: string, key: seq<Byte>,
    parseIP: string -> Option<Addr>, lookup: string -> Result<seq<Addr>, E>, addrForKey: seq<Byte> -> Addr)
    requires Names(name, subdomain, h, key)
    ensures Resolve(name, parseIP, lookup, addrForKey) == Ok(addrForKey(key))
  {
    hide HexDecode, IsHexOf, KeyLabel, HasSuffix;
    HexHasNoDot(h, key);
    KeyLabelOf(subdomain, h);
    HexRoundTrip(h, key);
  }

  lemma CutLeavesPrefix(s: string, suffix: string)
    requires HasSuffix(s, suffix)
    ensures CutSuffix(s, suffix) + suffix == s
  {}

  lemma TakeAndDrop(s: string, i: nat)
    requires i <= |s|
    ensures s[..i] + s[i..] == s
  {}

  lemma LastLabel(base: string) returns (subdomain: string)
    ensures subdomain + base[LastIndex(base, '.') + 1..] == base && IsSubdomain(subdomain)
  {
    hide LastIndex;
    var i := LastIndex(base, '.') + 1;
    subdomain := base[..i];
    TakeAndDrop(base, i);
    assert i > 0 ==> subdomain[i - 1] == base[i - 1] == '.';
  }

  lemma NameOfKeyLabel(name: string, key: seq<Byte>) returns (subdomain: string)
    requires HasSuffix(name, SUFFIX) && HexDecode(KeyLabel(name)) == Some(key) && |key| == KEY_SIZE
    ensures Names(name, subdomain, KeyLabel(name), key)
  {
    hide HexDecode, IsHexOf, HasSuffix, CutSuffix, IsSubdomain;
    HexRoundTrip(KeyLabel(name), key);
    CutLeavesPrefix(name, SUFFIX);
    subdomain := LastLabel(CutSuffix(name, SUFFIX));
  }

  /** No other name under the suffix resolves: success means the name was built from a key. */
  lemma OnlyKeyNamesResolve<Addr, E>(
    name: string,
    parseIP: string -> Option<Addr>, lookup: string -> Result<seq<Addr>, E>, addrForKey: seq<Byte> -> Addr)
    requires HasSuffix(name, SUFFIX)
    ensures Resolve(name, parseIP, lookup, addrForKey).Ok? <==> exists p, h, key :: Names(name, p, h, key)
  {
    hide HexDecode, KeyLabel, Names;
    if Resolve(name, parseIP, lookup, addrForKey).Ok? {
      var p := NameOfKeyLabel(name, HexDecode(KeyLabel(name)).value);
    }
    if p, h, key :| Names(name, p, h, key) {
      ResolveKeyName(name, p, h, key, parseIP, lookup, addrForKey);
    }
  }

  /** A name determines its key. */
  lemma KeyUnique(name: string, p1: string, h1: string, key1: seq<Byte>, p2: string, h2: string, key2: seq<Byte>)
    requires Names(name, p1, h1, key1) && Names(name, p2, h2, key2)
    ensures key1 == key2 && p1 == p2
  {
    assert |p1| == |name| - |SUFFIX| - 64 == |p2|;
    assert h1 == name[|p1|..|p1| + 64] == h2;
    assert p1 == name[..|p1|] == p2;
    HexRoundTrip(h1, key1);
    HexRoundTrip(h2, key2);
  }

  /** A name without the suffix has nothing to do with keys: a literal address is itself, whatever a lookup
      would say; any other name gives the first address looked up. */
  lemma OtherNames<Addr, E>(
    name: string,
    parseIP: string -> Option<Addr>, lookup: string -> Result<seq<Addr>, E>, addrForKey: seq<Byte> -> Addr)
    requires !HasSuffix(name, SUFFIX)
    ensures var r := Resolve(name, parseIP, lookup, addrForKey);
            && (forall ip :: parseIP(name) == Some(ip) ==> r == Ok(ip))
            && (forall ip :: parseIP(name).None? && r == Ok(ip) ==>
                  exists rest :: lookup(name) == Ok([ip] + rest))
            && (parseIP(name).None? ==> (r.Ok? <==> lookup(name).Ok? && lookup(name).value != []))
            && (forall e :: r == Err(LookupFailed(e)) ==> lookup(name) == Err(e))
  {
    if parseIP(name).None? {
      match lookup(name)
      case Ok(addrs) =>
        if addrs != [] { assert addrs == [addrs[0]] + addrs[1..]; }
      case Err(_) =>
    }
  }
}
