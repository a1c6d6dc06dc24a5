/** The port-mapping specs of the command line (src/types/mapping.go): the token parser with its
    five shapes, the validation behind the four `Set` methods, and a canonical printer. */
module MappingSpec {
  import opened Prelude
  import opened Text

  datatype Spec = Spec(firstAddr: string, firstPort: int, secondAddr: string, secondPort: int)

  datatype ParseError = Malformed | PortRange

  predicate ValidPort(p: int) { 1 <= p <= 65535 }

  predicate ValidPorts(spec: Spec) { ValidPort(spec.firstPort) && ValidPort(spec.secondPort) }

  // ---------- What the parser computes ----------

  /** `net.SplitHostPort`. */
  function SplitHostPort(hostport: string): Option<(string, string)> {
    var i := LastIndex(hostport, ':');
    if i < 0 then None
    else if hostport[0] == '[' then
      var end := Index(hostport, ']');
      if end < 0 || end + 1 != i then None
      else if '[' in hostport[1..] || ']' in hostport[end + 1..] then None
      else Some((hostport[1..end], hostport[i + 1..]))
    else
      var host := hostport[..i];
      if ':' in host || '[' in hostport || ']' in hostport then None
      else Some((host, hostport[i + 1..]))
  }

  /** Largest index up to `i` whose token opens a bracket, or -1: the source's reverse walk. */
  function OpeningToken(tokens: seq<string>, i: int): (k: int)
    requires -1 <= i < |tokens|
    ensures -1 <= k <= i
    ensures k >= 0 ==> HasPrefix(tokens[k], "[")
    ensures forall j :: k < j <= i ==> !HasPrefix(tokens[j], "[")
  {
    if i < 0 || HasPrefix(tokens[i], "[") then i else OpeningToken(tokens, i - 1)
  }

  function Unbracket(tokens: seq<string>): string {
    CutSuffix(CutPrefix(Join(tokens, ':'), "["), "]")
  }

  /** The address at the end of `tokens`, and the tokens left before it. A closing bracket that is
      never opened yields the empty address and cuts nothing. */
  function TakeAddress(tokens: seq<string>): (string, seq<string>)
    requires tokens != []
  {
    var last := |tokens| - 1;
    if HasSuffix(tokens[last], "]") then
      var i := OpeningToken(tokens, last);
      if i < 0 then ("", tokens) else (Unbracket(tokens[i..]), tokens[..i])
    else (tokens[last], tokens[..last])
  }

  function CheckPorts(spec: Spec): Result<Spec, ParseError> {
    if ValidPorts(spec) then Ok(spec) else Err(PortRange)
  }

  function ParsePorts(firstAddr: string, firstPort: string, secondAddr: string, secondPort: string)
    : Result<Spec, ParseError>
  {
    match (Atoi(firstPort), Atoi(secondPort))
    case (Some(p), Some(q)) => CheckPorts(Spec(firstAddr, p, secondAddr, q))
    case _ => Err(Malformed)
  }

  /** The branch for more than four tokens, which reads the spec from its end. */
  function ParseLong(tokens: seq<string>): Result<Spec, ParseError>
    requires |tokens| > 1
  {
    var n := |tokens| - 1;
    var (secondAddr, rest) := TakeAddress(tokens[..n]);
    if Atoi(tokens[n]).None? || rest == [] then Err(Malformed)
    else
      var m := |rest| - 1;
      var firstAddr := if m == 0 then "" else TakeAddress(rest[..m]).0;
      ParsePorts(firstAddr, rest[m], secondAddr, tokens[n])
  }

  function ParseTokens(tokens: seq<string>): Result<Spec, ParseError>
    requires tokens != []
  {
    if |tokens| == 1 then ParsePorts("", tokens[0], "", tokens[0])
    else if |tokens| == 2 then ParsePorts("", tokens[0], "", tokens[1])
    else if |tokens| == 3 then
      match SplitHostPort(tokens[1] + ":" + tokens[2])
      case Some((host, port)) => ParsePorts("", tokens[0], host, port)
      case None => Err(Malformed)
    else if |tokens| == 4 then
      match (SplitHostPort(tokens[0] + ":" + tokens[1]), SplitHostPort(tokens[2] + ":" + tokens[3]))
      case (Some((host1, port1)), Some((host2, port2))) => ParsePorts(host1, port1, host2, port2)
      case _ => Err(Malformed)
    else ParseLong(tokens)
  }

  function Parse(value: string): (r: Result<Spec, ParseError>)
    ensures r.Ok? ==> ValidPorts(r.value)
  {
    ParseTokens(Split(value, ':'))
  }

  // ---------- The parser in the source's own form ----------

  /** Reverse walk from the last token to the one that opens the bracket. */
  method WalkBack(tokens: seq<string>) returns (address: string, rest: seq<string>)
    requires tokens != [] && HasSuffix(tokens[|tokens| - 1], "]")
    ensures (address, rest) == TakeAddress(tokens)
  {
    address, rest := "", tokens;
    var i := |tokens| - 1;
    while i >= 0
      invariant -1 <= i < |tokens|
      invariant address == "" && rest == tokens
      invariant OpeningToken(tokens, |tokens| - 1) == OpeningToken(tokens, i)
    {
      if HasPrefix(tokens[i], "[") {
        address := Join(tokens[i..], ':');
        address := CutPrefix(address, "[");
        address := CutSuffix(address, "]");
        rest := tokens[..i];
        break;
      }
      i := i - 1;
    }
  }

  lemma TakePlain(tokens: seq<string>)
    requires tokens != [] && !HasSuffix(tokens[|tokens| - 1], "]")
    ensures TakeAddress(tokens) == (tokens[|tokens| - 1], tokens[..|tokens| - 1])
  {}

  /** The branch of `parseMappingString` for more than four tokens, up to the port check. */
  method ParseFromEnd(spec: seq<string>) returns (r: Result<Spec, ParseError>)
    requires |spec| > 4
    ensures r == ParseLong(spec)
  {
    hide Atoi, ValidPort, TakeAddress;
    var tokens, firstAddress := spec, "";
    var secondAddress;
    var tokensLen := |tokens|;
    var secondPort := Atoi(tokens[tokensLen - 1]);
    if secondPort.None? { return Err(Malformed); }
    tokens := tokens[..tokensLen - 1];
    tokensLen := |tokens|;
    if HasSuffix(tokens[tokensLen - 1], "]") {
      secondAddress, tokens := WalkBack(tokens);
    } else {
      TakePlain(tokens);
      secondAddress := tokens[tokensLen - 1];
      tokens := tokens[..tokensLen - 1];
    }
    tokensLen := |tokens|;
    if tokensLen < 1 { return Err(Malformed); }
    var firstPort := Atoi(tokens[tokensLen - 1]);
    if firstPort.None? { return Err(Malformed); }
    tokens := tokens[..tokensLen - 1];
    tokensLen := |tokens|;
    if tokensLen > 0 {
      if HasSuffix(tokens[tokensLen - 1], "]") {
        firstAddress, tokens := WalkBack(tokens);
      } else {
        TakePlain(tokens);
        firstAddress := tokens[tokensLen - 1];
      }
    }
    if !ValidPort(firstPort.value) || !ValidPort(secondPort.value) {
      return Err(PortRange);
    }
    return Ok(Spec(firstAddress, firstPort.value, secondAddress, secondPort.value));
  }

  /** `parseMappingString`. */
  method ParseMappingString(value: string) returns (r: Result<Spec, ParseError>)
    ensures r == Parse(value)
  {
    var firstAddress, secondAddress := "", "";
    var firstPort, secondPort := None, None;
    var tokens := Split(value, ':');
    var tokensLen := |tokens|;

    if tokensLen == 1 {
      firstPort := Atoi(tokens[0]);
      if firstPort.None? { return Err(Malformed); }
      secondPort := firstPort;
    }
    if tokensLen == 2 {
      firstPort := Atoi(tokens[0]);
      if firstPort.None? { return Err(Malformed); }
      secondPort := Atoi(tokens[1]);
      if secondPort.None? { return Err(Malformed); }
    }
    if tokensLen == 3 {
      firstPort := Atoi(tokens[0]);
      if firstPort.None? { return Err(Malformed); }
      var hostport := SplitHostPort(tokens[1] + ":" + tokens[2]);
      if hostport.None? { return Err(Malformed); }
      secondAddress := hostport.value.0;
      secondPort := Atoi(hostport.value.1);
      if secondPort.None? { return Err(Malformed); }
    }
    if tokensLen == 4 {
      var hostport := SplitHostPort(tokens[0] + ":" + tokens[1]);
      if hostport.None? { return Err(Malformed); }
      firstAddress := hostport.value.0;
      var firstPortStr := hostport.value.1;
      hostport := SplitHostPort(tokens[2] + ":" + tokens[3]);
      if hostport.None? { return Err(Malformed); }
      secondAddress := hostport.value.0;
      firstPort := Atoi(firstPortStr);
      if firstPort.None? { return Err(Malformed); }
      secondPort := Atoi(hostport.value.1);
      if secondPort.None? { return Err(Malformed); }
    }
    if tokensLen > 4 {
      r := ParseFromEnd(tokens);
      return;
    }
    if !ValidPort(firstPort.value) || !ValidPort(secondPort.value) {
      return Err(PortRange);
    }
    return Ok(Spec(firstAddress, firstPort.value, secondAddress, secondPort.value));
  }

  // ---------- Canonical printer ----------

  predicate BracketFree(s: string) { '[' !in s && ']' !in s }

  /** The specs a user can mean: ports in range, addresses written without brackets. */
  predicate Printable(spec: Spec) {
    ValidPorts(spec) && BracketFree(spec.firstAddr) && BracketFree(spec.secondAddr)
  }

  /** An address with a colon is put in brackets, as in section 6 of RFC 5952. */
  function PrintAddress(address: string): string {
    if ':' in address then "[" + address + "]" else address
  }

  function Print(spec: Spec): string
    requires ValidPorts(spec)
  {
    var mapped := if spec.firstAddr == "" && spec.secondAddr == "" then Decimal(spec.secondPort)
                  else PrintAddress(spec.secondAddr) + ":" + Decimal(spec.secondPort);
    var listen := if spec.firstAddr == "" then Decimal(spec.firstPort)
                  else PrintAddress(spec.firstAddr) + ":" + Decimal(spec.firstPort);
    listen + ":" + mapped
  }

  function AddressTokens(address: string): (tokens: seq<string>)
    ensures tokens != []
  {
    Split(PrintAddress(address), ':')
  }

  // ---------- Tokens of a printed spec ----------

  lemma DecimalHasNoPunctuation(n: nat)
    ensures ':' !in Decimal(n) && BracketFree(Decimal(n))
  {
    assert forall c :: c in Decimal(n) ==> IsDigit(c);
  }

  /** A spec prints as the tokens of its two addresses, each followed by its port; an absent first
      address has no token, nor has an absent second address when the first is absent too. */
  lemma PrintedTokens(spec: Spec)
    requires ValidPorts(spec)
    ensures Split(Print(spec), ':')
         == (if spec.firstAddr == "" then [] else AddressTokens(spec.firstAddr)) + [Decimal(spec.firstPort)]
          + (if spec.firstAddr == "" && spec.secondAddr == "" then [] else AddressTokens(spec.secondAddr))
          + [Decimal(spec.secondPort)]
  {
    var fp, sp := Decimal(spec.firstPort), Decimal(spec.secondPort);
    DecimalHasNoPunctuation(spec.firstPort);
    DecimalHasNoPunctuation(spec.secondPort);
    SplitPlain(fp, ':');
    SplitPlain(sp, ':');
    SplitConcat(PrintAddress(spec.firstAddr), fp, ':');
    SplitConcat(PrintAddress(spec.secondAddr), sp, ':');
    var listen := if spec.firstAddr == "" then fp else PrintAddress(spec.firstAddr) + ":" + fp;
    var mapped := if spec.firstAddr == "" && spec.secondAddr == "" then sp
                  else PrintAddress(spec.secondAddr) + ":" + sp;
    SplitConcat(listen, mapped, ':');
  }

  lemma {:induction false} SplitAppend(s: string, c: char, sep: char)
    requires c != sep
    ensures var t := Split(s, sep);
            Split(s + [c], sep) == t[|t| - 1 := t[|t| - 1] + [c]]
  {
    if s != "" {
      SplitAppend(s[1..], c, sep);
      assert (s + [c])[1..] == s[1..] + [c];
      var rest := Split(s[1..], sep);
      if s[0] != sep && |rest| == 1 {
        assert [s[0]] + (rest[0] + [c]) == ([s[0]] + rest[0]) + [c];
      }
    } else {
      assert s + [c] == [c] && [c][1..] == "";
      var rest := Split([c][1..], sep);
      assert [c] + rest[0] == [c];
      assert Split([c], sep) == [[c] + rest[0]] + rest[1..];
    }
  }

  lemma SplitOpen(address: string)
    ensures var inner := Split(address, ':');
            Split("[" + address, ':') == [['['] + inner[0]] + inner[1..]
  {
    assert ("[" + address)[1..] == address;
  }

  /** The tokens of `[` + address + `]`: those of the address, the first one opened and the last closed. */
  lemma BracketedSplit(address: string)
    requires ':' in address
    ensures var inner := Split(address, ':');
            && |inner| == multiset(address)[':'] + 1 > 1
            && AddressTokens(address)
               == [['['] + inner[0]] + inner[1..|inner| - 1] + [inner[|inner| - 1] + [']']]
  {
    hide Split;
    var inner := Split(address, ':');
    SplitCount(address, ':');
    assert multiset(address)[':'] > 0;
    SplitOpen(address);
    SplitAppend("[" + address, ']', ':');
    PrintBracketed(address);
    CloseLast(inner);
  }

  lemma PrintBracketed(address: string)
    requires ':' in address
    ensures PrintAddress(address) == ("[" + address) + [']']
  {}

  lemma CloseLast(inner: seq<string>)
    requires |inner| > 1
    ensures var t := [['['] + inner[0]] + inner[1..];
            t[|t| - 1 := t[|t| - 1] + [']']]
            == [['['] + inner[0]] + inner[1..|inner| - 1] + [inner[|inner| - 1] + [']']]
  {}

  /** A bracketed address opens in its first token only and closes in its last. */
  lemma BracketedTokens(address: string)
    requires BracketFree(address) && ':' in address
    ensures var t := AddressTokens(address);
            && |t| == multiset(address)[':'] + 1
            && HasPrefix(t[0], "[") && HasSuffix(t[|t| - 1], "]")
            && (forall i :: 0 < i < |t| ==> !HasPrefix(t[i], "["))
  {
    hide Split, AddressTokens, HasPrefix, HasSuffix;
    var inner := Split(address, ':');
    BracketedSplit(address);
    SplitCharacters(address, ':');
    OuterBrackets(inner);
  }

  lemma OpensWithBracket(token: string)
    ensures HasPrefix(token, "[") <==> token != "" && token[0] == '['
  {
    if token != "" {
      assert token[..1] == [token[0]];
    }
  }

  lemma OuterBrackets(inner: seq<string>)
    requires |inner| > 1 && forall i, j :: 0 <= i < |inner| && 0 <= j < |inner[i]| ==> inner[i][j] != '['
    ensures var t := [['['] + inner[0]] + inner[1..|inner| - 1] + [inner[|inner| - 1] + [']']];
            && HasPrefix(t[0], "[") && HasSuffix(t[|t| - 1], "]")
            && (forall i :: 0 < i < |t| ==> !HasPrefix(t[i], "["))
  {
    var n := |inner| - 1;
    var t := [['['] + inner[0]] + inner[1..n] + [inner[n] + [']']];
    assert t[0] == ['['] + inner[0] && t[|t| - 1] == inner[n] + [']'];
    forall i | 0 < i < |t| ensures !HasPrefix(t[i], "[") {
      assert t[i] == if i < n then inner[i] else inner[n] + [']'];
      OpensWithBracket(t[i]);
    }
  }

  lemma BracketedJoin(address: string)
    requires ':' in address
    ensures Unbracket(AddressTokens(address)) == address
  {
    var bracketed := PrintAddress(address);
    JoinSplit(bracketed, ':');
    assert bracketed[1..] == address + "]";
    assert (address + "]")[..|address|] == address;
  }

  lemma PlainTokens(address: string)
    requires BracketFree(address) && ':' !in address
    ensures AddressTokens(address) == [address] && !HasSuffix(address, "]")
  {
    SplitPlain(address, ':');
    assert address != "" ==> address[|address| - 1] in address;
  }

  /** Reading from the end recovers a printed address whatever stands before it. */
  lemma TakeAddressPrinted(before: seq<string>, address: string)
    requires BracketFree(address)
    ensures TakeAddress(before + AddressTokens(address)) == (address, before)
  {
    var t := AddressTokens(address);
    var tokens := before + t;
    hide HasPrefix, HasSuffix, AddressTokens, Unbracket, OpeningToken;
    if ':' in address {
      BracketedTokens(address);
      BracketedJoin(address);
      OpensFirst(before, t);
      assert tokens[|before|..] == t && tokens[..|before|] == before;
    } else {
      PlainTokens(address);
      assert tokens[..|tokens| - 1] == before;
    }
  }

  lemma OpensFirst(before: seq<string>, t: seq<string>)
    requires t != [] && HasPrefix(t[0], "[") && forall i :: 0 < i < |t| ==> !HasPrefix(t[i], "[")
    ensures OpeningToken(before + t, |before + t| - 1) == |before|
  {
    hide HasPrefix;
    var tokens := before + t;
    var i := OpeningToken(tokens, |tokens| - 1);
    assert tokens[|before|] == t[0];
    forall j | |before| < j < |tokens| ensures !HasPrefix(tokens[j], "[") {
      assert tokens[j] == t[j - |before|];
    }
    assert i == |before|;
  }

  lemma PortsPrinted(spec: Spec)
    requires ValidPorts(spec)
    ensures ParsePorts(spec.firstAddr, Decimal(spec.firstPort), spec.secondAddr, Decimal(spec.secondPort)) == Ok(spec)
  {
    AtoiDecimal(spec.firstPort);
    AtoiDecimal(spec.secondPort);
  }

  /** The long branch reads a whole spec back, and never looks at what precedes its first address. */
  lemma ParseLongPrinted(before: seq<string>, spec: Spec)
    requires Printable(spec)
    requires spec.firstAddr == "" ==> before == []
    ensures ParseLong(before + (if spec.firstAddr == "" then [] else AddressTokens(spec.firstAddr))
                      + [Decimal(spec.firstPort)] + AddressTokens(spec.secondAddr)
                      + [Decimal(spec.secondPort)]) == Ok(spec)
  {
    var fp, sp := Decimal(spec.firstPort), Decimal(spec.secondPort);
    var first := if spec.firstAddr == "" then [] else AddressTokens(spec.firstAddr);
    var second := AddressTokens(spec.secondAddr);
    var rest := before + first + [fp];
    var tokens := rest + second + [sp];
    PortsPrinted(spec);
    assert tokens[..|tokens| - 1] == rest + second;
    TakeAddressPrinted(rest, spec.secondAddr);
    assert rest[..|rest| - 1] == before + first;
    AtoiDecimal(spec.secondPort);
    if spec.firstAddr != "" {
      TakeAddressPrinted(before, spec.firstAddr);
    }
  }

  lemma SplitHostPortPlain(host: string, port: string)
    requires BracketFree(host) && ':' !in host && BracketFree(port) && ':' !in port
    ensures SplitHostPort(host + ":" + port) == Some((host, port))
  {
    var s := host + ":" + port;
    assert s[|host|] == ':';
    var i := LastIndex(s, ':');
    assert forall j :: |host| < j < |s| ==> s[j] in port;
    assert s[..i] == host && s[i + 1..] == port;
  }

  /** What `net.SplitHostPort` takes: a host without colons or brackets, or a bracketed one without brackets
      inside, a colon, and a port without colons or brackets. */
  lemma HostPortExactly(s: string, host: string, port: string)
    ensures SplitHostPort(s) == Some((host, port)) <==>
              && BracketFree(host) && BracketFree(port) && ':' !in port
              && ((':' !in host && s == host + ":" + port) || s == "[" + host + "]:" + port)
  {
    if SplitHostPort(s) == Some((host, port)) { HostPortForward(s, host, port); }
    if BracketFree(host) && BracketFree(port) && ':' !in port {
      if ':' !in host && s == host + ":" + port { SplitHostPortPlain(host, port); }
      if s == "[" + host + "]:" + port { SplitHostPortBracketed(host, port); }
    }
  }

  lemma HostPortForward(s: string, host: string, port: string)
    requires SplitHostPort(s) == Some((host, port))
    ensures BracketFree(host) && BracketFree(port) && ':' !in port
    ensures (':' !in host && s == host + ":" + port) || s == "[" + host + "]:" + port
  {
    hide LastIndex, Index;
    var i := LastIndex(s, ':');
    assert ':' !in s[i + 1..];
    if s[0] == '[' {
      var end := Index(s, ']');
      assert s == [s[0]] + s[1..end] + [s[end]] + [s[end + 1]] + s[i + 1..];
      assert s[end + 1..] == [s[i]] + s[i + 1..];
      assert forall c :: c in s[1..end] ==> c in s[1..] && c in s[..end];
      assert forall c :: c in s[i + 1..] ==> c in s[1..];
    } else {
      assert s == s[..i] + [s[i]] + s[i + 1..];
      assert forall c :: c in s[..i] || c in s[i + 1..] ==> c in s;
    }
  }

  lemma SplitHostPortBracketed(host: string, port: string)
    requires BracketFree(host) && BracketFree(port) && ':' !in port
    ensures SplitHostPort("[" + host + "]:" + port) == Some((host, port))
  {
    hide LastIndex, Index;
    var s := "[" + host + "]:" + port;
    var n := |host| + 1;
    assert s[n] == ']' && s[n + 1] == ':';
    assert s[1..n] == host && s[n + 2..] == port && s[n + 1..] == ":" + port;
    assert forall j :: n + 1 < j < |s| ==> s[j] == port[j - n - 2];
    assert forall j :: 0 < j < n ==> s[j] == host[j - 1];
    assert LastIndex(s, ':') == n + 1;
    FirstClosing(s, n);
    assert s[1..] == host + "]:" + port;
  }

  lemma {:induction false} FirstClosing(s: string, n: nat)
    requires n < |s| && s[n] == ']' && forall j :: 0 <= j < n ==> s[j] != ']'
    ensures Index(s, ']') == n
  {
    if n > 0 { FirstClosing(s[1..], n - 1); }
  }

  // ---------- Main results ----------

  /** A value that is a number alone means that port on both sides. */
  lemma OnePort(p: nat)
    ensures Parse(Decimal(p)) == if ValidPort(p) then Ok(Spec("", p, "", p))
                                 else if p <= MAX_INT64 then Err(PortRange) else Err(Malformed)
  {
    hide Atoi;
    DecimalHasNoPunctuation(p);
    SplitPlain(Decimal(p), ':');
    if p <= MAX_INT64 { AtoiDecimal(p); } else { AtoiTooBig(p); }
  }

  predicate HoldsPort(tokens: seq<string>, p: int) { exists t :: t in tokens && Atoi(t) == Some(p) }

  /** An accepted value has its second port after its last colon, and its first port between two colons or
      at an end. */
  lemma PortsComeFromText(value: string)
    requires Parse(value).Ok?
    ensures var spec, tokens := Parse(value).value, Split(value, ':');
            Atoi(tokens[|tokens| - 1]) == Some(spec.secondPort) && HoldsPort(tokens, spec.firstPort)
  {
    hide Atoi, SplitHostPort, Split;
    var tokens := Split(value, ':');
    if |tokens| == 3 {
      PortAfterColon(value, 1);
    } else if |tokens| == 4 {
      PortAfterColon(value, 0);
      PortAfterColon(value, 2);
    } else if |tokens| > 4 {
      PortsOfLong(tokens);
    }
  }

  lemma PortAfterColon(value: string, k: nat)
    requires var tokens := Split(value, ':');
             k + 1 < |tokens| && SplitHostPort(tokens[k] + ":" + tokens[k + 1]).Some?
    ensures var tokens := Split(value, ':');
            SplitHostPort(tokens[k] + ":" + tokens[k + 1]).value.1 == tokens[k + 1]
  {
    hide Split;
    var tokens := Split(value, ':');
    SplitCharacters(value, ':');
    assert ':' !in tokens[k + 1];
    AfterLastColon(tokens[k], tokens[k + 1]);
  }

  lemma AfterLastColon(a: string, b: string)
    requires ':' !in b && SplitHostPort(a + ":" + b).Some?
    ensures SplitHostPort(a + ":" + b).value.1 == b
  {
    hide LastIndex, Index;
    var s := a + ":" + b;
    assert s[|a|] == ':';
    assert forall j :: |a| < j < |s| ==> s[j] == b[j - |a| - 1] && s[j] in b;
    assert LastIndex(s, ':') == |a|;
    assert s[|a| + 1..] == b;
  }

  lemma PortsOfLong(tokens: seq<string>)
    requires |tokens| > 1 && ParseLong(tokens).Ok?
    ensures var spec := ParseLong(tokens).value;
            Atoi(tokens[|tokens| - 1]) == Some(spec.secondPort) && HoldsPort(tokens, spec.firstPort)
  {
    hide Atoi;
    var n := |tokens| - 1;
    var rest := TakeAddress(tokens[..n]).1;
    TakeLeavesPrefix(tokens[..n]);
    assert rest[|rest| - 1] == tokens[|rest| - 1];
  }

  lemma TakeLeavesPrefix(tokens: seq<string>)
    requires tokens != []
    ensures TakeAddress(tokens).1 <= tokens
  {}

  /** The one printable shape the parser cannot read back: no first address, and a second address
      with a single colon, which lands in the four-token branch. */
  predicate Unreadable(spec: Spec) {
    spec.firstAddr == "" && multiset(spec.secondAddr)[':'] == 1
  }

  lemma SingleColonRejected(spec: Spec)
    requires Printable(spec) && Unreadable(spec)
    ensures Parse(Print(spec)) == Err(Malformed)
  {
    PrintedTokens(spec);
    assert ':' in spec.secondAddr;
    BracketedTokens(spec.secondAddr);
    var tokens := Split(Print(spec), ':');
    assert tokens[1] == AddressTokens(spec.secondAddr)[0];
    var s := tokens[0] + ":" + tokens[1];
    DecimalHasNoPunctuation(spec.firstPort);
    assert s[|tokens[0]| + 1] == '[';
    assert s[0] == tokens[0][0] != '[';
    assert SplitHostPort(s).None?;
  }

  lemma ParsePrintedShort(spec: Spec)
    requires Printable(spec) && ':' !in spec.firstAddr && ':' !in spec.secondAddr
    ensures Parse(Print(spec)) == Ok(spec)
  {
    hide Split, SplitHostPort, Decimal, Print, AddressTokens, ParsePorts, ParseLong, HasSuffix;
    PrintedTokens(spec);
    PortsPrinted(spec);
    PlainTokens(spec.firstAddr);
    PlainTokens(spec.secondAddr);
    var fp, sp := Decimal(spec.firstPort), Decimal(spec.secondPort);
    DecimalHasNoPunctuation(spec.firstPort);
    DecimalHasNoPunctuation(spec.secondPort);
    SplitHostPortPlain(spec.firstAddr, fp);
    SplitHostPortPlain(spec.secondAddr, sp);
    var tokens := Split(Print(spec), ':');
    if spec.firstAddr != "" {
      assert tokens == [spec.firstAddr, fp, spec.secondAddr, sp];
    } else if spec.secondAddr != "" {
      assert tokens == [fp, spec.secondAddr, sp];
    } else {
      assert tokens == [fp, sp];
    }
  }

  lemma ParsePrintedLong(spec: Spec)
    requires Printable(spec) && !Unreadable(spec) && (':' in spec.firstAddr || ':' in spec.secondAddr)
    ensures Parse(Print(spec)) == Ok(spec)
  {
    hide Split, SplitHostPort, Decimal, Print, AddressTokens, ParsePorts, ParseLong, HasPrefix, HasSuffix;
    PrintedTokens(spec);
    if ':' in spec.firstAddr { BracketedTokens(spec.firstAddr); }
    if ':' in spec.secondAddr { BracketedTokens(spec.secondAddr); }
    var tokens := Split(Print(spec), ':');
    assert |tokens| > 4;
    var first := if spec.firstAddr == "" then [] else AddressTokens(spec.firstAddr);
    assert [] + first == first;
    ParseLongPrinted([], spec);
  }

  lemma ParsePrinted(spec: Spec)
    requires Printable(spec) && !Unreadable(spec)
    ensures Parse(Print(spec)) == Ok(spec)
  {
    if ':' in spec.firstAddr || ':' in spec.secondAddr {
      ParsePrintedLong(spec);
    } else {
      ParsePrintedShort(spec);
    }
  }

  /** Printing then parsing gives the spec back exactly when the shape is readable. */
  lemma RoundTrip(spec: Spec)
    requires Printable(spec)
    ensures Parse(Print(spec)) == Ok(spec) <==> !Unreadable(spec)
  {
    if Unreadable(spec) { SingleColonRejected(spec); } else { ParsePrinted(spec); }
  }

  /** The accepted language is larger than the printed one: whatever stands before a spec that has
      a first address is ignored, so infinitely many strings mean the same mapping. */
  lemma LeadingTokensIgnored(junk: string, spec: Spec)
    requires Printable(spec) && spec.firstAddr != ""
    ensures Parse(junk + ":" + Print(spec)) == Ok(spec)
  {
    hide Split, Print, AddressTokens, ParseLong, Decimal;
    SplitConcat(junk, Print(spec), ':');
    PrintedTokens(spec);
    var before := Split(junk, ':');
    var first, second := AddressTokens(spec.firstAddr), AddressTokens(spec.secondAddr);
    var fp, sp := [Decimal(spec.firstPort)], [Decimal(spec.secondPort)];
    assert before + (first + fp + second + sp) == before + first + fp + second + sp;
    ParseLongPrinted(before, spec);
  }

  /** No two printable specs share a printed form, unless both are unreadable. */
  lemma PrintInjective(a: Spec, b: Spec)
    requires Printable(a) && Printable(b) && Print(a) == Print(b)
    requires !Unreadable(a)
    ensures a == b
  {
    RoundTrip(a);
    RoundTrip(b);
    if Unreadable(b) { SingleColonRejected(b); }
  }

  // ---------- Validation and the mapping lists ----------

  /** `net.IP`. Parsing an address is Go's `net.ParseIP`, a parameter of the model. */
  datatype IP = IP(bytes: seq<bv8>) {
    /** `ip.To4() != nil`: four bytes, or sixteen with the IPv4-mapped prefix. */
    predicate IsIPv4() {
      || |bytes| == 4
      || (|bytes| == 16 && bytes[..12] == [0, 0, 0, 0, 0, 0, 0, 0, 0, 0, 0xff, 0xff])
    }
  }

  /** The addresses that `To4` reads as IPv4: four bytes, alone or after ten zeros and two ones. */
  lemma IPv4Exactly(ip: IP)
    ensures ip.IsIPv4() <==>
              exists a: seq<bv8> ::
                |a| == 4 && (ip.bytes == a || ip.bytes == [0, 0, 0, 0, 0, 0, 0, 0, 0, 0, 0xff, 0xff] + a)
  {
    if ip.IsIPv4() {
      var a := if |ip.bytes| == 4 then ip.bytes else ip.bytes[12..];
      assert |ip.bytes| == 16 ==> ip.bytes == ip.bytes[..12] + a;
      assert |a| == 4 && (ip.bytes == a || ip.bytes == [0, 0, 0, 0, 0, 0, 0, 0, 0, 0, 0xff, 0xff] + a);
    }
  }

  const LOOPBACK := IP([0, 0, 0, 0, 0, 0, 0, 0, 0, 0, 0, 0, 0, 0, 0, 1])

  datatype Mapping = Mapping(listenIP: Option<IP>, listenPort: int, mappedIP: IP, mappedPort: int)

  datatype SetError =
    | BadSpec(error: ParseError)
    | NoDestination
    | NotIPv6(address: string)
    | ListenNotEmpty
    | InvalidListen(address: string)
    | InvalidMapped(address: string)

  type IPParser = string -> Option<IP>

  /** `buildMapping`. */
  function BuildMapping(value: string, isLocal: bool, parseIP: IPParser): Result<Mapping, SetError> {
    match Parse(value)
    case Err(e) => Err(BadSpec(e))
    case Ok(spec) =>
      var mapped := parseIP(spec.secondAddr);
      if isLocal && spec.secondAddr == "" then Err(NoDestination)
      else if isLocal && (mapped.None? || mapped.value.IsIPv4()) then Err(NotIPv6(spec.secondAddr))
      else if !isLocal && spec.firstAddr != "" then Err(ListenNotEmpty)
      else if spec.firstAddr != "" && parseIP(spec.firstAddr).None? then Err(InvalidListen(spec.firstAddr))
      else if spec.secondAddr != "" && mapped.None? then Err(InvalidMapped(spec.secondAddr))
      else
        Ok(Mapping(if spec.firstAddr != "" then parseIP(spec.firstAddr) else None, spec.firstPort,
                   if spec.secondAddr != "" then mapped.value else LOOPBACK, spec.secondPort))
  }

  /** What a list may hold: a local mapping goes to an IPv6 address, a remote one listens nowhere else. */
  predicate Sound(m: Mapping, isLocal: bool) {
    && ValidPort(m.listenPort) && ValidPort(m.mappedPort)
    && (isLocal ==> !m.mappedIP.IsIPv4())
    && (!isLocal ==> m.listenIP == None)
  }

  /** What a local and a remote list make of a port alone: the one needs a destination, the other listens on
      that port and maps it to the same port of the local host. */
  lemma MappingOfOnePort(p: nat, parseIP: IPParser)
    requires ValidPort(p)
    ensures BuildMapping(Decimal(p), true, parseIP) == Err(NoDestination)
    ensures BuildMapping(Decimal(p), false, parseIP) == Ok(Mapping(None, p, LOOPBACK, p))
  {
    hide Parse;
    OnePort(p);
  }

  /** Which printed specs a local list (`-local-tcp`, `-local-udp`) takes, and as what. */
  lemma LocalMappingOfPrinted(spec: Spec, parseIP: IPParser)
    requires Printable(spec) && !Unreadable(spec)
    ensures var r := BuildMapping(Print(spec), true, parseIP);
            && (r.Ok? <==> && spec.secondAddr != ""
                           && parseIP(spec.secondAddr).Some? && !parseIP(spec.secondAddr).value.IsIPv4()
                           && (spec.firstAddr == "" || parseIP(spec.firstAddr).Some?))
            && (r.Ok? ==> r.value == Mapping(if spec.firstAddr == "" then None else parseIP(spec.firstAddr),
                                             spec.firstPort, parseIP(spec.secondAddr).value, spec.secondPort))
  {
    RoundTrip(spec);
  }

  /** Which printed specs a remote list (`-remote-tcp`, `-remote-udp`) takes, and as what. */
  lemma RemoteMappingOfPrinted(spec: Spec, parseIP: IPParser)
    requires Printable(spec) && !Unreadable(spec)
    ensures var r := BuildMapping(Print(spec), false, parseIP);
            && (r.Ok? <==> spec.firstAddr == "" && (spec.secondAddr == "" || parseIP(spec.secondAddr).Some?))
            && (r.Ok? ==> r.value == Mapping(None, spec.firstPort,
                                             if spec.secondAddr == "" then LOOPBACK
                                             else parseIP(spec.secondAddr).value, spec.secondPort))
  {
    RoundTrip(spec);
  }

  /** `TCPLocalMappings`, `TCPRemoteMappings`, `UDPLocalMappings` and `UDPRemoteMappings`, which
      differ only in the flag they pass to `buildMapping`. */
  class Mappings {
    const isLocal: bool
    const parseIP: IPParser
    var items: seq<Mapping>

    ghost predicate Valid()
      reads this
    {
      forall m :: m in items ==> Sound(m, isLocal)
    }

    constructor (isLocal: bool, parseIP: IPParser)
      ensures Valid() && items == [] && this.isLocal == isLocal && this.parseIP == parseIP
    {
      this.isLocal, this.parseIP, items := isLocal, parseIP, [];
    }

    /** A value is appended whole or leaves the list as it was. */
    method Set(value: string) returns (r: Result<(), SetError>)
      requires Valid()
      modifies this
      ensures Valid()
      ensures var m := BuildMapping(value, isLocal, parseIP);
              && r.Ok? == m.Ok?
              && (m.Ok? ==> items == old(items) + [m.value])
              && (m.Err? ==> items == old(items) && r.error == m.error)
    {
      var parsed := ParseMappingString(value);
      if parsed.Err? { return Err(BadSpec(parsed.error)); }
      var spec := parsed.value;
      if isLocal {
        if spec.secondAddr == "" { return Err(NoDestination); }
        var ip := parseIP(spec.secondAddr);
        if ip.None? || ip.value.IsIPv4() { return Err(NotIPv6(spec.secondAddr)); }
      } else {
        if spec.firstAddr != "" { return Err(ListenNotEmpty); }
      }
      var listenIP, mappedIP := None, LOOPBACK;
      if spec.firstAddr != "" {
        listenIP := parseIP(spec.firstAddr);
        if listenIP.None? { return Err(InvalidListen(spec.firstAddr)); }
      }
      if spec.secondAddr != "" {
        var ip := parseIP(spec.secondAddr);
        if ip.None? { return Err(InvalidMapped(spec.secondAddr)); }
        mappedIP := ip.value;
      }
      items := items + [Mapping(listenIP, spec.firstPort, mappedIP, spec.secondPort)];
      return Ok(());
    }
  }
}
