/** Printing and parsing of network addresses (src/net.c). Strings end where the C string has its
    terminating zero. */
module Address {
  import opened Wire

  /** struct netaddr; an IPv6 address is never produced by the parser itself. */
  datatype Adr = Loopback | IPv4(address: seq<byte>, port: int) | IPv6(bytes: seq<byte>, port: int)

  predicate ValidIPv4(a: Adr) {
    a.IPv4? && |a.address| == 4 && 0 <= a.port < 65536
  }

  const DEFAULT_PORT := 27500

  predicate Digit(c: char) {
    '0' <= c <= '9'
  }

  predicate Digits(s: string) {
    forall i | 0 <= i < |s| :: Digit(s[i])
  }

  predicate StartsWith(s: string, c: char) {
    s != "" && s[0] == c
  }

  predicate StartsWithDigit(s: string) {
    s != "" && Digit(s[0])
  }

  // ---- Decimal numbers ----

  function DigitValue(c: char): (v: nat)
    ensures v < 10
  {
    if Digit(c) then c as int - '0' as int else 0
  }

  /** The number a digit string stands for. */
  function Value(s: string): nat {
    if s == "" then 0 else 10 * Value(s[..|s| - 1]) + DigitValue(s[|s| - 1])
  }

  /** The length of the longest run of digits at the front. */
  function Run(s: string): (n: nat)
    ensures n <= |s|
  {
    if !StartsWithDigit(s) then 0 else 1 + Run(s[1..])
  }

  /** What the decimal reader accepts: the whole run of digits, when it has one within the limit. */
  function Accepted(s: string, max: nat): (n: nat)
    ensures n <= |s|
  {
    if Value(s[..Run(s)]) <= max then Run(s) else 0
  }

  lemma {:induction false} RunIsMaximal(s: string)
    ensures Digits(s[..Run(s)]) && !StartsWithDigit(s[Run(s)..])
  {
    if StartsWithDigit(s) {
      RunIsMaximal(s[1..]);
      var n := Run(s[1..]);
      assert s[..n + 1] == [s[0]] + s[1..][..n];
      assert s[n + 1..] == s[1..][n..];
    }
  }

  lemma {:induction false} RunAt(s: string, n: nat)
    requires n <= Run(s)
    ensures n < Run(s) <==> n < |s| && Digit(s[n])
  {
    if n > 0 {
      RunAt(s[1..], n - 1);
    }
  }

  lemma {:induction false} RunOf(d: string, t: string)
    requires Digits(d) && !StartsWithDigit(t)
    ensures Run(d + t) == |d|
  {
    if d == "" {
      assert d + t == t;
    } else {
      assert (d + t)[1..] == d[1..] + t;
      RunOf(d[1..], t);
    }
  }

  lemma {:induction false} ValueGrows(s: string, n: nat)
    requires n <= |s|
    ensures Value(s[..n]) <= Value(s)
  {
    if n < |s| {
      ValueGrows(s[..|s| - 1], n);
      assert s[..|s| - 1][..n] == s[..n];
    } else {
      assert s[..n] == s;
    }
  }

  /** NET_StringDecToUInt on the string from `start`. It accepts the maximal run of digits exactly when
      its value is within the limit, and the value it builds on the way never passes ten times the
      limit plus nine. */
  method StringDecToUInt(s: string, start: nat, max: nat) returns (len: nat, value: nat)
    requires start <= |s|
    ensures len == Accepted(s[start..], max)
    ensures len > 0 ==> value == Value(s[start..start + len]) <= max
    ensures value <= 10 * max + 9
  {
    ghost var t := s[start..];
    len, value := 0, 0;
    while start + len < |s| && Digit(s[start + len]) && value <= max
      invariant len <= Run(t) && value == Value(t[..len]) && value <= 10 * max + 9
    {
      assert s[start + len] == t[len] && t[..len + 1][..len] == t[..len];
      RunAt(t, len);
      value := value * 10;
      value := value + DigitValue(s[start + len]);
      len := len + 1;
    }
    assert t[..Run(t)][..len] == t[..len];
    ValueGrows(t[..Run(t)], len);
    if value > max {
      return 0, value;
    }
    assert s[start..start + len] == t[..len];
    RunAt(t, len);
  }

  /** `%d` of a number that is not negative. */
  function Dec(n: nat): string {
    if n < 10 then [('0' as int + n) as char] else Dec(n / 10) + [('0' as int + n % 10) as char]
  }

  lemma {:induction false} DecReadsBack(n: nat)
    ensures Dec(n) != "" && Digits(Dec(n)) && Value(Dec(n)) == n
  {
    var d := Dec(n);
    if n >= 10 {
      DecReadsBack(n / 10);
      assert d[..|d| - 1] == Dec(n / 10);
    } else {
      assert d[..0] == "" && Value("") == 0;
    }
  }

  lemma AcceptedOf(d: string, t: string, max: nat)
    requires d != "" && Digits(d) && !StartsWithDigit(t) && Value(d) <= max
    ensures Accepted(d + t, max) == |d| && (d + t)[..|d|] == d && (d + t)[|d|..] == t
  {
    RunOf(d, t);
    assert (d + t)[..|d|] == d;
  }

  // ---- Dotted quads ----

  type Parsed = Option<(seq<byte>, string)>

  function Prepend(a: seq<byte>, q: Parsed): Parsed {
    match q
    case None => None
    case Some((b, rest)) => Some((a + b, rest))
  }

  /** The numbers from the `i`-th on, and what follows them. */
  function Quad(s: string, i: nat): (r: Parsed)
    requires i < 4
    ensures r.Some? ==> |r.value.0| == 4 - i
    decreases 4 - i
  {
    var n := Accepted(s, 255);
    if n == 0 then None
    else
      var (v, rest) := (Value(s[..n]), s[n..]);
      if i == 3 then
        if Ends(rest) then Some(([v], rest)) else None
      else if !StartsWith(rest, '.') then None
      else Prepend([v], Quad(rest[1..], i + 1))
  }

  predicate Ends(t: string) {
    t == "" || StartsWith(t, ':')
  }

  /** With the first `i` numbers `a` read, the outcome is what the rest from `pos` makes of it. */
  ghost predicate Reading(whole: Parsed, a: seq<byte>, s: string, pos: nat, i: nat)
    requires i <= 4 && pos <= |s|
  {
    whole == if i < 4 then Prepend(a, Quad(s[pos..], i)) else Some((a, s[pos..]))
  }

  /** One number of the address and the separator after it. */
  method StringToByte(ghost whole: Parsed, ghost a: seq<byte>, s: string, pos: nat, i: nat)
    returns (ok: bool, next: nat, value: byte)
    requires i < 4 && pos <= |s| && Reading(whole, a, s, pos, i)
    ensures if ok then pos < next <= |s| && Reading(whole, a + [value], s, next, i + 1) else whole == None
  {
    hide Prepend, Accepted, Value, Quad;
    var r, v := StringDecToUInt(s, pos, 255);
    if r == 0 {
      QuadStops(a, s, pos, i);
      return false, pos, 0;
    }
    next, value := pos + r, v;
    if i == 3 {
      QuadEnds(a, s, pos);
      ok := next == |s| || s[next] == ':';
    } else {
      QuadGoesOn(a, s, pos, i);
      ok := next < |s| && s[next] == '.';
      next := next + 1;
    }
  }

  /** NET_StringToIPv4: the length consumed, zero on failure. */
  method StringToIPv4(s: string) returns (len: nat, address: seq<byte>)
    ensures len == 0 <==> Quad(s, 0) == None
    ensures len > 0 ==> len <= |s| && Quad(s, 0) == Some((address, s[len..]))
  {
    len, address := 0, [];
    ghost var whole := Quad(s, 0);
    StartReading(s);
    hide *;
    var i := 0;
    while i < 4
      invariant 0 <= i <= 4 && len <= |s| && (i > 0 ==> len > 0)
      invariant Reading(whole, address, s, len, i)
    {
      var ok, next, value := StringToByte(whole, address, s, len, i);
      if !ok {
        return 0, address;
      }
      len, address := next, address + [value];
      i := i + 1;
    }
    DoneReading(whole, address, s, len);
  }

  lemma StartReading(s: string)
    ensures Reading(Quad(s, 0), [], s, 0, 0)
  {
    assert s[0..] == s;
    PrependNothing(Quad(s, 0));
  }

  lemma DoneReading(whole: Parsed, a: seq<byte>, s: string, pos: nat)
    requires pos <= |s| && Reading(whole, a, s, pos, 4)
    ensures whole == Some((a, s[pos..]))
  {
  }

  lemma PrependNothing(q: Parsed)
    ensures Prepend([], q) == q
  {
    if q.Some? {
      assert [] + q.value.0 == q.value.0;
    }
  }

  lemma QuadStops(a: seq<byte>, s: string, pos: nat, i: nat)
    requires i < 4 && pos <= |s| && Accepted(s[pos..], 255) == 0
    ensures Prepend(a, Quad(s[pos..], i)) == None
  {
  }

  lemma AcceptedBound(s: string, pos: nat, max: nat)
    requires pos <= |s|
    ensures var k := pos + Accepted(s[pos..], max);
            && s[pos..][..k - pos] == s[pos..k] && s[pos..][k - pos..] == s[k..]
            && (k > pos ==> Value(s[pos..k]) <= max)
  {
    var k := pos + Accepted(s[pos..], max);
    assert s[pos..][..k - pos] == s[pos..k];
  }

  lemma QuadEnds(a: seq<byte>, s: string, pos: nat)
    requires pos <= |s| && Accepted(s[pos..], 255) > 0
    ensures var k := pos + Accepted(s[pos..], 255);
            && Value(s[pos..k]) <= 255
            && Prepend(a, Quad(s[pos..], 3))
               == if k == |s| || s[k] == ':' then Some((a + [Value(s[pos..k])], s[k..])) else None
  {
    hide Value, Accepted;
    AcceptedBound(s, pos, 255);
  }

  lemma QuadGoesOn(a: seq<byte>, s: string, pos: nat, i: nat)
    requires i < 3 && pos <= |s| && Accepted(s[pos..], 255) > 0
    ensures var k := pos + Accepted(s[pos..], 255);
            && Value(s[pos..k]) <= 255
            && Prepend(a, Quad(s[pos..], i))
               == if k < |s| && s[k] == '.' then Prepend(a + [Value(s[pos..k])], Quad(s[k + 1..], i + 1)) else None
  {
    hide Value, Accepted, Prepend;
    AcceptedBound(s, pos, 255);
    var k := pos + Accepted(s[pos..], 255);
    if k < |s| && s[k] == '.' {
      assert s[k..][1..] == s[k + 1..];
      PrependTwice(a, [Value(s[pos..k])], Quad(s[k + 1..], i + 1));
    } else {
      PrependFailure(a);
    }
  }

  lemma PrependFailure(a: seq<byte>)
    ensures Prepend(a, None) == None
  {
  }

  lemma PrependTwice(a: seq<byte>, b: seq<byte>, q: Parsed)
    ensures Prepend(a, Prepend(b, q)) == Prepend(a + b, q)
  {
    if q.Some? {
      assert a + (b + q.value.0) == a + b + q.value.0;
    }
  }

  /** A piece of the address: digits that stand for a byte. */
  predicate Part(d: string) {
    d != "" && Digits(d) && Value(d) <= 255
  }

  function Joined(a: string, b: string, c: string, d: string, t: string): string {
    a + ("." + (b + ("." + (c + ("." + (d + t))))))
  }

  /** Every four decimal bytes joined by dots are read, whatever their leading zeros... */
  lemma QuadOf(a: string, b: string, c: string, d: string, t: string)
    requires Part(a) && Part(b) && Part(c) && Part(d) && Ends(t)
    ensures Quad(Joined(a, b, c, d, t), 0) == Some(([Value(a), Value(b), Value(c), Value(d)], t))
  {
    hide Value, Accepted, Quad, Part, Ends;
    LastPart(d, t);
    NextPart(c, d + t, 2);
    NextPart(b, c + ("." + (d + t)), 1);
    NextPart(a, b + ("." + (c + ("." + (d + t)))), 0);
    var all := [Value(a), Value(b), Value(c), Value(d)];
    assert [Value(a)] + ([Value(b)] + ([Value(c)] + [Value(d)])) == all;
  }

  lemma LastPart(d: string, t: string)
    requires Part(d) && Ends(t)
    ensures Quad(d + t, 3) == Some(([Value(d)], t))
  {
    AcceptedOf(d, t, 255);
  }

  lemma NextPart(d: string, t: string, i: nat)
    requires Part(d) && i < 3
    ensures Quad(d + ("." + t), i) == Prepend([Value(d)], Quad(t, i + 1))
  {
    AcceptedOf(d, "." + t, 255);
    assert ("." + t)[1..] == t;
  }

  lemma PartRead(s: string)
    requires Accepted(s, 255) > 0
    ensures Part(s[..Accepted(s, 255)])
  {
    RunIsMaximal(s);
  }

  /** ... and nothing else is. */
  lemma OnlyQuads(s: string)
    requires Quad(s, 0).Some?
    ensures exists a, b, c, d, t :: Part(a) && Part(b) && Part(c) && Part(d) && Ends(t) && s == Joined(a, b, c, d, t)
  {
    hide Quad, Part, Ends;
    var a, s1 := SplitPart(s, 0);
    var b, s2 := SplitPart(s1, 1);
    var c, s3 := SplitPart(s2, 2);
    var d, t := SplitLast(s3);
    assert s == Joined(a, b, c, d, t);
  }

  lemma SplitLast(s: string) returns (d: string, t: string)
    requires Quad(s, 3).Some?
    ensures Part(d) && Ends(t) && s == d + t
  {
    hide Value;
    var n := Accepted(s, 255);
    PartRead(s);
    d, t := s[..n], s[n..];
  }

  lemma SplitPart(s: string, i: nat) returns (d: string, rest: string)
    requires i < 3 && Quad(s, i).Some?
    ensures Part(d) && s == d + ("." + rest) && Quad(rest, i + 1).Some?
  {
    hide Value;
    var n := Accepted(s, 255);
    PartRead(s);
    d, rest := s[..n], s[n..][1..];
    assert s == s[..n] + s[n..] && s[n..] == "." + rest;
  }

  // ---- Addresses ----

  /** Everything up to the first colon. */
  function HostName(s: string): (r: string)
    ensures r <= s
  {
    if s == "" || s[0] == ':' then "" else [s[0]] + HostName(s[1..])
  }

  /** What follows the host: nothing, or a colon and a port that ends the string. */
  function Port(rest: string): Option<nat> {
    if rest == "" then Some(DEFAULT_PORT)
    else if rest[0] != ':' then None
    else
      var n := Accepted(rest[1..], 65535);
      if n == 0 || n < |rest| - 1 then None else Some(Value(rest[1..]))
  }

  /** NET_StringToNetAddrNoPort: the address and what is left. `resolve` is the name service. */
  function Host(s: string, resolve: string -> Option<Adr>): Option<(Adr, string)> {
    if s == "local" then Some((Loopback, ""))
    else match Quad(s, 0)
      case Some((a, rest)) => Some((IPv4(a, 0), rest))
      case None =>
        var name := HostName(s);
        match resolve(name)
        case Some(a) => if name == "" then None else Some((a, s[|name|..]))
        case None => None
  }

  function WithPort(a: Adr, port: nat): Option<Adr> {
    match a
    case IPv4(b, _) => Some(IPv4(b, port))
    case IPv6(b, _) => Some(IPv6(b, port))
    case Loopback => if port != DEFAULT_PORT then None else Some(a)
  }

  function Parse(s: string, resolve: string -> Option<Adr>): Option<Adr> {
    match Host(s, resolve)
    case None => None
    case Some((a, rest)) =>
      match Port(rest)
      case None => None
      case Some(port) => WithPort(a, port)
  }

  lemma HostStep(s: string, end: nat)
    requires end <= |s|
    ensures s[..end] + HostName(s[end..])
            == if end == |s| || s[end] == ':' then s[..end] else s[..end + 1] + HostName(s[end + 1..])
  {
    if end < |s| && s[end] != ':' {
      assert s[end..][1..] == s[end + 1..] && s[..end + 1] == s[..end] + [s[end]];
    }
  }

  /** strchr(s, ':'), or the end of the string. */
  method HostEnd(s: string) returns (end: nat)
    ensures end <= |s| && s[..end] == HostName(s)
  {
    hide HostName;
    end := 0;
    assert s[0..] == s && [] + HostName(s) == HostName(s);
    while end < |s| && s[end] != ':'
      invariant end <= |s| && HostName(s) == s[..end] + HostName(s[end..])
    {
      HostStep(s, end);
      end := end + 1;
    }
    HostStep(s, end);
  }

  /** NET_StringToNetAddrNoPort; the IPv6 parser always gives up. */
  method StringToNetAddrNoPort(s: string, resolve: string -> Option<Adr>) returns (len: nat, a: Option<Adr>)
    ensures match Host(s, resolve)
            case None => len == 0
            case Some((b, rest)) => 0 < len <= |s| && a == Some(b) && s[len..] == rest
  {
    hide Quad, HostName;
    if s == "local" {
      return 5, Some(Loopback);
    }
    var address;
    len, address := StringToIPv4(s);
    if len > 0 {
      return len, Some(IPv4(address, 0));
    }
    var end := HostEnd(s);
    a := resolve(s[..end]);
    len := if a.Some? then end else 0;
  }

  /** NET_StringToAdr */
  method StringToAdr(s: string, resolve: string -> Option<Adr>) returns (a: Option<Adr>)
    ensures a == Parse(s, resolve)
  {
    hide Host;
    var len, base := StringToNetAddrNoPort(s, resolve);
    if len == 0 {
      return None;
    }
    ghost var rest := s[len..];
    var port := DEFAULT_PORT;
    var pos := len;
    if pos < |s| && s[pos] == ':' {
      pos := pos + 1;
      assert rest[1..] == s[pos..];
      var n, value := StringDecToUInt(s, pos, 65535);
      if n == 0 {
        return None;
      }
      port := value;
      pos := pos + n;
    }
    if pos != |s| {
      return None;
    }
    assert len < |s| ==> s[len + 1..|s|] == rest[1..];
    a := WithPort(base.value, port);
  }

  /** NET_BaseAdrToString and NET_AdrToString of an IPv4 address. */
  function BaseToString(a: Adr): string
    requires ValidIPv4(a)
  {
    Joined(Dec(a.address[0]), Dec(a.address[1]), Dec(a.address[2]), Dec(a.address[3]), "")
  }

  function ToString(a: Adr): string
    requires ValidIPv4(a)
  {
    Joined(Dec(a.address[0]), Dec(a.address[1]), Dec(a.address[2]), Dec(a.address[3]), ":" + Dec(a.port))
  }

  lemma PrintedQuad(a: Adr, t: string)
    requires ValidIPv4(a) && Ends(t)
    ensures Quad(Joined(Dec(a.address[0]), Dec(a.address[1]), Dec(a.address[2]), Dec(a.address[3]), t), 0)
            == Some((a.address, t))
  {
    hide Quad, Dec;
    DecReadsBack(a.address[0]);
    DecReadsBack(a.address[1]);
    DecReadsBack(a.address[2]);
    DecReadsBack(a.address[3]);
    QuadOf(Dec(a.address[0]), Dec(a.address[1]), Dec(a.address[2]), Dec(a.address[3]), t);
    assert a.address == [a.address[0], a.address[1], a.address[2], a.address[3]];
  }

  lemma PrintedPort(port: nat)
    requires port < 65536
    ensures Port(":" + Dec(port)) == Some(port)
  {
    hide Dec;
    DecReadsBack(port);
    AcceptedOf(Dec(port), "", 65535);
    assert Dec(port) + "" == Dec(port) && (":" + Dec(port))[1..] == Dec(port);
  }

  lemma LocalIsNoQuad()
    ensures Quad("local", 0) == None
  {
    assert Run("local") == 0;
  }

  /** Parsing the printed form gives the address back, whatever the name service says; without the
      port, the default one. */
  lemma PrintedReadsBack(a: Adr, resolve: string -> Option<Adr>)
    requires ValidIPv4(a)
    ensures Parse(ToString(a), resolve) == Some(a)
    ensures Parse(BaseToString(a), resolve) == Some(IPv4(a.address, DEFAULT_PORT))
  {
    hide Quad, Joined, Port, Dec;
    PrintedQuad(a, ":" + Dec(a.port));
    PrintedQuad(a, "");
    PrintedPort(a.port);
    LocalIsNoQuad();
    assert Port("") == Some(DEFAULT_PORT) by { NoPort(); }
  }

  lemma NoPort()
    ensures Port("") == Some(DEFAULT_PORT)
  {
  }

  /** What the loopback address prints as is not what the parser takes for it: it is looked up like any
      host name, so it comes back exactly when the name service says so. */
  lemma LoopbackIsLookedUp(resolve: string -> Option<Adr>)
    ensures Parse("local", resolve) == Some(Loopback)
    ensures Parse("loopback", resolve) == Some(Loopback) <==> resolve("loopback") == Some(Loopback)
  {
    assert Quad("loopback", 0) == None by { assert Run("loopback") == 0; }
    hide Quad, Parse;
    ParsesName("local", resolve);
    ParsesName("loopback", resolve);
  }

  // ---- What any string is parsed as ----

  predicate Colonless(s: string) {
    forall i | 0 <= i < |s| :: s[i] != ':'
  }

  predicate PortNumber(x: string) {
    x != "" && Digits(x) && Value(x) <= 65535
  }

  /** The address `a` with the port; the loopback has none but the default. */
  predicate HasPort(r: Option<Adr>, a: Adr, port: nat) {
    match a
    case IPv4(b, _) => r == Some(IPv4(b, port))
    case IPv6(b, _) => r == Some(IPv6(b, port))
    case Loopback => r == if port == 27500 then Some(Loopback) else None
  }

  /** Up to the first colon is the host name. */
  lemma {:induction false} HostNameOf(name: string, t: string)
    requires Colonless(name) && Ends(t)
    ensures HostName(name + t) == name
  {
    if name == "" {
      assert name + t == t;
    } else {
      assert (name + t)[1..] == name[1..] + t;
      HostNameOf(name[1..], t);
    }
  }

  /** Digits and dots hold no colon, so that the first one ends the address. */
  lemma ColonEnds(a: string, b: string, c: string, d: string, t: string, name: string, x: string)
    requires Part(a) && Part(b) && Part(c) && Part(d) && Ends(t) && Colonless(name)
    requires Joined(a, b, c, d, t) == name + (":" + x)
    ensures t == ":" + x && name == Joined(a, b, c, d, "")
  {
    hide Value;
    JoinedFront(a, b, c, d, t);
    NoColonInside(a, b, c, d);
    FirstColon(Joined(a, b, c, d, ""), t, name, x);
  }

  /** There is one way to split at the first colon. */
  lemma FirstColon(front: string, t: string, name: string, x: string)
    requires Colonless(front) && Ends(t) && Colonless(name) && front + t == name + (":" + x)
    ensures front == name && t == ":" + x
  {
    hide HostName;
    HostNameOf(front, t);
    HostNameOf(name, ":" + x);
    var s := front + t;
    assert t == s[|front|..] && ":" + x == s[|name|..];
  }

  lemma ColonInside(front: string, t: string)
    ensures StartsWith(t, ':') ==> !Colonless(front + t)
  {
    if StartsWith(t, ':') {
      assert (front + t)[|front|] == ':';
    }
  }

  lemma JoinedFront(a: string, b: string, c: string, d: string, t: string)
    ensures Joined(a, b, c, d, t) == Joined(a, b, c, d, "") + t
  {
    assert d + "" == d;
  }

  lemma NoColonInside(a: string, b: string, c: string, d: string)
    requires Digits(a) && Digits(b) && Digits(c) && Digits(d)
    ensures Colonless(Joined(a, b, c, d, ""))
  {
    var s1 := "." + (d + "");
    assert Colonless(s1);
    var s2 := "." + (c + s1);
    assert Colonless(s2);
    var s3 := "." + (b + s2);
    assert Colonless(s3);
  }

  /** A colon and what is behind it make no difference to whether there is an IPv4 address in front. */
  lemma QuadBeforeColon(name: string, x: string)
    requires Colonless(name)
    ensures Quad(name + (":" + x), 0)
            == match Quad(name, 0) case None => None case Some((a, _)) => Some((a, ":" + x))
    ensures Quad(name, 0).Some? ==> Quad(name, 0).value.1 == ""
  {
    hide Quad, Part, Joined;
    if Quad(name, 0).Some? {
      OnlyQuads(name);
      var a, b, c, d, t :| Part(a) && Part(b) && Part(c) && Part(d) && Ends(t) && name == Joined(a, b, c, d, t);
      JoinedFront(a, b, c, d, t);
      ColonInside(Joined(a, b, c, d, ""), t);
      QuadOf(a, b, c, d, "");
      QuadOf(a, b, c, d, ":" + x);
      JoinedFront(a, b, c, d, ":" + x);
      assert name + "" == name;
    } else if Quad(name + (":" + x), 0).Some? {
      OnlyQuads(name + (":" + x));
      var a, b, c, d, t :| Part(a) && Part(b) && Part(c) && Part(d) && Ends(t)
                           && name + (":" + x) == Joined(a, b, c, d, t);
      ColonEnds(a, b, c, d, t, name, x);
      QuadOf(a, b, c, d, "");
    }
  }

  /** The port is read if and only if nothing but digits of a number up to 65535 follow the colon. */
  lemma PortReads(x: string)
    ensures Port(":" + x) == if PortNumber(x) then Some(Value(x)) else None
  {
    assert (":" + x)[1..] == x;
    RunIsMaximal(x);
    assert Run(x) == |x| ==> x[..Run(x)] == x;
    if Digits(x) {
      RunOf(x, "");
      assert x + "" == x;
    }
  }

  /** A string without a colon: the loopback, an IPv4 address or what the name service says, with the default
      port. The name service is asked for the whole string. */
  lemma ParsesName(name: string, resolve: string -> Option<Adr>)
    requires Colonless(name)
    ensures name == "local" ==> Parse(name, resolve) == Some(Loopback)
    ensures Quad(name, 0).Some? ==> Parse(name, resolve) == Some(IPv4(Quad(name, 0).value.0, 27500))
    ensures name != "local" && Quad(name, 0) == None ==>
              if name == "" || resolve(name) == None then Parse(name, resolve) == None
              else HasPort(Parse(name, resolve), resolve(name).value, 27500)
  {
    hide Quad;
    LocalIsNoQuad();
    NoPort();
    HostNameOf(name, "");
    assert name + "" == name && name[|name|..] == "";
    if Quad(name, 0).Some? {
      QuadBeforeColon(name, "");
    }
  }

  /** A string with a colon: an IPv4 address, or what the name service says about the part before the first colon,
      with the port behind it; everything else fails. The loopback's own name is looked up here as well. */
  lemma ParsesHostAndPort(name: string, x: string, resolve: string -> Option<Adr>)
    requires Colonless(name)
    ensures !PortNumber(x) ==> Parse(name + (":" + x), resolve) == None
    ensures PortNumber(x) && Quad(name, 0).Some? ==>
              Parse(name + (":" + x), resolve) == Some(IPv4(Quad(name, 0).value.0, Value(x)))
    ensures PortNumber(x) && Quad(name, 0) == None ==>
              if name == "" || resolve(name) == None then Parse(name + (":" + x), resolve) == None
              else HasPort(Parse(name + (":" + x), resolve), resolve(name).value, Value(x))
  {
    hide Quad, PortNumber, Port;
    var s := name + (":" + x);
    assert s[|name|] == ':' && s != "local" by { assert ':' !in "local"; }
    QuadBeforeColon(name, x);
    PortReads(x);
    HostNameOf(name, ":" + x);
    assert s[|name|..] == ":" + x;
  }

  /** Every string is of one of the two kinds. */
  lemma {:induction false} SplitAtColon(s: string) returns (name: string, x: string)
    ensures Colonless(name) && (s == name || s == name + (":" + x))
  {
    if s == "" {
      name, x := "", "";
    } else if s[0] == ':' {
      name, x := "", s[1..];
      assert s == name + (":" + x);
    } else {
      var n, y := SplitAtColon(s[1..]);
      name, x := [s[0]] + n, y;
      assert s == [s[0]] + s[1..];
      assert [s[0]] + (n + (":" + y)) == name + (":" + y);
    }
  }

  /** In particular a host name with a printed port: both come back. */
  lemma HostAndPrintedPort(name: string, port: nat, resolve: string -> Option<Adr>)
    requires Colonless(name) && name != "" && Quad(name, 0) == None && port < 65536 && resolve(name).Some?
    ensures HasPort(Parse(name + (":" + Dec(port)), resolve), resolve(name).value, port)
  {
    hide Quad, Dec, HasPort;
    DecReadsBack(port);
    ParsesHostAndPort(name, Dec(port), resolve);
  }
}
