/** Domain endpoints: parsing host, host:port and [host]:port, and printing them back. */
module Endpoint {
  import opened Decimal
  import opened Wrappers

  // ---------- Strings ----------

  /** White space as Unicode defines it. */
  predicate IsSpace(c: char)
  {
    var n := c as int;
    9 <= n <= 13 || n in {0x20, 0x85, 0xA0, 0x1680, 0x2028, 0x2029, 0x202F, 0x205F, 0x3000} || 0x2000 <= n <= 0x200A
  }

  function TrimLeft(s: string): string
  {
    if s != "" && IsSpace(s[0]) then TrimLeft(s[1..]) else s
  }

  function TrimRight(s: string): string
  {
    if s != "" && IsSpace(s[|s| - 1]) then TrimRight(s[..|s| - 1]) else s
  }

  function TrimSpace(s: string): string
  {
    TrimRight(TrimLeft(s))
  }

  function LastIndex(s: string, c: char): (i: int)
    ensures -1 <= i < |s|
    ensures i >= 0 ==> s[i] == c
    ensures forall j | i < j < |s| :: s[j] != c
  {
    if s == "" then -1 else if s[|s| - 1] == c then |s| - 1 else LastIndex(s[..|s| - 1], c)
  }

  function Index(s: string, c: char): (i: int)
    ensures -1 <= i < |s|
    ensures i >= 0 ==> s[i] == c && forall j | 0 <= j < i :: s[j] != c
    ensures i == -1 ==> c !in s
  {
    if s == "" then -1
    else if s[0] == c then 0
    else
      var i := Index(s[1..], c);
      assert s == [s[0]] + s[1..];
      if i < 0 then -1 else i + 1
  }

  // ---------- Splitting and joining ----------

  datatype AddrError = MissingPort | TooManyColons | OtherAddr

  datatype HostPort = HostPort(host: string, port: string)

  /** The library's split of host:port and [host]:port. */
  function SplitHostPort(s: string): Result<HostPort, AddrError>
  {
    var i := LastIndex(s, ':');
    if i < 0 then Err(MissingPort)
    else if s[0] == '[' then
      var end := Index(s, ']');
      if end < 0 then Err(OtherAddr)
      else if end + 1 == |s| then Err(MissingPort)
      else if end + 1 == i then
        if '[' in s[1..] || ']' in s[end + 1..] then Err(OtherAddr)
        else Ok(HostPort(s[1..end], s[i + 1..]))
      else if s[end + 1] == ':' then Err(TooManyColons)
      else Err(MissingPort)
    else if ':' in s[..i] then Err(TooManyColons)
    else if '[' in s || ']' in s then Err(OtherAddr)
    else Ok(HostPort(s[..i], s[i + 1..]))
  }

  function JoinHostPort(host: string, port: string): string
  {
    if ':' in host then ['['] + host + [']', ':'] + port else host + [':'] + port
  }

  // ---------- Endpoints ----------

  datatype Target = Target(host: string, port: int)

  datatype Error = Unsupported | BadPort | PortRange | EmptyHost | BareIPv6 | BadAddress

  const HTTPS_PORT := 443

  function TrimBrackets(host: string): string
  {
    var h := if host != "" && host[0] == '[' then host[1..] else host;
    if h != "" && h[|h| - 1] == ']' then h[..|h| - 1] else h
  }

  function NewDomainTarget(host: string, port: int): Result<Target, Error>
  {
    var h := TrimBrackets(TrimSpace(host));
    if h == "" then Err(EmptyHost)
    else if port < 1 || port > 65535 then Err(PortRange)
    else Ok(Target(h, port))
  }

  function ParsePort(port: string): Result<int, Error>
  {
    match Atoi(port)
    case None => Err(BadPort)
    case Some(n) => if n < 1 || n > 65535 then Err(PortRange) else Ok(n)
  }

  /** An empty value is an empty target; `isIP` is the library's address test. */
  function ParseDomainTarget(value: string, isIP: string -> bool): Result<Target, Error>
  {
    var raw := TrimSpace(value);
    if raw == "" then Ok(Target("", 0))
    else if '/' in raw || '?' in raw || '#' in raw then Err(Unsupported)
    else ParseAuthority(raw, isIP)
  }

  function ParseAuthority(raw: string, isIP: string -> bool): Result<Target, Error>
  {
    match SplitHostPort(raw)
    case Ok(HostPort(host, port)) =>
      (match ParsePort(port)
       case Err(e) => Err(e)
       case Ok(n) => NewDomainTarget(host, n))
    case Err(MissingPort) => NewDomainTarget(raw, HTTPS_PORT)
    case Err(TooManyColons) => if isIP(raw) then NewDomainTarget(raw, HTTPS_PORT) else Err(BareIPv6)
    case Err(OtherAddr) => Err(BadAddress)
  }

  function FormatHTTPSAuthority(host: string, port: nat): string
  {
    if port == HTTPS_PORT then (if ':' in host then ['['] + host + [']'] else host)
    else JoinHostPort(host, Itoa(port))
  }

  // ---------- Round trip ----------

  predicate GoodHostChar(c: char)
  {
    !IsSpace(c) && c != '[' && c != ']' && c != '/' && c != '?' && c != '#'
  }

  predicate GoodHost(host: string)
  {
    host != "" && forall c | c in host :: GoodHostChar(c)
  }

  lemma NothingToTrim(s: string)
    requires s != "" ==> !IsSpace(s[0]) && !IsSpace(s[|s| - 1])
    ensures TrimSpace(s) == s
  {
  }

  lemma {:induction false} LastIndexBefore(a: string, c: char, b: string)
    requires c !in b
    ensures LastIndex(a + [c] + b, c) == |a|
  {
    var s := a + [c] + b;
    if b != "" {
      LastIndexBefore(a, c, b[..|b| - 1]);
      assert s[..|s| - 1] == a + [c] + b[..|b| - 1];
      assert s[|s| - 1] == b[|b| - 1];
    }
  }

  lemma IndexAfter(a: string, c: char, b: string)
    requires c !in a
    ensures Index(a + [c] + b, c) == |a|
  {
    var s := a + [c] + b;
    assert s[|a|] == c;
    assert forall j | 0 <= j < |a| :: s[j] == a[j];
  }

  lemma GoodHostHas(host: string)
    requires GoodHost(host)
    ensures '[' !in host && ']' !in host
  {
  }

  lemma SplitAtColon(s: string, i: nat)
    requires i < |s| && LastIndex(s, ':') == i && s[0] != '[' && ':' !in s[..i] && '[' !in s && ']' !in s
    ensures SplitHostPort(s) == Ok(HostPort(s[..i], s[i + 1..]))
  {
  }

  lemma PlainParts(host: string, port: string)
    requires host != ""
    ensures var s := host + [':'] + port; s[..|host|] == host && s[|host| + 1..] == port && s[0] == host[0]
  {
  }

  /** Splitting undoes joining. */
  lemma SplitJoined(host: string, port: string)
    requires GoodHost(host) && forall c | c in port :: IsDigit(c)
    ensures SplitHostPort(JoinHostPort(host, port)) == Ok(HostPort(host, port))
  {
    GoodHostHas(host);
    if ':' in host {
      SplitBracketed(host, port);
    } else {
      LastIndexBefore(host, ':', port);
      PlainParts(host, port);
      SplitAtColon(host + [':'] + port, |host|);
    }
  }

  lemma SplitAtBracket(s: string, end: nat)
    requires end + 1 < |s| && s[0] == '[' && Index(s, ']') == end && LastIndex(s, ':') == end + 1
    requires '[' !in s[1..] && ']' !in s[end + 1..]
    ensures SplitHostPort(s) == Ok(HostPort(s[1..end], s[end + 2..]))
  {
  }

  lemma BracketedParts(host: string, port: string)
    ensures var s, end := ['['] + host + [']', ':'] + port, |host| + 1;
            && s == (['['] + host + [']']) + [':'] + port
            && s == (['['] + host) + [']'] + ([':'] + port)
            && s[1..] == host + [']', ':'] + port && s[end + 1..] == [':'] + port
            && s[1..end] == host && s[end + 2..] == port
  {
  }

  lemma SplitBracketed(host: string, port: string)
    requires '[' !in host && ']' !in host && forall c | c in port :: IsDigit(c)
    ensures SplitHostPort(['['] + host + [']', ':'] + port) == Ok(HostPort(host, port))
  {
    var s, end := ['['] + host + [']', ':'] + port, |host| + 1;
    BracketedParts(host, port);
    LastIndexBefore(['['] + host + [']'], ':', port);
    IndexAfter(['['] + host, ']', [':'] + port);
    SplitAtBracket(s, end);
  }

  lemma GoodHostKept(host: string, port: int)
    requires GoodHost(host) && 1 <= port <= 65535
    ensures NewDomainTarget(host, port) == Ok(Target(host, port))
  {
    assert host[0] in host && host[|host| - 1] in host;
    NothingToTrim(host);
  }

  lemma BracketsTrimmed(host: string, port: int)
    requires GoodHost(host) && 1 <= port <= 65535
    ensures NewDomainTarget(['['] + host + [']'], port) == Ok(Target(host, port))
  {
    var s := ['['] + host + [']'];
    NothingToTrim(s);
    assert s[1..] == host + [']'];
    assert (host + [']'])[..|host|] == host;
  }

  /** Parsing undoes printing, for hosts with colons and the port that is left out as for any others. */
  lemma ParsePrinted(host: string, port: nat, isIP: string -> bool)
    requires GoodHost(host) && 1 <= port <= 65535
    ensures ParseDomainTarget(FormatHTTPSAuthority(host, port), isIP) == Ok(Target(host, port))
  {
    var s := FormatHTTPSAuthority(host, port);
    PrintedIsPlain(host, port);
    NothingToTrim(s);
    if port != HTTPS_PORT {
      ItoaValue(port);
      SplitJoined(host, Itoa(port));
      AtoiItoa(port);
      GoodHostKept(host, port);
    } else if ':' in host {
      GoodHostHas(host);
      IndexAfter(['['] + host, ']', "");
      assert ['['] + host + [']'] + "" == s;
      BracketsTrimmed(host, port);
    } else {
      GoodHostKept(host, port);
    }
  }

  lemma PrintedIsPlain(host: string, port: nat)
    requires GoodHost(host)
    ensures var s := FormatHTTPSAuthority(host, port);
            s != "" && forall c | c in s :: !IsSpace(c) && c != '/' && c != '?' && c != '#'
  {
    ItoaValue(port);
  }

  // ---------- Which targets are parsed back ----------

  predicate NoSeparator(s: string)
  {
    '/' !in s && '?' !in s && '#' !in s
  }

  /** A host and a port that what is parsed may have. */
  predicate Parsed(t: Target)
  {
    t.host != "" && 1 <= t.port <= 65535 && NoSeparator(t.host)
  }

  lemma PartIn<T>(s: seq<T>, i: nat, j: nat)
    requires i <= j <= |s|
    ensures forall c | c in s[i..j] :: c in s
  {
  }

  lemma {:induction false} TrimmedIn(s: string)
    ensures forall c | c in TrimLeft(s) :: c in s
    ensures forall c | c in TrimRight(s) :: c in s
  {
    TrimLeftPart(s);
    TrimRightPart(s);
    PartIn(s, |s| - |TrimLeft(s)|, |s|);
    PartIn(s, 0, |TrimRight(s)|);
    assert s[..|TrimRight(s)|] == TrimRight(s);
  }

  lemma UnbracketedIn(s: string)
    ensures forall c | c in TrimBrackets(s) :: c in s
  {
    var i := if s != "" && s[0] == '[' then 1 else 0;
    PartIn(s, i, |s|);
    PartIn(s[i..], 0, |TrimBrackets(s)|);
    assert s[i..][..|TrimBrackets(s)|] == TrimBrackets(s);
  }

  lemma TrimmedPart(s: string)
    ensures NoSeparator(s) ==> NoSeparator(TrimSpace(s)) && NoSeparator(TrimBrackets(s))
  {
    TrimmedIn(s);
    TrimmedIn(TrimLeft(s));
    UnbracketedIn(s);
  }

  lemma {:induction false} TrimLeftPart(s: string)
    ensures |TrimLeft(s)| <= |s| && TrimLeft(s) == s[|s| - |TrimLeft(s)|..]
    ensures TrimLeft(s) != "" ==> !IsSpace(TrimLeft(s)[0])
  {
    if s != "" && IsSpace(s[0]) {
      TrimLeftPart(s[1..]);
    }
  }

  lemma {:induction false} TrimRightPart(s: string)
    ensures TrimRight(s) <= s
    ensures TrimRight(s) != "" ==> !IsSpace(TrimRight(s)[|TrimRight(s)| - 1])
  {
    if s != "" && IsSpace(s[|s| - 1]) {
      TrimRightPart(s[..|s| - 1]);
    }
  }

  /** What parses is nothing at all, or has a host without separators and a port in range. */
  lemma ParsedHas(value: string, isIP: string -> bool)
    requires ParseDomainTarget(value, isIP).Ok? && TrimSpace(value) != ""
    ensures Parsed(ParseDomainTarget(value, isIP).value)
  {
    var raw := TrimSpace(value);
    var split := SplitHostPort(raw);
    var host := if split.Ok? then split.value.host else raw;
    TrimmedPart(host);
    TrimmedPart(TrimSpace(host));
  }

  /** Printing with this condition, and only with it, can be parsed back. */
  predicate ParsesBack(t: Target, isIP: string -> bool)
  {
    var h := t.host;
    if t.port != HTTPS_PORT then TrimSpace(h) == h && '[' !in h && ']' !in h
    else if ':' !in h then TrimSpace(h) == h && h != "" && h[0] != '[' && h[|h| - 1] != ']'
    else
      var j := Index(h, ']');
      j < 0 || j + 1 == |h| || h[j + 1] != ':' || (':' in h[j + 2..] && isIP(['['] + h + [']']))
  }

  /** The length of what is trimmed shows whether anything is. */
  lemma TrimLength(s: string)
    ensures |TrimSpace(s)| <= |s| && (|TrimSpace(s)| == |s| ==> TrimSpace(s) == s)
  {
    var l := TrimLeft(s);
    TrimLeftPart(s);
    TrimRightPart(l);
    if |TrimSpace(s)| == |s| {
      assert l == s[0..] == s;
      assert TrimSpace(s) == l[..|l|];
    }
  }

  lemma BracketsLength(s: string)
    ensures |TrimBrackets(s)| <= |s|
    ensures s != "" ==> (|TrimBrackets(s)| == |s| <==> s[0] != '[' && s[|s| - 1] != ']')
    ensures s != "" && s[0] != '[' && s[|s| - 1] != ']' ==> TrimBrackets(s) == s
  {
  }

  lemma TrimmedStays(s: string)
    ensures TrimSpace(TrimSpace(s)) == TrimSpace(s)
  {
    TrimLeftPart(s);
    TrimRightPart(TrimLeft(s));
    if TrimSpace(s) != "" {
      assert TrimSpace(s)[0] == TrimLeft(s)[0];
      NothingToTrim(TrimSpace(s));
    }
  }

  /** Nothing is trimmed of a host exactly when it has no white space around it and no brackets there. */
  lemma UntrimmedIff(h: string)
    requires h != ""
    ensures TrimBrackets(TrimSpace(h)) == h <==> TrimSpace(h) == h && h[0] != '[' && h[|h| - 1] != ']'
  {
    TrimLength(h);
    BracketsLength(TrimSpace(h));
  }

  lemma ParseTrimmed(s: string, isIP: string -> bool)
    requires NoSeparator(s) && TrimSpace(s) != ""
    ensures ParseDomainTarget(s, isIP) == ParseAuthority(TrimSpace(s), isIP)
  {
    TrimmedPart(s);
  }

  lemma BareParsesBackIff(h: string, isIP: string -> bool)
    requires h != "" && NoSeparator(h) && ':' !in h
    ensures ParseDomainTarget(h, isIP) == Ok(Target(h, HTTPS_PORT)) <==> ParsesBack(Target(h, HTTPS_PORT), isIP)
  {
    var raw := TrimSpace(h);
    UntrimmedIff(h);
    if raw != "" {
      ParseTrimmed(h, isIP);
      NoColonLeft(h);
      TrimmedStays(h);
      assert SplitHostPort(raw) == Err(MissingPort);
      assert ParseAuthority(raw, isIP) == NewDomainTarget(raw, HTTPS_PORT);
    }
  }

  lemma NoColonLeft(h: string)
    requires ':' !in h
    ensures ':' !in TrimSpace(h)
  {
    TrimLeftPart(h);
    TrimRightPart(TrimLeft(h));
  }

  lemma {:induction false} LastIndexOf(s: string, c: char, i: nat)
    requires i < |s| && s[i] == c && forall j | i < j < |s| :: s[j] != c
    ensures LastIndex(s, c) == i
  {
  }

  lemma IndexOf(s: string, c: char, i: nat)
    requires i < |s| && s[i] == c && forall j | 0 <= j < i :: s[j] != c
    ensures Index(s, c) == i
  {
  }

  /** Why the library does not split a host with colons between brackets. */
  function BracketsError(h: string): AddrError
  {
    var j := Index(h, ']');
    if j < 0 || j + 1 == |h| || h[j + 1] != ':' then MissingPort
    else if ':' in h[j + 2..] then TooManyColons
    else OtherAddr
  }

  lemma SplitAfterBracket(s: string, end: nat, l: nat)
    requires s != "" && s[0] == '[' && Index(s, ']') == end && LastIndex(s, ':') == l
    ensures end + 1 == |s| || (end + 1 < |s| && s[end + 1] != ':') ==> SplitHostPort(s) == Err(MissingPort)
    ensures end + 1 < |s| && s[end + 1] == ':' && end + 1 != l ==> SplitHostPort(s) == Err(TooManyColons)
    ensures end + 1 == l && ('[' in s[1..] || ']' in s[end + 1..]) ==> SplitHostPort(s) == Err(OtherAddr)
  {
  }

  lemma {:induction false} LastColonInside(h: string)
    requires ':' in h
    ensures LastIndex(['['] + h + [']'], ':') == LastIndex(h, ':') + 1
  {
    var s, l := ['['] + h + [']'], LastIndex(h, ':');
    assert h == h[..l] + [':'] + h[l + 1..];
    assert s == (['['] + h[..l]) + [':'] + (h[l + 1..] + [']']);
    LastIndexBefore(['['] + h[..l], ':', h[l + 1..] + [']']);
  }

  lemma FirstBracketAfter(h: string)
    ensures Index(['['] + h + [']'], ']') == if Index(h, ']') < 0 then |h| + 1 else Index(h, ']') + 1
  {
    if Index(h, ']') < 0 {
      IndexAfter(['['] + h, ']', "");
      assert ['['] + h + [']'] + "" == ['['] + h + [']'];
    } else {
      FirstInside(h, [']']);
    }
  }

  lemma SplitBetweenBrackets(h: string)
    requires ':' in h
    ensures SplitHostPort(['['] + h + [']']) == Err(BracketsError(h))
  {
    var s, j, l := ['['] + h + [']'], Index(h, ']'), LastIndex(h, ':');
    LastColonInside(h);
    FirstBracketAfter(h);
    SplitAfterBracket(s, if j < 0 then |h| + 1 else j + 1, l + 1);
    if 0 <= j && j + 1 < |h| {
      assert s[j + 2] == h[j + 1];
      assert s[j + 2..][|h| - j - 1] == ']';
      if h[j + 1] == ':' {
        if ':' in h[j + 2..] {
          var k :| 0 <= k < |h[j + 2..]| && h[j + 2..][k] == ':';
          assert h[j + 2 + k] == ':';
        } else {
          LastOfColons(h, j + 1);
        }
      }
    }
  }

  lemma LastOfColons(h: string, i: nat)
    requires i < |h| && h[i] == ':' && ':' !in h[i + 1..]
    ensures LastIndex(h, ':') == i
  {
    forall k | i < k < |h|
      ensures h[k] != ':'
    {
      assert h[i + 1..][k - i - 1] == h[k];
    }
    LastIndexOf(h, ':', i);
  }

  lemma UnsplitParse(raw: string, e: AddrError, isIP: string -> bool)
    requires SplitHostPort(raw) == Err(e)
    ensures e.MissingPort? || (e.TooManyColons? && isIP(raw)) ==> ParseAuthority(raw, isIP) == NewDomainTarget(raw, HTTPS_PORT)
    ensures !(e.MissingPort? || (e.TooManyColons? && isIP(raw))) ==> ParseAuthority(raw, isIP).Err?
  {
  }

  lemma BracketedParsesBackIff(h: string, isIP: string -> bool)
    requires h != "" && NoSeparator(h) && ':' in h
    ensures ParseDomainTarget(['['] + h + [']'], isIP) == Ok(Target(h, HTTPS_PORT))
       <==> ParsesBack(Target(h, HTTPS_PORT), isIP)
  {
    var s := ['['] + h + [']'];
    NothingToTrim(s);
    assert forall c | c in s :: c == '[' || c == ']' || c in h;
    ParseTrimmed(s, isIP);
    SplitBetweenBrackets(h);
    UnsplitParse(s, BracketsError(h), isIP);
    InBrackets(h);
  }

  lemma InBrackets(h: string)
    requires h != ""
    ensures NewDomainTarget(['['] + h + [']'], HTTPS_PORT) == Ok(Target(h, HTTPS_PORT))
  {
    var s := ['['] + h + [']'];
    NothingToTrim(s);
    assert s[1..] == h + [']'] && (h + [']'])[..|h|] == h;
  }

  /** Without a port of its own a target gets the default one. */
  lemma UnsplitPort(raw: string, isIP: string -> bool)
    requires SplitHostPort(raw).Err?
    ensures ParseAuthority(raw, isIP).Ok? ==> ParseAuthority(raw, isIP).value.port == HTTPS_PORT
  {
  }

  lemma SplitPort(raw: string, host: string, port: nat, isIP: string -> bool)
    requires SplitHostPort(raw) == Ok(HostPort(host, Itoa(port))) && 1 <= port <= 65535
    ensures ParseAuthority(raw, isIP) == NewDomainTarget(host, port)
  {
    AtoiItoa(port);
  }

  lemma KeptIff(h: string, host: string, port: int)
    requires h != "" && 1 <= port <= 65535 && TrimSpace(host) == TrimSpace(h)
    ensures NewDomainTarget(host, port) == Ok(Target(h, port))
       <==> TrimSpace(h) == h && h[0] != '[' && h[|h| - 1] != ']'
  {
    UntrimmedIff(h);
  }

  lemma {:induction false} DigitsAtEnd(a: string, port: nat)
    ensures var s := a + [':'] + Itoa(port);
            s[|s| - 1] in Itoa(port) && IsDigit(s[|s| - 1]) && ':' !in Itoa(port) && LastIndex(s, ':') == |a|
  {
    ItoaValue(port);
    var s := a + [':'] + Itoa(port);
    assert s[|s| - 1] == Itoa(port)[|Itoa(port)| - 1];
    LastIndexBefore(a, ':', Itoa(port));
  }

  lemma ColonHostParsed(h: string, port: nat, isIP: string -> bool)
    requires NoSeparator(h)
    ensures var s := ['['] + h + [']', ':'] + Itoa(port); ParseDomainTarget(s, isIP) == ParseAuthority(s, isIP)
  {
    var a, s := ['['] + h + [']'], ['['] + h + [']', ':'] + Itoa(port);
    assert s == a + [':'] + Itoa(port);
    assert forall c | c in a :: c == '[' || c == ']' || c in h;
    NoSeparatorPort(a, port);
    DigitsAtEnd(a, port);
    NothingToTrim(s);
    ParseTrimmed(s, isIP);
  }

  /** A host with colons, printed between brackets and with its port. */
  lemma ColonHostParsesBackIff(h: string, port: nat, isIP: string -> bool)
    requires ':' in h && NoSeparator(h) && 1 <= port <= 65535 && port != HTTPS_PORT
    ensures ParseDomainTarget(['['] + h + [']', ':'] + Itoa(port), isIP) == Ok(Target(h, port))
       <==> ParsesBack(Target(h, port), isIP)
  {
    var d, s := Itoa(port), ['['] + h + [']', ':'] + Itoa(port);
    ItoaValue(port);
    DigitsAtEnd("", port);
    ColonHostParsed(h, port, isIP);
    if ']' in h {
      BracketInside(h, d);
      UnsplitPort(s, isIP);
    } else if '[' in h {
      OpenInside(h, d);
      UnsplitPort(s, isIP);
    } else {
      SplitBracketed(h, d);
      SplitPort(s, h, port, isIP);
      KeptIff(h, h, port);
      assert h[0] in h && h[|h| - 1] in h;
    }
  }

  lemma NoSeparatorPort(a: string, port: nat)
    ensures NoSeparator(a + [':'] + Itoa(port)) <==> NoSeparator(a)
  {
    ItoaValue(port);
    assert forall c | c in a :: c in a + [':'] + Itoa(port);
  }

  lemma FirstInside(h: string, rest: string)
    requires ']' in h
    ensures var s, j := ['['] + h + rest, Index(h, ']');
            0 <= j && Index(s, ']') == j + 1 && s[j + 1] == ']' && j + 2 < |s| + 1 && (rest != "" ==> j + 2 < |s|)
  {
    var s, j := ['['] + h + rest, Index(h, ']');
    assert s[1..] == h + rest;
    assert (h + rest)[j] == ']' && forall k | 0 <= k < j :: (h + rest)[k] == h[k];
    IndexOf(h + rest, ']', j);
  }

  lemma BracketInside(h: string, d: string)
    requires ']' in h && ':' !in d
    ensures SplitHostPort(['['] + h + [']', ':'] + d).Err?
  {
    var s, rest := ['['] + h + [']', ':'] + d, [']', ':'] + d;
    assert s == ['['] + h + rest && s == (['['] + h + [']']) + [':'] + d;
    LastIndexBefore(['['] + h + [']'], ':', d);
    FirstInside(h, rest);
    SplitAfterBracket(s, Index(h, ']') + 1, |h| + 2);
  }

  lemma OpenInside(h: string, d: string)
    requires '[' in h && ']' !in h && ':' !in d
    ensures SplitHostPort(['['] + h + [']', ':'] + d).Err?
  {
    var s := ['['] + h + [']', ':'] + d;
    BracketedParts(h, d);
    LastIndexBefore(['['] + h + [']'], ':', d);
    IndexAfter(['['] + h, ']', [':'] + d);
    InTail(h, [']', ':'] + d, '[');
    assert s[1..] == h + ([']', ':'] + d);
    SplitAfterBracket(s, |h| + 1, |h| + 2);
  }

  lemma InTail(a: string, b: string, c: char)
    ensures c in a ==> c in a + b
  {
  }

  /** A host without colons, printed with its port. */
  lemma PlainHostParsesBackIff(h: string, port: nat, isIP: string -> bool)
    requires h != "" && ':' !in h && NoSeparator(h) && 1 <= port <= 65535 && port != HTTPS_PORT
    ensures ParseDomainTarget(h + [':'] + Itoa(port), isIP) == Ok(Target(h, port))
       <==> ParsesBack(Target(h, port), isIP)
  {
    var d, g := Itoa(port), TrimLeft(h);
    var s, raw := h + [':'] + d, g + [':'] + d;
    ItoaValue(port);
    NoSeparatorPort(h, port);
    DigitsAtEnd(h, port);
    DigitsAtEnd(g, port);
    TrimmedJoined(h, d);
    ParseTrimmed(s, isIP);
    LeftTrimmedHas(h);
    if g != "" && g[0] == '[' {
      TrimLeftPart(h);
      BracketFirstLost(h, g, port, isIP);
    } else if '[' in g || ']' in g {
      BracketLater(g, d);
      UnsplitPort(raw, isIP);
    } else {
      NoBrackets(g, d);
      SplitPort(raw, g, port, isIP);
      KeptIff(h, g, port);
      assert h[0] in h && h[|h| - 1] in h;
    }
  }

  lemma BracketFirstLost(h: string, g: string, port: nat, isIP: string -> bool)
    requires g != "" && g[0] == '[' && |g| <= |h| && 1 <= port <= 65535 && port != HTTPS_PORT
    ensures ParseAuthority(g + [':'] + Itoa(port), isIP) != Ok(Target(h, port))
  {
    var raw := g + [':'] + Itoa(port);
    ItoaValue(port);
    BracketFirst(g, Itoa(port));
    if SplitHostPort(raw).Ok? {
      var host := SplitHostPort(raw).value.host;
      SplitPort(raw, host, port, isIP);
      TrimLength(host);
      BracketsLength(TrimSpace(host));
    } else {
      UnsplitPort(raw, isIP);
    }
  }

  /** Trimming on the left takes white space only. */
  lemma {:induction false} LeftTrimmedHas(h: string)
    ensures forall c | !IsSpace(c) :: c in TrimLeft(h) <==> c in h
    ensures TrimSpace(TrimLeft(h)) == TrimSpace(h)
  {
    if h != "" && IsSpace(h[0]) {
      LeftTrimmedHas(h[1..]);
      assert forall c | c in h :: c == h[0] || c in h[1..];
    } else {
      assert TrimLeft(h) == h;
    }
  }

  lemma {:induction false} TrimmedJoined(h: string, d: string)
    requires d != "" && !IsSpace(d[|d| - 1])
    ensures TrimSpace(h + [':'] + d) == TrimLeft(h) + [':'] + d
  {
    var s := h + [':'] + d;
    if h != "" && IsSpace(h[0]) {
      TrimmedJoined(h[1..], d);
      assert s[1..] == h[1..] + [':'] + d;
    } else {
      assert s[0] == if h == "" then ':' else h[0];
      NothingToTrim(s);
    }
  }

  lemma BracketFirst(g: string, d: string)
    requires g != "" && g[0] == '[' && ':' !in d
    ensures var r := SplitHostPort(g + [':'] + d);
            r.Ok? ==> r.value.port == d && |r.value.host| < |g|
  {
    LastIndexBefore(g, ':', d);
    assert (g + [':'] + d)[|g| + 1..] == d;
  }

  lemma BracketLater(g: string, d: string)
    requires g != "" && g[0] != '[' && ('[' in g || ']' in g) && ':' !in d
    ensures SplitHostPort(g + [':'] + d).Err?
  {
    var s := g + [':'] + d;
    LastIndexBefore(g, ':', d);
    assert forall c | c in g :: c in s;
  }

  lemma NoBrackets(g: string, d: string)
    requires '[' !in g && ']' !in g && ':' !in g && forall c | c in d :: IsDigit(c)
    ensures SplitHostPort(g + [':'] + d) == Ok(HostPort(g, d))
  {
    var s := g + [':'] + d;
    LastIndexBefore(g, ':', d);
    assert s[..|g|] == g && s[|g| + 1..] == d;
  }

  /** Over all hosts and ports that what parses may have: printing can be parsed back exactly under the condition. */
  lemma ParsesBackIff(t: Target, isIP: string -> bool)
    requires Parsed(t)
    ensures ParseDomainTarget(FormatHTTPSAuthority(t.host, t.port), isIP) == Ok(t) <==> ParsesBack(t, isIP)
  {
    if t.port == HTTPS_PORT {
      if ':' in t.host {
        BracketedParsesBackIff(t.host, isIP);
      } else {
        BareParsesBackIff(t.host, isIP);
      }
    } else if ':' in t.host {
      ColonHostParsesBackIff(t.host, t.port, isIP);
    } else {
      PlainHostParsesBackIff(t.host, t.port, isIP);
    }
  }

  /** Over all hosts and ports whatever: parsing undoes printing exactly for those. */
  lemma ParsePrintedIff(host: string, port: nat, isIP: string -> bool)
    ensures ParseDomainTarget(FormatHTTPSAuthority(host, port), isIP) == Ok(Target(host, port))
       <==> Parsed(Target(host, port)) && ParsesBack(Target(host, port), isIP)
  {
    var t, s := Target(host, port), FormatHTTPSAuthority(host, port);
    if Parsed(t) {
      ParsesBackIff(t, isIP);
    } else if TrimSpace(s) != "" {
      if ParseDomainTarget(s, isIP).Ok? {
        ParsedHas(s, isIP);
      }
    } else {
      PrintedZero();
    }
  }

  lemma PrintedZero()
    ensures TrimSpace(FormatHTTPSAuthority("", 0)) != ""
  {
    assert Itoa(0) == "0";
    NothingToTrim([':', '0']);
  }

  /** What parses is nothing at all or a host with a port in range; parsing what it prints gives the same under the condition only. */
  lemma PrintParsed(value: string, isIP: string -> bool)
    requires ParseDomainTarget(value, isIP).Ok? && TrimSpace(value) != ""
    ensures var t := ParseDomainTarget(value, isIP).value;
            && t.host != "" && 1 <= t.port <= 65535
            && (ParseDomainTarget(FormatHTTPSAuthority(t.host, t.port), isIP) == Ok(t) <==> ParsesBack(t, isIP))
            && (GoodHost(t.host) ==> ParsesBack(t, isIP))
  {
    var t := ParseDomainTarget(value, isIP).value;
    ParsedHas(value, isIP);
    ParsesBackIff(t, isIP);
    if GoodHost(t.host) {
      ParsePrinted(t.host, t.port, isIP);
    }
  }

  /** Only one pair of brackets is taken off: a name between two of them is printed between one, and read without. */
  lemma NestedBrackets(name: string, isIP: string -> bool)
    requires GoodHost(name) && ':' !in name
    ensures var value := ['[', '['] + name + [']', ']'];
            && ParseDomainTarget(value, isIP) == Ok(Target(['['] + name + [']'], HTTPS_PORT))
            && FormatHTTPSAuthority(['['] + name + [']'], HTTPS_PORT) == ['['] + name + [']']
            && ParseDomainTarget(['['] + name + [']'], isIP) == Ok(Target(name, HTTPS_PORT))
  {
    var one := ['['] + name + [']'];
    var two := ['['] + one + [']'];
    assert two == ['[', '['] + name + [']', ']'];
    BareParses(one, isIP);
    BareParses(two, isIP);
    InBrackets(name);
    InBrackets(one);
  }

  lemma BareParses(s: string, isIP: string -> bool)
    requires s != "" && NoSeparator(s) && ':' !in s && !IsSpace(s[0]) && !IsSpace(s[|s| - 1])
    ensures ParseDomainTarget(s, isIP) == NewDomainTarget(s, HTTPS_PORT)
  {
    NothingToTrim(s);
    ParseTrimmed(s, isIP);
  }

  // ---------- What is parsed from what ----------

  /** The code points that Unicode counts as white space. */
  const SPACES := [9, 10, 11, 12, 13, 32, 133, 160, 5760, 8192, 8193, 8194, 8195, 8196, 8197, 8198, 8199, 8200, 8201,
                   8202, 8232, 8233, 8239, 8287, 12288]

  lemma SpaceIff(c: char)
    ensures IsSpace(c) <==> c as int in SPACES
  {
  }

  lemma {:induction false} LeftPadded(before: string, s: string)
    requires forall c | c in before :: IsSpace(c)
    ensures TrimLeft(before + s) == TrimLeft(s)
  {
    if before == "" {
      assert before + s == s;
    } else {
      LeftPadded(before[1..], s);
      assert (before + s)[1..] == before[1..] + s && before[0] in before;
    }
  }

  lemma {:induction false} RightPadded(s: string, after: string)
    requires forall c | c in after :: IsSpace(c)
    ensures TrimRight(s + after) == TrimRight(s)
  {
    if after == "" {
      assert s + after == s;
    } else {
      var n := |after| - 1;
      RightPadded(s, after[..n]);
      assert (s + after)[..|s| + n] == s + after[..n] && after[n] in after;
    }
  }

  /** White space around a host or a host and port does not matter, and white space alone is an empty target. */
  lemma Padded(before: string, s: string, after: string, isIP: string -> bool)
    requires (forall c | c in before :: IsSpace(c)) && forall c | c in after :: IsSpace(c)
    requires s != "" ==> !IsSpace(s[0]) && !IsSpace(s[|s| - 1])
    ensures ParseDomainTarget(before + s + after, isIP)
         == if s == "" then Ok(Target("", 0)) else ParseDomainTarget(s, isIP)
  {
    assert before + s + after == before + (s + after);
    LeftPadded(before, s + after);
    if s == "" {
      assert s + after == after + "";
      LeftPadded(after, "");
    } else {
      assert TrimLeft(s + after) == s + after;
      RightPadded(s, after);
      NothingToTrim(s);
    }
  }

  lemma {:induction false} RightTrimmedHas(s: string)
    ensures forall c | !IsSpace(c) :: c in TrimRight(s) <==> c in s
  {
    if s != "" && IsSpace(s[|s| - 1]) {
      RightTrimmedHas(s[..|s| - 1]);
      assert s == s[..|s| - 1] + [s[|s| - 1]];
    }
  }

  /** Schemes, paths, queries and fragments are refused. */
  lemma SeparatorsRefused(value: string, isIP: string -> bool)
    requires '/' in value || '?' in value || '#' in value
    ensures ParseDomainTarget(value, isIP) == Err(Unsupported)
  {
    LeftTrimmedHas(value);
    RightTrimmedHas(TrimLeft(value));
  }

  /** A host alone has the port of HTTPS. */
  lemma HostAlone(host: string, isIP: string -> bool)
    requires GoodHost(host) && ':' !in host
    ensures ParseDomainTarget(host, isIP) == Ok(Target(host, 443))
  {
    assert host[0] in host && host[|host| - 1] in host;
    BareParses(host, isIP);
    GoodHostKept(host, HTTPS_PORT);
  }

  /** A port behind a host has to be a number, and one that a port can be. */
  lemma HostWithPort(host: string, port: string, isIP: string -> bool)
    requires GoodHost(host) && ':' !in host && (forall c | c in port :: GoodHostChar(c)) && ':' !in port
    ensures ParseDomainTarget(host + [':'] + port, isIP)
         == match Atoi(port)
            case None => Err(BadPort)
            case Some(n) => if 1 <= n <= 65535 then Ok(Target(host, n)) else Err(PortRange)
  {
    var s := host + [':'] + port;
    GoodHostHas(host);
    LastIndexBefore(host, ':', port);
    PlainParts(host, port);
    SplitAtColon(s, |host|);
    assert host[0] in host && s[|s| - 1] == if port == "" then ':' else port[|port| - 1];
    assert port != "" ==> port[|port| - 1] in port;
    NothingToTrim(s);
    if Atoi(port).Some? && 1 <= Atoi(port).value <= 65535 {
      GoodHostKept(host, Atoi(port).value);
    }
  }

  /** Several colons without brackets are an address of that kind, with the port of HTTPS, or an error. */
  lemma ColonsAlone(a: string, b: string, isIP: string -> bool)
    requires (forall c | c in a :: GoodHostChar(c)) && (forall c | c in b :: GoodHostChar(c)) && ':' in a && ':' !in b
    ensures var s := a + [':'] + b;
            ParseDomainTarget(s, isIP) == if isIP(s) then Ok(Target(s, 443)) else Err(BareIPv6)
  {
    var s := a + [':'] + b;
    LastIndexBefore(a, ':', b);
    assert s[..|a|] == a && s[0] == a[0] && a[0] in a;
    assert s[|s| - 1] == if b == "" then ':' else b[|b| - 1];
    assert b != "" ==> b[|b| - 1] in b;
    NothingToTrim(s);
    assert SplitHostPort(s) == Err(TooManyColons);
    GoodHostKept(s, HTTPS_PORT);
  }

  /** In brackets a host may stand alone as well as before a port. */
  lemma Bracketed(host: string, port: nat, isIP: string -> bool)
    requires GoodHost(host) && 1 <= port <= 65535
    ensures ParseDomainTarget("[" + host + "]", isIP) == Ok(Target(host, 443))
    ensures ParseDomainTarget("[" + host + "]:" + Itoa(port), isIP) == Ok(Target(host, port))
  {
    BracketedAlone(host, isIP);
    BracketedWithPort(host, port, isIP);
    assert "[" + host + "]:" + Itoa(port) == ['['] + host + [']', ':'] + Itoa(port);
  }

  lemma BracketedAlone(host: string, isIP: string -> bool)
    requires GoodHost(host)
    ensures ParseDomainTarget(['['] + host + [']'], isIP) == Ok(Target(host, HTTPS_PORT))
  {
    var s := ['['] + host + [']'];
    GoodHostHas(host);
    NothingToTrim(s);
    IndexAfter(['['] + host, ']', "");
    assert s + "" == s;
    BracketsTrimmed(host, HTTPS_PORT);
  }

  lemma BracketedWithPort(host: string, port: nat, isIP: string -> bool)
    requires GoodHost(host) && 1 <= port <= 65535
    ensures ParseDomainTarget(['['] + host + [']', ':'] + Itoa(port), isIP) == Ok(Target(host, port))
  {
    var s := ['['] + host + [']', ':'] + Itoa(port);
    GoodHostHas(host);
    ItoaValue(port);
    ColonHostParsed(host, port, isIP);
    SplitBracketed(host, Itoa(port));
    SplitPort(s, host, port, isIP);
    GoodHostKept(host, port);
  }
}
