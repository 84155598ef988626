/** The service strings of the command line, proxy/serviceconfig.go. `space` stands for the table of
    Unicode white space; all that is known of it is what it does not contain. */
module ServiceConfigs {
  import opened Basics
  import opened Each
  import opened Strings

  datatype ServiceConfig = ServiceConfig(serviceID: string, network: string, address: string)

  datatype Endpoint = Endpoint(network: string, address: string)

  datatype ParseError = InvalidService | InvalidAddress | InvalidPort

  const SCHEME_SEPARATOR := "://"
  const MAX_PORT := 65535

  /** Separators, digits and letters are not white space. */
  ghost predicate GoodSpace(space: char -> bool) {
    && !space(':') && !space('/') && !space('=') && !space(',')
    && (forall c :: IsDigit(c) ==> !space(c))
    && (forall c :: IsLetter(c) ==> !space(c))
  }

  predicate IsLetter(c: char) {
    'a' <= c <= 'z'
  }

  /** That is why the defaults of the parser need not be trimmed, as the program does. */
  lemma DefaultsStay(space: char -> bool)
    requires GoodSpace(space)
    ensures TrimSpace("tcp", space) == "tcp" && TrimSpace("localhost", space) == "localhost"
    ensures TrimSpace("", space) == ""
    ensures Trimmed("tcp", space) && Trimmed("localhost", space)
  {
    assert IsLetter('t') && IsLetter('p') && IsLetter('l');
    TrimmedStays("tcp", space);
    TrimmedStays("localhost", space);
    TrimmedStays("", space);
  }

  lemma TrimmedStays(s: string, space: char -> bool)
    requires Trimmed(s, space)
    ensures TrimSpace(s, space) == s
  {
    var _, _ := TrimSpaceTrims(s, space);
  }

  // ---------------------------------------------------------------------------
  //  Ports: strconv.ParseUint(port, 10, 16)
  // ---------------------------------------------------------------------------

  predicate IsDigit(c: char) {
    '0' <= c <= '9'
  }

  function ValueOf(digits: string): int {
    if digits == "" then 0
    else 10 * ValueOf(digits[..|digits| - 1]) + (digits[|digits| - 1] as int - '0' as int)
  }

  predicate IsPort(port: string) {
    port != "" && (forall i :: 0 <= i < |port| ==> IsDigit(port[i])) && ValueOf(port) <= MAX_PORT
  }

  /** Decimal notation, without leading zeros. */
  function Decimal(n: nat): string {
    if n < 10 then [DigitOf(n)] else Decimal(n / 10) + [DigitOf(n % 10)]
  }

  function DigitOf(n: nat): char
    requires n < 10
  {
    "0123456789"[n]
  }

  function Zeros(k: nat): string {
    seq(k, _ => '0')
  }

  lemma DigitsHaveValues(n: nat)
    requires n < 10
    ensures IsDigit(DigitOf(n)) && DigitOf(n) as int - '0' as int == n
  {
  }

  /** The value of a numeral is the number it denotes. */
  lemma {:induction false} ValueOfDecimal(n: nat, k: nat)
    ensures ValueOf(Zeros(k) + Decimal(n)) == n
    ensures forall i :: 0 <= i < |Zeros(k) + Decimal(n)| ==> IsDigit((Zeros(k) + Decimal(n))[i])
  {
    var s := Zeros(k) + Decimal(n);
    DigitsHaveValues(n % 10);
    if n < 10 {
      assert s[..|s| - 1] == Zeros(k);
      ZerosHaveNoValue(k);
    } else {
      assert s[..|s| - 1] == Zeros(k) + Decimal(n / 10);
      ValueOfDecimal(n / 10, k);
      assert forall i :: 0 <= i < |s| - 1 ==> s[i] == s[..|s| - 1][i];
    }
  }

  lemma {:induction false} ZerosHaveNoValue(k: nat)
    ensures ValueOf(Zeros(k)) == 0
  {
    if k > 0 {
      assert Zeros(k)[..k - 1] == Zeros(k - 1);
      ZerosHaveNoValue(k - 1);
    }
  }

  /** Digits denote a number in decimal notation, with zeros in front. */
  lemma {:induction false} DigitsAreDecimal(digits: string) returns (n: nat, k: nat)
    requires digits != "" && forall i :: 0 <= i < |digits| ==> IsDigit(digits[i])
    ensures digits == Zeros(k) + Decimal(n)
  {
    var last := digits[|digits| - 1] as int - '0' as int;
    assert DigitOf(last) == digits[|digits| - 1];
    if |digits| == 1 {
      n, k := last, 0;
    } else {
      var q, z := DigitsAreDecimal(digits[..|digits| - 1]);
      assert digits == Zeros(z) + Decimal(q) + [DigitOf(last)];
      if q == 0 {
        n, k := last, z + 1;
        assert Zeros(z) + Decimal(0) == Zeros(z + 1);
      } else {
        n, k := 10 * q + last, z;
        assert Decimal(n) == Decimal(q) + [DigitOf(last)];
        assert digits == Zeros(k) + Decimal(n);
      }
    }
  }

  /** The ports are the numbers up to 65535 in decimal notation, with any number of zeros in front. */
  lemma PortsAreNumbers(port: string)
    ensures IsPort(port) <==> exists n: nat, k: nat :: n <= 65535 && port == Zeros(k) + Decimal(n)
  {
    if IsPort(port) {
      var n, k := DigitsAreDecimal(port);
      ValueOfDecimal(n, k);
    }
    if n: nat, k: nat :| n <= 65535 && port == Zeros(k) + Decimal(n) {
      ValueOfDecimal(n, k);
    }
  }

  // ---------------------------------------------------------------------------
  //  Parsing
  // ---------------------------------------------------------------------------

  /** The address split at colons. */
  function HostPortOf(network: string, parts: seq<string>, space: char -> bool): Result<Endpoint, ParseError>
    requires parts != []
  {
    if |parts| > 2 then Err(InvalidAddress)
    else
      var host := if |parts| == 1 then "localhost" else TrimSpace(parts[0], space);
      var port := TrimSpace(parts[|parts| - 1], space);
      if IsPort(port) then Ok(Endpoint(network, host + ":" + port)) else Err(InvalidPort)
  }

  /** The URL split at "://". */
  function EndpointOf(parts: seq<string>, space: char -> bool): Result<Endpoint, ParseError>
    requires parts != []
  {
    if |parts| > 2 then Err(InvalidAddress)
    else
      var network := if |parts| == 1 then "tcp" else TrimSpace(parts[0], space);
      var address := parts[|parts| - 1];
      if network == "unix" then Ok(Endpoint(network, address)) else HostPortOf(network, Split(address, ":"), space)
  }

  function ParseURL(url: string, space: char -> bool): Result<Endpoint, ParseError> {
    EndpointOf(Split(url, SCHEME_SEPARATOR), space)
  }

  /** The service split at equals signs. */
  function ServiceOf(parts: seq<string>, space: char -> bool): Result<ServiceConfig, ParseError>
    requires parts != []
  {
    if |parts| > 2 then Err(InvalidService)
    else
      var serviceID := if |parts| == 1 then "" else TrimSpace(parts[0], space);
      var url := TrimSpace(parts[|parts| - 1], space);
      match ParseURL(url, space)
      case Err(e) => Err(e)
      case Ok(Endpoint(network, address)) => Ok(ServiceConfig(serviceID, network, address))
  }

  function ParseService(service: string, space: char -> bool): Result<ServiceConfig, ParseError> {
    ServiceOf(Split(service, "="), space)
  }

  function Parse(serviceStr: string, space: char -> bool): Result<seq<ServiceConfig>, ParseError> {
    TryEach(Split(serviceStr, ","), service => ParseService(service, space))
  }

  method ParseServiceConfig(serviceStr: string, space: char -> bool) returns (r: Result<seq<ServiceConfig>, ParseError>)
    ensures r == Parse(serviceStr, space)
  {
    var services := Split(serviceStr, ",");
    var configs := new ServiceConfig[|services|](_ => ServiceConfig("", "", ""));
    ghost var parse := service => ParseService(service, space);
    for i := 0 to |services|
      invariant TryEach(services[..i], parse) == Ok(configs[..i])
    {
      var service := ParseService(services[i], space);
      TryOneMore(services, i, parse);
      if service.Err? {
        return Err(service.error);
      }
      configs[i] := service.value;
      assert configs[..i + 1] == configs[..i] + [service.value];
    }
    assert services[..|services|] == services && configs[..|services|] == configs[..];
    return Ok(configs[..]);
  }

  // ---------------------------------------------------------------------------
  //  Printing, and what is normal
  // ---------------------------------------------------------------------------

  function PrintURL(e: Endpoint): string {
    e.network + SCHEME_SEPARATOR + e.address
  }

  function Print(c: ServiceConfig): string {
    c.serviceID + "=" + PrintURL(Endpoint(c.network, c.address))
  }

  function PrintEach(configs: seq<ServiceConfig>): seq<string> {
    seq(|configs|, i requires 0 <= i < |configs| => Print(configs[i]))
  }

  function PrintAll(configs: seq<ServiceConfig>): string
    requires configs != []
  {
    Join(PrintEach(configs), ",")
  }

  /** Free of the separators of the levels above. */
  predicate Clean(s: string) {
    ',' !in s && '=' !in s
  }

  ghost predicate HostPort(address: string, host: string, port: string, space: char -> bool) {
    address == host + ":" + port && Trimmed(host, space) && ':' !in host && IsPort(port)
  }

  /** What ParseURL makes: a trimmed network, and a unix path or a trimmed host and a port. */
  ghost predicate Resolved(e: Endpoint, space: char -> bool) {
    && Trimmed(e.network, space) && Without(e.network, SCHEME_SEPARATOR)
    && if e.network == "unix" then Without(e.address, SCHEME_SEPARATOR)
       else exists host, port :: HostPort(e.address, host, port, space)
  }

  predicate SpaceAtEnd(s: string, space: char -> bool) {
    s != "" && space(s[|s| - 1])
  }

  /** What it makes out of a service string. */
  ghost predicate NormalEndpoint(e: Endpoint, space: char -> bool) {
    && Resolved(e, space) && Clean(e.network) && Clean(e.address)
    && (e.network == "unix" ==> !SpaceAtEnd(e.address, space))
  }

  ghost predicate Normal(c: ServiceConfig, space: char -> bool) {
    Trimmed(c.serviceID, space) && Clean(c.serviceID) && NormalEndpoint(Endpoint(c.network, c.address), space)
  }

  // ---------------------------------------------------------------------------
  //  What is parsed is normal
  // ---------------------------------------------------------------------------

  lemma TrimmedPart(s: string, space: char -> bool)
    ensures Trimmed(TrimSpace(s, space), space)
    ensures forall c :: c in TrimSpace(s, space) ==> c in s
    ensures Without(s, SCHEME_SEPARATOR) ==> Without(TrimSpace(s, space), SCHEME_SEPARATOR)
  {
    var from, to := TrimSpaceTrims(s, space);
    if Without(s, SCHEME_SEPARATOR) {
      WithoutInPart(s, SCHEME_SEPARATOR, from, to);
    }
  }

  lemma ParsedHostPort(network: string, parts: seq<string>, space: char -> bool)
    requires GoodSpace(space) && parts != [] && (|parts| == 2 ==> ':' !in parts[0])
    requires HostPortOf(network, parts, space).Ok?
    ensures var e := HostPortOf(network, parts, space).value;
            e.network == network && exists host, port :: HostPort(e.address, host, port, space)
    ensures (forall k :: 0 <= k < |parts| ==> Clean(parts[k])) ==>
              Clean(HostPortOf(network, parts, space).value.address)
  {
    var port := TrimSpace(parts[|parts| - 1], space);
    TrimmedPart(parts[|parts| - 1], space);
    if |parts| == 2 {
      var host := TrimSpace(parts[0], space);
      TrimmedPart(parts[0], space);
      assert HostPort(host + ":" + port, host, port, space);
    } else {
      DefaultsStay(space);
      assert HostPort("localhost" + ":" + port, "localhost", port, space);
    }
  }

  lemma PartsAreWithoutSeparator(s: string, sep: string)
    requires sep != ""
    ensures forall k :: 0 <= k < |Split(s, sep)| ==> Without(Split(s, sep)[k], sep)
  {
    forall k | 0 <= k < |Split(s, sep)| ensures Without(Split(s, sep)[k], sep) {
      PartsAreWithout(s, sep, k);
    }
  }

  lemma CleanParts(s: string, sep: string)
    requires Clean(s) && sep != ""
    ensures forall k :: 0 <= k < |Split(s, sep)| ==> Clean(Split(s, sep)[k])
  {
    forall k | 0 <= k < |Split(s, sep)| ensures Clean(Split(s, sep)[k]) {
      if ',' in Split(s, sep)[k] {
        PartsAreParts(s, sep, k, ',');
      }
      if '=' in Split(s, sep)[k] {
        PartsAreParts(s, sep, k, '=');
      }
    }
  }

  lemma ParsedAddress(network: string, address: string, space: char -> bool)
    requires GoodSpace(space) && HostPortOf(network, Split(address, ":"), space).Ok?
    ensures var e := HostPortOf(network, Split(address, ":"), space).value;
            && e.network == network && (exists host, port :: HostPort(e.address, host, port, space))
            && (Clean(address) ==> Clean(e.address))
  {
    PartsAreWithoutSeparator(address, ":");
    NoCharacterWithout(Split(address, ":")[0], ':');
    if Clean(address) {
      CleanParts(address, ":");
    }
    ParsedHostPort(network, Split(address, ":"), space);
  }

  lemma ParsedEndpoint(parts: seq<string>, space: char -> bool)
    requires GoodSpace(space) && parts != []
    requires forall k :: 0 <= k < |parts| ==> Without(parts[k], SCHEME_SEPARATOR)
    requires EndpointOf(parts, space).Ok?
    ensures var e := EndpointOf(parts, space).value;
            && Resolved(e, space)
            && (e.network == "unix" ==> |parts| == 2 && e.address == parts[1])
            && ((forall k :: 0 <= k < |parts| ==> Clean(parts[k])) ==> Clean(e.network) && Clean(e.address))
  {
    var network := if |parts| == 1 then "tcp" else TrimSpace(parts[0], space);
    TrimmedPart(parts[0], space);
    DefaultsStay(space);
    NoSchemeInTcp();
    if network != "unix" {
      ParsedAddress(network, parts[|parts| - 1], space);
    }
  }

  /** Every result of ParseURL is resolved. */
  lemma ParsedURL(url: string, space: char -> bool)
    requires GoodSpace(space) && ParseURL(url, space).Ok?
    ensures Resolved(ParseURL(url, space).value, space)
  {
    PartsAreWithoutSeparator(url, SCHEME_SEPARATOR);
    ParsedEndpoint(Split(url, SCHEME_SEPARATOR), space);
  }

  /** The URL of a service string has no separator of the levels above and no outer white space. */
  lemma ParsedCleanURL(url: string, space: char -> bool)
    requires GoodSpace(space) && Clean(url) && Trimmed(url, space) && ParseURL(url, space).Ok?
    ensures NormalEndpoint(ParseURL(url, space).value, space)
  {
    var parts := Split(url, SCHEME_SEPARATOR);
    CleanParts(url, SCHEME_SEPARATOR);
    PartsAreWithoutSeparator(url, SCHEME_SEPARATOR);
    ParsedEndpoint(parts, space);
    if |parts| == 2 && parts[1] != "" {
      JoinOfSplit(url, SCHEME_SEPARATOR);
      assert url == parts[0] + SCHEME_SEPARATOR + parts[1];
      assert url[|url| - 1] == parts[1][|parts[1]| - 1];
    }
  }

  lemma ParsedService(service: string, space: char -> bool)
    requires GoodSpace(space) && ',' !in service && ParseService(service, space).Ok?
    ensures Normal(ParseService(service, space).value, space)
  {
    var parts := Split(service, "=");
    var url' := parts[|parts| - 1];
    forall k | 0 <= k < |parts| ensures Clean(parts[k]) {
      PartsAreWithout(service, "=", k);
      NoCharacterWithout(parts[k], '=');
      if ',' in parts[k] {
        PartsAreParts(service, "=", k, ',');
      }
    }
    TrimmedPart(parts[0], space);
    TrimmedPart(url', space);
    ParsedCleanURL(TrimSpace(url', space), space);
  }

  // ---------------------------------------------------------------------------
  //  What is normal is parsed as it is
  // ---------------------------------------------------------------------------

  lemma HostAndPort(network: string, parts: seq<string>, space: char -> bool)
    requires |parts| == 2 && TrimSpace(parts[0], space) == parts[0] && TrimSpace(parts[1], space) == parts[1]
    requires IsPort(parts[1])
    ensures HostPortOf(network, parts, space) == Ok(Endpoint(network, parts[0] + ":" + parts[1]))
  {
  }

  lemma HostPortReparses(network: string, host: string, port: string, space: char -> bool)
    requires GoodSpace(space) && HostPort(host + ":" + port, host, port, space)
    ensures HostPortOf(network, Split(host + ":" + port, ":"), space) == Ok(Endpoint(network, host + ":" + port))
  {
    PortHasNoColon(port);
    WithoutCharacter(port, ':');
    SplitNone(port, ":");
    SplitAtCharacter(host, ':', port);
    TrimmedStays(host, space);
    PortIsTrimmed(port, space);
    TrimmedStays(port, space);
    HostAndPort(network, [host] + [port], space);
  }

  lemma PortHasNoColon(port: string)
    requires IsPort(port)
    ensures ':' !in port
  {
  }

  lemma PortIsTrimmed(port: string, space: char -> bool)
    requires GoodSpace(space) && IsPort(port)
    ensures Trimmed(port, space)
  {
    assert IsDigit(port[0]) && IsDigit(port[|port| - 1]);
  }

  lemma SchemeAt(s: string, i: nat)
    ensures Occurs(s, SCHEME_SEPARATOR, i) <==> i + 3 <= |s| && s[i] == ':' && s[i + 1] == '/' && s[i + 2] == '/'
  {
    if i + 3 <= |s| {
      assert s[i..i + 3] == [s[i], s[i + 1], s[i + 2]];
    }
  }

  /** "://" does not overlap itself: no occurrence begins inside what is in front of one. */
  lemma SchemeComesFirst(network: string, address: string)
    requires Without(network, SCHEME_SEPARATOR)
    ensures forall i: nat :: i < |network| ==> !Occurs(network + SCHEME_SEPARATOR + address, SCHEME_SEPARATOR, i)
  {
    var s := network + SCHEME_SEPARATOR + address;
    forall i: nat | i < |network| ensures !Occurs(s, SCHEME_SEPARATOR, i) {
      SchemeAt(s, i);
      SchemeAt(network, i);
      assert !Occurs(network, SCHEME_SEPARATOR, i);
    }
  }

  lemma HostPortHasNoScheme(host: string, port: string)
    requires ':' !in host && IsPort(port)
    ensures Without(host + ":" + port, SCHEME_SEPARATOR)
  {
    var address := host + ":" + port;
    forall i: nat ensures !Occurs(address, SCHEME_SEPARATOR, i) {
      SchemeAt(address, i);
      assert i < |host| ==> address[i] == host[i];
      assert |host| <= i < |address| - 1 ==> IsDigit(address[i + 1]);
    }
  }

  lemma TwoPartURL(network: string, address: string, space: char -> bool)
    requires Trimmed(network, space) && Without(network, SCHEME_SEPARATOR) && Without(address, SCHEME_SEPARATOR)
    ensures ParseURL(network + SCHEME_SEPARATOR + address, space)
         == if network == "unix" then Ok(Endpoint(network, address))
            else HostPortOf(network, Split(address, ":"), space)
  {
    var parts := Split(network + SCHEME_SEPARATOR + address, SCHEME_SEPARATOR);
    assert |parts| == 2 && parts[0] == network && parts[1] == address by {
      SchemeComesFirst(network, address);
      SplitFirst(network, SCHEME_SEPARATOR, address);
      SplitNone(address, SCHEME_SEPARATOR);
    }
    TrimmedStays(network, space);
    TwoParts(parts, space);
  }

  lemma TwoParts(parts: seq<string>, space: char -> bool)
    requires |parts| == 2 && TrimSpace(parts[0], space) == parts[0]
    ensures EndpointOf(parts, space)
         == if parts[0] == "unix" then Ok(Endpoint(parts[0], parts[1]))
            else HostPortOf(parts[0], Split(parts[1], ":"), space)
  {
  }

  lemma ResolvedURLReparses(e: Endpoint, space: char -> bool)
    requires GoodSpace(space) && Resolved(e, space)
    ensures ParseURL(PrintURL(e), space) == Ok(e)
  {
    if e.network == "unix" {
      TwoPartURL(e.network, e.address, space);
    } else {
      var host, port :| HostPort(e.address, host, port, space);
      HostPortHasNoScheme(host, port);
      TwoPartURL(e.network, e.address, space);
      HostPortReparses(e.network, host, port, space);
    }
  }

  lemma NormalURLIsTrimmed(e: Endpoint, space: char -> bool)
    requires GoodSpace(space) && NormalEndpoint(e, space)
    ensures Trimmed(PrintURL(e), space) && Clean(PrintURL(e))
  {
    var url := PrintURL(e);
    assert url[0] == if e.network == "" then ':' else e.network[0];
    if e.network == "unix" {
      assert url[|url| - 1] == if e.address == "" then '/' else e.address[|e.address| - 1];
    } else {
      var host, port :| HostPort(e.address, host, port, space);
      PortIsTrimmed(port, space);
      assert url[|url| - 1] == port[|port| - 1];
    }
  }

  lemma TwoPartService(id: string, url: string, space: char -> bool)
    requires Trimmed(id, space) && Trimmed(url, space) && Clean(id) && Clean(url) && ParseURL(url, space).Ok?
    ensures var e := ParseURL(url, space).value;
            ParseService(id + "=" + url, space) == Ok(ServiceConfig(id, e.network, e.address))
  {
    var parts := Split(id + "=" + url, "=");
    assert |parts| == 2 && parts[0] == id && parts[1] == url by {
      WithoutCharacter(url, '=');
      SplitNone(url, "=");
      SplitAtCharacter(id, '=', url);
    }
    TrimmedStays(id, space);
    TrimmedStays(url, space);
    ServiceOfTwo(parts, space);
  }

  lemma ServiceOfTwo(parts: seq<string>, space: char -> bool)
    requires |parts| == 2 && TrimSpace(parts[0], space) == parts[0] && TrimSpace(parts[1], space) == parts[1]
    requires ParseURL(parts[1], space).Ok?
    ensures var e := ParseURL(parts[1], space).value;
            ServiceOf(parts, space) == Ok(ServiceConfig(parts[0], e.network, e.address))
  {
  }

  lemma ServiceReparses(c: ServiceConfig, space: char -> bool)
    requires GoodSpace(space) && Normal(c, space)
    ensures ParseService(Print(c), space) == Ok(c) && ',' !in Print(c)
  {
    ResolvedURLReparses(Endpoint(c.network, c.address), space);
    NormalURLIsTrimmed(Endpoint(c.network, c.address), space);
    TwoPartService(c.serviceID, PrintURL(Endpoint(c.network, c.address)), space);
  }

  // ---------------------------------------------------------------------------
  //  The main results
  // ---------------------------------------------------------------------------

  /** The results of ParseURL, on any string, are exactly the resolved endpoints, and printing one and
      parsing it again gives the same. */
  lemma URLsResolve(e: Endpoint, space: char -> bool)
    requires GoodSpace(space)
    ensures (exists url :: ParseURL(url, space) == Ok(e)) <==> Resolved(e, space)
    ensures Resolved(e, space) ==> ParseURL(PrintURL(e), space) == Ok(e)
  {
    if url :| ParseURL(url, space) == Ok(e) {
      ParsedURL(url, space);
    }
    if Resolved(e, space) {
      ResolvedURLReparses(e, space);
    }
  }

  /** The results of the parser are exactly the non-empty lists of normal configurations: whatever is
      accepted parses to one, and each of them is what its own printed form parses to. */
  lemma ResultsAreTheNormalOnes(configs: seq<ServiceConfig>, space: char -> bool)
    requires GoodSpace(space)
    ensures (exists s :: Parse(s, space) == Ok(configs))
       <==> configs != [] && forall i :: 0 <= i < |configs| ==> Normal(configs[i], space)
  {
    if s :| Parse(s, space) == Ok(configs) {
      ParsedAreNormal(s, space);
    }
    if configs != [] && forall i :: 0 <= i < |configs| ==> Normal(configs[i], space) {
      NormalReparse(configs, space);
      assert Parse(PrintAll(configs), space) == Ok(configs);
    }
  }

  lemma ParsedAreNormal(s: string, space: char -> bool)
    requires GoodSpace(space) && Parse(s, space).Ok?
    ensures var configs := Parse(s, space).value;
            configs != [] && forall i :: 0 <= i < |configs| ==> Normal(configs[i], space)
  {
    var configs, services := Parse(s, space).value, Split(s, ",");
    EachOneByOne(services, configs, service => ParseService(service, space));
    forall i | 0 <= i < |configs| ensures Normal(configs[i], space) {
      PartsAreWithout(s, ",", i);
      NoCharacterWithout(services[i], ',');
      ParsedService(services[i], space);
    }
  }

  lemma NormalReparse(configs: seq<ServiceConfig>, space: char -> bool)
    requires GoodSpace(space) && configs != [] && forall i :: 0 <= i < |configs| ==> Normal(configs[i], space)
    ensures Parse(PrintAll(configs), space) == Ok(configs)
  {
    var services := PrintEach(configs);
    forall i | 0 <= i < |configs| ensures ParseService(services[i], space) == Ok(configs[i]) && ',' !in services[i] {
      ServiceReparses(configs[i], space);
    }
    SplitOfJoin(services, ',');
    EachOneByOne(services, configs, service => ParseService(service, space));
  }

  /** Whatever the parser accepts, printing the configurations and parsing again gives the same. */
  lemma NormalFormRoundTrip(s: string, space: char -> bool)
    requires GoodSpace(space) && Parse(s, space).Ok?
    ensures Parse(s, space).value != []
    ensures Parse(PrintAll(Parse(s, space).value), space) == Parse(s, space)
  {
    ParsedAreNormal(s, space);
    NormalReparse(Parse(s, space).value, space);
  }

  /** A host and a port between separators, whatever white space is around them. */
  lemma HostPortForm(network: string, host: string, port: string, space: char -> bool)
    requires ':' !in host && ':' !in port
    ensures HostPortOf(network, Split(host + ":" + port, ":"), space)
         == if IsPort(TrimSpace(port, space))
            then Ok(Endpoint(network, TrimSpace(host, space) + ":" + TrimSpace(port, space)))
            else Err(InvalidPort)
    ensures HostPortOf(network, Split(port, ":"), space)
         == if IsPort(TrimSpace(port, space))
            then Ok(Endpoint(network, "localhost" + ":" + TrimSpace(port, space)))
            else Err(InvalidPort)
  {
    WithoutCharacter(port, ':');
    SplitNone(port, ":");
    SplitAtCharacter(host, ':', port);
    TwoOfTwo(host, port);
  }

  lemma TwoOfTwo(a: string, b: string)
    ensures var parts := [a] + [b]; |parts| == 2 && parts[0] == a && parts[1] == b
  {
  }

  /** A third part, of the URL or of the address, is refused. */
  lemma ThreePartsAreRefused(network: string, a: string, b: string, c: string, space: char -> bool)
    requires ':' !in a && ':' !in b
    ensures HostPortOf(network, Split(a + ":" + (b + ":" + c), ":"), space) == Err(InvalidAddress)
    ensures Without(network, SCHEME_SEPARATOR) && Without(a, SCHEME_SEPARATOR) ==>
              ParseURL(network + SCHEME_SEPARATOR + (a + SCHEME_SEPARATOR + b), space) == Err(InvalidAddress)
  {
    SplitAtCharacter(a, ':', b + ":" + c);
    SplitAtCharacter(b, ':', c);
    if Without(network, SCHEME_SEPARATOR) && Without(a, SCHEME_SEPARATOR) {
      SchemeComesFirst(network, a + SCHEME_SEPARATOR + b);
      SplitFirst(network, SCHEME_SEPARATOR, a + SCHEME_SEPARATOR + b);
      SchemeComesFirst(a, b);
      SplitFirst(a, SCHEME_SEPARATOR, b);
    }
  }

  /** A URL with a scheme: what the parts are, for all parts and all white space around them. */
  lemma FullForm(network: string, host: string, port: string, space: char -> bool)
    requires Without(network, SCHEME_SEPARATOR) && Without(host + ":" + port, SCHEME_SEPARATOR)
    requires ':' !in host && ':' !in port
    ensures ParseURL(network + SCHEME_SEPARATOR + (host + ":" + port), space)
         == if TrimSpace(network, space) == "unix" then Ok(Endpoint("unix", host + ":" + port))
            else if IsPort(TrimSpace(port, space))
            then Ok(Endpoint(TrimSpace(network, space), TrimSpace(host, space) + ":" + TrimSpace(port, space)))
            else Err(InvalidPort)
  {
    var address := host + ":" + port;
    SchemeComesFirst(network, address);
    SplitFirst(network, SCHEME_SEPARATOR, address);
    SplitNone(address, SCHEME_SEPARATOR);
    TwoOfTwo(network, address);
    HostPortForm(TrimSpace(network, space), host, port, space);
  }

  /** The forms of a service: with an id, without one, and one part too many. */
  lemma ServiceForms(id: string, url: string, more: string, space: char -> bool)
    requires '=' !in id && '=' !in url
    ensures ParseService(id + "=" + url, space)
         == Named(TrimSpace(id, space), ParseURL(TrimSpace(url, space), space))
    ensures ParseService(url, space) == Named("", ParseURL(TrimSpace(url, space), space))
    ensures ParseService(id + "=" + (url + "=" + more), space) == Err(InvalidService)
  {
    WithoutCharacter(url, '=');
    SplitNone(url, "=");
    SplitAtCharacter(id, '=', url);
    TwoOfTwo(id, url);
    SplitAtCharacter(id, '=', url + "=" + more);
    SplitAtCharacter(url, '=', more);
  }

  function Named(id: string, r: Result<Endpoint, ParseError>): Result<ServiceConfig, ParseError> {
    match r
    case Ok(e) => Ok(ServiceConfig(id, e.network, e.address))
    case Err(e) => Err(e)
  }

  /** The two short forms of a URL mean what the documentation says: "host:port" is
      "tcp://host:port", and "port" is "tcp://localhost:port". */
  lemma ShortForms(host: string, port: string, space: char -> bool)
    requires GoodSpace(space) && Trimmed(host, space) && ':' !in host && IsPort(port)
    ensures ParseURL("tcp" + "://" + (host + ":" + port), space) == Ok(Endpoint("tcp", host + ":" + port))
    ensures ParseURL(host + ":" + port, space) == Ok(Endpoint("tcp", host + ":" + port))
    ensures ParseURL(port, space) == Ok(Endpoint("tcp", "localhost" + ":" + port))
  {
    HostPortHasNoScheme(host, port);
    NoSchemeInTcp();
    DefaultsStay(space);
    TwoPartURL("tcp", host + ":" + port, space);
    HostPortReparses("tcp", host, port, space);
    OnePartURL(host + ":" + port, space);
    PortHasNoColon(port);
    PortHasNoScheme(port);
    OnePartURL(port, space);
    WithoutCharacter(port, ':');
    SplitNone(port, ":");
    PortIsTrimmed(port, space);
    TrimmedStays(port, space);
    PortAlone("tcp", Split(port, ":"), space);
  }

  /** A number alone is a port of localhost exactly when it has at most 16 bits. */
  lemma PortsHaveSixteenBits(n: nat, k: nat, space: char -> bool)
    requires GoodSpace(space)
    ensures var port := Zeros(k) + Decimal(n);
            ParseURL(port, space) == if n <= 65535 then Ok(Endpoint("tcp", "localhost:" + port)) else Err(InvalidPort)
  {
    var port := Zeros(k) + Decimal(n);
    ValueOfDecimal(n, k);
    DigitsHaveNoColon(port);
    PortHasNoScheme(port);
    OnePartURL(port, space);
    WithoutCharacter(port, ':');
    SplitNone(port, ":");
    assert IsDigit(port[0]) && IsDigit(port[|port| - 1]);
    TrimmedStays(port, space);
    if n <= 65535 {
      PortAlone("tcp", Split(port, ":"), space);
      assert "localhost" + ":" + port == "localhost:" + port;
    }
  }

  lemma DigitsHaveNoColon(s: string)
    requires forall i :: 0 <= i < |s| ==> IsDigit(s[i])
    ensures ':' !in s
  {
  }

  lemma NoSchemeInTcp()
    ensures Without("tcp", SCHEME_SEPARATOR)
  {
    forall i: nat ensures !Occurs("tcp", SCHEME_SEPARATOR, i) {
      SchemeAt("tcp", i);
    }
  }

  lemma PortHasNoScheme(port: string)
    requires ':' !in port
    ensures Without(port, SCHEME_SEPARATOR)
  {
    forall i: nat ensures !Occurs(port, SCHEME_SEPARATOR, i) {
      SchemeAt(port, i);
    }
  }

  lemma OnePartURL(address: string, space: char -> bool)
    requires Without(address, SCHEME_SEPARATOR)
    ensures ParseURL(address, space) == HostPortOf("tcp", Split(address, ":"), space)
  {
    SplitNone(address, SCHEME_SEPARATOR);
  }

  lemma PortAlone(network: string, parts: seq<string>, space: char -> bool)
    requires |parts| == 1 && TrimSpace(parts[0], space) == parts[0] && IsPort(parts[0])
    ensures HostPortOf(network, parts, space) == Ok(Endpoint(network, "localhost" + ":" + parts[0]))
  {
  }

  /** Every address that is not a unix path ends in a port of at most 65535. */
  lemma AddressesEndInAPort(s: string, space: char -> bool, i: nat) returns (host: string, port: string)
    requires GoodSpace(space) && Parse(s, space).Ok? && i < |Parse(s, space).value|
    ensures var c := Parse(s, space).value[i];
            c.network != "unix" ==>
              && c.address == host + ":" + port && ':' !in host
              && exists n: nat, k: nat :: n <= 65535 && port == Zeros(k) + Decimal(n)
  {
    ParsedAreNormal(s, space);
    var c := Parse(s, space).value[i];
    host, port := "", "";
    if c.network != "unix" {
      host, port :| HostPort(c.address, host, port, space);
      PortsAreNumbers(port);
    }
  }
}
