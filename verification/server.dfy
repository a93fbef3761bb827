/** The server's bind address, built from the configured IP and port. */
module Server {
  import opened Wrappers
  import opened DecimalText

  /** Rust's `u16`. */
  type u16 = n: int | 0 <= n < 0x1_0000

  /** The configuration the server is built from. */
  datatype Config = Config(ip: string, port: u16)

  datatype Server = Server(address: string)

  /** `Server::new`: the address is the IP, a colon, and the port in decimal. */
  function New(config: Config): (s: Server)
    ensures |config.ip| < |s.address| <= |config.ip| + 6
    ensures s.address[..|config.ip|] == config.ip
    ensures s.address[|config.ip|] == ':'
    ensures IsCanonical(s.address[|config.ip| + 1..])
    ensures Value(s.address[|config.ip| + 1..]) == config.port
  {
    var digits := Decimal(config.port);
    var address := config.ip + ":" + digits;
    DecimalLength(config.port, 5);
    ValueOfDecimal(config.port);
    assert address[|config.ip| + 1..] == digits;
    Server(address)
  }

  /** The position of the last occurrence of `c` in `s`, if any. */
  function LastIndexOf(s: string, c: char): (r: Option<nat>)
    ensures r.Some? ==> r.value < |s| && s[r.value] == c
    ensures r.Some? ==> forall j :: r.value < j < |s| ==> s[j] != c
    ensures r.None? ==> forall j :: 0 <= j < |s| ==> s[j] != c
  {
    if |s| == 0 then None
    else if s[|s| - 1] == c then Some(|s| - 1)
    else LastIndexOf(s[..|s| - 1], c)
  }

  /** Splits an address at its last colon into the host text and a port
      number. The host may itself hold colons (an IPv6 literal). */
  function SplitAddress(a: string): (r: Option<(string, u16)>)
    ensures r.Some? ==> |r.value.0| < |a| && a[..|r.value.0|] == r.value.0 && a[|r.value.0|] == ':'
  {
    match LastIndexOf(a, ':')
    case None => None
    case Some(k) =>
      var digits := a[k + 1..];
      if |digits| > 0 && AllDigits(digits) && Value(digits) < 0x1_0000
      then Some((a[..k], Value(digits) as u16))
      else None
  }

  /** Splitting the address at its last colon recovers exactly the configured
      IP and port, whatever the IP contains. */
  lemma AddressRoundTrip(config: Config)
    ensures SplitAddress(New(config).address) == Some((config.ip, config.port))
  {
    var a := New(config).address;
    var n := |config.ip|;
    var digits := Decimal(config.port);
    assert a == config.ip + ":" + digits;
    assert a[n] == ':';
    var k := LastIndexOf(a, ':');
    assert k.Some?;
    assert k.value == n;
    assert a[n + 1..] == digits;
    ValueOfDecimal(config.port);
  }

  /** The address length is the IP length plus the colon plus the port's
      digit count, which is at most five for a `u16`. */
  lemma AddressLength(config: Config)
    ensures |New(config).address| == |config.ip| + 1 + |Decimal(config.port)|
    ensures |Decimal(config.port)| <= 5
  {
    DecimalLength(config.port, 5);
  }
}
