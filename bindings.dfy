/** The two native functions the driver installs in every script context, `myIpAddress`
    and `dnsResolve`. The operating-system lookups behind them are oracles: `getaddr`
    maps an interface name to its IPv4 address and `resolve` a host name to a numeric
    address, each giving None where the C helper returns -EIO. */
module Bindings {
  import opened Pacrunner
  import opened Hostname

  /** What a native function hands back to the script: a string, or the message of the
      exception it throws. */
  datatype HostResult = Value(address: string) | Thrown(message: string)

  /** `myIpAddress()`, reading the driver's current proxy. The three guards fail in
      order: no proxy, then no interface, then a failed interface lookup. */
  function MyIpAddress(current: Option<Proxy>, getaddr: string -> Option<string>): (r: HostResult)
    ensures current.None? ==> r == Thrown("No current proxy")
    ensures current.Some? && current.value.interface.None? ==>
              r == Thrown("Error fetching interface")
    ensures current.Some? && current.value.interface.Some? ==>
              r == match getaddr(current.value.interface.value)
                   case None => Thrown("Error fetching IP address")
                   case Some(a) => Value(a)
    ensures r.Value? <==> current.Some? && current.value.interface.Some? &&
                          getaddr(current.value.interface.value).Some?
  {
    if current.None? then Thrown("No current proxy")
    else if current.value.interface.None? then Thrown("Error fetching interface")
    else match getaddr(current.value.interface.value)
      case None => Thrown("Error fetching IP address")
      case Some(address) => Value(address)
  }

  /** `myIpAddress()` depends on the interface of the current proxy alone, never on its
      script. */
  lemma MyIpAddressIgnoresScript(iface: Option<string>, s1: Option<string>, s2: Option<string>,
                                 getaddr: string -> Option<string>)
    ensures MyIpAddress(Some(Proxy(iface, s1)), getaddr) == MyIpAddress(Some(Proxy(iface, s2)), getaddr)
  {
  }

  /** The outcome of one `dnsResolve` call: whether the hostname guard raised its
      exception, and what the function then returns. The guard's exception is raised but
      not returned, so it does not decide `returned`. */
  datatype DnsResolution = DnsResolution(guardThrew: bool, returned: HostResult)

  /** `dnsResolve(args...)`. Each argument is the UTF-8 text V8 gives for it; the guard and
      the resolver both see that text as a C string. */
  function DnsResolve(args: seq<string>, resolve: string -> Option<string>): (r: DnsResolution)
    ensures |args| != 1 ==> r == DnsResolution(false, Thrown("Bad parameters"))
    ensures |args| == 1 ==> (r.guardThrew <==> HasDelimiter(CString(args[0])))
    ensures |args| == 1 ==> r.returned == match resolve(CString(args[0]))
                                         case None => Thrown("Failed to resolve")
                                         case Some(a) => Value(a)
  {
    if |args| != 1 then DnsResolution(false, Thrown("Bad parameters"))
    else
      var host := CString(args[0]);
      BadHostnameIff(host);
      var returned := match resolve(host)
        case None => Thrown("Failed to resolve")
        case Some(address) => Value(address);
      DnsResolution(IsBadHostname(host), returned)
  }

  /** What `dnsResolve` returns is independent of the guard: two single arguments that the
      resolver treats alike give the same result, whether or not the guard rejects one. */
  lemma {:induction false} GuardDoesNotShortCircuit(a: string, b: string, resolve: string -> Option<string>)
    requires resolve(CString(a)) == resolve(CString(b))
    ensures DnsResolve([a], resolve).returned == DnsResolve([b], resolve).returned
  {
  }

  /** A full URL trips the guard and is still handed to the resolver: when the resolver
      answers, `dnsResolve` returns its address. */
  lemma RejectedUrlStillResolved(resolve: string -> Option<string>)
    requires resolve("http://example.com/x?y=1").Some?
    ensures DnsResolve(["http://example.com/x?y=1"], resolve) ==
            DnsResolution(true, Value(resolve("http://example.com/x?y=1").value))
  {
    var u := "http://example.com/x?y=1";
    assert '\0' !in u;
    CStringWithoutNul(u);
    UrlRejected();
  }

  /** The guard accepts a bare host name; a failed lookup is then the only way to fail. */
  lemma UnresolvableHostname(resolve: string -> Option<string>)
    requires resolve("example.com").None?
    ensures DnsResolve(["example.com"], resolve) == DnsResolution(false, Thrown("Failed to resolve"))
  {
    var h := "example.com";
    assert '\0' !in h;
    CStringWithoutNul(h);
    HostnameAccepted();
  }
}
