/**
 * The Ansible filter plugin that brackets IPv6 addresses
 * (playbooks/filter_plugins/custom_filters.py).
 *
 * Address parsing belongs to Python's ipaddress library; here it is a
 * parameter that gives the version of a valid address and None for text the
 * library rejects with ValueError.
 */
module CustomFilters {
  import opened Wrappers

  /** The versions ipaddress.ip_address can report. */
  datatype IPVersion = V4 | V6

  /** ipaddress.ip_address(ip).version, or None where ip_address raises. */
  type AddressParser = string -> Option<IPVersion>

  /** The ValueError raised for text that is not an IP address. */
  datatype FilterError = NotAnAddress(ip: string)

  /** How a filter argument was passed: a single value or a collection of them. */
  datatype Collection = List | Tuple | Generator

  /** A filter argument: one address, or a list, tuple or generator of addresses. */
  datatype Value = Scalar(ip: string) | Items(kind: Collection, ips: seq<string>)

  /** A filter result: a single string, or the list the comprehension builds. */
  datatype Wrapped = WrappedScalar(ip: string) | WrappedList(ips: seq<string>)

  /** The type of a registered filter. */
  type Filter = (AddressParser, Value) -> Result<Wrapped, FilterError>

  /** is_ipv6: does the text parse as an address of version 6? */
  function IsIpv6(ipAddress: AddressParser, ip: string): Result<bool, FilterError>
  {
    match ipAddress(ip)
    case None => Failure(NotAnAddress(ip))
    case Some(version) => Success(version == V6)
  }

  /** wrap: an IPv6 address in square brackets, any other address as it is. */
  function Wrap(ipAddress: AddressParser, ip: string): Result<string, FilterError>
  {
    match IsIpv6(ipAddress, ip)
    case Failure(err) => Failure(err)
    case Success(v6) => Success(if v6 then "[" + ip + "]" else ip)
  }

  /** is_ipv6 answers for every address, exactly by its version, and fails on anything else. */
  lemma IsIpv6Classifies(ipAddress: AddressParser, ip: string)
    ensures IsIpv6(ipAddress, ip).Failure? <==> ipAddress(ip).None?
    ensures IsIpv6(ipAddress, ip).Failure? ==> IsIpv6(ipAddress, ip).error == NotAnAddress(ip)
    ensures IsIpv6(ipAddress, ip).Success? ==> (IsIpv6(ipAddress, ip).value <==> ipAddress(ip) == Some(V6))
  {
  }

  /**
   * What wrap does to each kind of input: an IPv6 address gains exactly a
   * leading '[' and a trailing ']', an IPv4 address is unchanged, and
   * non-addresses raise.
   */
  lemma WrapShape(ipAddress: AddressParser, ip: string)
    ensures ipAddress(ip) == Some(V6) ==>
      && Wrap(ipAddress, ip).Success?
      && var w := Wrap(ipAddress, ip).value;
         |w| == |ip| + 2 && w[0] == '[' && w[|w| - 1] == ']' && w[1..|w| - 1] == ip
    ensures ipAddress(ip) == Some(V4) ==> Wrap(ipAddress, ip) == Success(ip)
    ensures ipAddress(ip) == None ==> Wrap(ipAddress, ip) == Failure(NotAnAddress(ip))
  {
  }

  /**
   * The list comprehension `[wrap(ip) for ip in v]`: element i of the result is
   * wrap of element i, and the first element that is not an address raises.
   */
  function WrapEach(ipAddress: AddressParser, ips: seq<string>): (r: Result<seq<string>, FilterError>)
    ensures r.Success? <==> forall i :: 0 <= i < |ips| ==> ipAddress(ips[i]).Some?
    ensures r.Success? ==>
      && |r.value| == |ips|
      && forall i :: 0 <= i < |ips| ==> Wrap(ipAddress, ips[i]) == Success(r.value[i])
    ensures r.Failure? ==>
      exists k :: 0 <= k < |ips| && r.error == NotAnAddress(ips[k]) && ipAddress(ips[k]).None?
        && forall j :: 0 <= j < k ==> ipAddress(ips[j]).Some?
    decreases |ips|
  {
    if ips == [] then Success([])
    else
      match Wrap(ipAddress, ips[0])
      case Failure(err) => Failure(err)
      case Success(first) =>
        match WrapEach(ipAddress, ips[1..])
        case Failure(err) =>
          var k :| 0 <= k < |ips[1..]| && err == NotAnAddress(ips[1..][k]) && ipAddress(ips[1..][k]).None?
                   && forall j :: 0 <= j < k ==> ipAddress(ips[1..][j]).Some?;
          assert ips[k + 1] == ips[1..][k];
          assert forall j :: 0 <= j < k + 1 ==> ipAddress(ips[j]).Some? by {
            forall j | 0 <= j < k + 1 ensures ipAddress(ips[j]).Some? {
              if j > 0 { assert ips[j] == ips[1..][j - 1]; }
            }
          }
          Failure(err)
        case Success(rest) =>
          assert forall i :: 0 < i < |ips| ==> ips[i] == ips[1..][i - 1];
          Success([first] + rest)
  }

  /** ipv6_wrap: a collection becomes a list of wrapped elements, a single value is wrapped. */
  function Ipv6Wrap(ipAddress: AddressParser, v: Value): Result<Wrapped, FilterError>
  {
    match v
    case Items(_, ips) =>
      (match WrapEach(ipAddress, ips)
       case Failure(err) => Failure(err)
       case Success(wrapped) => Success(WrappedList(wrapped)))
    case Scalar(ip) =>
      (match Wrap(ipAddress, ip)
       case Failure(err) => Failure(err)
       case Success(wrapped) => Success(WrappedScalar(wrapped)))
  }

  /**
   * On a list, tuple or generator the filter returns a list of the same length
   * whose i-th element is wrap of the i-th input, order kept; it raises exactly
   * when some element is not an address, with the error of the first such one.
   */
  lemma Ipv6WrapItems(ipAddress: AddressParser, kind: Collection, ips: seq<string>)
    ensures var r := Ipv6Wrap(ipAddress, Items(kind, ips));
      && (r.Success? <==> forall i :: 0 <= i < |ips| ==> ipAddress(ips[i]).Some?)
      && (r.Success? ==>
            && r.value.WrappedList?
            && |r.value.ips| == |ips|
            && forall i :: 0 <= i < |ips| ==> Wrap(ipAddress, ips[i]) == Success(r.value.ips[i]))
      && (r.Failure? ==>
            exists i :: 0 <= i < |ips| && r.error == NotAnAddress(ips[i]) && ipAddress(ips[i]).None?
              && forall j :: 0 <= j < i ==> ipAddress(ips[j]).Some?)
  {
  }

  /** On a single value the filter is wrap itself. */
  lemma Ipv6WrapScalar(ipAddress: AddressParser, ip: string)
    ensures var r := Ipv6Wrap(ipAddress, Scalar(ip));
      && (r.Success? <==> Wrap(ipAddress, ip).Success?)
      && (r.Success? ==> r.value == WrappedScalar(Wrap(ipAddress, ip).value))
      && (r.Failure? ==> r.error == Wrap(ipAddress, ip).error)
  {
  }

  /** FilterModule.filters: the plugin registers exactly one filter, ipv6wrap. */
  function Filters(): (r: map<string, Filter>)
    ensures r.Keys == {"ipv6wrap"}
    ensures r["ipv6wrap"] == Ipv6Wrap
  {
    map["ipv6wrap" := Ipv6Wrap]
  }
}
