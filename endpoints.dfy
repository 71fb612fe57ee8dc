/**
 * One analog port of the source gateway turned into an endpoint request for the
 * replacement: its new port number, its new name and the request itself.
 */
module Endpoints {
  import opened Wrappers
  import opened Text
  import opened Axl
  import opened GatewayMap

  /** Ports on subunit 1 move up by 24; ports on any other subunit keep their index. */
  function Renumber(subunit: int, index: int): int
  {
    if subunit == 1 then index + 24 else index
  }

  /** The new port number of the endpoint a lookup returned. */
  function PortNumber(access: AnalogAccess): int
  {
    Renumber(access.subunit, access.endpoint.index)
  }

  lemma RenumberRule(subunit: int, index: int)
    ensures subunit == 1 ==> Renumber(subunit, index) == index + 24
    ensures subunit != 1 ==> Renumber(subunit, index) == index
  {
  }

  /**
   * The two 24-port subunits of the source land on disjoint halves of 0..47: distinct
   * (subunit, index) pairs get distinct numbers, all of them within the 48-port card
   * that replaces a VG320.
   */
  lemma RenumberFitsVg320Card(s1: int, i1: int, s2: int, i2: int)
    requires s1 in {0, 1} && s2 in {0, 1}
    requires 0 <= i1 < 24 && 0 <= i2 < 24
    requires (s1, i1) != (s2, i2)
    ensures Renumber(s1, i1) != Renumber(s2, i2)
    ensures 0 <= Renumber(s1, i1) < CardFxsPorts(ModelMapping("VG320").value.subunitProduct)
  {
  }

  /** The f-string AALN/S{unit}/SU{subunit}/{portnum}@{domain}. */
  function PortName(unit: int, subunit: int, port: int, domain: string): string
  {
    "AALN/S" + IntDecimal(unit) + "/SU" + IntDecimal(subunit) + "/" + IntDecimal(port) + "@" + domain
  }

  datatype PortAddress = PortAddress(unit: int, subunit: int, port: int, domain: string)

  /** Reads an analog access port name back into its parts. */
  function ParsePortName(name: string): Option<PortAddress>
  {
    if |name| < 6 || name[..6] != "AALN/S" then None
    else match SplitAt(name[6..], '/')
      case None => None
      case Some(afterUnit) =>
        var rest := afterUnit.1;
        if |rest| < 2 || rest[..2] != "SU" then None
        else match SplitAt(rest[2..], '/')
          case None => None
          case Some(afterSubunit) =>
            match SplitAt(afterSubunit.1, '@')
            case None => None
            case Some(afterPort) =>
              match (ParseInt(afterUnit.0), ParseInt(afterSubunit.0), ParseInt(afterPort.0))
              case (Some(u), Some(s), Some(p)) => Some(PortAddress(u, s, p, afterPort.1))
              case _ => None
  }

  lemma NoSeparator(i: int, c: char)
    requires c == '/' || c == '@'
    ensures c !in IntDecimal(i)
  {
  }

  /** Parsing a name assembled from separator-free parts recovers the parts. */
  lemma ParseAssembledName(du: string, ds: string, dp: string, domain: string, u: int, su: int, p: int)
    requires '/' !in du && '/' !in ds && '@' !in dp
    requires ParseInt(du) == Some(u) && ParseInt(ds) == Some(su) && ParseInt(dp) == Some(p)
    ensures ParsePortName("AALN/S" + du + "/SU" + ds + "/" + dp + "@" + domain) == Some(PortAddress(u, su, p, domain))
  {
    var name := "AALN/S" + du + "/SU" + ds + "/" + dp + "@" + domain;
    var tail2 := dp + ['@'] + domain;
    var tail1 := "SU" + ds + ['/'] + tail2;
    assert name == "AALN/S" + (du + ['/'] + tail1);
    assert name[..6] == "AALN/S";
    assert name[6..] == du + ['/'] + tail1;
    SplitAtFirst(du, '/', tail1);
    assert tail1[..2] == "SU";
    assert tail1[2..] == ds + ['/'] + tail2;
    SplitAtFirst(ds, '/', tail2);
    SplitAtFirst(dp, '@', domain);
  }

  /** A port name determines unit, subunit, port number and domain. */
  lemma PortNameRoundTrip(unit: int, subunit: int, port: int, domain: string)
    ensures ParsePortName(PortName(unit, subunit, port, domain)) == Some(PortAddress(unit, subunit, port, domain))
  {
    NoSeparator(unit, '/');
    NoSeparator(subunit, '/');
    NoSeparator(port, '@');
    ParseIntDecimal(unit);
    ParseIntDecimal(subunit);
    ParseIntDecimal(port);
    ParseAssembledName(IntDecimal(unit), IntDecimal(subunit), IntDecimal(port), domain, unit, subunit, port);
  }

  /** Different ports (or positions, or domains) never share a name. */
  lemma PortNamesDistinct(a: PortAddress, b: PortAddress)
    requires a != b
    ensures PortName(a.unit, a.subunit, a.port, a.domain) != PortName(b.unit, b.subunit, b.port, b.domain)
  {
    PortNameRoundTrip(a.unit, a.subunit, a.port, a.domain);
    PortNameRoundTrip(b.unit, b.subunit, b.port, b.domain);
  }

  /** The fixed signalling defaults every recreated port gets, around its one line. */
  function DefaultPortSettings(line: Line): PortSettings
  {
    PortSettings(1, false, "Originator", 10, SigDigits(10, false), [line], "Allowed", "Disable", 2048,
      "POTS", "Bothways", "ONS", "NoDbPadding", "NoDbPadding", 200, 0, 100, 1000, 0, 0)
  }

  /** The endpoint request for one port: source fields carried over, the rest fixed. */
  function BuildEndpoint(access: AnalogAccess, portnum: int, at: Position, domain: string): EndpointRequest
  {
    var src := access.endpoint;
    var line := Line(1, Dirn(src.line.pattern, src.line.routePartitionName), src.line.display, src.line.e164Mask);
    EndpointRequest(domain, at.unit, at.subunit,
      Endpoint(portnum, PortName(at.unit, at.subunit, portnum, domain), src.description,
        "Cisco MGCP FXS Port", "Gateway", "Analog Access", "User",
        src.devicePoolName, src.locationName, DefaultPortSettings(line), "Top Down"))
  }

  /**
   * The recreated endpoint keeps the source's directory number, partition, display,
   * external mask, device pool, location and description; its index is the renumbered
   * port; its name is the AALN name of that port under the new domain; every other
   * field is a fixed default.
   */
  lemma EndpointFromSource(access: AnalogAccess, at: Position, domain: string)
    ensures var r := BuildEndpoint(access, PortNumber(access), at, domain);
      var src := access.endpoint;
      && r.domainName == domain && r.unit == at.unit && r.subunit == at.subunit
      && r.endpoint.index == Renumber(access.subunit, src.index)
      && r.endpoint.name == PortName(at.unit, at.subunit, r.endpoint.index, domain)
      && ParsePortName(r.endpoint.name) == Some(PortAddress(at.unit, at.subunit, r.endpoint.index, domain))
      && r.endpoint.description == src.description
      && r.endpoint.devicePoolName == src.devicePoolName
      && r.endpoint.locationName == src.locationName
      && r.endpoint.port.lines == [Line(1, Dirn(src.line.pattern, src.line.routePartitionName), src.line.display, src.line.e164Mask)]
      && r.endpoint.product == "Cisco MGCP FXS Port"
      && r.endpoint.deviceClass == "Gateway"
      && r.endpoint.protocol == "Analog Access"
      && r.endpoint.protocolSide == "User"
      && r.endpoint.trunkSelectionOrder == "Top Down"
      && r.endpoint.port.portNumber == 1
      && !r.endpoint.port.callerIdEnable
      && r.endpoint.port.callingPartySelection == "Originator"
      && r.endpoint.port.expectedDigits == 10
      && r.endpoint.port.sigDigits == SigDigits(10, false)
      && r.endpoint.port.presentationBit == "Allowed"
      && r.endpoint.port.silenceSuppressionThreshold == "Disable"
      && r.endpoint.port.smdiPortNumber == 2048
      && (r.endpoint.port.trunk, r.endpoint.port.trunkDirection, r.endpoint.port.trunkLevel) == ("POTS", "Bothways", "ONS")
      && (r.endpoint.port.trunkPadRx, r.endpoint.port.trunkPadTx) == ("NoDbPadding", "NoDbPadding")
      && (r.endpoint.port.timer1, r.endpoint.port.timer2, r.endpoint.port.timer3) == (200, 0, 100)
      && (r.endpoint.port.timer4, r.endpoint.port.timer5, r.endpoint.port.timer6) == (1000, 0, 0)
  {
    var r := BuildEndpoint(access, PortNumber(access), at, domain);
    PortNameRoundTrip(at.unit, at.subunit, r.endpoint.index, domain);
  }

  /**
   * The request depends on the looked-up endpoint only through its subunit, index and
   * the seven carried fields: the old name is discarded, so two lookups that differ only
   * in their names build the same request.
   */
  lemma EndpointIgnoresOldName(a: AnalogAccess, b: AnalogAccess, at: Position, domain: string)
    requires a.subunit == b.subunit && a.endpoint.index == b.endpoint.index
    requires a.endpoint.description == b.endpoint.description
    requires a.endpoint.devicePoolName == b.endpoint.devicePoolName
    requires a.endpoint.locationName == b.endpoint.locationName
    requires a.endpoint.line == b.endpoint.line
    ensures BuildEndpoint(a, PortNumber(a), at, domain) == BuildEndpoint(b, PortNumber(b), at, domain)
  {
  }

  /** Under a mapped gateway every port is named AALN/S0/SU1/<port>@new-<domain>. */
  lemma MappedPortName(model: string, port: int, entered: string)
    requires ModelMapping(model).Some?
    ensures var at := ModelMapping(model).value.position;
      PortName(at.unit, at.subunit, port, NewDomain(entered)) == "AALN/S0/SU1/" + IntDecimal(port) + "@new-" + entered
  {
  }
}
