/**
 * The records the swap exchanges with the AXL administrative service: the gateway it
 * reads and the one it creates, the rows of the direct SQL query, the analog endpoint
 * it reads per port and the endpoint it creates. Only the fields the script reads or
 * writes are kept; nested zeep/lxml objects become datatypes.
 */
module Axl {
  import opened Wrappers

  /** The gateway as getGateway returns it (return.gateway), reduced to the fields read. */
  datatype FetchedGateway = FetchedGateway(
    uuid: string,                 // braced, upper-case form, e.g. "{ABC-1}"
    domainName: string,
    product: string,              // the source model, e.g. "VG310"
    description: string,
    callManagerGroupName: string) // the group's _value_1

  datatype Subunit = Subunit(index: int, product: string, beginPort: int)

  datatype Unit = Unit(index: int, product: string, subunits: seq<Subunit>)

  /** The gateway dictionary built for addGateway. */
  datatype Gateway = Gateway(
    domainName: string,
    product: string,
    protocol: string,
    description: string,
    callManagerGroupName: string,
    units: seq<Unit>)

  /** One vendorConfig element: its tag and its text. */
  datatype VendorItem = VendorItem(name: string, text: string)

  /** What the script's `gateway` variable holds when addGateway is called. */
  datatype GatewayRecord = Replacement(gateway: Gateway) | AsFetched(fetched: FetchedGateway)

  /** The addGateway argument: the gateway record with vendorConfig set on it. */
  datatype Submission = Submission(record: GatewayRecord, vendorConfig: seq<VendorItem>)

  /** The unit and subunit indices a mapping branch binds (`unit`, `subunit`). */
  datatype Position = Position(unit: int, subunit: int)

  /** One column of a row of an executeSQLQuery answer; lxml gives None for an empty element. */
  datatype Element = Element(tag: string, text: Option<string>)

  type Row = seq<Element>

  /** The endpoint's single line as getGatewayEndpointAnalogAccess returns it. */
  datatype SourceLine = SourceLine(
    pattern: string,
    routePartitionName: string,
    display: string,
    e164Mask: string)

  datatype SourceEndpoint = SourceEndpoint(
    index: int,
    name: string,
    description: string,
    devicePoolName: string,
    locationName: string,
    line: SourceLine)

  /** return.gatewayEndpointAnalogAccess of getGatewayEndpointAnalogAccess. */
  datatype AnalogAccess = AnalogAccess(subunit: int, endpoint: SourceEndpoint)

  datatype Dirn = Dirn(pattern: string, routePartitionName: string)

  datatype Line = Line(index: int, dirn: Dirn, display: string, e164Mask: string)

  datatype SigDigits = SigDigits(value: int, enable: bool)

  datatype PortSettings = PortSettings(
    portNumber: int,
    callerIdEnable: bool,
    callingPartySelection: string,
    expectedDigits: int,
    sigDigits: SigDigits,
    lines: seq<Line>,
    presentationBit: string,
    silenceSuppressionThreshold: string,
    smdiPortNumber: int,
    trunk: string,
    trunkDirection: string,
    trunkLevel: string,
    trunkPadRx: string,
    trunkPadTx: string,
    timer1: int,
    timer2: int,
    timer3: int,
    timer4: int,
    timer5: int,
    timer6: int)

  datatype Endpoint = Endpoint(
    index: int,
    name: string,
    description: string,
    product: string,
    deviceClass: string,          // the request's "class" key
    protocol: string,
    protocolSide: string,
    devicePoolName: string,
    locationName: string,
    port: PortSettings,
    trunkSelectionOrder: string)

  /** The addGatewayEndpointAnalogAccess argument. */
  datatype EndpointRequest = EndpointRequest(domainName: string, unit: int, subunit: int, endpoint: Endpoint)
}
