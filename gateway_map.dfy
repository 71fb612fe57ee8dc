/**
 * The VG swap rules: which replacement model and cards a source voice gateway becomes,
 * the "new-" domain of the replacement, and the vendorConfig set on the submitted gateway.
 */
module GatewayMap {
  import opened Wrappers
  import opened Axl

  /** What one branch of the swap rules fixes: model, unit card, subunit card and their indices. */
  datatype Target = Target(product: string, unitProduct: string, subunitProduct: string, position: Position)

  /** The three swap rules; any other model matches no rule. */
  function ModelMapping(model: string): Option<Target>
  {
    if model == "VG204" then Some(Target("VG400", "VG-1NIM-MBRD", "VG-4FXS/4FXO", Position(0, 1)))
    else if model == "VG310" then Some(Target("VG410", "VG-1NIM-MBRD", "VG-24FXS", Position(0, 1)))
    else if model == "VG320" then Some(Target("VG410", "VG-1NIM-MBRD", "VG-48FXS", Position(0, 1)))
    else None
  }

  /** The replacement is created beside the original, under a prefixed name. */
  function NewDomain(domain: string): string
  {
    "new-" + domain
  }

  /** The gateway dictionary a matching branch assigns. */
  function ReplacementGateway(t: Target, domain: string, description: string, group: string): Gateway
  {
    Gateway(domain, t.product, "MGCP", description, group,
      [Unit(t.position.unit, t.unitProduct, [Subunit(t.position.subunit, t.subunitProduct, 0)])])
  }

  /** What `gateway` holds after the three branches: the replacement, or the record as fetched. */
  function GatewayToSubmit(fetched: FetchedGateway, domain: string): GatewayRecord
  {
    match ModelMapping(fetched.product)
    case Some(t) => Replacement(ReplacementGateway(t, domain, fetched.description, fetched.callManagerGroupName))
    case None => AsFetched(fetched)
  }

  /** The unit/subunit binding the branches leave behind; None when no branch ran. */
  function PositionOf(fetched: FetchedGateway): Option<Position>
  {
    match ModelMapping(fetched.product)
    case Some(t) => Some(t.position)
    case None => None
  }

  const VendorConfig: seq<VendorItem> :=
    [VendorItem("ModemPassthrough", "Disable"), VendorItem("T38FaxRelay", "Enable")]

  /** FXS port count of each source model, as the swap rules' comments give it. */
  function SourceFxsPorts(model: string): nat
  {
    if model == "VG204" then 4 else if model == "VG310" then 24 else if model == "VG320" then 48 else 0
  }

  /** FXS port count of each replacement subunit card. */
  function CardFxsPorts(product: string): nat
  {
    if product == "VG-4FXS/4FXO" then 4 else if product == "VG-24FXS" then 24 else if product == "VG-48FXS" then 48 else 0
  }

  /** Exactly the three listed models are supported, each with its documented replacement. */
  lemma MappingTable(model: string)
    ensures ModelMapping(model).Some? <==> model in {"VG204", "VG310", "VG320"}
    ensures model == "VG204" ==>
      ModelMapping(model).value.product == "VG400" && ModelMapping(model).value.subunitProduct == "VG-4FXS/4FXO"
    ensures model == "VG310" ==>
      ModelMapping(model).value.product == "VG410" && ModelMapping(model).value.subunitProduct == "VG-24FXS"
    ensures model == "VG320" ==>
      ModelMapping(model).value.product == "VG410" && ModelMapping(model).value.subunitProduct == "VG-48FXS"
    ensures ModelMapping(model).Some? ==>
      ModelMapping(model).value.unitProduct == "VG-1NIM-MBRD" && ModelMapping(model).value.position == Position(0, 1)
  {
  }

  /** Like for like on port count: every replacement card has as many FXS ports as the model it replaces. */
  lemma LikeForLikePortCount(model: string)
    requires ModelMapping(model).Some?
    ensures CardFxsPorts(ModelMapping(model).value.subunitProduct) == SourceFxsPorts(model) > 0
  {
  }

  /**
   * A mapped gateway carries the fetched description and group unchanged, the prefixed
   * domain, protocol MGCP, and one unit 0 holding one subunit 1 that begins at port 0.
   */
  lemma MappedGatewayFields(fetched: FetchedGateway, entered: string)
    requires ModelMapping(fetched.product).Some?
    ensures var t := ModelMapping(fetched.product).value;
      GatewayToSubmit(fetched, NewDomain(entered)).Replacement? &&
      var g := GatewayToSubmit(fetched, NewDomain(entered)).gateway;
      && g.domainName == "new-" + entered
      && g.product == t.product
      && g.protocol == "MGCP"
      && g.description == fetched.description
      && g.callManagerGroupName == fetched.callManagerGroupName
      && |g.units| == 1
      && g.units[0].index == 0 && g.units[0].product == "VG-1NIM-MBRD"
      && g.units[0].subunits == [Subunit(1, t.subunitProduct, 0)]
    ensures PositionOf(fetched) == Some(Position(0, 1))
  {
  }

  /** No rule matches: the record stays as fetched (name not prefixed) and no unit/subunit is bound. */
  lemma UnsupportedModelKeepsFetchedRecord(fetched: FetchedGateway, domain: string)
    requires fetched.product !in {"VG204", "VG310", "VG320"}
    ensures GatewayToSubmit(fetched, domain) == AsFetched(fetched)
    ensures PositionOf(fetched) == None
  {
  }
}
