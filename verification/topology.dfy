/** The construct's rule set as a function: from the props, the validation
    outcome and, when it passes, the declarations in the order the
    construct's constructor makes them. */
module Topology {
  import opened Wrappers
  import opened Props
  import opened Resources

  /** The two errors the constructor throws. */
  datatype ValidationError =
    | CidrMissing   // "CIDR block must be specified."
    | NoSubnets     // "At least one public or private subnet must be specified."

  /** The destination of the internet and NAT default routes. */
  const DefaultRoute: string := "0.0.0.0/0"

  /** The checks made before anything is declared: the CIDR first, then the
      subnet lists (an absent list counts as empty). */
  function Validate(props: StacksmithsVpcProps): Outcome<ValidationError> {
    if props.cidr == "" then Fail(CidrMissing)
    else if |props.PublicDefs()| == 0 && |props.PrivateDefs()| == 0 then Fail(NoSubnets)
    else Pass
  }

  /** The VPC (DNS flags defaulting to true), the internet gateway, its
      attachment and the shared public route table, declared whatever the
      subnet lists are. */
  function GatewayDecls(props: StacksmithsVpcProps): seq<Declaration> {
    [Declaration(VpcId, Vpc(props.cidr, props.enableDnsHostnames.GetOr(true), props.enableDnsSupport.GetOr(true))),
     Declaration(IgwId, CfnInternetGateway),
     Declaration(IgwAttachmentId, CfnVpcGatewayAttachment(IgwId, VpcId)),
     Declaration(PublicRouteTableId, CfnRouteTable(VpcId))]
  }

  /** Public subnet `i`: the subnet, the default route to the internet
      gateway when `i` is 0, and the association with the public table. */
  function PublicSubnetStep(pub: seq<SubnetDefinition>, i: nat): seq<Declaration>
    requires i < |pub|
  {
    var subnet := Indexed(PublicSubnet, i);
    [Declaration(subnet, Subnet(VpcId, pub[i].cidr, pub[i].availabilityZone, true))]
    + (if i == 0 then [Declaration(PublicRouteId, CfnRoute(PublicRouteTableId, DefaultRoute, GatewayId(IgwId)))] else [])
    + [Declaration(Indexed(PublicSubnetRouteTableAssoc, i), CfnSubnetRouteTableAssociation(PublicRouteTableId, subnet))]
  }

  /** The first `n` public subnet steps. */
  function PublicSubnetsUpTo(pub: seq<SubnetDefinition>, n: nat): seq<Declaration>
    requires n <= |pub|
  {
    if n == 0 then [] else PublicSubnetsUpTo(pub, n - 1) + PublicSubnetStep(pub, n - 1)
  }

  /** The handles the public subnet `map` returns, one per subnet. */
  function PublicSubnetHandles(n: nat): (h: seq<LogicalId>)
    ensures |h| == n
    ensures forall i | 0 <= i < n :: h[i] == Indexed(PublicSubnet, i)
  {
    if n == 0 then [] else PublicSubnetHandles(n - 1) + [Indexed(PublicSubnet, n - 1)]
  }

  /** When there are public subnets: an EIP, a NAT gateway using it in
      public subnet `j % |publicSubnets|`, and the default route of private
      route table `j` to that gateway. */
  function NatDecls(publicSubnets: seq<LogicalId>, j: nat): seq<Declaration> {
    if |publicSubnets| > 0 then
      [Declaration(Indexed(Eip, j), CfnEip),
       Declaration(Indexed(NatGateway, j), CfnNatGateway(publicSubnets[j % |publicSubnets|], Indexed(Eip, j))),
       Declaration(Indexed(PrivateRoute, j),
                   CfnRoute(Indexed(PrivateRouteTable, j), DefaultRoute, NatGatewayId(Indexed(NatGateway, j))))]
    else []
  }

  /** Private subnet `j`: the subnet, its own route table, the NAT
      declarations, and the association of the subnet with its table. */
  function PrivateSubnetStep(priv: seq<SubnetDefinition>, publicSubnets: seq<LogicalId>, j: nat): seq<Declaration>
    requires j < |priv|
  {
    var subnet := Indexed(PrivateSubnet, j);
    var table := Indexed(PrivateRouteTable, j);
    [Declaration(subnet, Subnet(VpcId, priv[j].cidr, priv[j].availabilityZone, false)),
     Declaration(table, CfnRouteTable(VpcId))]
    + NatDecls(publicSubnets, j)
    + [Declaration(Indexed(PrivateSubnetRouteTableAssoc, j), CfnSubnetRouteTableAssociation(table, subnet))]
  }

  /** The first `n` private subnet steps. */
  function PrivateSubnetsUpTo(priv: seq<SubnetDefinition>, publicSubnets: seq<LogicalId>, n: nat): seq<Declaration>
    requires n <= |priv|
  {
    if n == 0 then [] else PrivateSubnetsUpTo(priv, publicSubnets, n - 1) + PrivateSubnetStep(priv, publicSubnets, n - 1)
  }

  /** The `privateRouteTables` list the private loop pushes to. */
  function PrivateRouteTableHandles(n: nat): (h: seq<LogicalId>)
    ensures |h| == n
    ensures forall j | 0 <= j < n :: h[j] == Indexed(PrivateRouteTable, j)
  {
    if n == 0 then [] else PrivateRouteTableHandles(n - 1) + [Indexed(PrivateRouteTable, n - 1)]
  }

  /** `[publicRouteTable, ...privateRouteTables]`. */
  function AllRouteTables(n: nat): seq<LogicalId> {
    [PublicRouteTableId] + PrivateRouteTableHandles(n)
  }

  /** Peering routes to `peerCidr` in the first `n` of `tables`. */
  function PeeringRoutesUpTo(peerCidr: string, tables: seq<LogicalId>, n: nat): seq<Declaration>
    requires n <= |tables|
  {
    if n == 0 then []
    else PeeringRoutesUpTo(peerCidr, tables, n - 1)
         + [Declaration(Indexed(PeeringRoute, n - 1), CfnRoute(tables[n - 1], peerCidr, VpcPeeringConnectionId(PeeringConnectionId)))]
  }

  /** The peering connection, then one route per table. */
  function PeeringDecls(peering: VpcPeeringProps, tables: seq<LogicalId>): seq<Declaration> {
    [Declaration(PeeringConnectionId, CfnVpcPeeringConnection(VpcId, peering.peerVpcId))]
    + PeeringRoutesUpTo(peering.peerCidr, tables, |tables|)
  }

  /** Transit gateway routes of table `t` for the first `m` spoke CIDRs. */
  function TransitRouteRow(tgw: TransitGatewayProps, tables: seq<LogicalId>, t: nat, m: nat): seq<Declaration>
    requires t < |tables| && m <= |tgw.spokeVpcCidrs|
  {
    if m == 0 then []
    else TransitRouteRow(tgw, tables, t, m - 1)
         + [Declaration(LogicalId(TransitGatewayRoute, t, m - 1),
                        CfnRoute(tables[t], tgw.spokeVpcCidrs[m - 1], TransitGatewayId(tgw.tgwId)))]
  }

  /** Transit gateway routes of the first `n` tables, each for every spoke. */
  function TransitRoutesUpTo(tgw: TransitGatewayProps, tables: seq<LogicalId>, n: nat): seq<Declaration>
    requires n <= |tables|
  {
    if n == 0 then []
    else TransitRoutesUpTo(tgw, tables, n - 1) + TransitRouteRow(tgw, tables, n - 1, |tgw.spokeVpcCidrs|)
  }

  /** The attachment over all public subnets, then the routes. */
  function TransitGatewayDecls(tgw: TransitGatewayProps, publicSubnets: seq<LogicalId>, tables: seq<LogicalId>): seq<Declaration> {
    [Declaration(TgwAttachmentId, CfnTransitGatewayAttachment(tgw.tgwId, VpcId, publicSubnets))]
    + TransitRoutesUpTo(tgw, tables, |tables|)
  }

  /** The whole construction: a validation error and nothing declared, or
      every declaration in order. */
  function Build(props: StacksmithsVpcProps): (r: Result<seq<Declaration>, ValidationError>)
    ensures r.Failure? <==> props.cidr == "" || (|props.PublicDefs()| == 0 && |props.PrivateDefs()| == 0)
    ensures r.Failure? ==> r.error == (if props.cidr == "" then CidrMissing else NoSubnets)
  {
    match Validate(props)
    case Fail(e) => Failure(e)
    case Pass =>
      var pub := props.PublicDefs();
      var priv := props.PrivateDefs();
      var publicSubnets := PublicSubnetHandles(|pub|);
      var tables := AllRouteTables(|priv|);
      Success(GatewayDecls(props)
              + PublicSubnetsUpTo(pub, |pub|)
              + PrivateSubnetsUpTo(priv, publicSubnets, |priv|)
              + (match props.vpcPeering
                 case Some(peering) => PeeringDecls(peering, tables)
                 case None => [])
              + (match props.transitGateway
                 case Some(tgw) => TransitGatewayDecls(tgw, publicSubnets, tables)
                 case None => []))
  }
}
