/** An independent, per-logical-id account of what a successful
    construction declares: which ids exist, the resource under each, and, per
    kind, the declarations in index order. The proofs show that `Build`
    produces exactly this. */
module Reference {
  import opened Wrappers
  import opened Props
  import opened Resources
  import opened Topology

  /** Route table `t` of `[publicRouteTable, ...privateRouteTables]`. */
  function RouteTableAt(t: nat): LogicalId {
    if t == 0 then PublicRouteTableId else Indexed(PrivateRouteTable, t - 1)
  }

  /** How many declarations of kind `k` a successful construction makes;
      transit gateway routes, counted per (table, spoke) pair, are left to
      `Expected`. */
  function Count(props: StacksmithsVpcProps, k: Kind): nat
    requires k != TransitGatewayRoute
  {
    var p := |props.PublicDefs()|;
    var n := |props.PrivateDefs()|;
    match k
    case CustomVpc | InternetGateway | IgwAttachment | PublicRouteTable => 1
    case PublicSubnet | PublicSubnetRouteTableAssoc => p
    case PublicRoute => if p > 0 then 1 else 0
    case PrivateSubnet | PrivateRouteTable | PrivateSubnetRouteTableAssoc => n
    case Eip | NatGateway | PrivateRoute => if p > 0 then n else 0
    case VpcPeeringConnection => if props.vpcPeering.Some? then 1 else 0
    case PeeringRoute => if props.vpcPeering.Some? then 1 + n else 0
    case TransitGatewayAttachment => if props.transitGateway.Some? then 1 else 0
  }

  /** The logical ids a successful construction declares: a transit gateway
      route per (table, spoke) pair, and `Count` ids of every other kind. */
  predicate Expected(props: StacksmithsVpcProps, id: LogicalId) {
    if id.kind == TransitGatewayRoute then
      props.transitGateway.Some? && id.index < 1 + |props.PrivateDefs()|
      && id.subIndex < |props.transitGateway.value.spokeVpcCidrs|
    else
      id.index < Count(props, id.kind) && id.subIndex == 0
  }

  /** The resource declared under `id`. */
  function ExpectedResource(props: StacksmithsVpcProps, id: LogicalId): Resource
    requires Expected(props, id)
  {
    var pub := props.PublicDefs();
    var priv := props.PrivateDefs();
    var i := id.index;
    match id.kind
    case CustomVpc =>
      Vpc(props.cidr, props.enableDnsHostnames != Some(false), props.enableDnsSupport != Some(false))
    case InternetGateway => CfnInternetGateway
    case IgwAttachment => CfnVpcGatewayAttachment(IgwId, VpcId)
    case PublicRouteTable => CfnRouteTable(VpcId)
    case PublicSubnet => Subnet(VpcId, pub[i].cidr, pub[i].availabilityZone, true)
    case PublicRoute => CfnRoute(PublicRouteTableId, DefaultRoute, GatewayId(IgwId))
    case PublicSubnetRouteTableAssoc => CfnSubnetRouteTableAssociation(PublicRouteTableId, Indexed(PublicSubnet, i))
    case PrivateSubnet => Subnet(VpcId, priv[i].cidr, priv[i].availabilityZone, false)
    case PrivateRouteTable => CfnRouteTable(VpcId)
    case Eip => CfnEip
    case NatGateway => CfnNatGateway(Indexed(PublicSubnet, i % |pub|), Indexed(Eip, i))
    case PrivateRoute =>
      CfnRoute(Indexed(PrivateRouteTable, i), DefaultRoute, NatGatewayId(Indexed(NatGateway, i)))
    case PrivateSubnetRouteTableAssoc =>
      CfnSubnetRouteTableAssociation(Indexed(PrivateRouteTable, i), Indexed(PrivateSubnet, i))
    case VpcPeeringConnection => CfnVpcPeeringConnection(VpcId, props.vpcPeering.value.peerVpcId)
    case PeeringRoute =>
      CfnRoute(RouteTableAt(i), props.vpcPeering.value.peerCidr, VpcPeeringConnectionId(PeeringConnectionId))
    case TransitGatewayAttachment =>
      CfnTransitGatewayAttachment(props.transitGateway.value.tgwId, VpcId, PublicSubnetHandles(|pub|))
    case TransitGatewayRoute =>
      CfnRoute(RouteTableAt(i), props.transitGateway.value.spokeVpcCidrs[id.subIndex],
               TransitGatewayId(props.transitGateway.value.tgwId))
  }

  function DeclOf(props: StacksmithsVpcProps, id: LogicalId): Declaration
    requires Expected(props, id)
  {
    Declaration(id, ExpectedResource(props, id))
  }

  /** The first `n` declarations of kind `k`, by index. */
  function Enumerate(props: StacksmithsVpcProps, k: Kind, n: nat): (r: seq<Declaration>)
    requires k != TransitGatewayRoute && n <= Count(props, k)
    ensures |r| == n
  {
    if n == 0 then [] else Enumerate(props, k, n - 1) + [DeclOf(props, Indexed(k, n - 1))]
  }

  /** Position `i` of `Enumerate` holds the declaration of id `i`. */
  lemma {:induction false} EnumerateAt(props: StacksmithsVpcProps, k: Kind, n: nat, i: nat)
    requires k != TransitGatewayRoute && i < n <= Count(props, k)
    ensures Expected(props, Indexed(k, i)) && Enumerate(props, k, n)[i] == DeclOf(props, Indexed(k, i))
  {
    if i < n - 1 {
      EnumerateAt(props, k, n - 1, i);
    }
  }

  /** Transit gateway routes of table `t` for the first `m` spokes. */
  function Row(props: StacksmithsVpcProps, t: nat, m: nat): (r: seq<Declaration>)
    requires props.transitGateway.Some? && t < 1 + |props.PrivateDefs()|
    requires m <= |props.transitGateway.value.spokeVpcCidrs|
    ensures |r| == m
  {
    if m == 0 then [] else Row(props, t, m - 1) + [DeclOf(props, LogicalId(TransitGatewayRoute, t, m - 1))]
  }

  /** Position `s` of `Row` holds the route of table `t` for spoke `s`. */
  lemma {:induction false} RowAt(props: StacksmithsVpcProps, t: nat, m: nat, s: nat)
    requires props.transitGateway.Some? && t < 1 + |props.PrivateDefs()|
    requires s < m <= |props.transitGateway.value.spokeVpcCidrs|
    ensures Expected(props, LogicalId(TransitGatewayRoute, t, s))
            && Row(props, t, m)[s] == DeclOf(props, LogicalId(TransitGatewayRoute, t, s))
  {
    if s < m - 1 {
      RowAt(props, t, m - 1, s);
    }
  }

  /** Transit gateway routes of the first `n` tables, table-major. */
  function Grid(props: StacksmithsVpcProps, n: nat): seq<Declaration>
    requires props.transitGateway.Some? && n <= 1 + |props.PrivateDefs()|
  {
    if n == 0 then []
    else Grid(props, n - 1) + Row(props, n - 1, |props.transitGateway.value.spokeVpcCidrs|)
  }

  /** The declarations of kind `k` a successful construction makes, in order. */
  function ExpectedOfKind(props: StacksmithsVpcProps, k: Kind): seq<Declaration> {
    if k == TransitGatewayRoute then
      (if props.transitGateway.Some? then Grid(props, 1 + |props.PrivateDefs()|) else [])
    else Enumerate(props, k, Count(props, k))
  }
}
