/** What the construct promises about the network it declares, stated on
    the declarations of a successful construction. */
module Properties {
  import opened Wrappers
  import opened Props
  import opened Resources
  import opened Topology
  import opened Reference
  import opened TopologyProofs
  import opened Correctness

  /** The CloudFormation type each kind of child synthesises to. */
  function KindType(k: Kind): ResourceType {
    match k
    case CustomVpc => AwsVpc
    case InternetGateway => AwsInternetGateway
    case IgwAttachment => AwsVpcGatewayAttachment
    case PublicRouteTable | PrivateRouteTable => AwsRouteTable
    case PublicSubnet | PrivateSubnet => AwsSubnet
    case Eip => AwsEip
    case NatGateway => AwsNatGateway
    case PublicRoute | PrivateRoute | PeeringRoute | TransitGatewayRoute => AwsRoute
    case PublicSubnetRouteTableAssoc | PrivateSubnetRouteTableAssoc => AwsSubnetRouteTableAssociation
    case VpcPeeringConnection => AwsVpcPeeringConnection
    case TransitGatewayAttachment => AwsTransitGatewayAttachment
  }

  lemma TypeOfExpected(props: StacksmithsVpcProps, id: LogicalId)
    requires Expected(props, id)
    ensures TypeOf(ExpectedResource(props, id)) == KindType(id.kind)
  {
  }

  /** For a type only one kind synthesises to, counting resources of that
      type (as a template assertion does) is listing the kind. */
  lemma OfTypeByKind(props: StacksmithsVpcProps, t: ResourceType, k: Kind)
    requires Validate(props).Pass?
    requires forall k' :: KindType(k') == t <==> k' == k
    ensures Build(props).Success?
    ensures OfType(Build(props).value, t) == ExpectedOfKind(props, k)
  {
    var ds := Build(props).value;
    forall d | d in ds ensures TypeOf(d.resource) == t <==> d.id.kind == k {
      DeclaredIsExpected(props, d);
      TypeOfExpected(props, d.id);
    }
    OfTypeIsOfKind(ds, t, k);
    BuildByKind(props, k);
  }

  /** Exactly one VPC, with the given CIDR block; each DNS flag is true
      unless the props set it to false. */
  lemma VpcDeclaredOnce(props: StacksmithsVpcProps)
    requires Validate(props).Pass?
    ensures Build(props).Success?
    ensures OfType(Build(props).value, AwsVpc)
            == [Declaration(VpcId, Vpc(props.cidr, props.enableDnsHostnames != Some(false),
                                       props.enableDnsSupport != Some(false)))]
  {
    OfTypeByKind(props, AwsVpc, CustomVpc);
  }

  /** Exactly one internet gateway, one attachment of it to the VPC and one
      public route table, whatever the subnet lists. */
  lemma GatewaysDeclaredOnce(props: StacksmithsVpcProps)
    requires Validate(props).Pass?
    ensures Build(props).Success?
    ensures OfType(Build(props).value, AwsInternetGateway) == [Declaration(IgwId, CfnInternetGateway)]
    ensures OfType(Build(props).value, AwsVpcGatewayAttachment)
            == [Declaration(IgwAttachmentId, CfnVpcGatewayAttachment(IgwId, VpcId))]
    ensures OfKind(Build(props).value, PublicRouteTable) == [Declaration(PublicRouteTableId, CfnRouteTable(VpcId))]
  {
    OfTypeByKind(props, AwsInternetGateway, InternetGateway);
    OfTypeByKind(props, AwsVpcGatewayAttachment, IgwAttachment);
    BuildByKind(props, PublicRouteTable);
  }

  /** A route through the internet gateway. */
  predicate IsInternetRoute(d: Declaration) {
    d.resource.CfnRoute? && d.resource.target.GatewayId?
  }

  /** A route through a NAT gateway. */
  predicate IsNatRoute(d: Declaration) {
    d.resource.CfnRoute? && d.resource.target.NatGatewayId?
  }

  /** Which kinds declare a route through the internet gateway. */
  lemma ExpectedInternetRoute(props: StacksmithsVpcProps, id: LogicalId)
    requires Expected(props, id)
    ensures IsInternetRoute(DeclOf(props, id)) <==> id.kind == PublicRoute
    ensures id.kind == PublicRoute ==> id == PublicRouteId
  {
  }

  /** The internet route exists iff a public subnet is given, and it is the
      one default route of the public table to the internet gateway. */
  lemma InternetDefaultRoute(props: StacksmithsVpcProps)
    requires Validate(props).Pass?
    ensures Build(props).Success?
    ensures (exists d | d in Build(props).value :: IsInternetRoute(d)) <==> |props.PublicDefs()| > 0
    ensures forall d | d in Build(props).value && IsInternetRoute(d) ::
              d == Declaration(PublicRouteId, CfnRoute(PublicRouteTableId, DefaultRoute, GatewayId(IgwId)))
  {
    var ds := Build(props).value;
    if |props.PublicDefs()| > 0 {
      assert Expected(props, PublicRouteId);
      ExpectedIsDeclared(props, PublicRouteId);
      ExpectedInternetRoute(props, PublicRouteId);
    }
    forall d | d in ds && IsInternetRoute(d)
      ensures |props.PublicDefs()| > 0
      ensures d == Declaration(PublicRouteId, CfnRoute(PublicRouteTableId, DefaultRoute, GatewayId(IgwId)))
    {
      DeclaredIsExpected(props, d);
      ExpectedInternetRoute(props, d.id);
    }
  }

  /** Public subnets follow the input list, map public IPs on launch and are
      associated with the shared public route table. */
  lemma PublicSubnetsDeclared(props: StacksmithsVpcProps)
    requires Validate(props).Pass?
    ensures Build(props).Success?
    ensures var pub := props.PublicDefs();
            var subnets := OfKind(Build(props).value, PublicSubnet);
            |subnets| == |pub|
            && forall i | 0 <= i < |pub| ::
                 subnets[i] == Declaration(Indexed(PublicSubnet, i), Subnet(VpcId, pub[i].cidr, pub[i].availabilityZone, true))
                 && Declaration(Indexed(PublicSubnetRouteTableAssoc, i),
                                CfnSubnetRouteTableAssociation(PublicRouteTableId, Indexed(PublicSubnet, i)))
                    in Build(props).value
  {
    var pub := props.PublicDefs();
    var subnets := OfKind(Build(props).value, PublicSubnet);
    BuildByKind(props, PublicSubnet);
    forall i | 0 <= i < |pub|
      ensures subnets[i] == Declaration(Indexed(PublicSubnet, i), Subnet(VpcId, pub[i].cidr, pub[i].availabilityZone, true))
      ensures Declaration(Indexed(PublicSubnetRouteTableAssoc, i),
                          CfnSubnetRouteTableAssociation(PublicRouteTableId, Indexed(PublicSubnet, i)))
              in Build(props).value
    {
      EnumerateAt(props, PublicSubnet, |pub|, i);
      ExpectedIsDeclared(props, Indexed(PublicSubnetRouteTableAssoc, i));
    }
  }

  /** Private subnet `j`, its own route table and its association. */
  lemma PrivateSubnetAt(props: StacksmithsVpcProps, j: nat)
    requires Validate(props).Pass? && j < |props.PrivateDefs()|
    ensures Build(props).Success?
    ensures var priv := props.PrivateDefs();
            var subnets := OfKind(Build(props).value, PrivateSubnet);
            j < |subnets|
            && subnets[j] == Declaration(Indexed(PrivateSubnet, j), Subnet(VpcId, priv[j].cidr, priv[j].availabilityZone, false))
            && Declaration(Indexed(PrivateRouteTable, j), CfnRouteTable(VpcId)) in Build(props).value
            && Declaration(Indexed(PrivateSubnetRouteTableAssoc, j),
                           CfnSubnetRouteTableAssociation(Indexed(PrivateRouteTable, j), Indexed(PrivateSubnet, j)))
               in Build(props).value
  {
    BuildByKind(props, PrivateSubnet);
    EnumerateAt(props, PrivateSubnet, |props.PrivateDefs()|, j);
    ExpectedIsDeclared(props, Indexed(PrivateRouteTable, j));
    ExpectedIsDeclared(props, Indexed(PrivateSubnetRouteTableAssoc, j));
  }

  /** Private subnets follow the input list, do not map public IPs, and each
      gets a route table of its own and an association with it. */
  lemma PrivateSubnetsDeclared(props: StacksmithsVpcProps)
    requires Validate(props).Pass?
    ensures Build(props).Success?
    ensures var priv := props.PrivateDefs();
            var subnets := OfKind(Build(props).value, PrivateSubnet);
            |subnets| == |priv|
            && forall j | 0 <= j < |priv| ::
                 subnets[j] == Declaration(Indexed(PrivateSubnet, j), Subnet(VpcId, priv[j].cidr, priv[j].availabilityZone, false))
                 && Declaration(Indexed(PrivateRouteTable, j), CfnRouteTable(VpcId)) in Build(props).value
                 && Declaration(Indexed(PrivateSubnetRouteTableAssoc, j),
                                CfnSubnetRouteTableAssociation(Indexed(PrivateRouteTable, j), Indexed(PrivateSubnet, j)))
                    in Build(props).value
  {
    BuildByKind(props, PrivateSubnet);
    forall j | 0 <= j < |props.PrivateDefs()| {
      PrivateSubnetAt(props, j);
    }
  }

  /** What an expected subnet or association declares, by kind. */
  lemma ExpectedSubnetOrAssociation(props: StacksmithsVpcProps, id: LogicalId)
    requires Expected(props, id)
    ensures var r := ExpectedResource(props, id);
            r.Subnet? ==> (r.mapPublicIpOnLaunch <==> id.kind == PublicSubnet)
    ensures var r := ExpectedResource(props, id);
            r.CfnSubnetRouteTableAssociation? ==>
              id == Indexed(id.kind, id.index)
              && ((id.kind == PublicSubnetRouteTableAssoc && r.routeTable == PublicRouteTableId
                   && r.subnet == Indexed(PublicSubnet, id.index))
                  || (id.kind == PrivateSubnetRouteTableAssoc && r.routeTable == Indexed(PrivateRouteTable, id.index)
                      && r.subnet == Indexed(PrivateSubnet, id.index)))
  {
  }

  /** A subnet maps public IPs iff it is public; every association ties a
      public subnet to the public table or private subnet `j` to private
      table `j`; no subnet and no private table is associated twice. */
  lemma SubnetAssociations(props: StacksmithsVpcProps)
    requires Validate(props).Pass?
    ensures Build(props).Success?
    ensures forall d | d in Build(props).value && d.resource.Subnet? ::
              d.resource.mapPublicIpOnLaunch <==> d.id.kind == PublicSubnet
    ensures forall d | d in Build(props).value && d.resource.CfnSubnetRouteTableAssociation? ::
              (d.resource.routeTable == PublicRouteTableId && d.resource.subnet.kind == PublicSubnet)
              || (d.resource.routeTable.kind == PrivateRouteTable
                  && d.resource.subnet == Indexed(PrivateSubnet, d.resource.routeTable.index))
    ensures forall a, b | a in Build(props).value && b in Build(props).value
                          && a.resource.CfnSubnetRouteTableAssociation? && b.resource.CfnSubnetRouteTableAssociation?
                          && a.resource.subnet == b.resource.subnet :: a == b
    ensures forall a, b | a in Build(props).value && b in Build(props).value
                          && a.resource.CfnSubnetRouteTableAssociation? && b.resource.CfnSubnetRouteTableAssociation?
                          && a.resource.routeTable == b.resource.routeTable
                          && a.resource.routeTable.kind == PrivateRouteTable :: a == b
  {
    var ds := Build(props).value;
    forall d | d in ds
      ensures d.resource.Subnet? ==> (d.resource.mapPublicIpOnLaunch <==> d.id.kind == PublicSubnet)
      ensures d.resource.CfnSubnetRouteTableAssociation? ==>
                (d.resource.routeTable == PublicRouteTableId && d.resource.subnet.kind == PublicSubnet)
                || (d.resource.routeTable.kind == PrivateRouteTable
                    && d.resource.subnet == Indexed(PrivateSubnet, d.resource.routeTable.index))
    {
      DeclaredIsExpected(props, d);
      ExpectedSubnetOrAssociation(props, d.id);
    }
    forall a, b | a in ds && b in ds
                  && a.resource.CfnSubnetRouteTableAssociation? && b.resource.CfnSubnetRouteTableAssociation?
                  && (a.resource.subnet == b.resource.subnet
                      || (a.resource.routeTable == b.resource.routeTable && a.resource.routeTable.kind == PrivateRouteTable))
      ensures a == b
    {
      DeclaredIsExpected(props, a);
      DeclaredIsExpected(props, b);
      ExpectedSubnetOrAssociation(props, a.id);
      ExpectedSubnetOrAssociation(props, b.id);
    }
  }

  /** With P public subnets and N private ones: N NAT gateways and N EIPs
      when P > 0, none otherwise; NAT `j` sits in public subnet `j % P` and
      uses EIP `j`. */
  lemma NatRoundRobin(props: StacksmithsVpcProps)
    requires Validate(props).Pass?
    ensures Build(props).Success?
    ensures var n := if |props.PublicDefs()| > 0 then |props.PrivateDefs()| else 0;
            |OfType(Build(props).value, AwsNatGateway)| == n && |OfType(Build(props).value, AwsEip)| == n
    ensures |props.PublicDefs()| > 0 ==>
              forall j | 0 <= j < |props.PrivateDefs()| ::
                Declaration(Indexed(Eip, j), CfnEip) in Build(props).value
                && Declaration(Indexed(NatGateway, j),
                               CfnNatGateway(Indexed(PublicSubnet, j % |props.PublicDefs()|), Indexed(Eip, j)))
                   in Build(props).value
  {
    OfTypeByKind(props, AwsNatGateway, NatGateway);
    OfTypeByKind(props, AwsEip, Eip);
    if |props.PublicDefs()| > 0 {
      forall j | 0 <= j < |props.PrivateDefs()|
        ensures Declaration(Indexed(Eip, j), CfnEip) in Build(props).value
        ensures Declaration(Indexed(NatGateway, j),
                            CfnNatGateway(Indexed(PublicSubnet, j % |props.PublicDefs()|), Indexed(Eip, j)))
                in Build(props).value
      {
        ExpectedIsDeclared(props, Indexed(Eip, j));
        ExpectedIsDeclared(props, Indexed(NatGateway, j));
      }
    }
  }

  /** What an expected NAT route declares. */
  lemma ExpectedNatRoute(props: StacksmithsVpcProps, id: LogicalId)
    requires Expected(props, id)
    ensures IsNatRoute(DeclOf(props, id)) ==>
              |props.PublicDefs()| > 0
              && DeclOf(props, id) == Declaration(Indexed(PrivateRoute, id.index),
                                                  CfnRoute(Indexed(PrivateRouteTable, id.index), DefaultRoute,
                                                           NatGatewayId(Indexed(NatGateway, id.index))))
  {
  }

  /** Every NAT route is private table `j`'s one default route, to NAT `j`,
      and each private table has one when there are public subnets. */
  lemma PrivateDefaultRoutes(props: StacksmithsVpcProps)
    requires Validate(props).Pass?
    ensures Build(props).Success?
    ensures forall d | d in Build(props).value && IsNatRoute(d) ::
              |props.PublicDefs()| > 0
              && d == Declaration(Indexed(PrivateRoute, d.resource.routeTable.index),
                                  CfnRoute(Indexed(PrivateRouteTable, d.resource.routeTable.index), DefaultRoute,
                                           NatGatewayId(Indexed(NatGateway, d.resource.routeTable.index))))
    ensures |props.PublicDefs()| > 0 ==>
              forall j | 0 <= j < |props.PrivateDefs()| ::
                Declaration(Indexed(PrivateRoute, j),
                            CfnRoute(Indexed(PrivateRouteTable, j), DefaultRoute, NatGatewayId(Indexed(NatGateway, j))))
                in Build(props).value
  {
    var ds := Build(props).value;
    forall d | d in ds && IsNatRoute(d)
      ensures |props.PublicDefs()| > 0
      ensures d == Declaration(Indexed(PrivateRoute, d.resource.routeTable.index),
                               CfnRoute(Indexed(PrivateRouteTable, d.resource.routeTable.index), DefaultRoute,
                                        NatGatewayId(Indexed(NatGateway, d.resource.routeTable.index))))
    {
      DeclaredIsExpected(props, d);
      ExpectedNatRoute(props, d.id);
    }
    if |props.PublicDefs()| > 0 {
      forall j | 0 <= j < |props.PrivateDefs()|
        ensures Declaration(Indexed(PrivateRoute, j),
                            CfnRoute(Indexed(PrivateRouteTable, j), DefaultRoute, NatGatewayId(Indexed(NatGateway, j))))
                in ds
      {
        ExpectedIsDeclared(props, Indexed(PrivateRoute, j));
      }
    }
  }

  /** Without public subnets no route goes through the internet gateway or
      a NAT gateway. */
  lemma NoEgressWithoutPublicSubnets(props: StacksmithsVpcProps)
    requires Validate(props).Pass? && |props.PublicDefs()| == 0
    ensures Build(props).Success?
    ensures forall d | d in Build(props).value :: !IsInternetRoute(d) && !IsNatRoute(d)
  {
    forall d | d in Build(props).value ensures !IsInternetRoute(d) && !IsNatRoute(d) {
      DeclaredIsExpected(props, d);
      ExpectedInternetRoute(props, d.id);
      ExpectedNatRoute(props, d.id);
    }
  }

  /** A route goes to a peering connection only with peering props, and to
      a transit gateway only with transit gateway props. */
  lemma ExpectedRouteOrigin(props: StacksmithsVpcProps, id: LogicalId)
    requires Expected(props, id)
    ensures var r := ExpectedResource(props, id);
            r.CfnRoute? && r.target.VpcPeeringConnectionId? ==> props.vpcPeering.Some?
    ensures var r := ExpectedResource(props, id);
            r.CfnRoute? && r.target.TransitGatewayId? ==> props.transitGateway.Some?
  {
  }

  /** Without peering props no peering connection is declared and no
      route goes to one. */
  lemma PeeringAbsent(props: StacksmithsVpcProps)
    requires Validate(props).Pass? && props.vpcPeering.None?
    ensures Build(props).Success?
    ensures OfType(Build(props).value, AwsVpcPeeringConnection) == []
    ensures forall d | d in Build(props).value && d.resource.CfnRoute? :: !d.resource.target.VpcPeeringConnectionId?
  {
    OfTypeByKind(props, AwsVpcPeeringConnection, VpcPeeringConnection);
    forall d | d in Build(props).value && d.resource.CfnRoute? ensures !d.resource.target.VpcPeeringConnectionId? {
      DeclaredIsExpected(props, d);
      ExpectedRouteOrigin(props, d.id);
    }
  }

  /** The reference's peering routes: one per table, in table order. */
  lemma ExpectedPeeringRoutes(props: StacksmithsVpcProps)
    requires props.vpcPeering.Some?
    ensures |ExpectedOfKind(props, PeeringRoute)| == 1 + |props.PrivateDefs()|
    ensures forall t | 0 <= t < 1 + |props.PrivateDefs()| ::
              ExpectedOfKind(props, PeeringRoute)[t]
              == Declaration(Indexed(PeeringRoute, t),
                             CfnRoute(RouteTableAt(t), props.vpcPeering.value.peerCidr,
                                      VpcPeeringConnectionId(PeeringConnectionId)))
  {
    forall t | 0 <= t < 1 + |props.PrivateDefs()|
      ensures ExpectedOfKind(props, PeeringRoute)[t]
              == Declaration(Indexed(PeeringRoute, t),
                             CfnRoute(RouteTableAt(t), props.vpcPeering.value.peerCidr,
                                      VpcPeeringConnectionId(PeeringConnectionId)))
    {
      EnumerateAt(props, PeeringRoute, 1 + |props.PrivateDefs()|, t);
    }
  }

  /** With peering props: one connection from the VPC to the peer VPC, and
      1 + N routes to the peer CIDR through it, one per table, the public
      table first, then the private tables in order. */
  lemma PeeringFanOut(props: StacksmithsVpcProps)
    requires Validate(props).Pass? && props.vpcPeering.Some?
    ensures Build(props).Success?
    ensures OfType(Build(props).value, AwsVpcPeeringConnection)
            == [Declaration(PeeringConnectionId, CfnVpcPeeringConnection(VpcId, props.vpcPeering.value.peerVpcId))]
    ensures |OfKind(Build(props).value, PeeringRoute)| == 1 + |props.PrivateDefs()|
    ensures forall t | 0 <= t < 1 + |props.PrivateDefs()| ::
              OfKind(Build(props).value, PeeringRoute)[t]
              == Declaration(Indexed(PeeringRoute, t),
                             CfnRoute(RouteTableAt(t), props.vpcPeering.value.peerCidr,
                                      VpcPeeringConnectionId(PeeringConnectionId)))
  {
    OfTypeByKind(props, AwsVpcPeeringConnection, VpcPeeringConnection);
    EnumerateOne(props, VpcPeeringConnection);
    BuildByKind(props, PeeringRoute);
    ExpectedPeeringRoutes(props);
  }

  /** Without transit gateway props no attachment is declared and no route
      goes to a transit gateway. */
  lemma TransitGatewayAbsent(props: StacksmithsVpcProps)
    requires Validate(props).Pass? && props.transitGateway.None?
    ensures Build(props).Success?
    ensures OfType(Build(props).value, AwsTransitGatewayAttachment) == []
    ensures forall d | d in Build(props).value && d.resource.CfnRoute? :: !d.resource.target.TransitGatewayId?
  {
    OfTypeByKind(props, AwsTransitGatewayAttachment, TransitGatewayAttachment);
    forall d | d in Build(props).value && d.resource.CfnRoute? ensures !d.resource.target.TransitGatewayId? {
      DeclaredIsExpected(props, d);
      ExpectedRouteOrigin(props, d.id);
    }
  }

  /** With transit gateway props: one attachment of the VPC to the transit
      gateway, over the public subnets in order (none when there are no
      public subnets). */
  lemma TransitGatewayAttachmentSubnets(props: StacksmithsVpcProps)
    requires Validate(props).Pass? && props.transitGateway.Some?
    ensures Build(props).Success?
    ensures var attachments := OfType(Build(props).value, AwsTransitGatewayAttachment);
            var subnets := OfKind(Build(props).value, PublicSubnet);
            |attachments| == 1
            && attachments[0].id == TgwAttachmentId
            && attachments[0].resource.CfnTransitGatewayAttachment?
            && attachments[0].resource.transitGatewayId == props.transitGateway.value.tgwId
            && attachments[0].resource.vpc == VpcId
            && |attachments[0].resource.subnets| == |subnets|
            && (forall i | 0 <= i < |subnets| :: attachments[0].resource.subnets[i] == subnets[i].id)
  {
    OfTypeByKind(props, AwsTransitGatewayAttachment, TransitGatewayAttachment);
    BuildByKind(props, PublicSubnet);
    forall i | 0 <= i < |props.PublicDefs()|
      ensures OfKind(Build(props).value, PublicSubnet)[i].id == Indexed(PublicSubnet, i)
    {
      EnumerateAt(props, PublicSubnet, |props.PublicDefs()|, i);
    }
  }

  /** The reference's transit gateway routes: (1 + N) * K of them,
      table-major. */
  lemma ExpectedTransitRoutes(props: StacksmithsVpcProps)
    requires props.transitGateway.Some?
    ensures |ExpectedOfKind(props, TransitGatewayRoute)|
            == (1 + |props.PrivateDefs()|) * |props.transitGateway.value.spokeVpcCidrs|
    ensures forall t: nat, s: nat | t < 1 + |props.PrivateDefs()| && s < |props.transitGateway.value.spokeVpcCidrs| ::
              t * |props.transitGateway.value.spokeVpcCidrs| + s < |ExpectedOfKind(props, TransitGatewayRoute)|
              && ExpectedOfKind(props, TransitGatewayRoute)[t * |props.transitGateway.value.spokeVpcCidrs| + s]
                 == Declaration(LogicalId(TransitGatewayRoute, t, s),
                                CfnRoute(RouteTableAt(t), props.transitGateway.value.spokeVpcCidrs[s],
                                         TransitGatewayId(props.transitGateway.value.tgwId)))
  {
    var tgw := props.transitGateway.value;
    var n := 1 + |props.PrivateDefs()|;
    var k := |tgw.spokeVpcCidrs|;
    var routes := ExpectedOfKind(props, TransitGatewayRoute);
    assert routes == Grid(props, n);
    GridLength(props, n);
    forall t: nat, s: nat | t < n && s < k
      ensures t * k + s < |routes|
      ensures routes[t * k + s] == Declaration(LogicalId(TransitGatewayRoute, t, s),
                                               CfnRoute(RouteTableAt(t), tgw.spokeVpcCidrs[s], TransitGatewayId(tgw.tgwId)))
    {
      GridAt(props, n, t, s);
    }
  }

  /** With transit gateway props and K spoke CIDRs: (1 + N) * K routes,
      table-major, route (t, s) sending spoke CIDR `s` of table `t` (public
      table first, then private tables in order) to the transit gateway. */
  lemma TransitGatewayRoutes(props: StacksmithsVpcProps)
    requires Validate(props).Pass? && props.transitGateway.Some?
    ensures Build(props).Success?
    ensures |OfKind(Build(props).value, TransitGatewayRoute)|
            == (1 + |props.PrivateDefs()|) * |props.transitGateway.value.spokeVpcCidrs|
    ensures forall t: nat, s: nat | t < 1 + |props.PrivateDefs()| && s < |props.transitGateway.value.spokeVpcCidrs| ::
              t * |props.transitGateway.value.spokeVpcCidrs| + s < |OfKind(Build(props).value, TransitGatewayRoute)|
              && OfKind(Build(props).value, TransitGatewayRoute)[t * |props.transitGateway.value.spokeVpcCidrs| + s]
                 == Declaration(LogicalId(TransitGatewayRoute, t, s),
                                CfnRoute(RouteTableAt(t), props.transitGateway.value.spokeVpcCidrs[s],
                                         TransitGatewayId(props.transitGateway.value.tgwId)))
  {
    BuildByKind(props, TransitGatewayRoute);
    ExpectedTransitRoutes(props);
  }

  /** Every id an expected resource refers to is itself expected. */
  lemma ExpectedRefsExpected(props: StacksmithsVpcProps, id: LogicalId, x: LogicalId)
    requires Expected(props, id) && x in Refs(ExpectedResource(props, id))
    ensures Expected(props, x)
  {
    match id.kind
    case TransitGatewayAttachment =>
      if x != VpcId {
        var subnets := PublicSubnetHandles(|props.PublicDefs()|);
        var s :| 0 <= s < |subnets| && subnets[s] == x;
      }
    case _ =>
  }

  /** Every reference a declared resource makes resolves to a declared
      resource. */
  lemma ReferencesResolve(props: StacksmithsVpcProps)
    requires Validate(props).Pass?
    ensures Build(props).Success?
    ensures forall d, x | d in Build(props).value && x in Refs(d.resource) ::
              Expected(props, x) && DeclOf(props, x) in Build(props).value
  {
    var ds := Build(props).value;
    forall d, x | d in ds && x in Refs(d.resource)
      ensures Expected(props, x) && DeclOf(props, x) in ds
    {
      DeclaredIsExpected(props, d);
      ExpectedRefsExpected(props, d.id, x);
      ExpectedIsDeclared(props, x);
    }
  }
}
