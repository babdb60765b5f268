/** The construct as its constructor runs: a `StacksmithsVpc` object whose
    children grow one `new` at a time, section by section, proved to end up
    holding exactly what `Topology.Build` says. */
module Construct {
  import opened Wrappers
  import opened Props
  import opened Resources
  import opened Topology

  class StacksmithsVpc {
    /** The child constructs declared so far, in order. */
    var children: seq<Declaration>
    /** The public `vpc` field, set once the VPC is declared. */
    var vpc: Option<LogicalId>

    /** The construct before its constructor body runs (`super(scope, id)`). */
    constructor()
      ensures children == [] && vpc == None
    {
      children := [];
      vpc := None;
    }

    /** `new X(this, id, ...)`: one more child. */
    method Declare(d: Declaration)
      modifies this
      ensures children == old(children) + [d] && vpc == old(vpc)
    {
      children := children + [d];
    }

    /** The VPC, the internet gateway, its attachment and the public route
        table. */
    method DeclareGateways(props: StacksmithsVpcProps)
      requires children == []
      modifies this
      ensures children == GatewayDecls(props) && vpc == Some(VpcId)
    {
      Declare(Declaration(VpcId, Vpc(props.cidr, props.enableDnsHostnames.GetOr(true),
                                     props.enableDnsSupport.GetOr(true))));
      vpc := Some(VpcId);
      Declare(Declaration(IgwId, CfnInternetGateway));
      Declare(Declaration(IgwAttachmentId, CfnVpcGatewayAttachment(IgwId, VpcId)));
      Declare(Declaration(PublicRouteTableId, CfnRouteTable(VpcId)));
    }

    /** The `map` callback for public subnet `i`; returns the subnet. */
    method DeclarePublicSubnet(pub: seq<SubnetDefinition>, i: nat) returns (subnet: LogicalId)
      requires i < |pub|
      modifies this
      ensures children == old(children) + PublicSubnetStep(pub, i) && vpc == old(vpc)
      ensures subnet == Indexed(PublicSubnet, i)
    {
      subnet := Indexed(PublicSubnet, i);
      Declare(Declaration(subnet, Subnet(VpcId, pub[i].cidr, pub[i].availabilityZone, true)));
      if i == 0 {
        Declare(Declaration(PublicRouteId, CfnRoute(PublicRouteTableId, DefaultRoute, GatewayId(IgwId))));
      }
      Declare(Declaration(Indexed(PublicSubnetRouteTableAssoc, i), CfnSubnetRouteTableAssociation(PublicRouteTableId, subnet)));
    }

    /** The `map` over the public subnet definitions; its result is the list
        of public subnets. */
    method DeclarePublicSubnets(pub: seq<SubnetDefinition>) returns (publicSubnets: seq<LogicalId>)
      modifies this
      ensures children == old(children) + PublicSubnetsUpTo(pub, |pub|) && vpc == old(vpc)
      ensures publicSubnets == PublicSubnetHandles(|pub|)
    {
      publicSubnets := [];
      var i := 0;
      while i < |pub|
        invariant i <= |pub|
        invariant children == old(children) + PublicSubnetsUpTo(pub, i) && vpc == old(vpc)
        invariant publicSubnets == PublicSubnetHandles(i)
      {
        var subnet := DeclarePublicSubnet(pub, i);
        AppendAssoc(old(children), PublicSubnetsUpTo(pub, i), PublicSubnetStep(pub, i));
        publicSubnets := publicSubnets + [subnet];
        i := i + 1;
      }
    }

    /** The `forEach` callback for private subnet `j`; returns its route
        table. */
    method DeclarePrivateSubnet(priv: seq<SubnetDefinition>, publicSubnets: seq<LogicalId>, j: nat)
      returns (table: LogicalId)
      requires j < |priv|
      modifies this
      ensures children == old(children) + PrivateSubnetStep(priv, publicSubnets, j) && vpc == old(vpc)
      ensures table == Indexed(PrivateRouteTable, j)
    {
      var subnet := Indexed(PrivateSubnet, j);
      table := Indexed(PrivateRouteTable, j);
      Declare(Declaration(subnet, Subnet(VpcId, priv[j].cidr, priv[j].availabilityZone, false)));
      Declare(Declaration(table, CfnRouteTable(VpcId)));
      if |publicSubnets| > 0 {
        var eip := Indexed(Eip, j);
        Declare(Declaration(eip, CfnEip));
        Declare(Declaration(Indexed(NatGateway, j), CfnNatGateway(publicSubnets[j % |publicSubnets|], eip)));
        Declare(Declaration(Indexed(PrivateRoute, j), CfnRoute(table, DefaultRoute, NatGatewayId(Indexed(NatGateway, j)))));
      }
      Declare(Declaration(Indexed(PrivateSubnetRouteTableAssoc, j), CfnSubnetRouteTableAssociation(table, subnet)));
    }

    /** The `forEach` over the private subnet definitions; returns the
        `privateRouteTables` list it pushes to. */
    method DeclarePrivateSubnets(priv: seq<SubnetDefinition>, publicSubnets: seq<LogicalId>)
      returns (privateRouteTables: seq<LogicalId>)
      modifies this
      ensures children == old(children) + PrivateSubnetsUpTo(priv, publicSubnets, |priv|) && vpc == old(vpc)
      ensures privateRouteTables == PrivateRouteTableHandles(|priv|)
    {
      privateRouteTables := [];
      var j := 0;
      while j < |priv|
        invariant j <= |priv|
        invariant children == old(children) + PrivateSubnetsUpTo(priv, publicSubnets, j) && vpc == old(vpc)
        invariant privateRouteTables == PrivateRouteTableHandles(j)
      {
        var table := DeclarePrivateSubnet(priv, publicSubnets, j);
        AppendAssoc(old(children), PrivateSubnetsUpTo(priv, publicSubnets, j), PrivateSubnetStep(priv, publicSubnets, j));
        privateRouteTables := privateRouteTables + [table];
        j := j + 1;
      }
    }

    /** The peering connection and a route to the peer CIDR in every table. */
    method DeclarePeering(peering: VpcPeeringProps, allRouteTables: seq<LogicalId>)
      modifies this
      ensures children == old(children) + PeeringDecls(peering, allRouteTables) && vpc == old(vpc)
    {
      Declare(Declaration(PeeringConnectionId, CfnVpcPeeringConnection(VpcId, peering.peerVpcId)));
      ghost var front := children;
      var t := 0;
      while t < |allRouteTables|
        invariant t <= |allRouteTables|
        invariant children == front + PeeringRoutesUpTo(peering.peerCidr, allRouteTables, t) && vpc == old(vpc)
      {
        var route := Declaration(Indexed(PeeringRoute, t),
                                 CfnRoute(allRouteTables[t], peering.peerCidr, VpcPeeringConnectionId(PeeringConnectionId)));
        Declare(route);
        AppendAssoc(front, PeeringRoutesUpTo(peering.peerCidr, allRouteTables, t), [route]);
        t := t + 1;
      }
      AppendAssoc(old(children), [Declaration(PeeringConnectionId, CfnVpcPeeringConnection(VpcId, peering.peerVpcId))],
                  PeeringRoutesUpTo(peering.peerCidr, allRouteTables, |allRouteTables|));
    }

    /** The attachment over the public subnets, then, table by table, a route
        for every spoke CIDR. */
    method DeclareTransitGateway(tgw: TransitGatewayProps, publicSubnets: seq<LogicalId>, allRouteTables: seq<LogicalId>)
      modifies this
      ensures children == old(children) + TransitGatewayDecls(tgw, publicSubnets, allRouteTables) && vpc == old(vpc)
    {
      var attachment := Declaration(TgwAttachmentId, CfnTransitGatewayAttachment(tgw.tgwId, VpcId, publicSubnets));
      Declare(attachment);
      ghost var front := children;
      var t := 0;
      while t < |allRouteTables|
        invariant t <= |allRouteTables|
        invariant children == front + TransitRoutesUpTo(tgw, allRouteTables, t) && vpc == old(vpc)
      {
        ghost var rowStart := children;
        var s := 0;
        while s < |tgw.spokeVpcCidrs|
          invariant s <= |tgw.spokeVpcCidrs|
          invariant children == rowStart + TransitRouteRow(tgw, allRouteTables, t, s) && vpc == old(vpc)
        {
          var route := Declaration(LogicalId(TransitGatewayRoute, t, s),
                                   CfnRoute(allRouteTables[t], tgw.spokeVpcCidrs[s], TransitGatewayId(tgw.tgwId)));
          Declare(route);
          AppendAssoc(rowStart, TransitRouteRow(tgw, allRouteTables, t, s), [route]);
          s := s + 1;
        }
        AppendAssoc(front, TransitRoutesUpTo(tgw, allRouteTables, t), TransitRouteRow(tgw, allRouteTables, t, |tgw.spokeVpcCidrs|));
        t := t + 1;
      }
      AppendAssoc(old(children), [attachment], TransitRoutesUpTo(tgw, allRouteTables, |allRouteTables|));
    }

    /** The constructor body: the two checks, then the sections in source
        order. A failed check declares nothing. */
    method Init(props: StacksmithsVpcProps) returns (outcome: Outcome<ValidationError>)
      requires children == [] && vpc == None
      modifies this
      ensures outcome == Validate(props)
      ensures outcome.Fail? ==> children == [] && vpc == None
      ensures outcome.Pass? ==> Build(props) == Success(children) && vpc == Some(VpcId)
    {
      if props.cidr == "" {
        return Fail(CidrMissing);
      }
      if |props.PublicDefs()| == 0 && |props.PrivateDefs()| == 0 {
        return Fail(NoSubnets);
      }
      outcome := Pass;
      DeclareGateways(props);
      var publicSubnets := DeclarePublicSubnets(props.PublicDefs());
      var privateRouteTables := DeclarePrivateSubnets(props.PrivateDefs(), publicSubnets);
      ghost var beforeOptional := children;
      if props.vpcPeering.Some? {
        DeclarePeering(props.vpcPeering.value, [PublicRouteTableId] + privateRouteTables);
      } else {
        assert children == beforeOptional + [];
      }
      ghost var beforeTransit := children;
      if props.transitGateway.Some? {
        DeclareTransitGateway(props.transitGateway.value, publicSubnets, [PublicRouteTableId] + privateRouteTables);
      } else {
        assert children == beforeTransit + [];
      }
    }
  }

  lemma AppendAssoc(a: seq<Declaration>, b: seq<Declaration>, c: seq<Declaration>)
    ensures a + b + c == a + (b + c)
  {
  }
}
