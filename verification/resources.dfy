/** What the construct declares: CloudFormation resources, each under a
    logical id, and the references between them. */
module Resources {

  /** The kinds of child construct the construct declares. The source names
      each by a fixed prefix and, where there are several, a 1-based index
      (`PublicSubnet-1`, `TransitGatewayRoute-2-1`). */
  datatype Kind =
    | CustomVpc | InternetGateway | IgwAttachment | PublicRouteTable
    | PublicSubnet | PublicRoute | PublicSubnetRouteTableAssoc
    | PrivateSubnet | PrivateRouteTable | Eip | NatGateway | PrivateRoute
    | PrivateSubnetRouteTableAssoc
    | VpcPeeringConnection | PeeringRoute
    | TransitGatewayAttachment | TransitGatewayRoute

  /** A logical id: kind, 0-based index and, for transit gateway routes, the
      0-based spoke index. A reference to a resource is its logical id, as a
      CloudFormation `Ref` is. */
  datatype LogicalId = LogicalId(kind: Kind, index: nat, subIndex: nat)

  function Single(k: Kind): LogicalId { LogicalId(k, 0, 0) }

  function Indexed(k: Kind, i: nat): LogicalId { LogicalId(k, i, 0) }

  const VpcId: LogicalId := Single(CustomVpc)
  const IgwId: LogicalId := Single(InternetGateway)
  const IgwAttachmentId: LogicalId := Single(IgwAttachment)
  const PublicRouteTableId: LogicalId := Single(PublicRouteTable)
  const PublicRouteId: LogicalId := Single(PublicRoute)
  const PeeringConnectionId: LogicalId := Single(VpcPeeringConnection)
  const TgwAttachmentId: LogicalId := Single(TransitGatewayAttachment)

  /** The one target property a route sets. */
  datatype RouteTarget =
    | GatewayId(gateway: LogicalId)
    | NatGatewayId(natGateway: LogicalId)
    | VpcPeeringConnectionId(connection: LogicalId)
    | TransitGatewayId(transitGatewayId: string)

  /** The resources, with the properties the construct sets on them. */
  datatype Resource =
    | Vpc(cidrBlock: string, enableDnsHostnames: bool, enableDnsSupport: bool)
    | CfnInternetGateway
    | CfnVpcGatewayAttachment(internetGateway: LogicalId, vpc: LogicalId)
    | CfnRouteTable(vpc: LogicalId)
    | Subnet(vpc: LogicalId, cidrBlock: string, availabilityZone: string, mapPublicIpOnLaunch: bool)
    | CfnEip
    | CfnNatGateway(subnet: LogicalId, allocation: LogicalId)
    | CfnRoute(routeTable: LogicalId, destinationCidrBlock: string, target: RouteTarget)
    | CfnSubnetRouteTableAssociation(routeTable: LogicalId, subnet: LogicalId)
    | CfnVpcPeeringConnection(vpc: LogicalId, peerVpcId: string)
    | CfnTransitGatewayAttachment(transitGatewayId: string, vpc: LogicalId, subnets: seq<LogicalId>)

  /** The CloudFormation type a resource synthesises to (`AWS::EC2::VPC`, ...). */
  datatype ResourceType =
    | AwsVpc | AwsInternetGateway | AwsVpcGatewayAttachment | AwsRouteTable | AwsSubnet
    | AwsEip | AwsNatGateway | AwsRoute | AwsSubnetRouteTableAssociation
    | AwsVpcPeeringConnection | AwsTransitGatewayAttachment

  function TypeOf(r: Resource): ResourceType {
    match r
    case Vpc(_, _, _) => AwsVpc
    case CfnInternetGateway => AwsInternetGateway
    case CfnVpcGatewayAttachment(_, _) => AwsVpcGatewayAttachment
    case CfnRouteTable(_) => AwsRouteTable
    case Subnet(_, _, _, _) => AwsSubnet
    case CfnEip => AwsEip
    case CfnNatGateway(_, _) => AwsNatGateway
    case CfnRoute(_, _, _) => AwsRoute
    case CfnSubnetRouteTableAssociation(_, _) => AwsSubnetRouteTableAssociation
    case CfnVpcPeeringConnection(_, _) => AwsVpcPeeringConnection
    case CfnTransitGatewayAttachment(_, _, _) => AwsTransitGatewayAttachment
  }

  /** The logical ids a resource refers to (its `Ref`s). */
  function Refs(r: Resource): seq<LogicalId> {
    match r
    case Vpc(_, _, _) => []
    case CfnInternetGateway => []
    case CfnVpcGatewayAttachment(igw, vpc) => [igw, vpc]
    case CfnRouteTable(vpc) => [vpc]
    case Subnet(vpc, _, _, _) => [vpc]
    case CfnEip => []
    case CfnNatGateway(subnet, allocation) => [subnet, allocation]
    case CfnRoute(table, _, target) =>
      [table] + (match target
                 case GatewayId(g) => [g]
                 case NatGatewayId(n) => [n]
                 case VpcPeeringConnectionId(c) => [c]
                 case TransitGatewayId(_) => [])
    case CfnSubnetRouteTableAssociation(table, subnet) => [table, subnet]
    case CfnVpcPeeringConnection(vpc, _) => [vpc]
    case CfnTransitGatewayAttachment(_, vpc, subnets) => [vpc] + subnets
  }

  /** One child construct: a resource under its logical id. */
  datatype Declaration = Declaration(id: LogicalId, resource: Resource)

  /** The declarations of kind `k`, in declaration order. */
  function OfKind(ds: seq<Declaration>, k: Kind): seq<Declaration>
  {
    if ds == [] then []
    else if ds[0].id.kind == k then [ds[0]] + OfKind(ds[1..], k)
    else OfKind(ds[1..], k)
  }

  /** The declarations of the construct itself whose resource has type `t`,
      in declaration order. For the VPC, internet gateway, attachment, EIP,
      NAT gateway, peering connection and transit gateway attachment types this
      is the template's count; route tables and associations also gain the
      ones `ec2.Subnet` adds internally, which are not modelled. */
  function OfType(ds: seq<Declaration>, t: ResourceType): seq<Declaration>
  {
    if ds == [] then []
    else if TypeOf(ds[0].resource) == t then [ds[0]] + OfType(ds[1..], t)
    else OfType(ds[1..], t)
  }

  /** No logical id is declared twice. */
  predicate DistinctIds(ds: seq<Declaration>) {
    forall p, q | 0 <= p < q < |ds| :: ds[p].id != ds[q].id
  }

  /** `OfKind` keeps exactly the declarations of kind `k`. */
  lemma {:induction false} OfKindMembers(ds: seq<Declaration>, k: Kind)
    ensures forall d | d in OfKind(ds, k) :: d in ds && d.id.kind == k
    ensures forall d | d in ds && d.id.kind == k :: d in OfKind(ds, k)
  {
    if ds != [] {
      OfKindMembers(ds[1..], k);
      assert forall d | d in ds :: d == ds[0] || d in ds[1..];
    }
  }

  lemma {:induction false} OfKindAppend(a: seq<Declaration>, b: seq<Declaration>, k: Kind)
    ensures OfKind(a + b, k) == OfKind(a, k) + OfKind(b, k)
  {
    if a == [] {
      assert a + b == b;
    } else {
      assert (a + b)[0] == a[0];
      assert (a + b)[1..] == a[1..] + b;
      OfKindAppend(a[1..], b, k);
    }
  }

  /** Selecting by type is selecting by kind when, in `ds`, exactly the
      declarations of kind `k` have type `t`. */
  lemma {:induction false} OfTypeIsOfKind(ds: seq<Declaration>, t: ResourceType, k: Kind)
    requires forall d | d in ds :: TypeOf(d.resource) == t <==> d.id.kind == k
    ensures OfType(ds, t) == OfKind(ds, k)
  {
    if ds != [] {
      assert ds[0] in ds;
      OfTypeIsOfKind(ds[1..], t, k);
    }
  }

  /** Every declaration in `ds` has kind `k`. */
  predicate AllOfKind(ds: seq<Declaration>, k: Kind) {
    forall d | d in ds :: d.id.kind == k
  }

  lemma {:induction false} OfKindAll(ds: seq<Declaration>, k: Kind)
    requires AllOfKind(ds, k)
    ensures OfKind(ds, k) == ds
  {
    if ds != [] {
      assert ds[0] in ds;
      assert forall d | d in ds[1..] :: d in ds;
      OfKindAll(ds[1..], k);
      assert ds == [ds[0]] + ds[1..];
    }
  }

  /** Whether `ds` declares anything of kind `k`. */
  predicate HasKind(ds: seq<Declaration>, k: Kind) {
    ds != [] && (ds[0].id.kind == k || HasKind(ds[1..], k))
  }

  lemma {:induction false} HasKindWitness(ds: seq<Declaration>, k: Kind)
    requires HasKind(ds, k)
    ensures exists i | 0 <= i < |ds| :: ds[i].id.kind == k
  {
    if ds[0].id.kind != k {
      HasKindWitness(ds[1..], k);
      var i :| 0 <= i < |ds[1..]| && ds[1..][i].id.kind == k;
      assert ds[i + 1].id.kind == k;
    }
  }

  lemma {:induction false} NoKindAt(ds: seq<Declaration>, k: Kind)
    requires forall j | 0 <= j < |ds| :: ds[j].id.kind != k
    ensures !HasKind(ds, k)
  {
    if ds != [] {
      NoKindAt(ds[1..], k);
    }
  }

  lemma HasKindSingle(d: Declaration, k: Kind)
    ensures HasKind([d], k) <==> d.id.kind == k
  {
    assert [d][1..] == [];
  }

  lemma {:induction false} HasKindAppend(a: seq<Declaration>, b: seq<Declaration>, k: Kind)
    ensures HasKind(a + b, k) <==> HasKind(a, k) || HasKind(b, k)
  {
    if a == [] {
      assert a + b == b;
    } else {
      assert (a + b)[0] == a[0];
      assert (a + b)[1..] == a[1..] + b;
      HasKindAppend(a[1..], b, k);
    }
  }

  /** A sequence of one kind declares nothing of any other. */
  lemma {:induction false} AllOfKindHasNo(ds: seq<Declaration>, k: Kind, other: Kind)
    requires AllOfKind(ds, k) && other != k
    ensures !HasKind(ds, other)
  {
    if ds != [] {
      assert ds[0] in ds;
      assert forall d | d in ds[1..] :: d in ds;
      AllOfKindHasNo(ds[1..], k, other);
    }
  }

  lemma {:induction false} OfKindNone(ds: seq<Declaration>, k: Kind)
    requires !HasKind(ds, k)
    ensures OfKind(ds, k) == []
  {
    if ds != [] {
      OfKindNone(ds[1..], k);
    }
  }

  lemma OfKindCons(x: Declaration, rest: seq<Declaration>, k: Kind)
    ensures OfKind([x] + rest, k) == if x.id.kind == k then [x] + OfKind(rest, k) else OfKind(rest, k)
  {
    assert ([x] + rest)[0] == x;
    assert ([x] + rest)[1..] == rest;
  }

  /** Declarations of other kinds in front do not change the selection. */
  lemma {:induction false} OfKindNoneAppend(a: seq<Declaration>, b: seq<Declaration>, k: Kind)
    requires !HasKind(a, k)
    ensures OfKind(a + b, k) == OfKind(b, k)
  {
    if a != [] {
      assert (a + b)[0] == a[0];
      assert (a + b)[1..] == a[1..] + b;
      OfKindNoneAppend(a[1..], b, k);
    } else {
      assert a + b == b;
    }
  }

  /** Declarations of other kinds behind do not change the selection. */
  lemma OfKindAppendNone(a: seq<Declaration>, b: seq<Declaration>, k: Kind)
    requires !HasKind(b, k)
    ensures OfKind(a + b, k) == OfKind(a, k)
  {
    OfKindAppend(a, b, k);
    OfKindNone(b, k);
    assert OfKind(a, k) + [] == OfKind(a, k);
  }

  /** A sequence whose only declaration of kind `k` sits at position `i`. */
  lemma {:induction false} OfKindUnique(ds: seq<Declaration>, i: nat, k: Kind)
    requires i < |ds| && ds[i].id.kind == k
    requires forall j | 0 <= j < |ds| && j != i :: ds[j].id.kind != k
    ensures OfKind(ds, k) == [ds[i]]
  {
    if i == 0 {
      NoKindAt(ds[1..], k);
      OfKindNone(ds[1..], k);
      assert [ds[0]] + [] == [ds[0]];
    } else {
      OfKindUnique(ds[1..], i - 1, k);
    }
  }

  lemma DistinctSuffix(front: seq<Declaration>, s: seq<Declaration>)
    requires DistinctIds(front + s)
    ensures DistinctIds(s)
  {
    forall p, q | 0 <= p < q < |s| ensures s[p].id != s[q].id {
      assert s[p] == (front + s)[p + |front|] && s[q] == (front + s)[q + |front|];
    }
  }

  lemma DistinctHead(x: Declaration, s: seq<Declaration>)
    requires DistinctIds([x] + s)
    ensures forall d | d in s :: d.id != x.id
  {
    forall d | d in s ensures d.id != x.id {
      var m :| 0 <= m < |s| && s[m] == d;
      assert ([x] + s)[0] == x && ([x] + s)[m + 1] == d;
    }
  }

  /** Distinct ids within every kind means distinct ids overall. */
  lemma {:induction false} DistinctFromKinds(ds: seq<Declaration>)
    requires forall k :: DistinctIds(OfKind(ds, k))
    ensures DistinctIds(ds)
  {
    if ds != [] {
      var x, rest := ds[0], ds[1..];
      assert ds == [x] + rest;
      forall k ensures DistinctIds(OfKind(rest, k)) {
        OfKindCons(x, rest, k);
        if x.id.kind == k {
          DistinctSuffix([x], OfKind(rest, k));
        }
      }
      DistinctFromKinds(rest);
      OfKindCons(x, rest, x.id.kind);
      OfKindMembers(rest, x.id.kind);
      DistinctHead(x, OfKind(rest, x.id.kind));
      forall p, q | 0 <= p < q < |ds| ensures ds[p].id != ds[q].id {
        if p == 0 {
          assert ds[q] in rest;
        } else {
          assert ds[p] == rest[p - 1] && ds[q] == rest[q - 1];
        }
      }
    }
  }
}
