/** Section by section, the declarations `Build` makes of each kind, and from
    them the whole construction against the per-id reference. */
module TopologyProofs {
  import opened Wrappers
  import opened Props
  import opened Resources
  import opened Topology
  import opened Reference

  lemma OfKindSingle(d: Declaration, k: Kind)
    ensures OfKind([d], k) == if d.id.kind == k then [d] else []
  {
    assert [d][1..] == [];
  }

  /** A single declaration of its kind is the reference's first of that kind. */
  lemma EnumerateOne(props: StacksmithsVpcProps, k: Kind)
    requires k != TransitGatewayRoute && 1 <= Count(props, k)
    ensures Enumerate(props, k, 1) == [DeclOf(props, Indexed(k, 0))]
  {
    assert Enumerate(props, k, 0) == [];
  }

  // ---- which kinds each section declares ----

  predicate GatewayKind(k: Kind) {
    k == CustomVpc || k == InternetGateway || k == IgwAttachment || k == PublicRouteTable
  }

  predicate PublicKind(k: Kind) {
    k == PublicSubnet || k == PublicRoute || k == PublicSubnetRouteTableAssoc
  }

  predicate PrivateSectionKind(k: Kind) {
    k == PrivateSubnet || k == PrivateRouteTable || k == PrivateSubnetRouteTableAssoc
    || k == Eip || k == NatGateway || k == PrivateRoute
  }

  /** The kinds of which every private subnet step declares one: subnet,
      table and association always, the NAT block's three only when there
      are public subnets. */
  predicate PrivateStepKind(withNat: bool, k: Kind) {
    k == PrivateSubnet || k == PrivateRouteTable || k == PrivateSubnetRouteTableAssoc
    || (withNat && (k == Eip || k == NatGateway || k == PrivateRoute))
  }

  predicate PrivateKind(props: StacksmithsVpcProps, k: Kind) {
    PrivateStepKind(|props.PublicDefs()| > 0, k)
  }

  predicate PeeringKind(k: Kind) {
    k == VpcPeeringConnection || k == PeeringRoute
  }

  predicate TransitKind(k: Kind) {
    k == TransitGatewayAttachment || k == TransitGatewayRoute
  }

  lemma GatewayKinds(props: StacksmithsVpcProps, k: Kind)
    ensures HasKind(GatewayDecls(props), k) ==> GatewayKind(k)
  {
    if HasKind(GatewayDecls(props), k) {
      HasKindWitness(GatewayDecls(props), k);
    }
  }

  lemma PublicStepKinds(pub: seq<SubnetDefinition>, i: nat, k: Kind)
    requires i < |pub|
    ensures HasKind(PublicSubnetStep(pub, i), k) ==> PublicKind(k)
  {
    if HasKind(PublicSubnetStep(pub, i), k) {
      HasKindWitness(PublicSubnetStep(pub, i), k);
    }
  }

  lemma {:induction false} PublicKinds(pub: seq<SubnetDefinition>, n: nat, k: Kind)
    requires n <= |pub|
    ensures HasKind(PublicSubnetsUpTo(pub, n), k) ==> PublicKind(k)
  {
    if n > 0 {
      PublicKinds(pub, n - 1, k);
      PublicStepKinds(pub, n - 1, k);
      HasKindAppend(PublicSubnetsUpTo(pub, n - 1), PublicSubnetStep(pub, n - 1), k);
    }
  }

  lemma PrivateStepKinds(priv: seq<SubnetDefinition>, handles: seq<LogicalId>, j: nat, k: Kind)
    requires j < |priv|
    ensures HasKind(PrivateSubnetStep(priv, handles, j), k) ==> PrivateStepKind(|handles| > 0, k)
  {
    if HasKind(PrivateSubnetStep(priv, handles, j), k) {
      HasKindWitness(PrivateSubnetStep(priv, handles, j), k);
    }
  }

  lemma {:induction false} PrivateKinds(priv: seq<SubnetDefinition>, handles: seq<LogicalId>, n: nat, k: Kind)
    requires n <= |priv|
    ensures HasKind(PrivateSubnetsUpTo(priv, handles, n), k) ==> PrivateStepKind(|handles| > 0, k)
  {
    if n > 0 {
      PrivateKinds(priv, handles, n - 1, k);
      PrivateStepKinds(priv, handles, n - 1, k);
      HasKindAppend(PrivateSubnetsUpTo(priv, handles, n - 1), PrivateSubnetStep(priv, handles, n - 1), k);
    }
  }

  // ---- VPC, internet gateway, attachment, public route table ----

  lemma GatewayByKind(props: StacksmithsVpcProps, k: Kind)
    requires GatewayKind(k)
    ensures OfKind(GatewayDecls(props), k) == [DeclOf(props, Single(k))]
  {
    var i := if k == CustomVpc then 0 else if k == InternetGateway then 1 else if k == IgwAttachment then 2 else 3;
    OfKindUnique(GatewayDecls(props), i, k);
  }

  // ---- public subnets ----

  /** How many declarations of kind `k` the first `n` public subnet steps make. */
  function PublicCount(n: nat, k: Kind): nat {
    if k == PublicRoute then (if n > 0 then 1 else 0) else n
  }

  lemma PublicStepByKind(props: StacksmithsVpcProps, i: nat, k: Kind)
    requires i < |props.PublicDefs()| && PublicKind(k)
    ensures OfKind(PublicSubnetStep(props.PublicDefs(), i), k)
            == if k == PublicRoute && i > 0 then [] else [DeclOf(props, Indexed(k, i))]
  {
    var ds := PublicSubnetStep(props.PublicDefs(), i);
    if k == PublicRoute && i > 0 {
      NoKindAt(ds, k);
      OfKindNone(ds, k);
    } else {
      OfKindUnique(ds, if k == PublicSubnet then 0 else if k == PublicRoute then 1 else |ds| - 1, k);
    }
  }

  lemma {:induction false} PublicByKind(props: StacksmithsVpcProps, n: nat, k: Kind)
    requires n <= |props.PublicDefs()| && PublicKind(k)
    ensures OfKind(PublicSubnetsUpTo(props.PublicDefs(), n), k) == Enumerate(props, k, PublicCount(n, k))
  {
    if n > 0 {
      var pub := props.PublicDefs();
      PublicByKind(props, n - 1, k);
      OfKindAppend(PublicSubnetsUpTo(pub, n - 1), PublicSubnetStep(pub, n - 1), k);
      PublicStepByKind(props, n - 1, k);
    }
  }

  // ---- private subnets ----

  lemma PrivateStepByKind(props: StacksmithsVpcProps, j: nat, k: Kind)
    requires j < |props.PrivateDefs()| && PrivateKind(props, k)
    ensures OfKind(PrivateSubnetStep(props.PrivateDefs(), PublicSubnetHandles(|props.PublicDefs()|), j), k)
            == [DeclOf(props, Indexed(k, j))]
  {
    var ds := PrivateSubnetStep(props.PrivateDefs(), PublicSubnetHandles(|props.PublicDefs()|), j);
    var at := if k == PrivateSubnet then 0 else if k == PrivateRouteTable then 1
              else if k == Eip then 2 else if k == NatGateway then 3 else if k == PrivateRoute then 4
              else |ds| - 1;
    OfKindUnique(ds, at, k);
  }

  /** One more private subnet step adds its one declaration of kind `k`. */
  lemma PrivateStepAppend(props: StacksmithsVpcProps, j: nat, k: Kind)
    requires j < |props.PrivateDefs()| && PrivateKind(props, k)
    ensures var priv, handles := props.PrivateDefs(), PublicSubnetHandles(|props.PublicDefs()|);
            OfKind(PrivateSubnetsUpTo(priv, handles, j + 1), k)
            == OfKind(PrivateSubnetsUpTo(priv, handles, j), k) + [DeclOf(props, Indexed(k, j))]
  {
    var priv, handles := props.PrivateDefs(), PublicSubnetHandles(|props.PublicDefs()|);
    OfKindAppend(PrivateSubnetsUpTo(priv, handles, j), PrivateSubnetStep(priv, handles, j), k);
    PrivateStepByKind(props, j, k);
  }

  lemma {:induction false} PrivateByKind(props: StacksmithsVpcProps, n: nat, k: Kind)
    requires n <= |props.PrivateDefs()| && PrivateKind(props, k)
    ensures OfKind(PrivateSubnetsUpTo(props.PrivateDefs(), PublicSubnetHandles(|props.PublicDefs()|), n), k)
            == Enumerate(props, k, n)
  {
    if n > 0 {
      PrivateByKind(props, n - 1, k);
      PrivateStepAppend(props, n - 1, k);
    }
  }

  // ---- route tables shared by peering and transit gateway ----

  lemma AllRouteTableAt(n: nat, t: nat)
    requires t < 1 + n
    ensures |AllRouteTables(n)| == 1 + n && AllRouteTables(n)[t] == RouteTableAt(t)
  {
  }

  // ---- peering ----

  lemma {:induction false} PeeringRoutesKinds(peerCidr: string, tables: seq<LogicalId>, n: nat)
    requires n <= |tables|
    ensures AllOfKind(PeeringRoutesUpTo(peerCidr, tables, n), PeeringRoute)
  {
    if n > 0 {
      PeeringRoutesKinds(peerCidr, tables, n - 1);
    }
  }

  /** The peering routes are the reference's, table by table. */
  lemma {:induction false} PeeringRoutesAre(props: StacksmithsVpcProps, n: nat)
    requires props.vpcPeering.Some? && n <= 1 + |props.PrivateDefs()|
    ensures PeeringRoutesUpTo(props.vpcPeering.value.peerCidr, AllRouteTables(|props.PrivateDefs()|), n)
            == Enumerate(props, PeeringRoute, n)
  {
    if n > 0 {
      PeeringRoutesAre(props, n - 1);
      AllRouteTableAt(|props.PrivateDefs()|, n - 1);
    }
  }

  lemma PeeringByKind(props: StacksmithsVpcProps, k: Kind)
    requires props.vpcPeering.Some? && PeeringKind(k)
    ensures OfKind(PeeringDecls(props.vpcPeering.value, AllRouteTables(|props.PrivateDefs()|)), k)
            == ExpectedOfKind(props, k)
  {
    var peering := props.vpcPeering.value;
    var tables := AllRouteTables(|props.PrivateDefs()|);
    var conn := Declaration(PeeringConnectionId, CfnVpcPeeringConnection(VpcId, peering.peerVpcId));
    var routes := PeeringRoutesUpTo(peering.peerCidr, tables, |tables|);
    PeeringRoutesKinds(peering.peerCidr, tables, |tables|);
    HasKindSingle(conn, k);
    if k == VpcPeeringConnection {
      AllOfKindHasNo(routes, PeeringRoute, k);
      OfKindAppendNone([conn], routes, k);
      OfKindSingle(conn, k);
      EnumerateOne(props, k);
    } else {
      OfKindNoneAppend([conn], routes, k);
      OfKindAll(routes, k);
      PeeringRoutesAre(props, |tables|);
    }
  }

  // ---- transit gateway ----

  lemma {:induction false} TransitRowKinds(tgw: TransitGatewayProps, tables: seq<LogicalId>, t: nat, m: nat)
    requires t < |tables| && m <= |tgw.spokeVpcCidrs|
    ensures AllOfKind(TransitRouteRow(tgw, tables, t, m), TransitGatewayRoute)
  {
    if m > 0 {
      TransitRowKinds(tgw, tables, t, m - 1);
    }
  }

  lemma {:induction false} TransitRoutesKinds(tgw: TransitGatewayProps, tables: seq<LogicalId>, n: nat)
    requires n <= |tables|
    ensures AllOfKind(TransitRoutesUpTo(tgw, tables, n), TransitGatewayRoute)
  {
    if n > 0 {
      TransitRoutesKinds(tgw, tables, n - 1);
      TransitRowKinds(tgw, tables, n - 1, |tgw.spokeVpcCidrs|);
    }
  }

  /** Table `t`'s transit gateway routes are the reference's, spoke by spoke. */
  lemma {:induction false} TransitRowIs(props: StacksmithsVpcProps, t: nat, m: nat)
    requires props.transitGateway.Some? && t < 1 + |props.PrivateDefs()|
    requires m <= |props.transitGateway.value.spokeVpcCidrs|
    ensures TransitRouteRow(props.transitGateway.value, AllRouteTables(|props.PrivateDefs()|), t, m) == Row(props, t, m)
  {
    if m > 0 {
      TransitRowIs(props, t, m - 1);
      AllRouteTableAt(|props.PrivateDefs()|, t);
    }
  }

  lemma {:induction false} TransitRoutesAre(props: StacksmithsVpcProps, n: nat)
    requires props.transitGateway.Some? && n <= 1 + |props.PrivateDefs()|
    ensures TransitRoutesUpTo(props.transitGateway.value, AllRouteTables(|props.PrivateDefs()|), n) == Grid(props, n)
  {
    if n > 0 {
      TransitRoutesAre(props, n - 1);
      TransitRowIs(props, n - 1, |props.transitGateway.value.spokeVpcCidrs|);
    }
  }

  lemma TransitByKind(props: StacksmithsVpcProps, k: Kind)
    requires props.transitGateway.Some? && TransitKind(k)
    ensures OfKind(TransitGatewayDecls(props.transitGateway.value, PublicSubnetHandles(|props.PublicDefs()|),
                                       AllRouteTables(|props.PrivateDefs()|)), k)
            == ExpectedOfKind(props, k)
  {
    var tgw := props.transitGateway.value;
    var handles := PublicSubnetHandles(|props.PublicDefs()|);
    var tables := AllRouteTables(|props.PrivateDefs()|);
    var att := Declaration(TgwAttachmentId, CfnTransitGatewayAttachment(tgw.tgwId, VpcId, handles));
    var routes := TransitRoutesUpTo(tgw, tables, |tables|);
    TransitRoutesKinds(tgw, tables, |tables|);
    HasKindSingle(att, k);
    if k == TransitGatewayAttachment {
      AllOfKindHasNo(routes, TransitGatewayRoute, k);
      OfKindAppendNone([att], routes, k);
      OfKindSingle(att, k);
      EnumerateOne(props, k);
    } else {
      OfKindNoneAppend([att], routes, k);
      OfKindAll(routes, k);
      TransitRoutesAre(props, |tables|);
    }
  }

  // ---- the whole construction ----

  function PublicSection(props: StacksmithsVpcProps): seq<Declaration> {
    PublicSubnetsUpTo(props.PublicDefs(), |props.PublicDefs()|)
  }

  function PrivateSection(props: StacksmithsVpcProps): seq<Declaration> {
    PrivateSubnetsUpTo(props.PrivateDefs(), PublicSubnetHandles(|props.PublicDefs()|), |props.PrivateDefs()|)
  }

  function PeeringSection(props: StacksmithsVpcProps): seq<Declaration> {
    match props.vpcPeering
    case Some(peering) => PeeringDecls(peering, AllRouteTables(|props.PrivateDefs()|))
    case None => []
  }

  function TransitSection(props: StacksmithsVpcProps): seq<Declaration> {
    match props.transitGateway
    case Some(tgw) =>
      TransitGatewayDecls(tgw, PublicSubnetHandles(|props.PublicDefs()|), AllRouteTables(|props.PrivateDefs()|))
    case None => []
  }

  /** The five sections of a successful construction, in order. */
  function Sections(props: StacksmithsVpcProps): seq<Declaration> {
    GatewayDecls(props) + PublicSection(props) + PrivateSection(props) + PeeringSection(props) + TransitSection(props)
  }

  /** `Build` after validation declares its five sections, in order. */
  lemma BuildSections(props: StacksmithsVpcProps)
    requires Validate(props).Pass?
    ensures Build(props) == Success(Sections(props))
  {
  }

  lemma PeeringSectionKinds(props: StacksmithsVpcProps, k: Kind)
    ensures HasKind(PeeringSection(props), k) ==> PeeringKind(k)
  {
    if props.vpcPeering.Some? && !PeeringKind(k) {
      var peering := props.vpcPeering.value;
      var tables := AllRouteTables(|props.PrivateDefs()|);
      var conn := Declaration(PeeringConnectionId, CfnVpcPeeringConnection(VpcId, peering.peerVpcId));
      var routes := PeeringRoutesUpTo(peering.peerCidr, tables, |tables|);
      PeeringRoutesKinds(peering.peerCidr, tables, |tables|);
      AllOfKindHasNo(routes, PeeringRoute, k);
      HasKindSingle(conn, k);
      HasKindAppend([conn], routes, k);
    }
  }

  lemma TransitSectionKinds(props: StacksmithsVpcProps, k: Kind)
    ensures HasKind(TransitSection(props), k) ==> TransitKind(k)
  {
    if props.transitGateway.Some? && !TransitKind(k) {
      var tgw := props.transitGateway.value;
      var tables := AllRouteTables(|props.PrivateDefs()|);
      var att := Declaration(TgwAttachmentId,
                             CfnTransitGatewayAttachment(tgw.tgwId, VpcId, PublicSubnetHandles(|props.PublicDefs()|)));
      var routes := TransitRoutesUpTo(tgw, tables, |tables|);
      TransitRoutesKinds(tgw, tables, |tables|);
      AllOfKindHasNo(routes, TransitGatewayRoute, k);
      HasKindSingle(att, k);
      HasKindAppend([att], routes, k);
    }
  }

  lemma PeeringSectionByKind(props: StacksmithsVpcProps, k: Kind)
    requires PeeringKind(k)
    ensures OfKind(PeeringSection(props), k) == ExpectedOfKind(props, k)
  {
    if props.vpcPeering.Some? {
      PeeringByKind(props, k);
    }
  }

  lemma TransitSectionByKind(props: StacksmithsVpcProps, k: Kind)
    requires TransitKind(k)
    ensures OfKind(TransitSection(props), k) == ExpectedOfKind(props, k)
  {
    if props.transitGateway.Some? {
      TransitByKind(props, k);
    }
  }

  /** What each section declares, for one kind. */
  lemma SectionKinds(props: StacksmithsVpcProps, k: Kind)
    ensures HasKind(GatewayDecls(props), k) ==> GatewayKind(k)
    ensures HasKind(PublicSection(props), k) ==> PublicKind(k)
    ensures HasKind(PrivateSection(props), k) ==> PrivateKind(props, k)
    ensures HasKind(PeeringSection(props), k) ==> PeeringKind(k)
    ensures HasKind(TransitSection(props), k) ==> TransitKind(k)
  {
    GatewayKinds(props, k);
    PublicKinds(props.PublicDefs(), |props.PublicDefs()|, k);
    PrivateKinds(props.PrivateDefs(), PublicSubnetHandles(|props.PublicDefs()|), |props.PrivateDefs()|, k);
    PeeringSectionKinds(props, k);
    TransitSectionKinds(props, k);
  }

  // Selecting a kind that only one of five consecutive sections declares.

  lemma OfKindInFirst(a: seq<Declaration>, b: seq<Declaration>, c: seq<Declaration>,
                      d: seq<Declaration>, e: seq<Declaration>, k: Kind)
    requires !HasKind(b, k) && !HasKind(c, k) && !HasKind(d, k) && !HasKind(e, k)
    ensures OfKind(a + b + c + d + e, k) == OfKind(a, k)
  {
    OfKindAppendNone(a + b + c + d, e, k);
    OfKindAppendNone(a + b + c, d, k);
    OfKindAppendNone(a + b, c, k);
    OfKindAppendNone(a, b, k);
  }

  lemma OfKindInSecond(a: seq<Declaration>, b: seq<Declaration>, c: seq<Declaration>,
                       d: seq<Declaration>, e: seq<Declaration>, k: Kind)
    requires !HasKind(a, k) && !HasKind(c, k) && !HasKind(d, k) && !HasKind(e, k)
    ensures OfKind(a + b + c + d + e, k) == OfKind(b, k)
  {
    OfKindAppendNone(a + b + c + d, e, k);
    OfKindAppendNone(a + b + c, d, k);
    OfKindAppendNone(a + b, c, k);
    OfKindNoneAppend(a, b, k);
  }

  lemma OfKindInThird(a: seq<Declaration>, b: seq<Declaration>, c: seq<Declaration>,
                      d: seq<Declaration>, e: seq<Declaration>, k: Kind)
    requires !HasKind(a, k) && !HasKind(b, k) && !HasKind(d, k) && !HasKind(e, k)
    ensures OfKind(a + b + c + d + e, k) == OfKind(c, k)
  {
    HasKindAppend(a, b, k);
    OfKindAppendNone(a + b + c + d, e, k);
    OfKindAppendNone(a + b + c, d, k);
    OfKindNoneAppend(a + b, c, k);
  }

  lemma OfKindInFourth(a: seq<Declaration>, b: seq<Declaration>, c: seq<Declaration>,
                       d: seq<Declaration>, e: seq<Declaration>, k: Kind)
    requires !HasKind(a, k) && !HasKind(b, k) && !HasKind(c, k) && !HasKind(e, k)
    ensures OfKind(a + b + c + d + e, k) == OfKind(d, k)
  {
    HasKindAppend(a, b, k);
    HasKindAppend(a + b, c, k);
    OfKindAppendNone(a + b + c + d, e, k);
    OfKindNoneAppend(a + b + c, d, k);
  }

  lemma OfKindInFifth(a: seq<Declaration>, b: seq<Declaration>, c: seq<Declaration>,
                      d: seq<Declaration>, e: seq<Declaration>, k: Kind)
    requires !HasKind(a, k) && !HasKind(b, k) && !HasKind(c, k) && !HasKind(d, k)
    ensures OfKind(a + b + c + d + e, k) == OfKind(e, k)
  {
    HasKindAppend(a, b, k);
    HasKindAppend(a + b, c, k);
    HasKindAppend(a + b + c, d, k);
    OfKindNoneAppend(a + b + c + d, e, k);
  }

  lemma GatewaySectionByKind(props: StacksmithsVpcProps, k: Kind)
    requires GatewayKind(k)
    ensures OfKind(GatewayDecls(props), k) == ExpectedOfKind(props, k)
  {
    GatewayByKind(props, k);
    EnumerateOne(props, k);
  }

  lemma PublicSectionByKind(props: StacksmithsVpcProps, k: Kind)
    requires PublicKind(k)
    ensures OfKind(PublicSection(props), k) == ExpectedOfKind(props, k)
  {
    PublicByKind(props, |props.PublicDefs()|, k);
  }

  /** The private section per kind, for any number of public subnets; with
      none, it declares no EIP, NAT gateway or private route. */
  lemma PrivateSectionByKind(props: StacksmithsVpcProps, k: Kind)
    requires PrivateSectionKind(k)
    ensures OfKind(PrivateSection(props), k) == ExpectedOfKind(props, k)
    ensures |props.PublicDefs()| == 0 && (k == Eip || k == NatGateway || k == PrivateRoute)
            ==> OfKind(PrivateSection(props), k) == []
  {
    if PrivateKind(props, k) {
      PrivateByKind(props, |props.PrivateDefs()|, k);
    } else {
      PrivateKinds(props.PrivateDefs(), PublicSubnetHandles(|props.PublicDefs()|), |props.PrivateDefs()|, k);
      OfKindNone(PrivateSection(props), k);
    }
  }

  lemma SectionsGatewayKind(props: StacksmithsVpcProps, k: Kind)
    requires GatewayKind(k)
    ensures OfKind(Sections(props), k) == ExpectedOfKind(props, k)
  {
    SectionKinds(props, k);
    OfKindInFirst(GatewayDecls(props), PublicSection(props), PrivateSection(props),
                  PeeringSection(props), TransitSection(props), k);
    GatewaySectionByKind(props, k);
  }

  lemma SectionsPublicKind(props: StacksmithsVpcProps, k: Kind)
    requires PublicKind(k)
    ensures OfKind(Sections(props), k) == ExpectedOfKind(props, k)
  {
    SectionKinds(props, k);
    OfKindInSecond(GatewayDecls(props), PublicSection(props), PrivateSection(props),
                   PeeringSection(props), TransitSection(props), k);
    PublicSectionByKind(props, k);
  }

  lemma SectionsPrivateKind(props: StacksmithsVpcProps, k: Kind)
    requires PrivateSectionKind(k)
    ensures OfKind(Sections(props), k) == ExpectedOfKind(props, k)
  {
    SectionKinds(props, k);
    OfKindInThird(GatewayDecls(props), PublicSection(props), PrivateSection(props),
                  PeeringSection(props), TransitSection(props), k);
    PrivateSectionByKind(props, k);
  }

  lemma SectionsPeeringKind(props: StacksmithsVpcProps, k: Kind)
    requires PeeringKind(k)
    ensures OfKind(Sections(props), k) == ExpectedOfKind(props, k)
  {
    SectionKinds(props, k);
    OfKindInFourth(GatewayDecls(props), PublicSection(props), PrivateSection(props),
                   PeeringSection(props), TransitSection(props), k);
    PeeringSectionByKind(props, k);
  }

  lemma SectionsTransitKind(props: StacksmithsVpcProps, k: Kind)
    requires TransitKind(k)
    ensures OfKind(Sections(props), k) == ExpectedOfKind(props, k)
  {
    SectionKinds(props, k);
    OfKindInFifth(GatewayDecls(props), PublicSection(props), PrivateSection(props),
                  PeeringSection(props), TransitSection(props), k);
    TransitSectionByKind(props, k);
  }

  /** A successful construction declares, of every kind, exactly the
      reference's declarations of that kind, in index order. */
  lemma BuildByKind(props: StacksmithsVpcProps, k: Kind)
    requires Validate(props).Pass?
    ensures Build(props).Success?
    ensures OfKind(Build(props).value, k) == ExpectedOfKind(props, k)
  {
    BuildSections(props);
    if GatewayKind(k) {
      SectionsGatewayKind(props, k);
    } else if PublicKind(k) {
      SectionsPublicKind(props, k);
    } else if PrivateSectionKind(k) {
      SectionsPrivateKind(props, k);
    } else if PeeringKind(k) {
      SectionsPeeringKind(props, k);
    } else {
      SectionsTransitKind(props, k);
    }
  }
}
