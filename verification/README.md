# StacksmithsVpc in Dafny

This project models the `StacksmithsVpc` construct of `src/vpc.ts`. The construct is an AWS CDK
construct. Its constructor turns a props object into CloudFormation resource declarations:

- the VPC;
- the internet gateway and its attachment;
- a shared public route table;
- public subnets with their route table associations;
- private subnets, each with its own route table and, when public subnets exist, an Elastic IP, a NAT
  gateway placed round-robin over the public subnets, and a default route through it;
- an optional VPC peering connection with a route to the peer CIDR in every route table;
- an optional transit gateway attachment with a route per spoke CIDR in every route table.

The model works at three levels.

- `Construct.StacksmithsVpc` is a class. Its `children` field grows by one declaration for each
  `new X(this, ...)` in the constructor body. Its `vpc` field is the construct's public `vpc`. Each
  section of the constructor is a method (the `map` and `forEach` callbacks become loops over a
  per-index method). `Init` runs the whole body.
- `Topology.Build` is the same rule set as a function from props to the declaration list, or to the
  validation error that the constructor throws. `Init` is proved to leave `children` equal to
  `Build(props)`.
- `Reference` is an independent account of the result, logical id by logical id. `Expected` says
  which ids exist, `ExpectedResource` says what resource each one carries, and `ExpectedOfKind` lists
  the declarations of one kind in index order. `TopologyProofs.BuildByKind` and
  `Correctness.BuildMatchesReference` prove that `Build` produces exactly this account. Each id is
  declared exactly once.

`Properties` derives from that account what the construct promises: one VPC and one internet gateway;
the internet route; subnets and their associations; NAT round-robin; peering and transit gateway
fan-out; and that every reference points at a declared resource.

A CloudFormation reference (`.ref`, `.subnetId`, `.vpcId`, `.attrAllocationId`) is modelled as the
logical id of the referenced resource. A logical id is a kind with a 0-based index, plus a second index
for transit gateway routes (table, spoke). The source formats `PublicSubnet-${index + 1}`, so source
index `i + 1` is model index `i`.

Where the code and the description of the construct differ, the model follows the code:

- The internet gateway, its attachment and the public route table are declared unconditionally
  (src/vpc.ts:52-61), even when there are no public subnets. Only the `0.0.0.0/0` internet route
  depends on a first public subnet.
- The peering and transit gateway routes always include the public route table (src/vpc.ts:131,
  src/vpc.ts:151), because that table always exists.
- The Elastic IP is declared before its NAT gateway. It is constructed while the NAT gateway's props
  are being evaluated (src/vpc.ts:102-105).
- The DNS flags default to `true` only when absent (`?? true`). An explicit `false` is kept.
- Validation checks only that the CIDR is non-empty and that some subnet list is non-empty
  (src/vpc.ts:35-41). No CIDR syntax, containment or availability-zone check exists.

## Model

| member | source | states |
|---|---|---|
| Topology.Build | src/vpc.ts:35-41 | construction fails exactly when the CIDR is empty or both subnet lists are empty or absent; the CIDR error takes precedence |
| Topology.PublicSubnetHandles | src/vpc.ts:63-85 | the `map` result holds one subnet per public definition, public subnet `i` at position `i` |
| Topology.PrivateRouteTableHandles | src/vpc.ts:88-120 | `privateRouteTables` holds one table per private definition, table `j` at position `j` |
| Construct.StacksmithsVpc.constructor | src/vpc.ts:32-33 | the construct starts with no children and no `vpc` |
| Construct.StacksmithsVpc.Declare | src/vpc.ts:52 | a `new X(this, ...)` appends exactly one child and changes nothing else |
| Construct.StacksmithsVpc.DeclareGateways | src/vpc.ts:43-61 | declares the VPC (DNS flags defaulting to true), the internet gateway, its attachment and the public route table in that order, and sets `vpc` |
| Construct.StacksmithsVpc.DeclarePublicSubnet | src/vpc.ts:64-84 | declares public subnet `i`, the internet route only when `i` is 0, then the association, and returns the subnet |
| Construct.StacksmithsVpc.DeclarePublicSubnets | src/vpc.ts:63-85 | appends every public subnet's declarations in input order and returns the subnets in order |
| Construct.StacksmithsVpc.DeclarePrivateSubnet | src/vpc.ts:89-119 | declares private subnet `j` and its own table; when public subnets exist, also an EIP, a NAT gateway in public subnet `j mod P` and a default route; then the association; returns the table |
| Construct.StacksmithsVpc.DeclarePrivateSubnets | src/vpc.ts:88-120 | appends every private subnet's declarations in input order and returns their route tables in order |
| Construct.StacksmithsVpc.DeclarePeering | src/vpc.ts:123-139 | appends the peering connection, then one route to the peer CIDR per route table in table order |
| Construct.StacksmithsVpc.DeclareTransitGateway | src/vpc.ts:142-161 | appends the attachment over all public subnets, then a route per spoke CIDR for each table, table by table |
| Construct.StacksmithsVpc.Init | src/vpc.ts:32-161 | the constructor body fails exactly as `Validate` says and then declares nothing; when it succeeds, its children are exactly `Build(props)` and `vpc` is set |
| TopologyProofs.GatewayByKind | src/vpc.ts:44-61 | the gateway section declares exactly one resource of each of its four kinds, the reference's |
| TopologyProofs.PublicByKind | src/vpc.ts:63-85 | per kind, the public section is the reference's declarations in index order: one subnet and one association per definition, and one internet route once a subnet exists |
| TopologyProofs.PrivateByKind | src/vpc.ts:88-120 | for each kind the private subnets declare (EIP, NAT gateway and private route counted only when public subnets exist), the first `n` private steps hold the reference's first `n` declarations of that kind, in index order |
| TopologyProofs.PrivateSectionByKind | src/vpc.ts:88-120 | for all six private kinds and any number of public subnets, the private section is the reference's list; with no public subnets that list is empty for EIP, NAT gateway and private route |
| TopologyProofs.PeeringRoutesAre | src/vpc.ts:131-138 | the peering routes are the reference's, one per table of `[public, ...private]` |
| TopologyProofs.PeeringByKind | src/vpc.ts:123-139 | the peering section holds one connection and `1 + N` routes, as the reference says |
| TopologyProofs.TransitRoutesAre | src/vpc.ts:151-160 | the transit gateway routes are the reference's table-major grid over tables and spoke CIDRs |
| TopologyProofs.TransitByKind | src/vpc.ts:142-161 | the transit section holds one attachment and the route grid, as the reference says |
| TopologyProofs.BuildByKind | src/vpc.ts:43-161 | for every kind, the declarations of that kind are exactly the reference's, in index order |
| Correctness.GridAt | src/vpc.ts:152-160 | route `(t, s)` sits at position `t * S + s` of the transit grid (outer loop over tables, inner over spokes) |
| Correctness.ExpectedOfKindFacts | src/vpc.ts:43-161 | the reference's list for a kind holds exactly the expected ids of that kind, each once, with its expected resource |
| Correctness.BuildMatchesReference | src/vpc.ts:43-161 | a successful build declares exactly the expected ids, each with its expected resource, and no logical id twice |
| Correctness.DeclaredIsExpected | src/vpc.ts:43-161 | every declared resource is the reference's resource for its id |
| Correctness.ExpectedIsDeclared | src/vpc.ts:43-161 | every expected id is declared |
| Properties.TypeOfExpected | src/vpc.ts:44-161 | each kind of declaration synthesises to one fixed CloudFormation type |
| Properties.OfTypeByKind | src/vpc.ts:44-161 | for a type only one kind produces, the resources of that type are that kind's reference list |
| Properties.VpcDeclaredOnce | src/vpc.ts:44-49 | exactly one VPC, with the given CIDR and the DNS flags defaulting to true |
| Properties.GatewaysDeclaredOnce | src/vpc.ts:52-61 | exactly one internet gateway, one attachment linking it to the VPC, and one public route table |
| Properties.InternetDefaultRoute | src/vpc.ts:71-77 | an internet gateway route exists iff there is a public subnet, and every such route is the single `0.0.0.0/0` route of the public table |
| Properties.PublicSubnetsDeclared | src/vpc.ts:64-69 | one public subnet per definition, in order, with its CIDR and zone and public IPs on launch |
| Properties.PrivateSubnetAt | src/vpc.ts:90-95 | private subnet `j` carries definition `j`'s CIDR and zone and no public IPs |
| Properties.PrivateSubnetsDeclared | src/vpc.ts:89-95 | one private subnet per definition, in order, with its CIDR and zone and no public IPs |
| Properties.ExpectedSubnetOrAssociation | src/vpc.ts:63-120 | in the reference, only public subnets map public IPs, and each association links a subnet to its own section's table |
| Properties.SubnetAssociations | src/vpc.ts:79-82 | a subnet maps public IPs iff it is public; public subnets associate with the shared table and private subnet `j` with private table `j`; no subnet and no private table is associated twice among the construct's own declarations |
| Properties.NatRoundRobin | src/vpc.ts:101-105 | there are as many NAT gateways and EIPs as private subnets when public subnets exist, else none; NAT gateway `j` sits in public subnet `j mod P` with EIP `j` |
| Properties.ExpectedNatRoute | src/vpc.ts:107-111 | in the reference, a NAT route is private route `j`: `0.0.0.0/0` in table `j` through NAT gateway `j` |
| Properties.PrivateDefaultRoutes | src/vpc.ts:101-112 | every NAT route is the `0.0.0.0/0` route of one private table through that subnet's own NAT gateway, and each private table has one exactly when public subnets exist |
| Properties.NoEgressWithoutPublicSubnets | src/vpc.ts:101 | with no public subnets, no route goes through the internet gateway or a NAT gateway |
| Properties.ExpectedRouteOrigin | src/vpc.ts:123-161 | in the reference, peering routes exist only with peering props and transit routes only with transit gateway props |
| Properties.PeeringAbsent | src/vpc.ts:123 | without peering props there is no peering connection and no route through one |
| Properties.ExpectedPeeringRoutes | src/vpc.ts:131-138 | the reference's peering route `t` goes from table `t` of `[public, ...private]` to the peer CIDR |
| Properties.PeeringFanOut | src/vpc.ts:123-139 | with peering props there is one connection to the peer VPC and `1 + N` routes, route `t` in table `t` to the peer CIDR through it |
| Properties.TransitGatewayAbsent | src/vpc.ts:142 | without transit gateway props there is no attachment and no route through a transit gateway |
| Properties.TransitGatewayAttachmentSubnets | src/vpc.ts:145-149 | exactly one attachment, to the given transit gateway and the VPC, over exactly the public subnets in order |
| Properties.ExpectedTransitRoutes | src/vpc.ts:151-160 | the reference grid has `(1 + N) * S` routes, with route `(t, s)` at `t * S + s` |
| Properties.TransitGatewayRoutes | src/vpc.ts:151-160 | `(1 + N) * S` transit routes; the one at `t * S + s` is in table `t`, to spoke CIDR `s`, through the transit gateway |
| Properties.ExpectedRefsExpected | src/vpc.ts:53-161 | in the reference, every resource refers only to expected ids |
| Properties.ReferencesResolve | src/vpc.ts:53-161 | every reference in a declared resource names a resource that is itself declared |

`P` is the number of public subnet definitions, `N` the number of private ones and `S` the number of
spoke CIDRs.

## Left out

- The CDK construct tree, token resolution and synthesis to a template are not modelled. A reference
  is the logical id it resolves to. Logical-id strings such as `PublicSubnet-1` are the pair
  `(PublicSubnet, 0)`.
- The resources that the library constructs `ec2.Vpc` and `ec2.Subnet` create internally are not
  modelled. Each is one declaration with the properties the construct passes. The library's own code
  is not part of this model. In the synthesised template each `ec2.Subnet` adds a route table and an
  association of its own, so the template's route table and association counts exceed the model's, and
  each subnet carries two associations there. `Properties.SubnetAssociations` speaks only of the
  associations the construct itself declares.
- `Construct.StacksmithsVpc.Init`: the TypeScript constructor is modelled as `constructor()` (the
  `super(scope, id)` state) followed by `Init(props)`. A Dafny constructor cannot fail, so the
  `throw` becomes a `Fail` outcome. What a caller sees of a half-built construct after a throw is not
  modelled. No declaration is made before either check.
- `scope` and `id` are not modelled, and neither is the `Template` they synthesise into.
  Deployment and the CloudFormation engine are not modelled either.
- CIDR strings, availability zones, VPC ids and transit gateway ids are opaque strings. The construct
  does not check them, so the model does not either.
- The example apps under `examples/` are only callers of the construct and are not part of this model.
- `Properties.NoEgressWithoutPublicSubnets` does not state "no `0.0.0.0/0` route in a private table".
  It states that no route goes through the internet gateway or a NAT gateway. A peering CIDR or spoke
  CIDR given as `0.0.0.0/0` would still produce a default route, and the code allows that.
