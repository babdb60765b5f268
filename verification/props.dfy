/** The construct's input: `SubnetDefinition`, `VpcPeeringProps`,
    `TransitGatewayProps` and `StacksmithsVpcProps` of src/vpc.ts. */
module Props {
  import opened Wrappers

  /** One subnet to declare: its CIDR block and its availability zone. Neither
      is checked by the construct. */
  datatype SubnetDefinition = SubnetDefinition(cidr: string, availabilityZone: string)

  /** Peering with another VPC of the same account. */
  datatype VpcPeeringProps = VpcPeeringProps(peerVpcId: string, peerCidr: string)

  /** An existing transit gateway and the CIDRs reachable through it. */
  datatype TransitGatewayProps = TransitGatewayProps(tgwId: string, spokeVpcCidrs: seq<string>)

  /** Optional TypeScript properties are `Option`s. */
  datatype StacksmithsVpcProps = StacksmithsVpcProps(
    cidr: string,
    publicSubnets: Option<seq<SubnetDefinition>>,
    privateSubnets: Option<seq<SubnetDefinition>>,
    enableDnsHostnames: Option<bool>,
    enableDnsSupport: Option<bool>,
    vpcPeering: Option<VpcPeeringProps>,
    transitGateway: Option<TransitGatewayProps>)
  {
    /** The public subnet list, an absent list read as empty. */
    function PublicDefs(): seq<SubnetDefinition> {
      publicSubnets.GetOr([])
    }

    /** The private subnet list, an absent list read as empty. */
    function PrivateDefs(): seq<SubnetDefinition> {
      privateSubnets.GetOr([])
    }
  }
}
