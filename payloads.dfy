/**
 * The two backend payloads the edit form can build: a classic MachinePool and
 * a hosted-control-plane NodePool. A field that the source leaves unset on the
 * object is `None` here.
 */
module Payloads {
  import opened Wrappers
  import opened FormValues

  /** Autoscaling bounds; the two topologies spell the keys differently. */
  datatype Autoscaling =
    | ClassicAutoscaling(maxReplicas: int, minReplicas: int)  // max_replicas / min_replicas
    | HostedAutoscaling(maxReplica: int, minReplica: int)     // max_replica / min_replica
  {
    function Max(): int {
      match this
      case ClassicAutoscaling(mx, _) => mx
      case HostedAutoscaling(mx, _) => mx
    }

    function Min(): int {
      match this
      case ClassicAutoscaling(_, mn) => mn
      case HostedAutoscaling(_, mn) => mn
    }
  }

  /** Exactly one of `replicas` or `autoscaling` is spread into a payload. */
  datatype Sizing = Replicas(replicas: int) | Autoscaled(autoscaling: Autoscaling)

  datatype SpotMarketOptions = SpotMarketOptions(maxPrice: Option<real>)

  /** The classic `aws` sub-record. */
  datatype AwsMachinePool = AwsMachinePool(
    spotMarketOptions: Option<SpotMarketOptions>,
    additionalSecurityGroupIds: Option<seq<string>>)
  {
    /** No key set: `Object.keys(awsConfig).length` is zero. */
    predicate IsEmpty() {
      spotMarketOptions.None? && additionalSecurityGroupIds.None?
    }
  }

  datatype Volume = Volume(size: int)

  /** The classic `root_volume`, which nests the size under `aws`. */
  datatype RootVolume = RootVolume(aws: Volume)

  datatype GcpMachinePool = GcpMachinePool(secureBoot: Option<bool>)

  datatype MachinePool = MachinePool(
    id: string,
    labels: map<string, string>,
    taints: seq<Taint>,
    sizing: Sizing,
    instanceType: Option<string>,
    rootVolume: Option<RootVolume>,
    gcp: Option<GcpMachinePool>,
    aws: Option<AwsMachinePool>)

  /** The hosted `aws_node_pool` sub-record. */
  datatype AwsNodePool = AwsNodePool(
    instanceType: Option<string>,
    ec2MetadataHttpTokens: Option<string>,
    additionalSecurityGroupIds: Option<seq<string>>,
    rootVolume: Option<Volume>,
    tags: Option<map<string, string>>)

  datatype NodePool = NodePool(
    id: string,
    labels: map<string, string>,
    taints: seq<Taint>,
    sizing: Sizing,
    autoRepair: bool,
    subnet: Option<string>,
    awsNodePool: Option<AwsNodePool>)
}
