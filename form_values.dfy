/**
 * The flat record the machine-pool edit form collects (EditMachinePoolValues).
 * Optional TypeScript fields are modelled as follows: an absent `isAwsTag`
 * reads as false wherever the source reads it, so it is a plain bool; an
 * absent `secure_boot` is copied as absent, so it is an Option.
 */
module FormValues {
  import opened Wrappers

  /** One row of the labels field array. */
  datatype LabelEntry = LabelEntry(key: string, value: string, isAwsTag: bool)

  /** A plain key/value row, as held by the `awsTags` field. */
  datatype KeyValue = KeyValue(key: string, value: string)

  /** One row of the taints field array. */
  datatype Taint = Taint(key: string, value: string, effect: string)

  datatype EditMachinePoolValues = EditMachinePoolValues(
    name: string,
    autoscaling: bool,
    autoscaleMin: int,
    autoscaleMax: int,
    replicas: int,
    autoRepair: bool,
    labels: seq<LabelEntry>,
    awsTags: seq<KeyValue>,
    taints: seq<Taint>,
    useSpotInstances: bool,
    spotInstanceType: string,
    maxPrice: real,
    diskSize: int,
    instanceType: string,
    privateSubnetId: string,
    securityGroupIds: seq<string>,
    imds: string,
    secureBoot: Option<bool>)

  /** The spot-instance mode under which a price cap is sent. */
  const SpotMaximum: string := "maximum"
}
