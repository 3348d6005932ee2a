/**
 * The request builder of the machine-pool edit modal: from the form values
 * and a few flags it builds either a classic MachinePool or a hosted NodePool.
 * Each builder starts from a record of the fields every request carries and
 * then sets the remaining fields one condition at a time, as the source does.
 */
module RequestBuilder {
  import opened Wrappers
  import opened FormValues
  import opened Payloads
  import opened EntryMaps

  /** The flags the classic builder is called with. */
  datatype MachinePoolOptions = MachinePoolOptions(
    isEdit: bool,
    isMultiZoneMachinePool: bool,
    isROSACluster: bool,
    isSecureBootUpdated: bool)  // absent in the caller reads as false

  /** The flags the hosted builder is called with. */
  datatype NodePoolOptions = NodePoolOptions(isEdit: bool, isMultiZoneMachinePool: bool)

  /** `getLabels`: fold the label rows into a map, keyed by each row's key. */
  method GetLabels(labels: seq<LabelEntry>) returns (acc: map<string, string>)
    ensures SoleBlankRow(labels, (e: LabelEntry) => e.key) ==> acc == map[]
    ensures !SoleBlankRow(labels, (e: LabelEntry) => e.key) ==> acc == Collapse(LabelPairs(labels))
    ensures acc == LabelsOf(labels)
  {
    if |labels| == 1 && labels[0].key == "" {
      return map[];
    }
    acc := map[];
    var i := 0;
    while i < |labels|
      invariant 0 <= i <= |labels|
      invariant acc == Collapse(LabelPairs(labels[..i]))
    {
      ghost var pairs := LabelPairs(labels[..i + 1]);
      assert pairs[..i] == LabelPairs(labels[..i]);
      acc := acc[labels[i].key := labels[i].value];
      i := i + 1;
    }
    assert labels[..i] == labels;
  }

  /** `getAWSTags`: fold the AWS-tag rows into a map, keyed by each row's key. */
  method GetAWSTags(awsTags: seq<KeyValue>) returns (acc: map<string, string>)
    ensures SoleBlankRow(awsTags, (e: KeyValue) => e.key) ==> acc == map[]
    ensures !SoleBlankRow(awsTags, (e: KeyValue) => e.key) ==> acc == Collapse(awsTags)
    ensures acc == AwsTagsOf(awsTags)
  {
    if |awsTags| == 1 && awsTags[0].key == "" {
      return map[];
    }
    acc := map[];
    var i := 0;
    while i < |awsTags|
      invariant 0 <= i <= |awsTags|
      invariant acc == Collapse(awsTags[..i])
    {
      assert awsTags[..i + 1][..i] == awsTags[..i];
      acc := acc[awsTags[i].key := awsTags[i].value];
      i := i + 1;
    }
    assert awsTags[..i] == awsTags;
  }

  /**
   * `getTaints`: the placeholder row becomes the empty list; any other list,
   * blank keys included, is passed on untouched.
   */
  function GetTaints(taints: seq<Taint>): (r: seq<Taint>)
    ensures r == [] <==> |taints| == 0 || SoleBlankRow(taints, (t: Taint) => t.key)
    ensures r != [] ==> r == taints
    ensures |taints| != 1 ==> r == taints
  {
    if |taints| == 1 && taints[0].key == "" then [] else taints
  }

  /** Multi-AZ pools spread their autoscaling bounds over three zones. */
  function AzMultiplier(isMultiAz: bool): (k: int)
    ensures k == 1 || k == 3
    ensures k == 3 <==> isMultiAz
  {
    if isMultiAz then 3 else 1
  }

  /**
   * `getAutoscalingParams`: with autoscaling, the bounds scaled by the zone
   * count, under the key names of the topology; without, the replica count
   * as entered, never scaled.
   */
  function GetAutoscalingParams(values: EditMachinePoolValues, isMultiAz: bool, isHypershift: bool): (r: Sizing)
    ensures r.Replicas? <==> !values.autoscaling
    ensures r.Replicas? ==> r.replicas == values.replicas
    ensures r.Autoscaled? ==> (r.autoscaling.HostedAutoscaling? <==> isHypershift)
    ensures r.Autoscaled? && !isMultiAz ==>
      r.autoscaling.Max() == values.autoscaleMax && r.autoscaling.Min() == values.autoscaleMin
    ensures r.Autoscaled? && isMultiAz ==>
      r.autoscaling.Max() == 3 * values.autoscaleMax && r.autoscaling.Min() == 3 * values.autoscaleMin
  {
    if values.autoscaling then
      var maxReplica := values.autoscaleMax * AzMultiplier(isMultiAz);
      var minReplica := values.autoscaleMin * AzMultiplier(isMultiAz);
      var autoscaling :=
        if isHypershift then HostedAutoscaling(maxReplica, minReplica)
        else ClassicAutoscaling(maxReplica, minReplica);
      Autoscaled(autoscaling)
    else
      Replicas(values.replicas)
  }

  /** Both topologies size a pool with the same numbers; only the key names differ. */
  lemma SizingSameAcrossTopologies(values: EditMachinePoolValues, isMultiAz: bool)
    ensures var hosted := GetAutoscalingParams(values, isMultiAz, true);
            var classic := GetAutoscalingParams(values, isMultiAz, false);
            && hosted.Replicas? == classic.Replicas?
            && (hosted.Replicas? ==> hosted.replicas == classic.replicas)
            && (hosted.Autoscaled? ==>
                  hosted.autoscaling.Max() == classic.autoscaling.Max()
                  && hosted.autoscaling.Min() == classic.autoscaling.Min())
  {
  }

  /** Ordered bounds in the form stay ordered in the request. */
  lemma SizingKeepsBoundsOrdered(values: EditMachinePoolValues, isMultiAz: bool, isHypershift: bool)
    requires values.autoscaling && values.autoscaleMin <= values.autoscaleMax
    ensures var r := GetAutoscalingParams(values, isMultiAz, isHypershift);
            r.Autoscaled? && r.autoscaling.Min() <= r.autoscaling.Max()
  {
  }

  /**
   * `buildMachinePoolRequest`: the classic payload. Identity, labels, taints
   * and sizing always; instance type, disk size, secure boot and the `aws`
   * block on creation only, each under its own condition.
   */
  method BuildMachinePoolRequest(values: EditMachinePoolValues, opts: MachinePoolOptions)
    returns (machinePool: MachinePool)
    ensures machinePool.id == values.name
    ensures machinePool.labels == LabelsOf(values.labels)
    ensures machinePool.taints == GetTaints(values.taints)
    ensures machinePool.sizing == GetAutoscalingParams(values, opts.isMultiZoneMachinePool, false)
    // creation-only fields
    ensures machinePool.instanceType == if opts.isEdit then None else Some(values.instanceType)
    ensures machinePool.rootVolume ==
      if !opts.isEdit && opts.isROSACluster then Some(RootVolume(Volume(values.diskSize))) else None
    ensures machinePool.gcp ==
      if !opts.isEdit && !opts.isSecureBootUpdated then Some(GcpMachinePool(values.secureBoot)) else None
    // the `aws` block: present only on creation, and only when it holds something
    ensures machinePool.aws.Some? <==>
      !opts.isEdit && (values.useSpotInstances || |values.securityGroupIds| > 0)
    ensures machinePool.aws.Some? ==>
      machinePool.aws.value.spotMarketOptions ==
        if !values.useSpotInstances then None
        else if values.spotInstanceType == SpotMaximum then Some(SpotMarketOptions(Some(values.maxPrice)))
        else Some(SpotMarketOptions(None))
    ensures machinePool.aws.Some? ==>
      machinePool.aws.value.additionalSecurityGroupIds ==
        if |values.securityGroupIds| > 0 then Some(values.securityGroupIds) else None
  {
    var labels := GetLabels(values.labels);
    machinePool := MachinePool(
      values.name, labels, GetTaints(values.taints),
      GetAutoscalingParams(values, opts.isMultiZoneMachinePool, false),
      None, None, None, None);

    if !opts.isEdit {
      var awsConfig := AwsMachinePool(None, None);

      machinePool := machinePool.(instanceType := Some(values.instanceType));

      if values.useSpotInstances {
        var spot :=
          if values.spotInstanceType == SpotMaximum then SpotMarketOptions(Some(values.maxPrice))
          else SpotMarketOptions(None);
        awsConfig := awsConfig.(spotMarketOptions := Some(spot));
      }

      if |values.securityGroupIds| > 0 {
        awsConfig := awsConfig.(additionalSecurityGroupIds := Some(values.securityGroupIds));
      }
      if opts.isROSACluster {
        machinePool := machinePool.(rootVolume := Some(RootVolume(Volume(values.diskSize))));
      }

      if !opts.isSecureBootUpdated {
        machinePool := machinePool.(gcp := Some(GcpMachinePool(values.secureBoot)));
      }

      if !awsConfig.IsEmpty() {
        machinePool := machinePool.(aws := Some(awsConfig));
      }
    }
  }

  /** Whether the AWS tags of the form are attached to a hosted request. */
  predicate AttachesAwsTags(values: EditMachinePoolValues, isEdit: bool, enableAwsTagsEditing: bool) {
    (enableAwsTagsEditing || !isEdit) && AwsTagsOf(values.awsTags) != map[]
  }

  /** Tags are attached exactly when allowed and the form holds a real tag row. */
  lemma AttachesAwsTagsIff(values: EditMachinePoolValues, isEdit: bool, enableAwsTagsEditing: bool)
    ensures AttachesAwsTags(values, isEdit, enableAwsTagsEditing) <==>
      (enableAwsTagsEditing || !isEdit)
      && |values.awsTags| > 0
      && !SoleBlankRow(values.awsTags, (e: KeyValue) => e.key)
  {
    AwsTagsEmptyIff(values.awsTags);
  }

  /**
   * `buildNodePoolRequest`: the hosted payload. Identity, labels, taints,
   * sizing and auto-repair always; subnet and the `aws_node_pool` block on
   * creation; the AWS tags when tag editing is enabled or on creation,
   * and only when there is at least one tag. `enableAwsTagsEditing` stands for
   * the ENABLE_AWS_TAGS_EDITING feature constant.
   */
  method BuildNodePoolRequest(values: EditMachinePoolValues, opts: NodePoolOptions, enableAwsTagsEditing: bool)
    returns (nodePool: NodePool)
    ensures nodePool.id == values.name
    ensures nodePool.labels == LabelsOf(values.labels)
    ensures nodePool.taints == GetTaints(values.taints)
    ensures nodePool.sizing == GetAutoscalingParams(values, opts.isMultiZoneMachinePool, true)
    ensures nodePool.autoRepair == values.autoRepair
    ensures nodePool.subnet == if opts.isEdit then None else Some(values.privateSubnetId)
    ensures nodePool.awsNodePool.Some? <==>
      !opts.isEdit || AttachesAwsTags(values, opts.isEdit, enableAwsTagsEditing)
    // on creation, the node-pool block holds every creation field, whatever happens to tags
    ensures !opts.isEdit ==>
      && nodePool.awsNodePool.Some?
      && nodePool.awsNodePool.value.instanceType == Some(values.instanceType)
      && nodePool.awsNodePool.value.ec2MetadataHttpTokens == Some(values.imds)
      && nodePool.awsNodePool.value.additionalSecurityGroupIds == Some(values.securityGroupIds)
      && nodePool.awsNodePool.value.rootVolume == Some(Volume(values.diskSize))
    // on edit, a block made only for tags holds nothing else
    ensures opts.isEdit && nodePool.awsNodePool.Some? ==>
      nodePool.awsNodePool.value == AwsNodePool(None, None, None, None, Some(AwsTagsOf(values.awsTags)))
    ensures nodePool.awsNodePool.Some? ==>
      nodePool.awsNodePool.value.tags ==
        if AttachesAwsTags(values, opts.isEdit, enableAwsTagsEditing) then Some(AwsTagsOf(values.awsTags))
        else None
  {
    var labels := GetLabels(values.labels);
    nodePool := NodePool(
      values.name, labels, GetTaints(values.taints),
      GetAutoscalingParams(values, opts.isMultiZoneMachinePool, true),
      values.autoRepair, None, None);

    if !opts.isEdit {
      nodePool := nodePool.(subnet := Some(values.privateSubnetId));
      nodePool := nodePool.(awsNodePool := Some(AwsNodePool(
        Some(values.instanceType),
        Some(values.imds),
        Some(values.securityGroupIds),
        Some(Volume(values.diskSize)),
        None)));
    }

    if enableAwsTagsEditing || !opts.isEdit {
      var awsTags := GetAWSTags(values.awsTags);
      if |awsTags| > 0 {
        if nodePool.awsNodePool.Some? {
          nodePool := nodePool.(awsNodePool := Some(nodePool.awsNodePool.value.(tags := Some(awsTags))));
        } else {
          nodePool := nodePool.(awsNodePool := Some(AwsNodePool(None, None, None, None, Some(awsTags))));
        }
      }
    }
  }
}
