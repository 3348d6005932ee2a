/**
 * The label rows of the machine-pool edit modal: which rows are shown, which
 * are read-only, where the "AWS Tag" checkbox and the remove button appear,
 * the cap on AWS tags, and the text of the add button. The feature gate and
 * the two edit-modal switches are inputs here.
 */
module EditLabelsSection {
  import opened Wrappers
  import opened FormValues

  /** The most AWS tags a machine pool may carry. */
  const AwsTagMaxCount: nat := 25

  const AddLabelText: string := "Add label"
  const AwsTagSuffix: string := " or AWS Tag"

  /** Switches set outside the component. */
  datatype Gates = Gates(
    awsTagsNewMp: bool,     // the AWS_TAGS_NEW_MP feature gate
    viewInEditModal: bool,  // ENABLE_AWS_TAGS_VIEW_IN_EDIT_MODAL
    editInEditModal: bool)  // ENABLE_AWS_TAGS_EDITING_IN_EDIT_MODAL

  /** The component's properties. */
  datatype SectionProps = SectionProps(isNewMachinePool: bool, isROSAHCP: bool)

  /** The three booleans the component derives once per render. */
  datatype Flags = Flags(showAWSTags: bool, showAwsTagsInEditModal: bool, editAWSTagsInEditModal: bool)

  /** What one visible row shows. */
  datatype RowView = RowView(
    isReadOnly: bool,
    showCheckbox: bool,
    checkboxDisabled: bool,
    showRemoveButton: bool)

  /**
   * AWS tags are offered on ROSA hosted clusters behind the gate; viewing and
   * editing them inside the edit modal is possible for an existing pool only.
   */
  function DeriveFlags(gates: Gates, props: SectionProps): (f: Flags)
    ensures f.showAWSTags <==> gates.awsTagsNewMp && props.isROSAHCP
    ensures f.showAwsTagsInEditModal ==> f.showAWSTags && !props.isNewMachinePool
    ensures f.editAWSTagsInEditModal ==> f.showAWSTags && !props.isNewMachinePool
    ensures f.showAWSTags && !props.isNewMachinePool ==>
      f.showAwsTagsInEditModal == gates.viewInEditModal && f.editAWSTagsInEditModal == gates.editInEditModal
  {
    var showAWSTags := gates.awsTagsNewMp && props.isROSAHCP;
    Flags(
      showAWSTags,
      showAWSTags && !props.isNewMachinePool && gates.viewInEditModal,
      showAWSTags && !props.isNewMachinePool && gates.editInEditModal)
  }

  /**
   * A row is hidden when it is an AWS tag that may not be seen: tags are
   * visible only with the feature on, and then on a new pool or when viewing
   * in the edit modal is enabled. Ordinary labels are always visible.
   */
  function IsHidden(gates: Gates, props: SectionProps, isAwsTag: bool): (hidden: bool)
    ensures !isAwsTag ==> !hidden
    ensures hidden <==>
      isAwsTag && !(gates.awsTagsNewMp && props.isROSAHCP && (props.isNewMachinePool || gates.viewInEditModal))
  {
    var f := DeriveFlags(gates, props);
    isAwsTag && (!f.showAWSTags || (!f.showAwsTagsInEditModal && !props.isNewMachinePool))
  }

  /**
   * Only an existing pool's AWS tag, viewable but not editable in the modal,
   * is read-only; nothing is read-only on a new pool.
   */
  function IsReadOnly(gates: Gates, props: SectionProps, isAwsTag: bool): (readOnly: bool)
    ensures props.isNewMachinePool ==> !readOnly
    ensures readOnly <==>
      isAwsTag && gates.awsTagsNewMp && props.isROSAHCP && !props.isNewMachinePool
      && gates.viewInEditModal && !gates.editInEditModal
  {
    var f := DeriveFlags(gates, props);
    isAwsTag && f.showAwsTagsInEditModal && !f.editAWSTagsInEditModal
  }

  /**
   * The "AWS Tag" checkbox appears only with the feature on; on a new pool it
   * appears on every row, on an existing pool on every row when editing in the
   * modal is enabled and otherwise on the AWS-tag rows alone.
   */
  function ShowCheckbox(gates: Gates, props: SectionProps, isAwsTag: bool): (shown: bool)
    ensures shown ==> gates.awsTagsNewMp && props.isROSAHCP
    ensures gates.awsTagsNewMp && props.isROSAHCP && props.isNewMachinePool ==> shown
    ensures !props.isNewMachinePool ==>
      (shown <==> gates.awsTagsNewMp && props.isROSAHCP && (gates.editInEditModal || isAwsTag))
  {
    var f := DeriveFlags(gates, props);
    f.showAWSTags &&
      (props.isNewMachinePool || f.editAWSTagsInEditModal || (isAwsTag && !f.editAWSTagsInEditModal))
  }

  /**
   * The rows flagged as AWS tags, hidden ones included (the source's `filter`).
   */
  function AwsTagRows(labels: seq<LabelEntry>): (tags: seq<LabelEntry>)
    ensures |tags| <= |labels|
    ensures forall e :: e in tags ==> e in labels && e.isAwsTag
    ensures forall e :: e in labels && e.isAwsTag ==> e in tags
  {
    if labels == [] then []
    else (if labels[0].isAwsTag then [labels[0]] else []) + AwsTagRows(labels[1..])
  }

  /** Each AWS-tag row is kept as often as it occurs; every other row is dropped. */
  lemma {:induction false} AwsTagRowsMultiplicity(labels: seq<LabelEntry>, e: LabelEntry)
    ensures multiset(AwsTagRows(labels))[e] == if e.isAwsTag then multiset(labels)[e] else 0
  {
    if labels != [] {
      assert labels == [labels[0]] + labels[1..];
      AwsTagRowsMultiplicity(labels[1..], e);
    }
  }

  /** The positions of the rows flagged as AWS tags. */
  function AwsTagIndices(labels: seq<LabelEntry>): set<int> {
    set i | 0 <= i < |labels| && labels[i].isAwsTag
  }

  /** Appending a row adds its position to the AWS-tag positions exactly when it is an AWS tag. */
  lemma AwsTagIndicesSnoc(init: seq<LabelEntry>, last: LabelEntry)
    ensures AwsTagIndices(init + [last]) == AwsTagIndices(init) + (if last.isAwsTag then {|init|} else {})
    ensures |init| !in AwsTagIndices(init)
  {
  }

  /** The filter's length is the number of rows flagged as AWS tags. */
  lemma {:induction false} AwsTagCountIsIndexCount(labels: seq<LabelEntry>)
    ensures |AwsTagRows(labels)| == |AwsTagIndices(labels)|
  {
    if labels == [] {
      assert AwsTagIndices(labels) == {};
    } else {
      var n := |labels| - 1;
      var init, last := labels[..n], labels[n];
      assert labels == init + [last];
      AwsTagRowsAppend(init, [last]);
      assert [last][1..] == [];
      AwsTagCountIsIndexCount(init);
      AwsTagIndicesSnoc(init, last);
    }
  }

  /**
   * Once the cap of AWS tags is reached, no further ordinary row may be
   * turned into one; a row that already is an AWS tag is never over the cap.
   */
  function TooManyAwsTags(labels: seq<LabelEntry>, isAwsTag: bool): (tooMany: bool)
    ensures isAwsTag ==> !tooMany
    ensures tooMany <==> !isAwsTag && |AwsTagIndices(labels)| >= AwsTagMaxCount
  {
    AwsTagCountIsIndexCount(labels);
    !isAwsTag && |AwsTagRows(labels)| >= AwsTagMaxCount
  }

  /**
   * Ordinary rows can always be removed; AWS-tag rows on a new pool, or when
   * editing tags in the modal is enabled for an existing one.
   */
  function ShowRemoveButton(gates: Gates, props: SectionProps, isAwsTag: bool): (shown: bool)
    ensures !isAwsTag ==> shown
    ensures isAwsTag ==>
      (shown <==> props.isNewMachinePool || (gates.awsTagsNewMp && props.isROSAHCP && gates.editInEditModal))
  {
    var f := DeriveFlags(gates, props);
    !isAwsTag || props.isNewMachinePool || f.editAWSTagsInEditModal
  }

  /**
   * The add button names AWS tags exactly when the row it adds (an ordinary
   * one) would get the "AWS Tag" checkbox.
   */
  function AddButtonText(gates: Gates, props: SectionProps): (text: string)
    ensures text == AddLabelText || text == AddLabelText + AwsTagSuffix
    ensures text == AddLabelText + AwsTagSuffix <==> ShowCheckbox(gates, props, false)
  {
    var f := DeriveFlags(gates, props);
    AddLabelText + (if f.showAWSTags && (props.isNewMachinePool || gates.editInEditModal) then AwsTagSuffix else "")
  }

  /**
   * One row of the list: `None` when it is hidden, otherwise what it shows.
   * A read-only row keeps its checkbox, disabled, and cannot be removed; on an
   * existing pool whose tags cannot be edited in the modal, every checkbox
   * shown is disabled.
   */
  function RenderRow(gates: Gates, props: SectionProps, labels: seq<LabelEntry>, index: nat): (row: Option<RowView>)
    requires index < |labels|
    ensures row.None? <==> IsHidden(gates, props, labels[index].isAwsTag)
    ensures row.Some? ==>
      && row.value.isReadOnly == IsReadOnly(gates, props, labels[index].isAwsTag)
      && row.value.showCheckbox == ShowCheckbox(gates, props, labels[index].isAwsTag)
      && row.value.showRemoveButton == ShowRemoveButton(gates, props, labels[index].isAwsTag)
    ensures row.Some? ==>
      (row.value.checkboxDisabled <==>
        row.value.isReadOnly || (!labels[index].isAwsTag && |AwsTagIndices(labels)| >= AwsTagMaxCount))
    ensures row.Some? && row.value.isReadOnly ==>
      row.value.showCheckbox && row.value.checkboxDisabled && !row.value.showRemoveButton
    ensures row.Some? && !props.isNewMachinePool && !gates.editInEditModal && row.value.showCheckbox ==>
      row.value.checkboxDisabled
  {
    var isAwsTag := labels[index].isAwsTag;
    if IsHidden(gates, props, isAwsTag) then None
    else
      var isReadOnly := IsReadOnly(gates, props, isAwsTag);
      Some(RowView(
        isReadOnly,
        ShowCheckbox(gates, props, isAwsTag),
        isReadOnly || TooManyAwsTags(labels, isAwsTag),
        ShowRemoveButton(gates, props, isAwsTag)))
  }

  /** Filtering a concatenation filters each part. */
  lemma {:induction false} AwsTagRowsAppend(a: seq<LabelEntry>, b: seq<LabelEntry>)
    ensures AwsTagRows(a + b) == AwsTagRows(a) + AwsTagRows(b)
  {
    if a == [] {
      assert a + b == b;
    } else {
      assert (a + b)[0] == a[0];
      assert (a + b)[1..] == a[1..] + b;
      AwsTagRowsAppend(a[1..], b);
    }
  }

  /** A list of AWS tags only is its own filter. */
  lemma {:induction false} AwsTagRowsOfTagsOnly(tags: seq<LabelEntry>)
    requires forall i :: 0 <= i < |tags| ==> tags[i].isAwsTag
    ensures AwsTagRows(tags) == tags
  {
    if tags != [] {
      AwsTagRowsOfTagsOnly(tags[1..]);
    }
  }

  /**
   * A new ordinary row under n AWS tags: its checkbox is enabled below the
   * cap and disabled from the cap on (24 tags enabled, 25 disabled).
   */
  lemma FreshRowCheckboxAtCap(gates: Gates, props: SectionProps, tags: seq<LabelEntry>, newRow: LabelEntry)
    requires forall i :: 0 <= i < |tags| ==> tags[i].isAwsTag
    requires !newRow.isAwsTag
    ensures var row := RenderRow(gates, props, tags + [newRow], |tags|);
            row.Some? && (row.value.checkboxDisabled <==> |tags| >= AwsTagMaxCount)
  {
    AwsTagRowsAppend(tags, [newRow]);
    AwsTagRowsOfTagsOnly(tags);
    assert AwsTagRows([newRow]) == [];
    assert (tags + [newRow])[|tags|] == newRow;
  }
}
