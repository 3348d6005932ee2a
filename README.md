# Machine-pool edit form: request builder and label-row rules

This project models, in Dafny, the part of the cluster-management front end
that turns the machine-pool edit form into a backend request, and the rules
that decide how the label rows of that form are displayed.

- **Request builder** (`EditMachinePoolModal/utils.ts`). From the form values
  and a few flags it builds either a classic `MachinePool` or a hosted
  `NodePool`. Helpers fold the label rows and the AWS-tag rows into maps
  (a later row overwrites an earlier one with the same key), drop the
  single-blank-row placeholder, and size the pool: either a fixed replica
  count, or autoscaling bounds multiplied by three on multi-AZ pools.
  Creation-only fields (instance type, disk size, secure boot, spot options,
  security groups, subnet, and the node-pool block's instance type, IMDS
  mode, security groups and disk size) are set only when the pool is being
  created; on edit, a node-pool block appears only to carry the tags. AWS tags reach a hosted request when tag editing is enabled
  or the pool is new, and only when there is at least one tag.
- **Label rows** (`EditMachinePoolModal/sections/EditLabelsSection.tsx`).
  From the feature gate, the cluster kind, whether the pool is new and two
  edit-modal switches, the component derives whether each row is hidden or
  read-only, whether it shows the "AWS Tag" checkbox and whether that
  checkbox is disabled (read-only, or 25 AWS tags already present), whether
  it has a remove button, and the text of the add button.

Modules: `Wrappers` (Option), `FormValues` (the form record),
`Payloads` (the two request shapes), `EntryMaps` (placeholder rule and the
row-to-map fold with its lemmas), `RequestBuilder` (utils.ts) and
`EditLabelsSection` (the row rules).

The folds `getLabels` and `getAWSTags` mutate an accumulator, so they are
methods with loops proved equal to the fold function `EntryMaps.Collapse`;
the two builders call them and are methods that build a local record field
by field, as the source does. `getTaints`, `getAutoscalingParams` and the
row rules are functions. The two payloads are distinct datatypes: a hosted
`NodePool` has no classic `root_volume` or `aws` field and a classic
`MachinePool` has no `subnet` or `aws_node_pool`, so those absences hold by
construction.

Where the code and its tests disagree, the model follows the code: `getLabels` puts every label row into `labels`, whatever its AWS-tag
flag, and the hosted request takes its tags from the separate `awsTags` rows
(utils.ts lines 6-26 and 149). The tests at utils.test.ts:208-306 expect the
label rows to be split by their AWS-tag flag; that split is not modelled.

Inputs that come from outside the core are parameters: the `AWS_TAGS_NEW_MP`
feature gate and the `ENABLE_AWS_TAGS_VIEW_IN_EDIT_MODAL`,
`ENABLE_AWS_TAGS_EDITING_IN_EDIT_MODAL` and `ENABLE_AWS_TAGS_EDITING`
constants are booleans passed in. An absent `isAwsTag` reads as false, an
absent `isSecureBootUpdated` as false, and an absent `secure_boot` is copied
as absent.

## Model

The predicates and functions `EntryMaps.SoleBlankRow` (the single-blank-row test of
utils.ts lines 7, 18 and 29), `EntryMaps.LabelPairs` (the `{ key, value }` destructuring of
utils.ts line 10), `EditLabelsSection.AwsTagIndices` (the positions of the AWS-tag rows, the
count the cap of EditLabelsSection.tsx line 89 is stated against), `EntryMaps.LabelsOf` and `EntryMaps.AwsTagsOf` (what
`getLabels` and `getAWSTags` return), `RequestBuilder.AttachesAwsTags` (the condition of
utils.ts lines 148-150) and `Payloads.AwsMachinePool.IsEmpty` (the key-count test of
utils.ts line 110) are the vocabulary the contracts below are written in; the rows that
use them state their properties.

| member | source | states |
|---|---|---|
| EntryMaps.Collapse | src/components/clusters/ClusterDetailsMultiRegion/components/MachinePools/components/EditMachinePoolModal/utils.ts:9-14 | the folded map has exactly the keys of the rows |
| EntryMaps.CollapseLastWriteWins | src/components/clusters/ClusterDetailsMultiRegion/components/MachinePools/components/EditMachinePoolModal/utils.ts:10-13 | the value kept for a key is the value of the last row with that key |
| EntryMaps.CollapseConcat | src/components/clusters/ClusterDetailsMultiRegion/components/MachinePools/components/EditMachinePoolModal/utils.ts:9-14 | folding a concatenation is the right-biased union of the two folds |
| EntryMaps.LabelsKeepEveryRow | src/components/clusters/ClusterDetailsMultiRegion/components/MachinePools/components/EditMachinePoolModal/utils.ts:6-15 | outside the placeholder case every label row, AWS tag or not, lands in `labels` with its last value |
| EntryMaps.LabelsIgnoreAwsTagFlag | src/components/clusters/ClusterDetailsMultiRegion/components/MachinePools/components/EditMachinePoolModal/utils.ts:10-11 | `labels` depends only on keys and values, never on the AWS-tag flag |
| EntryMaps.LabelsEmptyIff | src/components/clusters/ClusterDetailsMultiRegion/components/MachinePools/components/EditMachinePoolModal/utils.ts:6-8 | `labels` is empty exactly for no rows or the single blank row |
| EntryMaps.AwsTagsEmptyIff | src/components/clusters/ClusterDetailsMultiRegion/components/MachinePools/components/EditMachinePoolModal/utils.ts:17-19 | the tag map is empty exactly for no rows or the single blank row |
| RequestBuilder.GetLabels | src/components/clusters/ClusterDetailsMultiRegion/components/MachinePools/components/EditMachinePoolModal/utils.ts:6-15 | the placeholder gives the empty map, otherwise the left fold of all rows |
| RequestBuilder.GetAWSTags | src/components/clusters/ClusterDetailsMultiRegion/components/MachinePools/components/EditMachinePoolModal/utils.ts:17-26 | the placeholder gives the empty map, otherwise the left fold of all tag rows |
| RequestBuilder.GetTaints | src/components/clusters/ClusterDetailsMultiRegion/components/MachinePools/components/EditMachinePoolModal/utils.ts:28-29 | empty exactly for no rows or the single blank row; any other list, blank keys included, is returned unchanged |
| RequestBuilder.AzMultiplier | src/components/clusters/ClusterDetailsMultiRegion/components/MachinePools/components/EditMachinePoolModal/utils.ts:37-38 | the autoscaling multiplier is 3 for a multi-AZ pool and 1 otherwise |
| RequestBuilder.GetAutoscalingParams | src/components/clusters/ClusterDetailsMultiRegion/components/MachinePools/components/EditMachinePoolModal/utils.ts:31-56 | replicas as entered without autoscaling; with it, min and max times 3 on multi-AZ and unchanged otherwise, under the hosted or classic key names |
| RequestBuilder.SizingSameAcrossTopologies | src/components/clusters/ClusterDetailsMultiRegion/components/MachinePools/components/EditMachinePoolModal/utils.ts:36-48 | hosted and classic sizing carry the same numbers; only the key names differ |
| RequestBuilder.SizingKeepsBoundsOrdered | src/components/clusters/ClusterDetailsMultiRegion/components/MachinePools/components/EditMachinePoolModal/utils.ts:37-38 | ordered autoscaling bounds stay ordered after scaling |
| RequestBuilder.BuildMachinePoolRequest | src/components/clusters/ClusterDetailsMultiRegion/components/MachinePools/components/EditMachinePoolModal/utils.ts:58-116 | id, labels, taints and sizing always; on edit nothing else; on create the instance type, the disk size iff ROSA, secure boot iff not already updated, spot options iff spot instances (a price cap only in `maximum` mode), security groups iff non-empty, and `aws` absent when it would be empty |
| RequestBuilder.AttachesAwsTagsIff | src/components/clusters/ClusterDetailsMultiRegion/components/MachinePools/components/EditMachinePoolModal/utils.ts:148-150 | tags are attached iff tag editing is enabled or the pool is new, and the tag rows are neither empty nor the single blank row |
| RequestBuilder.BuildNodePoolRequest | src/components/clusters/ClusterDetailsMultiRegion/components/MachinePools/components/EditMachinePoolModal/utils.ts:118-162 | id, labels, taints, hosted sizing and auto-repair always; on create the subnet and a node-pool block with instance type, IMDS mode, security groups (even empty) and disk size, kept when tags are added; on edit a node-pool block only to carry tags, holding nothing else |
| EditLabelsSection.DeriveFlags | src/components/clusters/ClusterDetailsMultiRegion/components/MachinePools/components/EditMachinePoolModal/sections/EditLabelsSection.tsx:40-44 | AWS tags are shown iff the gate is on for ROSA HCP; viewing or editing them in the modal needs an existing pool and then follows the switches |
| EditLabelsSection.IsHidden | src/components/clusters/ClusterDetailsMultiRegion/components/MachinePools/components/EditMachinePoolModal/sections/EditLabelsSection.tsx:73-77 | a row is hidden iff it is an AWS tag and tags are off, or the pool exists and viewing in the modal is off; ordinary rows are never hidden |
| EditLabelsSection.IsReadOnly | src/components/clusters/ClusterDetailsMultiRegion/components/MachinePools/components/EditMachinePoolModal/sections/EditLabelsSection.tsx:79 | read-only iff an existing pool's AWS tag with viewing on and editing off in the modal; never on a new pool |
| EditLabelsSection.ShowCheckbox | src/components/clusters/ClusterDetailsMultiRegion/components/MachinePools/components/EditMachinePoolModal/sections/EditLabelsSection.tsx:81-85 | the checkbox needs the feature; every row of a new pool has it; on an existing pool it follows the edit switch or the row being an AWS tag |
| EditLabelsSection.AwsTagRows | src/components/clusters/ClusterDetailsMultiRegion/components/MachinePools/components/EditMachinePoolModal/sections/EditLabelsSection.tsx:89 | the filter keeps only AWS-tag rows, hidden ones included, and every AWS-tag row is in it |
| EditLabelsSection.TooManyAwsTags | src/components/clusters/ClusterDetailsMultiRegion/components/MachinePools/components/EditMachinePoolModal/sections/EditLabelsSection.tsx:87-89 | an ordinary row is over the cap iff at least 25 positions of the list hold AWS-tag rows; an AWS-tag row never is |
| EditLabelsSection.ShowRemoveButton | src/components/clusters/ClusterDetailsMultiRegion/components/MachinePools/components/EditMachinePoolModal/sections/EditLabelsSection.tsx:111 | ordinary rows are always removable; AWS-tag rows on a new pool or when editing in the modal is enabled |
| EditLabelsSection.AddButtonText | src/components/clusters/ClusterDetailsMultiRegion/components/MachinePools/components/EditMachinePoolModal/sections/EditLabelsSection.tsx:131-134 | the button says "Add label or AWS Tag" iff a newly added ordinary row would show the checkbox, else "Add label" |
| EditLabelsSection.RenderRow | src/components/clusters/ClusterDetailsMultiRegion/components/MachinePools/components/EditMachinePoolModal/sections/EditLabelsSection.tsx:69-121 | hidden rows render nothing; a visible row's read-only, checkbox and remove-button fields are those of the row rules; its checkbox is disabled iff it is read-only or it is an ordinary row and the cap is reached; a read-only row has a disabled checkbox and no remove button |
| EditLabelsSection.AwsTagRowsMultiplicity | src/components/clusters/ClusterDetailsMultiRegion/components/MachinePools/components/EditMachinePoolModal/sections/EditLabelsSection.tsx:89 | the filter keeps each AWS-tag row as many times as it occurs and drops every other row |
| EditLabelsSection.AwsTagCountIsIndexCount | src/components/clusters/ClusterDetailsMultiRegion/components/MachinePools/components/EditMachinePoolModal/sections/EditLabelsSection.tsx:89 | the filter's length is the number of positions holding an AWS-tag row |
| EditLabelsSection.AwsTagIndicesSnoc | src/components/clusters/ClusterDetailsMultiRegion/components/MachinePools/components/EditMachinePoolModal/sections/EditLabelsSection.tsx:89 | appending a row adds its position to the AWS-tag positions exactly when it is an AWS tag |
| EditLabelsSection.AwsTagRowsAppend | src/components/clusters/ClusterDetailsMultiRegion/components/MachinePools/components/EditMachinePoolModal/sections/EditLabelsSection.tsx:89 | filtering a concatenation filters each part, so AWS-tag counts add up |
| EditLabelsSection.AwsTagRowsOfTagsOnly | src/components/clusters/ClusterDetailsMultiRegion/components/MachinePools/components/EditMachinePoolModal/sections/EditLabelsSection.tsx:89 | a list holding only AWS tags is its own filter |
| EditLabelsSection.FreshRowCheckboxAtCap | src/components/clusters/ClusterDetailsMultiRegion/components/MachinePools/components/EditMachinePoolModal/sections/EditLabelsSection.tsx:87-105 | a new ordinary row below n AWS tags has its checkbox enabled for n below 25 and disabled from 25 on |

## Left out

- The validation schema for label and tag rows (prefix, character classes, per-kind uniqueness, "key has to be defined"): its implementation, `hooks/useMachinePoolFormik.ts`, is not part of this model.
- Deriving the form's initial values from an existing pool: it depends on hooks and fixtures that are not part of this model.
- `TermsGuard.tsx`, `LabelsTagsTaintsSubTab.tsx`, `Checkbox.jsx`, `useGlobalState.ts`, `ModalSelectors.ts`: rendering, navigation and thin wrappers over the form, UI and store libraries.
- Formik's `push`/`remove` callbacks and the JSX output: framework I/O. The add button adds an ordinary row, which is what `AddButtonText` is compared with.
- `maxPrice` is a floating-point number in the source; here it is a `real` that is only copied, never computed on.
- Numbers are unbounded integers; the source's numbers are doubles, exact for the replica counts a form can hold.
- JavaScript object quirks of the fold (such as a `__proto__` key) are not modelled: a map from string to string stands for the accumulator.
- The `awsTags` field is taken to be present. The source reads its length whenever tags may be attached, which includes every creation, so a form record without it is not modelled.
- `getTaints` returns the very same array as its input; the model returns an equal sequence, without aliasing.
- Idempotence of the builders holds because the model is deterministic; no separate statement is made.
