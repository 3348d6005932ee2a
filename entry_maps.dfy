/**
 * How the edit form turns its key/value rows into the `labels` and `tags`
 * maps of a payload: the single-blank-row placeholder, and a left fold in
 * which a later row overwrites an earlier row with the same key.
 */
module EntryMaps {
  import opened FormValues

  /**
   * The form keeps one empty row on screen when the user has entered nothing:
   * a list of exactly one row whose key is empty stands for "no rows".
   * A blank row inside a longer list is not a placeholder.
   */
  predicate SoleBlankRow<T>(rows: seq<T>, keyOf: T -> string) {
    |rows| == 1 && keyOf(rows[0]) == ""
  }

  /** The `reduce` of the source: fold the rows, left to right, into a map. */
  function Collapse(rows: seq<KeyValue>): (m: map<string, string>)
    ensures m.Keys == set e | e in rows :: e.key
  {
    if rows == [] then map[]
    else
      var init := rows[..|rows| - 1];
      var last := rows[|rows| - 1];
      assert rows == init + [last];
      Collapse(init)[last.key := last.value]
  }

  /** The key and value of each label row; the AWS-tag flag is dropped. */
  function LabelPairs(labels: seq<LabelEntry>): seq<KeyValue> {
    seq(|labels|, i requires 0 <= i < |labels| => KeyValue(labels[i].key, labels[i].value))
  }

  /** What `getLabels` returns for the label rows. */
  function LabelsOf(labels: seq<LabelEntry>): map<string, string> {
    if SoleBlankRow(labels, (e: LabelEntry) => e.key) then map[] else Collapse(LabelPairs(labels))
  }

  /** What `getAWSTags` returns for the AWS-tag rows. */
  function AwsTagsOf(tags: seq<KeyValue>): map<string, string> {
    if SoleBlankRow(tags, (e: KeyValue) => e.key) then map[] else Collapse(tags)
  }

  /**
   * Last write wins: the value the map holds for a key is the value of the
   * last row carrying that key.
   */
  lemma {:induction false} CollapseLastWriteWins(rows: seq<KeyValue>, i: nat)
    requires i < |rows|
    requires forall j :: i < j < |rows| ==> rows[j].key != rows[i].key
    ensures rows[i].key in Collapse(rows)
    ensures Collapse(rows)[rows[i].key] == rows[i].value
  {
    if i < |rows| - 1 {
      var init := rows[..|rows| - 1];
      assert init[i] == rows[i];
      CollapseLastWriteWins(init, i);
    }
  }

  /**
   * Folding a concatenation is the right-biased union of the two folds:
   * rows further down the list take precedence.
   */
  lemma {:induction false} CollapseConcat(a: seq<KeyValue>, b: seq<KeyValue>)
    ensures Collapse(a + b) == Collapse(a) + Collapse(b)
  {
    if b == [] {
      assert a + b == a;
    } else {
      var init := b[..|b| - 1];
      var last := b[|b| - 1];
      assert (a + b)[..|a + b| - 1] == a + init;
      CollapseConcat(a, init);
    }
  }

  /**
   * Every label row outside the placeholder case reaches `labels`, whether or
   * not it is flagged as an AWS tag, and the last row with a key decides its
   * value.
   */
  lemma LabelsKeepEveryRow(labels: seq<LabelEntry>, i: nat)
    requires i < |labels|
    requires !SoleBlankRow(labels, (e: LabelEntry) => e.key)
    requires forall j :: i < j < |labels| ==> labels[j].key != labels[i].key
    ensures labels[i].key in LabelsOf(labels)
    ensures LabelsOf(labels)[labels[i].key] == labels[i].value
  {
    var pairs := LabelPairs(labels);
    assert forall j :: i < j < |pairs| ==> pairs[j].key != pairs[i].key;
    CollapseLastWriteWins(pairs, i);
  }

  /** `labels` depends on the keys and values of the rows only, never on the AWS-tag flags. */
  lemma LabelsIgnoreAwsTagFlag(a: seq<LabelEntry>, b: seq<LabelEntry>)
    requires |a| == |b|
    requires forall i :: 0 <= i < |a| ==> a[i].key == b[i].key && a[i].value == b[i].value
    ensures LabelsOf(a) == LabelsOf(b)
  {
    assert LabelPairs(a) == LabelPairs(b);
  }

  /** The label map is empty exactly for no rows or the placeholder row. */
  lemma LabelsEmptyIff(labels: seq<LabelEntry>)
    ensures LabelsOf(labels) == map[] <==> |labels| == 0 || SoleBlankRow(labels, (e: LabelEntry) => e.key)
  {
    if |labels| > 0 && !SoleBlankRow(labels, (e: LabelEntry) => e.key) {
      assert LabelPairs(labels)[0] in LabelPairs(labels);
      assert labels[0].key in LabelsOf(labels);
    }
  }

  /** The tag map is empty exactly for no rows or the placeholder row. */
  lemma AwsTagsEmptyIff(tags: seq<KeyValue>)
    ensures AwsTagsOf(tags) == map[] <==> |tags| == 0 || SoleBlankRow(tags, (e: KeyValue) => e.key)
  {
    if |tags| > 0 && !SoleBlankRow(tags, (e: KeyValue) => e.key) {
      assert tags[0] in tags;
      assert tags[0].key in AwsTagsOf(tags);
    }
  }
}
