/**
 * The label service: an ordered in-memory list of labels `{text, position}`
 * that is written back to the browser's key-value storage, as a whole, after
 * every change, under the key `cosmozoom-labels`. The storage entry is the
 * ghost field `persisted`; `None` stands for "no entry under the key".
 */
module LabelStore {
  import opened Wrappers
  import opened Geometry

  /** A label: its text and its position normalised to the image container. */
  datatype Label = Label(text: string, position: Point)

  /**
   * `loadLabels`: the stored list, or the empty list when nothing is stored
   * (a missing or empty entry, both falsy in JavaScript).
   */
  function Loaded(stored: Option<seq<Label>>): (labels: seq<Label>)
    ensures stored.None? ==> labels == []
    ensures stored.Some? ==> labels == stored.value
  {
    match stored
    case None => []
    case Some(saved) => saved
  }

  /** The list without its element `i`, the others in their order. */
  function RemovedAt(labels: seq<Label>, i: nat): (r: seq<Label>)
    requires i < |labels|
    ensures |r| == |labels| - 1
    ensures forall k :: 0 <= k < i ==> r[k] == labels[k]
    ensures forall k :: i <= k < |r| ==> r[k] == labels[k + 1]
    ensures multiset(r) + multiset{labels[i]} == multiset(labels)
  {
    assert labels == labels[..i] + [labels[i]] + labels[i + 1..];
    labels[..i] + labels[i + 1..]
  }

  /**
   * Where `splice(index, 1)` starts deleting: a negative index counts back
   * from the end (and stops at 0), a large one stops at the length.
   */
  function SpliceStart(length: nat, index: int): (start: nat)
    ensures start <= length
    ensures 0 <= index <= length ==> start == index
    ensures index > length ==> start == length
    ensures 0 - length <= index < 0 ==> start == length + index
    ensures index < 0 - length ==> start == 0
  {
    if index < 0 then (if length + index < 0 then 0 else length + index)
    else if index < length then index else length
  }

  /** `labels.splice(index, 1)`: remove the element at the start position, if there is one. */
  function Spliced(labels: seq<Label>, index: int): (r: seq<Label>)
    ensures 0 <= index < |labels| ==> r == RemovedAt(labels, index)
    ensures index >= |labels| ==> r == labels
    ensures labels != [] && index < 0 ==> r == RemovedAt(labels, SpliceStart(|labels|, index))
    ensures |r| == if labels == [] || index >= |labels| then |labels| else |labels| - 1
  {
    var start := SpliceStart(|labels|, index);
    if start < |labels| then RemovedAt(labels, start) else labels
  }

  /** The list with the text of entry `index` replaced, if that entry exists. */
  function Edited(labels: seq<Label>, index: int, newText: string): (r: seq<Label>)
    ensures |r| == |labels|
    ensures forall k :: 0 <= k < |labels| && k != index ==> r[k] == labels[k]
    ensures 0 <= index < |labels| ==> r[index] == Label(newText, labels[index].position)
  {
    if 0 <= index < |labels| then labels[index := labels[index].(text := newText)]
    else labels
  }

  /** Adding a label and then deleting the last index gives back the list. */
  lemma DeleteUndoesAdd(labels: seq<Label>, added: Label)
    ensures Spliced(labels + [added], |labels|) == labels
  {
    var s := labels + [added];
    assert RemovedAt(s, |labels|) == s[..|labels|];
  }

  /** Editing an entry back to its former text gives back the list. */
  lemma EditUndoesEdit(labels: seq<Label>, index: int, newText: string)
    requires 0 <= index < |labels|
    ensures Edited(Edited(labels, index, newText), index, labels[index].text) == labels
  {
  }

  /** Worked example: A, B, C; delete index 1; edit index 0 to "Z". */
  lemma DeleteThenEditExample(p: Point, q: Point, r: Point)
    ensures var abc := [Label("A", p), Label("B", q), Label("C", r)];
            && Spliced(abc, 1) == [Label("A", p), Label("C", r)]
            && Edited(Spliced(abc, 1), 0, "Z") == [Label("Z", p), Label("C", r)]
            && Spliced(abc, 3) == abc
  {
    var abc := [Label("A", p), Label("B", q), Label("C", r)];
    assert SpliceStart(3, 1) == 1;
    assert abc[..1] + abc[2..] == [Label("A", p), Label("C", r)];
    assert Spliced(abc, 1) == [Label("A", p), Label("C", r)];
  }

  class LabelService {
    var labels: seq<Label>
    /** The storage entry under the key `cosmozoom-labels`. */
    ghost var persisted: Option<seq<Label>>

    /** Storage and memory agree: what is stored is the list, or nothing is stored and the list is empty. */
    ghost predicate Valid()
      reads this
    {
      persisted == Some(labels) || (persisted.None? && labels == [])
    }

    /** The constructor loads the list from the storage entry `stored`. */
    constructor (stored: Option<seq<Label>>)
      ensures Valid()
      ensures labels == Loaded(stored) && persisted == stored
    {
      labels := Loaded(stored);
      persisted := stored;
    }

    /** `saveLabels`: overwrite the storage entry with the whole list. */
    method SaveLabels()
      modifies this`persisted
      ensures persisted == Some(labels)
    {
      persisted := Some(labels);
    }

    /** `getLabels` */
    method GetLabels() returns (r: seq<Label>)
      requires Valid()
      ensures r == labels
      ensures persisted.Some? ==> r == persisted.value
    {
      r := labels;
    }

    /** `addLabelAtPosition`: append, then save. */
    method AddLabelAtPosition(text: string, position: Point)
      requires Valid()
      modifies this
      ensures Valid()
      ensures labels == old(labels) + [Label(text, position)]
      ensures persisted == Some(labels)
    {
      labels := labels + [Label(text, position)];
      SaveLabels();
    }

    /** `deleteLabel`: `splice(index, 1)`, then save (also when nothing was removed). */
    method DeleteLabel(index: int)
      requires Valid()
      modifies this
      ensures Valid()
      ensures labels == Spliced(old(labels), index)
      ensures persisted == Some(labels)
    {
      labels := Spliced(labels, index);
      SaveLabels();
    }

    /** `editLabel`: replace the text of an existing entry and save; an absent index changes nothing. */
    method EditLabel(index: int, newText: string)
      requires Valid()
      modifies this
      ensures Valid()
      ensures labels == Edited(old(labels), index, newText)
      ensures 0 <= index < |old(labels)| ==> persisted == Some(labels)
      ensures !(0 <= index < |old(labels)|) ==> persisted == old(persisted)
    {
      if 0 <= index < |labels| {
        labels := labels[index := labels[index].(text := newText)];
        SaveLabels();
      }
    }

    /** `clearLabels`: empty the list, then save. */
    method ClearLabels()
      requires Valid()
      modifies this
      ensures Valid()
      ensures labels == [] && persisted == Some([])
    {
      labels := [];
      SaveLabels();
    }
  }
}
