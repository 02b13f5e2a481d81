/** What the filter loop's tag list is: the label names, in order, with duplicates kept. */
module TagFilterProperties {
  import opened ExtractTags

  /** Some label at or before the end of `labels` has the name `t`. */
  predicate HasLabelNamed(labels: seq<Label>, t: string)
  {
    exists i :: 0 <= i < |labels| && Named(labels[i]) && labels[i].name.value == t
  }

  /** Reference definition: the names of the named labels, read front to back. */
  function NamesInOrder(labels: seq<Label>): seq<string>
  {
    if labels == [] then []
    else (if Named(labels[0]) then [labels[0].name.value] else []) + NamesInOrder(labels[1..])
  }

  /** The tag list of a concatenation is the concatenation of the tag lists. */
  lemma {:induction false} NamedTagsAppend(a: seq<Label>, b: seq<Label>)
    ensures NamedTags(a + b) == NamedTags(a) + NamedTags(b)
    decreases |b|
  {
    if b == [] {
      assert a + b == a;
    } else {
      var front := b[..|b| - 1];
      assert (a + b)[..|a + b| - 1] == a + front;
      assert (a + b)[|a + b| - 1] == b[|b| - 1];
      NamedTagsAppend(a, front);
    }
  }

  lemma NamedTagsSingleton(l: Label)
    ensures NamedTags([l]) == if Named(l) then [l.name.value] else []
  {
    assert [l][..0] == [];
  }

  /** The tags are exactly the names of the named labels, in their original order. */
  lemma {:induction false} NamedTagsAreNamesInOrder(labels: seq<Label>)
    ensures NamedTags(labels) == NamesInOrder(labels)
    decreases |labels|
  {
    if labels != [] {
      assert labels == [labels[0]] + labels[1..];
      NamedTagsAppend([labels[0]], labels[1..]);
      NamedTagsSingleton(labels[0]);
      NamedTagsAreNamesInOrder(labels[1..]);
    }
  }

  /** A string is a tag exactly when some label carries it as a non-empty name. */
  lemma {:induction false} NamedTagsMembership(labels: seq<Label>, t: string)
    ensures t in NamedTags(labels) <==> HasLabelNamed(labels, t)
    decreases |labels|
  {
    if labels != [] {
      var n := |labels| - 1;
      var front := labels[..n];
      NamedTagsMembership(front, t);
      if HasLabelNamed(labels, t) && !(Named(labels[n]) && labels[n].name.value == t) {
        var i :| 0 <= i < |labels| && Named(labels[i]) && labels[i].name.value == t;
        assert i < n && front[i] == labels[i];
      }
      if HasLabelNamed(front, t) {
        var i :| 0 <= i < |front| && Named(front[i]) && front[i].name.value == t;
        assert labels[i] == front[i];
      }
    }
  }

  /** The list is empty exactly when no label has a non-empty name. */
  lemma NamedTagsEmpty(labels: seq<Label>)
    ensures NamedTags(labels) == [] <==> forall i :: 0 <= i < |labels| ==> !Named(labels[i])
  {
    if NamedTags(labels) != [] {
      NamedTagsMembership(labels, NamedTags(labels)[0]);
    }
    if exists i :: 0 <= i < |labels| && Named(labels[i]) {
      var i :| 0 <= i < |labels| && Named(labels[i]);
      NamedTagsMembership(labels, labels[i].name.value);
    }
  }

  /** Two labels with the same name give that tag twice: the list is not deduplicated. */
  lemma {:induction false} NamedTagsKeepsDuplicates(labels: seq<Label>, i: nat, j: nat)
    requires i < j < |labels|
    requires Named(labels[i]) && labels[j] == labels[i]
    ensures multiset(NamedTags(labels))[labels[i].name.value] >= 2
    decreases |labels|
  {
    var t := labels[i].name.value;
    var n := |labels| - 1;
    var front := labels[..n];
    var last := labels[n];
    assert NamedTags(labels) == NamedTags(front) + (if Named(last) then [last.name.value] else []);
    assert front[i] == labels[i];
    if j < n {
      assert front[j] == labels[j];
      NamedTagsKeepsDuplicates(front, i, j);
    } else {
      NamedTagsMembership(front, t);
      assert NamedTags(labels) == NamedTags(front) + [t];
    }
  }
}
