/**
 * A sortable container: one drop zone of the sortable list component.
 *
 * The drag helper only ever talks to a container through two operations,
 * `removeItem(index)` and `insertItem(index, value)`, whose implementations
 * live in the container directive and are not part of this model. Here they
 * are given the contract the helper relies on: delete and insert at an index
 * of the container's list of model values.
 */
module Containers {

  /** Identity token of a container: the DOM element the container is bound to. */
  type ElementId = nat

  /** `s` with the element at position `i` deleted. */
  function RemoveAt<T>(s: seq<T>, i: nat): (r: seq<T>)
    requires i < |s|
    ensures |r| == |s| - 1
    ensures forall j :: 0 <= j < i ==> r[j] == s[j]
    ensures forall j :: i <= j < |r| ==> r[j] == s[j + 1]
  {
    s[..i] + s[i + 1..]
  }

  /** `s` with `v` inserted so that it ends up at position `i`. */
  function InsertAt<T>(s: seq<T>, i: nat, v: T): (r: seq<T>)
    requires i <= |s|
    ensures |r| == |s| + 1
    ensures r[i] == v
    ensures forall j :: 0 <= j < i ==> r[j] == s[j]
    ensures forall j :: i < j < |r| ==> r[j] == s[j - 1]
  {
    s[..i] + [v] + s[i..]
  }

  /** Deleting what was just inserted gives back the original list. */
  lemma RemoveUndoesInsert<T>(s: seq<T>, i: nat, v: T)
    requires i <= |s|
    ensures RemoveAt(InsertAt(s, i, v), i) == s
  {
  }

  /** Re-inserting the deleted element where it was gives back the original list. */
  lemma InsertUndoesRemove<T>(s: seq<T>, i: nat)
    requires i < |s|
    ensures InsertAt(RemoveAt(s, i), i, s[i]) == s
  {
  }

  /** Deleting takes exactly one occurrence of the deleted element out of the contents. */
  lemma RemoveAtMultiset<T>(s: seq<T>, i: nat)
    requires i < |s|
    ensures multiset(RemoveAt(s, i)) == multiset(s) - multiset{s[i]}
    ensures multiset(RemoveAt(s, i)) + multiset{s[i]} == multiset(s)
  {
    assert s == s[..i] + [s[i]] + s[i + 1..];
    assert multiset(s) == multiset(s[..i]) + multiset{s[i]} + multiset(s[i + 1..]);
  }

  /** Inserting adds exactly one occurrence of the inserted value to the contents. */
  lemma InsertAtMultiset<T>(s: seq<T>, i: nat, v: T)
    requires i <= |s|
    ensures multiset(InsertAt(s, i, v)) == multiset(s) + multiset{v}
  {
    assert s == s[..i] + s[i..];
    assert InsertAt(s, i, v) == s[..i] + [v] + s[i..];
  }

  /**
   * A container as the helper sees it: an identity token and the list of
   * model values it displays. `removeItem` and `insertItem` update the list
   * in place.
   */
  class Sortable<T> {
    const element: ElementId
    var items: seq<T>

    constructor (element: ElementId, items: seq<T>)
      ensures this.element == element && this.items == items
    {
      this.element := element;
      this.items := items;
    }

    /** `removeItem(index)`: the value at `i` leaves the container. */
    method RemoveItem(i: nat)
      requires i < |items|
      modifies this
      ensures items == RemoveAt(old(items), i)
      ensures multiset(items) + multiset{old(items)[i]} == multiset(old(items))
    {
      RemoveAtMultiset(items, i);
      items := RemoveAt(items, i);
    }

    /** `insertItem(index, value)`: `v` enters the container at position `i`. */
    method InsertItem(i: nat, v: T)
      requires i <= |items|
      modifies this
      ensures items == InsertAt(old(items), i, v)
      ensures multiset(items) == multiset(old(items)) + multiset{v}
    {
      InsertAtMultiset(items, i, v);
      items := InsertAt(items, i, v);
    }
  }
}
