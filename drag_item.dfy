/**
 * The move descriptor built by `dragItem(item)`: it remembers where the
 * dragged item came from (`sourceInfo`) and where it is currently proposed
 * to go (`index` in container `parent`), and finally performs the move.
 *
 * Indices passed to `moveTo` are drop positions in the containers as they are
 * during the gesture, with the dragged item still in its source container:
 * dropping at `t` means "in front of the element now at `t`" (`t` equal to the
 * length means "at the end"). Because `apply` removes the item before it
 * inserts it, a drop position after the item in its own container has to be
 * lowered by one; `moveTo` does exactly that.
 */
module DragItem {
  import opened Containers

  /** Opaque token for the data scope of a list item. */
  type ScopeId = nat

  /** The item handle a drag starts from: its position, its scopes and its model value. */
  datatype ItemScope<T> = ItemScope(index: nat, itemScope: ScopeId, sortableScope: Sortable<T>, modelValue: T)

  /** The snapshot of the origin taken when the drag starts. */
  datatype SourceInfo<T> = SourceInfo(index: nat, itemScope: ScopeId, sortableScope: Sortable<T>)

  /** The proposed destination, as reported to observers. */
  datatype Destination<T> = Destination(index: int, sortableScope: Sortable<T>)

  /** The payload built by `eventArgs`. */
  datatype MoveEvent<T> = MoveEvent(source: SourceInfo<T>, dest: Destination<T>)

  /**
   * The index `moveTo` stores for a requested drop position `target`. In
   * another container it is the drop position itself; in the item's own
   * container it is the number of other items in front of the drop position,
   * which is where the item goes once it has been taken out.
   */
  function AdjustedIndex(sameParent: bool, sourceIndex: nat, target: int): (k: int)
    ensures !sameParent ==> k == target
    ensures sameParent && 0 <= target ==> k == |Positions(target) - {sourceIndex}|
  {
    var k := if sameParent && sourceIndex < target then target - 1 else target;
    if sameParent && 0 <= target then PositionsBefore(target, sourceIndex); k else k
  }

  /** The positions in front of position `n` of a list. */
  function Positions(n: nat): (ps: set<int>)
    ensures forall j :: j in ps <==> 0 <= j < n
  {
    if n == 0 then {} else Positions(n - 1) + {n - 1}
  }

  /** There are `n` positions in front of `n`. */
  lemma {:induction false} PositionsCount(n: nat)
    ensures |Positions(n)| == n
  {
    if n > 0 {
      PositionsCount(n - 1);
      assert n - 1 !in Positions(n - 1);
    }
  }

  /** Leaving out one position in front of `n` leaves `n - 1` of them. */
  lemma PositionsBefore(n: nat, skip: nat)
    ensures |Positions(n) - {skip}| == if skip < n then n - 1 else n
  {
    PositionsCount(n);
    if skip < n {
      assert Positions(n) == (Positions(n) - {skip}) + {skip};
    } else {
      assert Positions(n) - {skip} == Positions(n);
    }
  }

  /** The three worked cases of the rule, for an item taken from position 2. */
  lemma AdjustedIndexExamples()
    ensures AdjustedIndex(true, 2, 5) == 4
    ensures AdjustedIndex(true, 2, 1) == 1
    ensures AdjustedIndex(false, 2, 3) == 3
  {
  }

  /**
   * Within one container the adjusted index equals the source index exactly
   * when the item is dropped in front of itself or in front of its successor:
   * the two drops that leave the list as it was.
   */
  lemma AdjustedIndexUnchanged(sourceIndex: nat, target: int)
    ensures AdjustedIndex(true, sourceIndex, target) == sourceIndex
        <==> target == sourceIndex || target == sourceIndex + 1
  {
  }

  /** What `apply` does to a container when the item is dropped back into its own container. */
  function MoveWithin<T>(s: seq<T>, from: nat, target: nat): (r: seq<T>)
    requires from < |s| && target <= |s|
    ensures |r| == |s|
  {
    InsertAt(RemoveAt(s, from), AdjustedIndex(true, from, target), s[from])
  }

  /** Moving within one container neither adds nor loses values. */
  lemma MoveWithinPermutes<T>(s: seq<T>, from: nat, target: nat)
    requires from < |s| && target <= |s|
    ensures multiset(MoveWithin(s, from, target)) == multiset(s)
  {
    var rest := RemoveAt(s, from);
    RemoveAtMultiset(s, from);
    InsertAtMultiset(rest, AdjustedIndex(true, from, target), s[from]);
  }

  /**
   * Within one container the item lands where the caller pointed: at the
   * adjusted index, in front of the element that was at the drop position
   * and behind the element that was just before it; every other element keeps
   * its relative order.
   */
  lemma MoveWithinLands<T>(s: seq<T>, from: nat, target: nat)
    requires from < |s| && target <= |s|
    ensures MoveWithin(s, from, target)[AdjustedIndex(true, from, target)] == s[from]
    ensures RemoveAt(MoveWithin(s, from, target), AdjustedIndex(true, from, target)) == RemoveAt(s, from)
    ensures target < |s| && target != from ==>
      MoveWithin(s, from, target)[AdjustedIndex(true, from, target) + 1] == s[target]
    ensures 0 < target && target - 1 != from ==>
      MoveWithin(s, from, target)[AdjustedIndex(true, from, target) - 1] == s[target - 1]
  {
  }

  /** A drop that `isOrderChanged` reports as no change leaves the container exactly as it was. */
  lemma MoveWithinUnchanged<T>(s: seq<T>, from: nat, target: nat)
    requires from < |s| && target <= |s|
    requires AdjustedIndex(true, from, target) == from
    ensures MoveWithin(s, from, target) == s
  {
  }

  /**
   * Moving to another container: the source loses one element, the
   * destination gains the item at the requested index, between the elements
   * that surrounded that drop position, and nothing is lost overall.
   */
  lemma MoveAcross<T>(src: seq<T>, dst: seq<T>, from: nat, target: nat)
    requires from < |src| && target <= |dst|
    ensures |RemoveAt(src, from)| == |src| - 1
    ensures |InsertAt(dst, target, src[from])| == |dst| + 1
    ensures InsertAt(dst, target, src[from])[target] == src[from]
    ensures target < |dst| ==> InsertAt(dst, target, src[from])[target + 1] == dst[target]
    ensures 0 < target ==> InsertAt(dst, target, src[from])[target - 1] == dst[target - 1]
    ensures multiset(RemoveAt(src, from)) + multiset(InsertAt(dst, target, src[from]))
         == multiset(src) + multiset(dst)
  {
    RemoveAtMultiset(src, from);
    InsertAtMultiset(dst, target, src[from]);
  }

  /** The descriptor returned by `dragItem(item)`. */
  class Descriptor<T> {
    /** The proposed drop index, already adjusted for the removal of the item. */
    var index: int
    /** The proposed destination container. */
    var parent: Sortable<T>
    /** The dragged item. */
    const source: ItemScope<T>
    /** Where the item came from; a constant, so no operation can change it. */
    const sourceInfo: SourceInfo<T>
    /** Set once the move has been performed; the descriptor is single-use. */
    var applied: bool

    /** The snapshot agrees with the item it was taken from. */
    ghost predicate Valid()
    {
      && source.index == sourceInfo.index
      && source.itemScope == sourceInfo.itemScope
      && source.sortableScope == sourceInfo.sortableScope
    }

    /** `dragItem(item)`: the proposal starts out as "put it back where it was". */
    constructor (item: ItemScope<T>)
      ensures Valid()
      ensures source == item
      ensures sourceInfo == SourceInfo(item.index, item.itemScope, item.sortableScope)
      ensures index == item.index && parent == item.sortableScope && !applied
      ensures IsSameParent() && !IsOrderChanged()
    {
      index := item.index;
      parent := item.sortableScope;
      source := item;
      sourceInfo := SourceInfo(item.index, item.itemScope, item.sortableScope);
      applied := false;
    }

    /** `moveTo(parent, index)`: propose dropping at position `target` of container `p`. */
    method MoveTo(p: Sortable<T>, target: int)
      requires Valid() && !applied
      modifies this`parent, this`index
      ensures parent == p
      ensures index == AdjustedIndex(p.element == sourceInfo.sortableScope.element, sourceInfo.index, target)
      ensures p.element == sourceInfo.sortableScope.element && sourceInfo.index < target ==> index == target - 1
      ensures p.element != sourceInfo.sortableScope.element || target <= sourceInfo.index ==> index == target
    {
      parent := p;
      var i := target;
      if IsSameParent() && source.index < i {
        i := i - 1;
      }
      index := i;
    }

    /** `isSameParent()`: the proposed container is the source container, by element identity. */
    predicate IsSameParent(): (same: bool)
      reads this
      ensures parent == sourceInfo.sortableScope ==> same
    {
      parent.element == sourceInfo.sortableScope.element
    }

    /**
     * `isOrderChanged()`: the proposed index differs from the original one.
     * When it does not, applying the move to the source container puts the
     * item back where it was and leaves the list as it is.
     */
    predicate IsOrderChanged(): (changed: bool)
      reads this, parent
      ensures !changed && parent == sourceInfo.sortableScope && 0 <= index < |parent.items|
              && sourceInfo.index < |parent.items| ==>
        InsertAt(RemoveAt(parent.items, sourceInfo.index), index, parent.items[sourceInfo.index]) == parent.items
    {
      index != sourceInfo.index
    }

    /** `eventArgs()`: the payload describing the proposed move. */
    function EventArgs(): (e: MoveEvent<T>)
      reads this
      ensures e.source == sourceInfo
      ensures e.dest.index == index && e.dest.sortableScope == parent
      ensures e.dest.index != e.source.index <==> IsOrderChanged()
      ensures e.dest.sortableScope.element == e.source.sortableScope.element <==> IsSameParent()
    {
      MoveEvent(sourceInfo, Destination(index, parent))
    }

    /**
     * `apply()`: remove the item from its source container, then insert its
     * model value at the proposed index of the proposed container.
     */
    method Apply()
      requires Valid() && !applied
      requires sourceInfo.index < |sourceInfo.sortableScope.items|
      requires 0 <= index <= |parent.items| - (if parent == sourceInfo.sortableScope then 1 else 0)
      requires parent.element == sourceInfo.sortableScope.element ==> parent == sourceInfo.sortableScope
      modifies this`applied, sourceInfo.sortableScope, parent
      ensures applied
      ensures parent == sourceInfo.sortableScope ==>
        parent.items == InsertAt(RemoveAt(old(parent.items), sourceInfo.index), index, source.modelValue)
      ensures parent != sourceInfo.sortableScope ==>
        && sourceInfo.sortableScope.items == RemoveAt(old(sourceInfo.sortableScope.items), sourceInfo.index)
        && parent.items == InsertAt(old(parent.items), index, source.modelValue)
      ensures parent.items[index] == source.modelValue
      ensures parent == sourceInfo.sortableScope ==> |parent.items| == old(|parent.items|)
      ensures parent != sourceInfo.sortableScope ==>
        |sourceInfo.sortableScope.items| == old(|sourceInfo.sortableScope.items|) - 1
        && |parent.items| == old(|parent.items|) + 1
      ensures source.modelValue == old(sourceInfo.sortableScope.items[sourceInfo.index]) ==>
        if parent == sourceInfo.sortableScope then
          multiset(parent.items) == old(multiset(parent.items))
        else
          multiset(sourceInfo.sortableScope.items) + multiset(parent.items)
            == old(multiset(sourceInfo.sortableScope.items) + multiset(parent.items))
    {
      sourceInfo.sortableScope.RemoveItem(sourceInfo.index);
      parent.InsertItem(index, source.modelValue);
      applied := true;
    }
  }

  /**
   * One whole gesture inside a single container: start dragging the item at
   * `from`, propose the drop position `target`, and apply. The list ends up as
   * `MoveWithin` says, the item sits in front of the element that was at the
   * drop position, and the descriptor reports a change of order exactly when
   * the list changed shape.
   */
  method DropWithinList<T>(list: Sortable<T>, from: nat, itemScope: ScopeId, target: nat)
    returns (changed: bool)
    requires from < |list.items| && target <= |list.items|
    modifies list
    ensures list.items == MoveWithin(old(list.items), from, target)
    ensures multiset(list.items) == multiset(old(list.items))
    ensures target < |list.items| && target != from ==>
      list.items[AdjustedIndex(true, from, target) + 1] == old(list.items)[target]
    ensures changed <==> target != from && target != from + 1
    ensures !changed ==> list.items == old(list.items)
  {
    var d := new Descriptor(ItemScope(from, itemScope, list, list.items[from]));
    d.MoveTo(list, target);
    changed := d.IsOrderChanged();
    ghost var before := list.items;
    d.Apply();
    MoveWithinPermutes(before, from, target);
    MoveWithinLands(before, from, target);
    if !changed {
      MoveWithinUnchanged(before, from, target);
    }
  }
}
