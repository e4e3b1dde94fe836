/** The drag-and-drop reorder editor for services: a local working copy of
    the list, the index of the item being dragged, a pending-changes flag,
    and the two remote actions (toggle one service's visibility, commit the
    whole order). */
module ServicesReorder {
  import opened Records

  /** `Array.prototype.splice(start, 1)`: removes the element at `start`;
      a start at or past the end removes nothing. */
  function SpliceRemove<T>(s: seq<T>, start: nat): (r: seq<T>)
    ensures start < |s| ==> |r| == |s| - 1
    ensures start >= |s| ==> r == s
  {
    if start < |s| then s[..start] + s[start + 1..] else s
  }

  /** `Array.prototype.splice(start, 0, x)`: inserts `x` before position
      `start`; a start past the end is clamped to the end. */
  function SpliceInsert<T>(s: seq<T>, start: nat, x: T): (r: seq<T>)
    ensures |r| == |s| + 1
  {
    var p := if start <= |s| then start else |s|;
    s[..p] + [x] + s[p..]
  }

  /** The list after the element at `from` is dragged and dropped at `to`:
      remove it, then insert it at `to`. */
  function Move<T>(s: seq<T>, from: nat, to: nat): (r: seq<T>)
    requires from < |s|
    ensures |r| == |s|
  {
    SpliceInsert(SpliceRemove(s, from), to, s[from])
  }

  /** A move rearranges the list: same length, same elements with the same
      multiplicities. */
  lemma MoveIsPermutation<T>(s: seq<T>, from: nat, to: nat)
    requires from < |s|
    ensures |Move(s, from, to)| == |s|
    ensures multiset(Move(s, from, to)) == multiset(s)
  {
    var rest := SpliceRemove(s, from);
    assert s == s[..from] + [s[from]] + s[from + 1..];
    assert multiset(s) == multiset(rest) + multiset{s[from]};
    var p := if to <= |rest| then to else |rest|;
    assert rest == rest[..p] + rest[p..];
    assert multiset(Move(s, from, to)) == multiset(rest[..p]) + multiset{s[from]} + multiset(rest[p..]);
  }

  /** The dragged element ends up exactly at the drop index. */
  lemma MoveLandsAtDropIndex<T>(s: seq<T>, from: nat, to: nat)
    requires from < |s| && to < |s|
    ensures |Move(s, from, to)| == |s|
    ensures Move(s, from, to)[to] == s[from]
  {
    assert |SpliceRemove(s, from)| == |s| - 1;
  }

  /** Relative order of the other elements is kept: taking the dropped
      element out of the new list gives back the old list without the
      dragged element. */
  lemma MoveKeepsOthersInOrder<T>(s: seq<T>, from: nat, to: nat)
    requires from < |s| && to < |s|
    ensures SpliceRemove(Move(s, from, to), to) == SpliceRemove(s, from)
  {
    var rest := SpliceRemove(s, from);
    var m := Move(s, from, to);
    assert m == rest[..to] + [s[from]] + rest[to..];
    assert m[..to] == rest[..to];
    assert m[to + 1..] == rest[to..];
    assert rest == rest[..to] + rest[to..];
  }

  /** Where every element of the new list came from: positions between the
      two indices shift by one toward the drag origin, the others stay. */
  lemma MoveIndexMap<T>(s: seq<T>, from: nat, to: nat, k: nat)
    requires from < |s| && to < |s| && k < |s|
    ensures |Move(s, from, to)| == |s|
    ensures k == to ==> Move(s, from, to)[k] == s[from]
    ensures k != to && (k < from || from == to) && k < to ==> Move(s, from, to)[k] == s[k]
    ensures from < to && from <= k < to ==> Move(s, from, to)[k] == s[k + 1]
    ensures to < from && to < k <= from ==> Move(s, from, to)[k] == s[k - 1]
    ensures k > to && k > from ==> Move(s, from, to)[k] == s[k]
    ensures k < to && k < from ==> Move(s, from, to)[k] == s[k]
  {
    assert |SpliceRemove(s, from)| == |s| - 1;
  }

  /** Dropping an item onto its own index would change nothing, which is
      why the editor can skip that case. */
  lemma MoveOntoItselfIsIdentity<T>(s: seq<T>, i: nat)
    requires i < |s|
    ensures Move(s, i, i) == s
  {
    assert s == s[..i] + [s[i]] + s[i + 1..];
    assert SpliceRemove(s, i)[..i] == s[..i];
    assert SpliceRemove(s, i)[i..] == s[i + 1..];
  }

  /** The id sequence the editor submits when it commits the order. */
  function Ids(s: seq<Service>): (r: seq<Id>)
    ensures |r| == |s|
    ensures forall k :: 0 <= k < |s| ==> r[k] == s[k].id
  {
    seq(|s|, k requires 0 <= k < |s| => s[k].id)
  }

  lemma IdsOfSpliceRemove(s: seq<Service>, i: nat)
    requires i < |s|
    ensures Ids(SpliceRemove(s, i)) == SpliceRemove(Ids(s), i)
  {
    var a, b := Ids(SpliceRemove(s, i)), SpliceRemove(Ids(s), i);
    assert |a| == |b|;
    forall k | 0 <= k < |a| ensures a[k] == b[k] {
      if k < i { assert SpliceRemove(s, i)[k] == s[k]; } else { assert SpliceRemove(s, i)[k] == s[k + 1]; }
    }
  }

  lemma IdsOfSpliceInsert(s: seq<Service>, p: nat, x: Service)
    requires p <= |s|
    ensures Ids(SpliceInsert(s, p, x)) == SpliceInsert(Ids(s), p, x.id)
  {
    var t := SpliceInsert(s, p, x);
    var ids := Ids(s);
    assert t == s[..p] + [x] + s[p..];
    var b := ids[..p] + [x.id] + ids[p..];
    assert SpliceInsert(ids, p, x.id) == b;
    var a := Ids(t);
    forall k | 0 <= k < |a| ensures a[k] == b[k] {
      if k < p { assert t[k] == s[k]; }
      else if k == p { assert t[k] == x; }
      else { assert t[k] == s[k - 1]; }
    }
    assert a == b;
  }

  /** Submitting after a move submits the moved id sequence. */
  lemma IdsOfMove(s: seq<Service>, from: nat, to: nat)
    requires from < |s| && to < |s|
    ensures Ids(Move(s, from, to)) == Move(Ids(s), from, to)
  {
    IdsOfSpliceRemove(s, from);
    IdsOfSpliceInsert(SpliceRemove(s, from), to, s[from]);
  }

  /** Position of the first occurrence of `x` in `ids`. */
  function IndexOf(ids: seq<Id>, x: Id): (r: nat)
    requires x in ids
    ensures r < |ids| && ids[r] == x
    ensures forall j :: 0 <= j < r ==> ids[j] != x
  {
    if ids[0] == x then 0 else 1 + IndexOf(ids[1..], x)
  }

  predicate Distinct(ids: seq<Id>)
  {
    forall i, j :: 0 <= i < j < |ids| ==> ids[i] != ids[j]
  }

  /** The store after the bulk reorder: each listed id gets its position in
      the submitted sequence as its order index; unlisted services keep
      theirs. */
  function Reordered(store: map<Id, Service>, ids: seq<Id>): (r: map<Id, Service>)
    ensures r.Keys == store.Keys
    ensures forall id :: id in store && id !in ids ==> r[id] == store[id]
    ensures forall id :: id in store && id in ids ==> r[id].(orderIndex := store[id].orderIndex) == store[id]
  {
    map id | id in store :: if id in ids then store[id].(orderIndex := IndexOf(ids, id)) else store[id]
  }

  /** With distinct ids, the committed order gives the service at position
      k the order index k, and a service that was not submitted keeps its
      record. */
  lemma ReorderedAssignsPositions(store: map<Id, Service>, ids: seq<Id>, k: nat)
    requires Distinct(ids) && k < |ids| && ids[k] in store
    ensures Reordered(store, ids)[ids[k]] == store[ids[k]].(orderIndex := k)
    ensures forall id :: id in store && id !in ids ==> Reordered(store, ids)[id] == store[id]
  {
  }

  class ServicesReorderEditor {
    /** Local working copy of the list, in display order. */
    var services: seq<Service>
    /** Index in `services` of the item being dragged. */
    var draggedItem: Option<nat>
    var hasChanges: bool
    var saving: bool
    /** Id of the service whose visibility write is in flight. */
    var togglingVisibility: Option<Id>
    /** The remote services collection. */
    var store: map<Id, Service>

    constructor (remote: map<Id, Service>)
      ensures services == [] && draggedItem == None
      ensures !hasChanges && !saving && togglingVisibility == None
      ensures store == remote
    {
      services, draggedItem := [], None;
      hasChanges, saving := false, false;
      togglingVisibility := None;
      store := remote;
    }

    /** The effect that runs whenever the fetched list changes: the working
        copy is replaced and any pending order is discarded. */
    method Refresh(fetched: seq<Service>)
      modifies this`services, this`hasChanges
      ensures services == fetched && !hasChanges && !SaveButtonShown()
    {
      services := fetched;
      hasChanges := false;
    }

    method DragStart(index: nat)
      requires index < |services|
      modifies this`draggedItem
      ensures draggedItem == Some(index)
    {
      draggedItem := Some(index);
    }

    /** Dropping onto the item rendered at `dropIndex`. */
    method Drop(dropIndex: nat)
      requires dropIndex < |services|
      requires draggedItem.Some? ==> draggedItem.value < |services|
      modifies this`services, this`draggedItem, this`hasChanges
      ensures draggedItem == None
      ensures old(draggedItem) == None || old(draggedItem) == Some(dropIndex) ==>
        services == old(services) && hasChanges == old(hasChanges)
      ensures old(draggedItem).Some? && old(draggedItem).value != dropIndex ==>
        && services == Move(old(services), old(draggedItem).value, dropIndex)
        && |services| == |old(services)|
        && multiset(services) == multiset(old(services))
        && services[dropIndex] == old(services)[old(draggedItem).value]
        && SpliceRemove(services, dropIndex) == SpliceRemove(old(services), old(draggedItem).value)
        && hasChanges && SaveButtonShown()
    {
      if draggedItem == None || draggedItem == Some(dropIndex) {
        draggedItem := None;
        return;
      }
      var from := draggedItem.value;
      var newServices := services;
      var draggedService := newServices[from];
      newServices := SpliceRemove(newServices, from);
      newServices := SpliceInsert(newServices, dropIndex, draggedService);
      MoveIsPermutation(services, from, dropIndex);
      MoveLandsAtDropIndex(services, from, dropIndex);
      MoveKeepsOthersInOrder(services, from, dropIndex);
      services := newServices;
      draggedItem := None;
      hasChanges := true;
    }

    /** Writes the negation of the displayed flag for that service only.
        A successful refetch reaches this editor as a later `Refresh`. */
    method ToggleVisibility(serviceId: Id, currentVisibility: bool, writeOk: bool)
      modifies this`store, this`togglingVisibility
      ensures togglingVisibility == None
      ensures store == if writeOk then SetServiceVisible(old(store), serviceId, !currentVisibility) else old(store)
    {
      togglingVisibility := Some(serviceId);
      if writeOk {
        store := SetServiceVisible(store, serviceId, !currentVisibility);
      }
      togglingVisibility := None;
    }

    /** Commits the working order; `hasChanges` is cleared only when both
        the bulk write and the refetch succeed. */
    method SaveOrder(reorderOk: bool, refetchOk: bool) returns (orderedIds: seq<Id>)
      modifies this`store, this`hasChanges, this`saving
      ensures orderedIds == Ids(services)
      ensures store == if reorderOk then Reordered(old(store), orderedIds) else old(store)
      ensures hasChanges == (old(hasChanges) && !(reorderOk && refetchOk))
      ensures reorderOk && refetchOk ==> !SaveButtonShown()
      ensures !(reorderOk && refetchOk) ==> SaveButtonShown() == old(SaveButtonShown())
      ensures !saving
    {
      saving := true;
      orderedIds := Ids(services);
      if reorderOk {
        store := Reordered(store, orderedIds);
        if refetchOk {
          hasChanges := false;
        }
      }
      saving := false;
    }

    /** The reorder editor's own "save order" button and unsaved-changes
        notice, shown from this editor's `hasChanges`. */
    function SaveButtonShown(): (r: bool)
      reads this
      ensures r <==> hasChanges
    {
      hasChanges
    }
  }
}
