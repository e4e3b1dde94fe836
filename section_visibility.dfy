/** The section visibility editor: a section's aggregate visibility over
    its content blocks, and the bulk toggle that writes the negated
    aggregate to every block of that section. */
module SectionVisibility {
  import opened Records

  /** `content.filter(item => item.section === key)`, input order kept. */
  function SectionItems(content: seq<SiteContent>, key: string): (r: seq<SiteContent>)
    ensures |r| <= |content|
    ensures forall x :: x in r ==> x in content && x.section == key
    ensures forall x :: x in content && x.section == key ==> x in r
  {
    if content == [] then []
    else
      var init := SectionItems(content[..|content| - 1], key);
      var last := content[|content| - 1];
      assert content == content[..|content| - 1] + [last];
      if last.section == key then init + [last] else init
  }

  /** `items.every(item => item.is_visible)`. */
  function AllVisible(items: seq<SiteContent>): (r: bool)
    ensures r <==> forall k :: 0 <= k < |items| ==> items[k].isVisible
  {
    if items == [] then true else items[0].isVisible && AllVisible(items[1..])
  }

  /** The editor's aggregate: a section with no blocks counts as visible,
      otherwise it is visible when all of its blocks are. */
  function SectionVisible(content: seq<SiteContent>, key: string): (r: bool)
    ensures SectionItems(content, key) == [] ==> r
    ensures r <==> forall x :: x in content && x.section == key ==> x.isVisible
  {
    var items := SectionItems(content, key);
    if |items| == 0 then true
    else
      assert forall x :: x in items <==> exists k :: 0 <= k < |items| && items[k] == x;
      AllVisible(items)
  }

  /** The content as it reads once every block of section `key` has the
      flag `v`. */
  function WithSectionVisibility(content: seq<SiteContent>, key: string, v: bool): (r: seq<SiteContent>)
    ensures |r| == |content|
    ensures forall k :: 0 <= k < |content| ==>
      r[k] == if content[k].section == key then content[k].(isVisible := v) else content[k]
  {
    seq(|content|, k requires 0 <= k < |content| =>
      if content[k].section == key then content[k].(isVisible := v) else content[k])
  }

  /** Toggling a non-empty section flips its aggregate; an empty section
      stays visible; the blocks of every other section are untouched. */
  lemma ToggleFlipsAggregate(content: seq<SiteContent>, key: string, other: string)
    requires other != key
    ensures var after := WithSectionVisibility(content, key, !SectionVisible(content, key));
      && (SectionItems(content, key) != [] ==> SectionVisible(after, key) == !SectionVisible(content, key))
      && (SectionItems(content, key) == [] ==> SectionVisible(after, key))
      && SectionItems(after, other) == SectionItems(content, other)
  {
    var v := !SectionVisible(content, key);
    var after := WithSectionVisibility(content, key, v);
    if SectionItems(content, key) != [] {
      var x := SectionItems(content, key)[0];
      assert x in content;
      var j :| 0 <= j < |content| && content[j] == x;
      assert after[j] in after && after[j].section == key && after[j].isVisible == v;
      forall y | y in after && y.section == key ensures y.isVisible == v {
        var i :| 0 <= i < |after| && after[i] == y;
      }
    } else {
      forall i | 0 <= i < |after| ensures after[i].section != key {
        assert content[i] in content;
      }
    }
    SectionItemsUnchanged(content, key, v, other);
  }

  lemma {:induction false} SectionItemsUnchanged(content: seq<SiteContent>, key: string, v: bool, other: string)
    requires other != key
    ensures SectionItems(WithSectionVisibility(content, key, v), other) == SectionItems(content, other)
  {
    if content != [] {
      var n := |content| - 1;
      var after := WithSectionVisibility(content, key, v);
      assert after[..n] == WithSectionVisibility(content[..n], key, v);
      SectionItemsUnchanged(content[..n], key, v, other);
    }
  }

  /** The visibility write of one content block. */
  function SetContentVisible(store: map<Id, SiteContent>, id: Id, v: bool): (r: map<Id, SiteContent>)
    ensures r.Keys == store.Keys
    ensures id in store ==> r[id] == store[id].(isVisible := v)
    ensures forall k :: k in store && k != id ==> r[k] == store[k]
  {
    Patch(store, id, (c: SiteContent) => c.(isVisible := v))
  }

  /** Some block among the first `n` was written successfully with this id. */
  ghost predicate Written(items: seq<SiteContent>, outcomes: seq<bool>, n: nat, id: Id)
    requires n <= |items| && n <= |outcomes|
  {
    exists k :: 0 <= k < n && items[k].id == id && outcomes[k]
  }

  /** The store after the first `n` writes of flag `v`: a block written
      successfully carries the flag, everything else is as before. */
  ghost predicate WrittenSoFar(before: map<Id, SiteContent>, store: map<Id, SiteContent>,
                               items: seq<SiteContent>, outcomes: seq<bool>, n: nat, v: bool)
    requires n <= |items| && n <= |outcomes|
  {
    && store.Keys == before.Keys
    && forall id :: id in store ==>
         store[id] == if Written(items, outcomes, n, id) then before[id].(isVisible := v) else before[id]
  }

  /** One more write keeps `WrittenSoFar`. */
  lemma WriteStep(before: map<Id, SiteContent>, store: map<Id, SiteContent>,
                  items: seq<SiteContent>, outcomes: seq<bool>, n: nat, v: bool)
    requires n < |items| && n < |outcomes|
    requires WrittenSoFar(before, store, items, outcomes, n, v)
    ensures WrittenSoFar(before, if outcomes[n] then SetContentVisible(store, items[n].id, v) else store,
                         items, outcomes, n + 1, v)
  {
    var store' := if outcomes[n] then SetContentVisible(store, items[n].id, v) else store;
    forall id | id in store'
      ensures store'[id] == if Written(items, outcomes, n + 1, id) then before[id].(isVisible := v) else before[id]
    {
      if Written(items, outcomes, n, id) {
        var k :| 0 <= k < n && items[k].id == id && outcomes[k];
        assert 0 <= k < n + 1;
      }
      if outcomes[n] && items[n].id == id {
        assert 0 <= n < n + 1 && items[n].id == id && outcomes[n];
      }
    }
  }

  /** `store` holds exactly the blocks of `content`, which have distinct ids. */
  ghost predicate Snapshot(store: map<Id, SiteContent>, content: seq<SiteContent>)
  {
    && (forall i, j :: 0 <= i < j < |content| ==> content[i].id != content[j].id)
    && (forall k :: 0 <= k < |content| ==> content[k].id in store && store[content[k].id] == content[k])
  }

  class SectionVisibilityEditor {
    /** The blocks as last fetched, hidden ones included. */
    var content: seq<SiteContent>
    /** The key of the section whose toggle is in flight. */
    var saving: Option<string>
    /** The remote site-content collection. */
    var store: map<Id, SiteContent>

    constructor (fetched: seq<SiteContent>, remote: map<Id, SiteContent>)
      ensures content == fetched && saving == None && store == remote
    {
      content, saving, store := fetched, None, remote;
    }

    /** The bulk toggle. The writes run concurrently in the source; here
        they run in list order, `outcomes[k]` telling whether the write
        of the k-th block of the section succeeded. */
    method ToggleSection(sectionKey: string, outcomes: seq<bool>)
      requires |outcomes| == |SectionItems(content, sectionKey)|
      modifies this`saving, this`store
      ensures saving == None
      ensures store.Keys == old(store).Keys
      ensures forall id :: id in store ==>
        store[id] == if Written(SectionItems(content, sectionKey), outcomes, |outcomes|, id)
                     then old(store)[id].(isVisible := !SectionVisible(content, sectionKey))
                     else old(store)[id]
      ensures old(Snapshot(store, content)) && (forall k :: 0 <= k < |outcomes| ==> outcomes[k]) ==>
        Snapshot(store, WithSectionVisibility(content, sectionKey, !SectionVisible(content, sectionKey)))
    {
      saving := Some(sectionKey);
      var items := SectionItems(content, sectionKey);
      var newVisibility := !SectionVisible(content, sectionKey);
      var i := 0;
      while i < |items|
        invariant 0 <= i <= |items|
        invariant saving == Some(sectionKey)
        invariant WrittenSoFar(old(store), store, items, outcomes, i, newVisibility)
      {
        WriteStep(old(store), store, items, outcomes, i, newVisibility);
        if outcomes[i] {
          store := SetContentVisible(store, items[i].id, newVisibility);
        }
        i := i + 1;
      }
      saving := None;
      if old(Snapshot(store, content)) && (forall k :: 0 <= k < |outcomes| ==> outcomes[k]) {
        AllWritesGiveToggledSnapshot(old(store), store, content, sectionKey, outcomes, newVisibility);
      }
    }
  }

  /** When the store held the editor's content and every write of flag `v`
      succeeded, the store afterwards holds the content with the section
      set to `v`. */
  lemma AllWritesGiveToggledSnapshot(before: map<Id, SiteContent>, after: map<Id, SiteContent>,
                                     content: seq<SiteContent>, key: string, outcomes: seq<bool>, v: bool)
    requires Snapshot(before, content)
    requires |outcomes| == |SectionItems(content, key)|
    requires forall k :: 0 <= k < |outcomes| ==> outcomes[k]
    requires after.Keys == before.Keys
    requires forall id :: id in after ==>
      after[id] == if Written(SectionItems(content, key), outcomes, |outcomes|, id)
                   then before[id].(isVisible := v)
                   else before[id]
    ensures Snapshot(after, WithSectionVisibility(content, key, v))
  {
    var toggled := WithSectionVisibility(content, key, v);
    forall j | 0 <= j < |content|
      ensures content[j].id in after && after[content[j].id] == toggled[j]
    {
      WrittenIffInSection(content, key, outcomes, j);
    }
  }

  /** With distinct ids and every write successful, a block's id was
      written exactly when the block belongs to the section. */
  lemma WrittenIffInSection(content: seq<SiteContent>, key: string, outcomes: seq<bool>, j: nat)
    requires forall i, j :: 0 <= i < j < |content| ==> content[i].id != content[j].id
    requires |outcomes| == |SectionItems(content, key)|
    requires forall k :: 0 <= k < |outcomes| ==> outcomes[k]
    requires j < |content|
    ensures Written(SectionItems(content, key), outcomes, |outcomes|, content[j].id) <==> content[j].section == key
  {
    var items := SectionItems(content, key);
    var id := content[j].id;
    if content[j].section == key {
      assert content[j] in items;
      var k :| 0 <= k < |items| && items[k] == content[j];
      assert items[k].id == id && outcomes[k];
    } else {
      forall k | 0 <= k < |items| ensures items[k].id != id {
        assert items[k] in items;
        var j' :| 0 <= j' < |content| && content[j'] == items[k];
        assert j' != j;
      }
    }
  }
}
