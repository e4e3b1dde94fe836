/** The site-content editor: the blocks grouped by section for display,
    and an edit buffer for one block's title and text. */
module ContentEditing {
  import opened Records
  import opened SectionVisibility

  /** Filtering distributes over concatenation, so the blocks of a section
      keep their relative order from the input. */
  lemma {:induction false} SectionItemsOfAppend(a: seq<SiteContent>, b: seq<SiteContent>, key: string)
    ensures SectionItems(a + b, key) == SectionItems(a, key) + SectionItems(b, key)
  {
    if b != [] {
      var n := |b| - 1;
      assert (a + b)[..|a + b| - 1] == a + b[..n];
      SectionItemsOfAppend(a, b[..n], key);
    } else {
      assert a + b == a;
    }
  }

  /** The distinct sections of `content`, in order of first appearance:
      the key order of the accumulator object. */
  function SectionKeys(content: seq<SiteContent>): (r: seq<string>)
    ensures forall i, j :: 0 <= i < j < |r| ==> r[i] != r[j]
    ensures forall x :: x in content ==> x.section in r
    ensures forall k :: k in r ==> SectionItems(content, k) != []
    ensures forall k :: k !in r ==> SectionItems(content, k) == []
  {
    if content == [] then []
    else
      var init := content[..|content| - 1];
      var last := content[|content| - 1];
      var ks := SectionKeys(init);
      forall k ensures SectionItems(content, k) == SectionItems(init, k) + SectionItems([last], k) {
        ItemsStep(init, last, k);
      }
      if last.section in ks then ks else ks + [last.section]
  }

  /** Appending a block extends its own section's items and no other. */
  lemma ItemsStep(prefix: seq<SiteContent>, item: SiteContent, k: string)
    ensures prefix + [item] != []
    ensures SectionItems(prefix + [item], k) == SectionItems(prefix, k) + SectionItems([item], k)
    ensures SectionItems([item], k) == if item.section == k then [item] else []
  {
    SectionItemsOfAppend(prefix, [item], k);
  }

  lemma KeysStep(prefix: seq<SiteContent>, item: SiteContent)
    ensures SectionKeys(prefix + [item]) ==
      if item.section in SectionKeys(prefix) then SectionKeys(prefix) else SectionKeys(prefix) + [item.section]
  {
    assert (prefix + [item])[..|prefix + [item]| - 1] == prefix;
  }

  /** `groups` holds, under exactly the keys `keys`, each section's blocks of
      `prefix`, and the keys are the sections of `prefix` in order of first
      appearance. */
  ghost predicate Grouped(prefix: seq<SiteContent>, keys: seq<string>, groups: map<string, seq<SiteContent>>)
  {
    && keys == SectionKeys(prefix)
    && (forall k :: k in groups <==> k in keys)
    && (forall k :: k in groups ==> groups[k] == SectionItems(prefix, k))
  }

  /** One step of the `reduce`. */
  lemma GroupStep(prefix: seq<SiteContent>, item: SiteContent, keys: seq<string>, groups: map<string, seq<SiteContent>>)
    requires Grouped(prefix, keys, groups)
    ensures var keys' := if item.section in groups then keys else keys + [item.section];
      var groups' := groups[item.section := (if item.section in groups then groups[item.section] else []) + [item]];
      Grouped(prefix + [item], keys', groups')
  {
    KeysStep(prefix, item);
    var groups' := groups[item.section := (if item.section in groups then groups[item.section] else []) + [item]];
    forall k | k in groups' ensures groups'[k] == SectionItems(prefix + [item], k) {
      ItemsStep(prefix, item, k);
    }
  }

  lemma TakeOneMore<T>(s: seq<T>, i: nat)
    requires i < |s|
    ensures s[..i + 1] == s[..i] + [s[i]]
  {
  }

  /** The `reduce` that groups blocks by section: a new section gets an
      empty list, then the block is pushed onto its section's list. */
  method GroupBySection(content: seq<SiteContent>) returns (keys: seq<string>, groups: map<string, seq<SiteContent>>)
    ensures keys == SectionKeys(content)
    ensures forall k :: k in groups <==> k in keys
    ensures forall k :: k in groups ==> groups[k] == SectionItems(content, k) && groups[k] != []
    ensures forall x :: x in content ==> x.section in groups && x in groups[x.section]
    ensures forall k, x :: k in groups && x in groups[k] ==> x in content && x.section == k
  {
    keys, groups := [], map[];
    ghost var prefix: seq<SiteContent> := [];
    var i := 0;
    while i < |content|
      invariant 0 <= i <= |content|
      invariant prefix == content[..i]
      invariant Grouped(prefix, keys, groups)
    {
      var item := content[i];
      TakeOneMore(content, i);
      GroupStep(prefix, item, keys, groups);
      if item.section !in groups {
        groups := groups[item.section := []];
        keys := keys + [item.section];
      }
      groups := groups[item.section := groups[item.section] + [item]];
      prefix := prefix + [item];
      i := i + 1;
    }
    assert prefix == content;
    GroupedGivesGroups(content, keys, groups);
  }

  lemma GroupedGivesGroups(content: seq<SiteContent>, keys: seq<string>, groups: map<string, seq<SiteContent>>)
    requires Grouped(content, keys, groups)
    ensures forall k :: k in groups ==> groups[k] == SectionItems(content, k) && groups[k] != []
    ensures forall x :: x in content ==> x.section in groups && x in groups[x.section]
    ensures forall k, x :: k in groups && x in groups[k] ==> x in content && x.section == k
  {
  }


  /** Sum of the group sizes over a list of keys. */
  function GroupSizes(content: seq<SiteContent>, keys: seq<string>): nat
  {
    if keys == [] then 0
    else GroupSizes(content, keys[..|keys| - 1]) + |SectionItems(content, keys[|keys| - 1])|
  }

  lemma {:induction false} GroupSizesAppendItem(content: seq<SiteContent>, x: SiteContent, keys: seq<string>)
    requires forall i, j :: 0 <= i < j < |keys| ==> keys[i] != keys[j]
    ensures GroupSizes(content + [x], keys) == GroupSizes(content, keys) + (if x.section in keys then 1 else 0)
  {
    if keys != [] {
      var init := keys[..|keys| - 1];
      var last := keys[|keys| - 1];
      assert keys == init + [last];
      GroupSizesAppendItem(content, x, init);
      SectionItemsOfAppend(content, [x], last);
      assert x.section in keys <==> x.section in init || x.section == last;
      assert last !in init;
    }
  }

  /** The groups partition the content: their sizes add up to the number of
      blocks, so no block is lost or counted twice. */
  lemma {:induction false} GroupsPartitionContent(content: seq<SiteContent>)
    ensures GroupSizes(content, SectionKeys(content)) == |content|
  {
    if content != [] {
      var init := content[..|content| - 1];
      var last := content[|content| - 1];
      assert content == init + [last];
      var ks := SectionKeys(init);
      GroupsPartitionContent(init);
      GroupSizesAppendItem(init, last, ks);
      if last.section !in ks {
        var ks' := ks + [last.section];
        assert ks'[..|ks'| - 1] == ks;
        GroupSizesAppendItem(init, last, ks');
        SectionItemsOfAppend(init, [last], last.section);
      }
    }
  }

  /** The heading of a group: the known section's display name, else the
      raw section key. */
  function SectionName(key: string): (r: string)
    ensures key !in {"hero", "about", "contact"} ==> r == key
    ensures key in {"hero", "about", "contact"} ==> r != key && r != ""
  {
    match key
    case "hero" => "Sección Principal (Hero)"
    case "about" => "Sobre Mí"
    case "contact" => "Contacto"
    case _ => key
  }

  const UpdatedText := "Contenido actualizado exitosamente"
  const UpdateErrorText := "Error al actualizar el contenido"

  /** `updateSiteContent(id, {title, content})`: the two text fields change;
      section, order and visibility stay. */
  function UpdateText(store: map<Id, SiteContent>, id: Id, title: string, text: string): (r: map<Id, SiteContent>)
    ensures r.Keys == store.Keys
    ensures id in store ==> r[id] == store[id].(title := title, content := text)
    ensures forall k :: k in store && k != id ==> r[k] == store[k]
  {
    Patch(store, id, (c: SiteContent) => c.(title := title, content := text))
  }

  class ContentEditor {
    var editingId: Option<Id>
    var editTitle: string
    var editContent: string
    var saving: bool
    var message: Option<Message>
    /** The remote site-content collection. */
    var store: map<Id, SiteContent>

    constructor (remote: map<Id, SiteContent>)
      ensures editingId == None && editTitle == "" && editContent == ""
      ensures !saving && message == None && store == remote
    {
      editingId, editTitle, editContent := None, "", "";
      saving, message, store := false, None, remote;
    }

    predicate HasEditTarget()
      reads this
    {
      editingId.Some? && editingId.value != ""
    }

    method StartEditing(item: SiteContent)
      modifies this`editingId, this`editTitle, this`editContent, this`message
      ensures editingId == Some(item.id) && editTitle == item.title && editContent == item.content
      ensures message == None
    {
      editingId := Some(item.id);
      editTitle, editContent := item.title, item.content;
      message := None;
    }

    method CancelEditing()
      modifies this`editingId, this`editTitle, this`editContent, this`message
      ensures editingId == None && editTitle == "" && editContent == "" && message == None
    {
      editingId := None;
      editTitle, editContent := "", "";
      message := None;
    }

    /** The title input's change handler: the text stays. */
    method EditTitle(v: string)
      modifies this`editTitle
      ensures editTitle == v
    {
      editTitle := v;
    }

    /** The content textarea's change handler: the title stays. */
    method EditContent(v: string)
      modifies this`editContent
      ensures editContent == v
    {
      editContent := v;
    }

    /** Saves the buffered title and text; `refetchOk` says whether the
        unawaited refetch call returned normally. */
    method SaveChanges(writeOk: bool, refetchOk: bool)
      modifies this`editingId, this`saving, this`message, this`store
      ensures !old(HasEditTarget()) ==>
        editingId == old(editingId) && saving == old(saving) && message == old(message) && store == old(store)
      ensures old(HasEditTarget()) ==> !saving
      ensures old(HasEditTarget()) && writeOk ==>
        && store == UpdateText(old(store), old(editingId).value, editTitle, editContent)
        && editingId == None
        && message == Some(if refetchOk then Success(UpdatedText) else Error(UpdateErrorText))
      ensures old(HasEditTarget()) && !writeOk ==>
        store == old(store) && editingId == old(editingId) && message == Some(Error(UpdateErrorText))
    {
      if !HasEditTarget() {
        return;
      }
      saving := true;
      if writeOk {
        store := UpdateText(store, editingId.value, editTitle, editContent);
        message := Some(Success(UpdatedText));
        editingId := None;
        if !refetchOk {
          message := Some(Error(UpdateErrorText));
        }
      } else {
        message := Some(Error(UpdateErrorText));
      }
      saving := false;
    }
  }
}
