/** The public home page: which blocks it renders. A content section is
    shown when at least one of its blocks is visible; header, services and
    footer are always shown. */
module HomePage {
  import opened Records
  import opened SectionVisibility

  /** `items.some(item => item.is_visible)`. */
  function AnyVisible(items: seq<SiteContent>): (r: bool)
    ensures r <==> exists k :: 0 <= k < |items| && items[k].isVisible
  {
    if items == [] then false else items[0].isVisible || AnyVisible(items[1..])
  }

  datatype Block = Header | Hero | About | Services | Contact | Footer

  /** The blocks of the page in order, given the blocks fetched for the
      hero, about and contact sections. */
  function Rendered(hero: seq<SiteContent>, about: seq<SiteContent>, contact: seq<SiteContent>): (r: seq<Block>)
    ensures 3 <= |r| <= 6 && r[0] == Header && r[|r| - 1] == Footer
  {
    [Header]
    + (if AnyVisible(hero) then [Hero] else [])
    + (if AnyVisible(about) then [About] else [])
    + [Services]
    + (if AnyVisible(contact) then [Contact] else [])
    + [Footer]
  }

  /** Each content section appears iff one of its blocks is visible; the
      page always starts with the header, ends with the footer and holds
      the services block. */
  lemma RenderedBlocks(hero: seq<SiteContent>, about: seq<SiteContent>, contact: seq<SiteContent>)
    ensures var r := Rendered(hero, about, contact);
      && (Hero in r <==> exists k :: 0 <= k < |hero| && hero[k].isVisible)
      && (About in r <==> exists k :: 0 <= k < |about| && about[k].isVisible)
      && (Contact in r <==> exists k :: 0 <= k < |contact| && contact[k].isVisible)
      && r[0] == Header && r[|r| - 1] == Footer && Services in r
  {
    var r := Rendered(hero, about, contact);
    var h := if AnyVisible(hero) then [Hero] else [];
    var a := if AnyVisible(about) then [About] else [];
    var c := if AnyVisible(contact) then [Contact] else [];
    assert r == [Header] + h + a + [Services] + c + [Footer];
    assert Hero in r <==> Hero in h;
    assert About in r <==> About in a;
    assert Contact in r <==> Contact in c;
  }

  /** A section whose fetch returned no blocks is left off the page. */
  lemma EmptySectionNotRendered(about: seq<SiteContent>, contact: seq<SiteContent>)
    ensures Hero !in Rendered([], about, contact)
  {
    RenderedBlocks([], about, contact);
  }

  /** The page's rule ("some block visible") against the editor's rule
      ("every block visible, or no blocks"), for the blocks of one section:
      they agree on a non-empty section whose blocks share one flag, differ
      on a mixed one (shown by the page, reported hidden by the editor) and
      on an empty one (hidden by the page, reported visible by the editor). */
  lemma PageAgainstEditor(content: seq<SiteContent>, key: string)
    ensures var items := SectionItems(content, key);
      && (items != [] && (AllVisible(items) || !AnyVisible(items)) ==>
            AnyVisible(items) == SectionVisible(content, key))
      && (AnyVisible(items) && !AllVisible(items) ==>
            AnyVisible(items) && !SectionVisible(content, key))
      && (items == [] ==> !AnyVisible(items) && SectionVisible(content, key))
  {
    var items := SectionItems(content, key);
    assert SectionVisible(content, key) <==> AllVisible(items) by {
      forall x | x in items ensures x in content && x.section == key { }
      forall x | x in content && x.section == key ensures x in items { }
      assert (forall x :: x in items ==> x.isVisible) <==> AllVisible(items) by {
        assert forall k :: 0 <= k < |items| ==> items[k] in items;
      }
    }
    if items != [] && AllVisible(items) {
      assert items[0].isVisible;
    }
  }
}
