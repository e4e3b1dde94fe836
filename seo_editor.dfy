/** The SEO editor for the home page: a four-field form synchronised from
    the stored metadata, a pending-changes flag, and a save that updates the
    stored record or creates the first one. */
module SeoEditing {
  import opened Records

  /** The form: every tag as a plain string. */
  datatype SeoForm = SeoForm(metaTitle: string, metaDescription: string, metaKeywords: string, ogImageUrl: string)

  const EmptyForm := SeoForm("", "", "", "")

  datatype SeoField = MetaTitle | MetaDescription | MetaKeywords | OgImageUrl

  /** `value || ''`: an absent tag reads as the empty string. */
  function OrEmpty(v: Option<string>): (r: string)
    ensures v.Some? ==> r == v.value
    ensures v.None? ==> r == ""
  {
    if v.Some? then v.value else ""
  }

  /** The form the sync effect fills from stored metadata. */
  function FromMetadata(m: SeoMetadata): (r: SeoForm)
    ensures r.metaTitle == OrEmpty(m.metaTitle) && r.metaDescription == OrEmpty(m.metaDescription)
    ensures r.metaKeywords == OrEmpty(m.metaKeywords) && r.ogImageUrl == OrEmpty(m.ogImageUrl)
  {
    SeoForm(OrEmpty(m.metaTitle), OrEmpty(m.metaDescription), OrEmpty(m.metaKeywords), OrEmpty(m.ogImageUrl))
  }

  function Get(form: SeoForm, field: SeoField): string
  {
    match field
    case MetaTitle => form.metaTitle
    case MetaDescription => form.metaDescription
    case MetaKeywords => form.metaKeywords
    case OgImageUrl => form.ogImageUrl
  }

  /** `{...prev, [field]: value}`: the named field takes the value, the
      others keep theirs. */
  function WithField(form: SeoForm, field: SeoField, value: string): (r: SeoForm)
    ensures Get(r, field) == value
    ensures forall f :: f != field ==> Get(r, f) == Get(form, f)
  {
    match field
    case MetaTitle => form.(metaTitle := value)
    case MetaDescription => form.(metaDescription := value)
    case MetaKeywords => form.(metaKeywords := value)
    case OgImageUrl => form.(ogImageUrl := value)
  }

  /** The four stored tags a save writes from the form. */
  function WithForm(m: SeoMetadata, form: SeoForm): (r: SeoMetadata)
    ensures r.id == m.id && r.pageName == m.pageName
    ensures FromMetadata(r) == form
  {
    m.(metaTitle := Some(form.metaTitle), metaDescription := Some(form.metaDescription),
       metaKeywords := Some(form.metaKeywords), ogImageUrl := Some(form.ogImageUrl))
  }

  /** The record `createSeoMetadata` stores: the home page with the form's tags. */
  function NewHomeMetadata(id: Id, form: SeoForm): (r: SeoMetadata)
    ensures r.id == id && r.pageName == "home" && FromMetadata(r) == form
  {
    WithForm(SeoMetadata(id, "home", None, None, None, None), form)
  }

  /** Saving a form and syncing it back gives the same form: the sync
      loses nothing a save wrote. */
  lemma SaveThenSyncRoundTrip(m: SeoMetadata, form: SeoForm, f: SeoField, v: string)
    ensures FromMetadata(WithForm(m, WithField(form, f, v))) == WithField(form, f, v)
    ensures Get(FromMetadata(WithForm(m, WithField(form, f, v))), f) == v
  {
  }

  /** The counters turn red above 60 and 160 characters. */
  function TitleTooLong(form: SeoForm): (r: bool)
    ensures r <==> |form.metaTitle| > 60
  {
    |form.metaTitle| > 60
  }

  function DescriptionTooLong(form: SeoForm): (r: bool)
    ensures r <==> |form.metaDescription| > 160
  {
    |form.metaDescription| > 160
  }

  /** Each counter follows its own field only: typing into the title sets
      the title flag by the typed length alone (so a value within the
      input's 60-character limit never flags) and leaves the description
      flag, and the other way round; a synced form flags exactly the stored
      tags that are too long. */
  lemma CountersTrackTheirField(form: SeoForm, f: SeoField, v: string, m: SeoMetadata)
    ensures f == MetaTitle ==> (TitleTooLong(WithField(form, f, v)) <==> |v| > 60)
    ensures f != MetaTitle ==> TitleTooLong(WithField(form, f, v)) == TitleTooLong(form)
    ensures f == MetaDescription ==> (DescriptionTooLong(WithField(form, f, v)) <==> |v| > 160)
    ensures f != MetaDescription ==> DescriptionTooLong(WithField(form, f, v)) == DescriptionTooLong(form)
    ensures TitleTooLong(FromMetadata(m)) <==> m.metaTitle.Some? && |m.metaTitle.value| > 60
    ensures DescriptionTooLong(FromMetadata(m)) <==> m.metaDescription.Some? && |m.metaDescription.value| > 160
  {
    assert Get(WithField(form, f, v), MetaTitle) == WithField(form, f, v).metaTitle;
    assert Get(WithField(form, f, v), MetaDescription) == WithField(form, f, v).metaDescription;
  }

  const PreviewTitlePlaceholder := "Título de tu página"
  const PreviewDescriptionPlaceholder := "Descripción de tu página que aparecerá en los resultados de búsqueda..."

  /** The search-result preview: the form's text, or placeholder text
      when a field is empty. */
  function PreviewTitle(form: SeoForm): (r: string)
    ensures form.metaTitle != "" ==> r == form.metaTitle
    ensures form.metaTitle == "" ==> r == PreviewTitlePlaceholder
    ensures r != ""
  {
    if form.metaTitle != "" then form.metaTitle else PreviewTitlePlaceholder
  }

  function PreviewDescription(form: SeoForm): (r: string)
    ensures form.metaDescription != "" ==> r == form.metaDescription
    ensures form.metaDescription == "" ==> r == PreviewDescriptionPlaceholder
    ensures r != ""
  {
    if form.metaDescription != "" then form.metaDescription else PreviewDescriptionPlaceholder
  }

  /** `updateSeoMetadata(id, formData)`. */
  function UpdateTags(store: map<Id, SeoMetadata>, id: Id, form: SeoForm): (r: map<Id, SeoMetadata>)
    ensures r.Keys == store.Keys
    ensures id in store ==> r[id] == WithForm(store[id], form)
    ensures forall k :: k in store && k != id ==> r[k] == store[k]
  {
    Patch(store, id, (m: SeoMetadata) => WithForm(m, form))
  }

  class SeoEditor {
    /** The home page's metadata as last delivered by the fetch hook. */
    var metadata: Option<SeoMetadata>
    var formData: SeoForm
    var saving: bool
    var hasChanges: bool
    /** The remote SEO collection. */
    var store: map<Id, SeoMetadata>

    constructor (remote: map<Id, SeoMetadata>)
      ensures metadata == None && formData == EmptyForm && !saving && !hasChanges && store == remote
    {
      metadata, formData := None, EmptyForm;
      saving, hasChanges, store := false, false, remote;
    }

    /** The effect that runs when the delivered metadata changes: a record
        refills the whole form; no record leaves the form alone. Neither
        touches `hasChanges`. */
    method Sync(delivered: Option<SeoMetadata>)
      modifies this`metadata, this`formData
      ensures metadata == delivered
      ensures delivered.Some? ==> formData == FromMetadata(delivered.value)
      ensures delivered.None? ==> formData == old(formData)
      ensures SaveButtonShown() == old(SaveButtonShown())
    {
      metadata := delivered;
      if delivered.Some? {
        formData := FromMetadata(delivered.value);
      }
    }

    method InputChange(field: SeoField, value: string)
      modifies this`formData, this`hasChanges
      ensures formData == WithField(old(formData), field, value)
      ensures Get(formData, field) == value
      ensures forall f :: f != field ==> Get(formData, f) == Get(old(formData), f)
      ensures hasChanges && SaveButtonShown()
    {
      formData := WithField(formData, field, value);
      hasChanges := true;
    }

    /** Saves the form: an update of the delivered record when there is
        one, else a create of the home page's record under `newId`, the fresh
        id the store assigns.
        `writeOk` and `refetchOk` say whether the write and the awaited
        refetch returned normally. */
    method Save(writeOk: bool, refetchOk: bool, newId: Id)
      requires newId !in store
      modifies this`saving, this`hasChanges, this`store
      ensures !saving
      ensures hasChanges == (old(hasChanges) && !(writeOk && refetchOk))
      ensures writeOk && refetchOk ==> !SaveButtonShown()
      ensures !writeOk ==> store == old(store)
      ensures writeOk && metadata.Some? ==> store == UpdateTags(old(store), metadata.value.id, formData)
      ensures writeOk && metadata.None? ==> store == old(store)[newId := NewHomeMetadata(newId, formData)]
    {
      saving := true;
      if writeOk {
        if metadata.Some? {
          store := UpdateTags(store, metadata.value.id, formData);
        } else {
          store := store[newId := NewHomeMetadata(newId, formData)];
        }
        if refetchOk {
          hasChanges := false;
        }
      }
      saving := false;
    }

    /** The SEO editor's own save button, shown from this editor's
        `hasChanges` only while there are unsaved changes. */
    function SaveButtonShown(): (r: bool)
      reads this
      ensures r <==> hasChanges
    {
      hasChanges
    }
  }
}
