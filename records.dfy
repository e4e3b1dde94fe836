/** Entities the site keeps in its hosted store, and the shape of a remote
    collection: a map from record id to record. Every write to a collection
    either succeeds or throws; the outcome is an input to the model. */
module Records {

  type Id = string

  datatype Option<+T> = None | Some(value: T)

  /** A block of page copy belonging to a named section ("hero", "about", ...). */
  datatype SiteContent = SiteContent(
    id: Id,
    section: string,
    title: string,
    content: string,
    orderIndex: int,
    isVisible: bool)

  /** An offered service; `orderIndex` gives its place on the public page. */
  datatype Service = Service(
    id: Id,
    title: string,
    description: string,
    icon: string,
    orderIndex: int,
    isVisible: bool)

  /** One contact field ("email", "phone", "whatsapp", ...) and its value. */
  datatype ContactInfo = ContactInfo(
    id: Id,
    fieldName: string,
    fieldValue: string,
    fieldType: string,
    isVisible: bool)

  /** Search-engine tags of one page; every tag may be absent (null). */
  datatype SeoMetadata = SeoMetadata(
    id: Id,
    pageName: string,
    metaTitle: Option<string>,
    metaDescription: Option<string>,
    metaKeywords: Option<string>,
    ogImageUrl: Option<string>)

  /** The banner an editor shows after a save. */
  datatype Message = Success(text: string) | Error(text: string)

  /** An update of the row with key `id`: the store changes that row only,
      and a key with no row makes the update a no-op (the store filters by
      id and touches nothing). */
  function Patch<R>(store: map<Id, R>, id: Id, f: R -> R): (r: map<Id, R>)
    ensures r.Keys == store.Keys
    ensures id in store ==> r[id] == f(store[id])
    ensures forall k :: k in store && k != id ==> r[k] == store[k]
  {
    if id in store then store[id := f(store[id])] else store
  }

  /** `updateService(id, {is_visible: v})`: the visibility flag of that
      service only. */
  function SetServiceVisible(store: map<Id, Service>, id: Id, v: bool): (r: map<Id, Service>)
    ensures r.Keys == store.Keys
    ensures id in store ==> r[id] == store[id].(isVisible := v)
    ensures forall k :: k in store && k != id ==> r[k] == store[k]
  {
    Patch(store, id, (s: Service) => s.(isVisible := v))
  }
}
