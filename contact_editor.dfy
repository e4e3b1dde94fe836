/** The contact-information editor: per-field tables (label, input type,
    placeholder), how a stored value is displayed, and an edit buffer for
    one field's value. */
module ContactEditing {
  import opened Records

  /** The seven field names the editors know. */
  const KnownFields: set<string> := {"email", "phone", "whatsapp", "linkedin", "twitter", "location", "availability"}

  /** `fieldLabels[name] || name`: the heading of a field, the raw field
      name when the table has no entry for it. */
  function FieldLabel(name: string): (r: string)
    ensures name !in KnownFields ==> r == name
    ensures name != "" ==> r != ""
  {
    match name
    case "email" => "Email"
    case "phone" => "Teléfono"
    case "whatsapp" => "WhatsApp"
    case "linkedin" => "LinkedIn"
    case "twitter" => "Twitter"
    case "location" => "Ubicación"
    case "availability" => "Horarios de Atención"
    case _ => name
  }

  /** The `type` attribute of the value input. */
  function FieldType(name: string): (r: string)
    ensures r in {"email", "tel", "url", "text"}
    ensures r == "email" <==> name == "email"
    ensures r == "tel" <==> name == "phone" || name == "whatsapp"
    ensures r == "url" <==> name == "linkedin" || name == "twitter"
  {
    match name
    case "email" => "email"
    case "phone" => "tel"
    case "whatsapp" => "tel"
    case "linkedin" => "url"
    case "twitter" => "url"
    case _ => "text"
  }

  /** The example value shown in an empty input; "" for unknown names. */
  function Placeholder(name: string): (r: string)
    ensures name !in KnownFields ==> r == ""
  {
    match name
    case "email" => "contacto@ejemplo.com"
    case "phone" => "+1 (555) 123-4567"
    case "whatsapp" => "+1 (555) 123-4567"
    case "linkedin" => "https://linkedin.com/in/usuario"
    case "twitter" => "https://twitter.com/usuario"
    case "location" => "Ciudad, País"
    case "availability" => "Lunes a Viernes: 9:00 AM - 6:00 PM"
    case _ => ""
  }

  /** The three tables agree on which names are known: exactly the known
      names have a placeholder and a label of their own, and only known
      names get an input type other than plain text. */
  lemma TablesAgreeOnKnownNames(name: string)
    ensures name in KnownFields <==> Placeholder(name) != ""
    ensures name in KnownFields <==> FieldLabel(name) != name
    ensures FieldType(name) != "text" ==> name in KnownFields
  {
    if name in KnownFields {
      assert name == "email" || name == "phone" || name == "whatsapp" || name == "linkedin"
        || name == "twitter" || name == "location" || name == "availability";
    }
  }

  /** How a stored value is shown outside edit mode. */
  datatype Shown = Anchor(href: string, newTab: bool, text: string) | PlainText(text: string)

  /** Display by the stored `field_type`: a URL links to itself in a new
      tab, an email and a phone link through `mailto:` and `tel:`, any other
      type is plain text. */
  function Display(fieldType: string, value: string): (r: Shown)
    ensures r.text == value
    ensures r.Anchor? <==> fieldType in {"url", "email", "phone"}
    ensures r.Anchor? ==> (r.newTab <==> fieldType == "url")
    ensures fieldType == "url" ==> r.href == value
    ensures fieldType == "email" ==> r.href == "mailto:" + value
    ensures fieldType == "phone" ==> r.href == "tel:" + value
    ensures r.Anchor? ==> |value| <= |r.href| && r.href[|r.href| - |value|..] == value
  {
    if fieldType == "url" then Anchor(value, true, value)
    else if fieldType == "email" then Anchor("mailto:" + value, false, value)
    else if fieldType == "phone" then Anchor("tel:" + value, false, value)
    else PlainText(value)
  }

  const UpdatedText := "Información de contacto actualizada exitosamente"
  const UpdateErrorText := "Error al actualizar la información de contacto"

  /** `updateContactInfo(id, {field_value})`: only the value changes. */
  function SetFieldValue(store: map<Id, ContactInfo>, id: Id, v: string): (r: map<Id, ContactInfo>)
    ensures r.Keys == store.Keys
    ensures id in store ==> r[id] == store[id].(fieldValue := v)
    ensures forall k :: k in store && k != id ==> r[k] == store[k]
  {
    Patch(store, id, (c: ContactInfo) => c.(fieldValue := v))
  }

  class ContactEditor {
    var editingId: Option<Id>
    /** The buffer `editData.field_value`. */
    var editValue: string
    var saving: bool
    var message: Option<Message>
    /** The remote contact-information collection. */
    var store: map<Id, ContactInfo>

    constructor (remote: map<Id, ContactInfo>)
      ensures editingId == None && editValue == "" && !saving && message == None && store == remote
    {
      editingId, editValue := None, "";
      saving, message, store := false, None, remote;
    }

    predicate HasEditTarget()
      reads this
    {
      editingId.Some? && editingId.value != ""
    }

    method StartEditing(item: ContactInfo)
      modifies this`editingId, this`editValue, this`message
      ensures editingId == Some(item.id) && editValue == item.fieldValue && message == None
    {
      editingId := Some(item.id);
      editValue := item.fieldValue;
      message := None;
    }

    method CancelEditing()
      modifies this`editingId, this`editValue, this`message
      ensures editingId == None && editValue == "" && message == None
    {
      editingId := None;
      editValue := "";
      message := None;
    }

    /** The input's change handler. */
    method EditValue(value: string)
      modifies this`editValue
      ensures editValue == value
    {
      editValue := value;
    }

    /** Saves the buffered value; `refetchOk` says whether the unawaited
        refetch call returned normally. */
    method SaveChanges(writeOk: bool, refetchOk: bool)
      modifies this`editingId, this`saving, this`message, this`store
      ensures !old(HasEditTarget()) ==>
        editingId == old(editingId) && saving == old(saving) && message == old(message) && store == old(store)
      ensures old(HasEditTarget()) ==> !saving
      ensures old(HasEditTarget()) && writeOk ==>
        && store == SetFieldValue(old(store), old(editingId).value, editValue)
        && editingId == None
        && message == Some(if refetchOk then Success(UpdatedText) else Error(UpdateErrorText))
      ensures old(HasEditTarget()) && !writeOk ==>
        store == old(store) && editingId == old(editingId) && message == Some(Error(UpdateErrorText))
    {
      if !HasEditTarget() {
        return;
      }
      saving := true;
      if writeOk {
        store := SetFieldValue(store, editingId.value, editValue);
        message := Some(Success(UpdatedText));
        editingId := None;
        if !refetchOk {
          message := Some(Error(UpdateErrorText));
        }
      } else {
        message := Some(Error(UpdateErrorText));
      }
      saving := false;
    }
  }
}
