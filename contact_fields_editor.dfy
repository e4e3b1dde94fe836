/** The contact-fields editor: per-field visibility toggles and an inline
    edit of one field's value. Each handler marks the field it works on in
    `saving` before its write and clears the mark after it, so each is
    split at that write into a start and a completion. */
module ContactFieldsEditing {
  import opened Records
  import opened ContactEditing

  /** The characters `String.prototype.trim` removes: white space and line
      terminators of ECMAScript. */
  predicate IsTrimmed(c: char)
  {
    c in {'\t', '\n', '\U{000B}', '\U{000C}', '\r', ' ', '\U{00A0}', '\U{1680}', '\U{2028}', '\U{2029}',
          '\U{202F}', '\U{205F}', '\U{3000}', '\U{FEFF}'}
    || ('\U{2000}' <= c <= '\U{200A}')
  }

  /** Drops leading white space. */
  function TrimStart(s: string): (r: string)
    ensures |r| <= |s| && r == s[|s| - |r|..]
    ensures r == [] || !IsTrimmed(r[0])
    ensures forall k :: 0 <= k < |s| - |r| ==> IsTrimmed(s[k])
  {
    if s == [] then []
    else if IsTrimmed(s[0]) then TrimStart(s[1..])
    else s
  }

  /** Drops trailing white space. */
  function TrimEnd(s: string): (r: string)
    ensures |r| <= |s| && r == s[..|r|]
    ensures r == [] || !IsTrimmed(r[|r| - 1])
    ensures forall k :: |r| <= k < |s| ==> IsTrimmed(s[k])
  {
    if s == [] then []
    else if IsTrimmed(s[|s| - 1]) then TrimEnd(s[..|s| - 1])
    else s
  }

  function Trim(s: string): string
  {
    TrimEnd(TrimStart(s))
  }

  /** `!value.trim()`: the trimmed value is empty exactly when every
      character of the value is white space. */
  lemma TrimEmptyIffAllWhiteSpace(s: string)
    ensures Trim(s) == "" <==> forall k :: 0 <= k < |s| ==> IsTrimmed(s[k])
  {
    var t := TrimStart(s);
    if Trim(s) == "" {
      assert |t| == 0;
    } else {
      var j := |s| - |t|;
      assert t[0] == s[j] && !IsTrimmed(s[j]);
    }
  }

  /** `updateContactInfo(id, {is_visible})`. */
  function SetFieldVisible(store: map<Id, ContactInfo>, id: Id, v: bool): (r: map<Id, ContactInfo>)
    ensures r.Keys == store.Keys
    ensures id in store ==> r[id] == store[id].(isVisible := v)
    ensures forall k :: k in store && k != id ==> r[k] == store[k]
  {
    Patch(store, id, (c: ContactInfo) => c.(isVisible := v))
  }

  class ContactFieldsEditor {
    /** Id of the field being edited inline. */
    var editingField: Option<Id>
    var editValue: string
    /** Id of the field whose write is in flight. */
    var saving: Option<Id>
    /** The remote contact-information collection. */
    var store: map<Id, ContactInfo>

    constructor (remote: map<Id, ContactInfo>)
      ensures editingField == None && editValue == "" && saving == None && store == remote
    {
      editingField, editValue, saving, store := None, "", None, remote;
    }

    /** The save button of a field: disabled while that field is being
        written or while the buffer holds only white space. */
    function SaveDisabled(fieldId: Id): (r: bool)
      reads this
      ensures r <==> saving == Some(fieldId) || forall k :: 0 <= k < |editValue| ==> IsTrimmed(editValue[k])
    {
      TrimEmptyIffAllWhiteSpace(editValue);
      saving == Some(fieldId) || Trim(editValue) == ""
    }

    /** The visibility handler up to its write. */
    method StartToggleVisibility(fieldId: Id)
      modifies this`saving
      ensures saving == Some(fieldId)
    {
      saving := Some(fieldId);
    }

    /** The visibility handler from its write on: the negation of the
        displayed flag is written for that field only; `writeOk` tells
        whether the write succeeded. A failed refetch changes nothing
        here, since the handler only logs it. */
    method CompleteToggleVisibility(fieldId: Id, currentVisibility: bool, writeOk: bool)
      modifies this`saving, this`store
      ensures saving == None
      ensures store == if writeOk then SetFieldVisible(old(store), fieldId, !currentVisibility) else old(store)
    {
      if writeOk {
        store := SetFieldVisible(store, fieldId, !currentVisibility);
      }
      saving := None;
    }

    method StartEdit(field: ContactInfo)
      modifies this`editingField, this`editValue
      ensures editingField == Some(field.id) && editValue == field.fieldValue
    {
      editingField := Some(field.id);
      editValue := field.fieldValue;
    }

    /** The input's change handler. */
    method EditValue(value: string)
      modifies this`editValue
      ensures editValue == value
    {
      editValue := value;
    }

    /** The save handler up to its write; `submitted` is the buffer the
        handler sends. */
    method StartSaveEdit(fieldId: Id) returns (submitted: string)
      modifies this`saving
      ensures saving == Some(fieldId) && submitted == editValue
    {
      saving := Some(fieldId);
      submitted := editValue;
    }

    /** The save handler from its write on: a successful write stores the
        submitted value and closes the inline edit; a failed one leaves the
        buffer as it was. */
    method CompleteSaveEdit(fieldId: Id, submitted: string, writeOk: bool)
      modifies this`saving, this`store, this`editingField, this`editValue
      ensures saving == None
      ensures writeOk ==> store == SetFieldValue(old(store), fieldId, submitted) && editingField == None && editValue == ""
      ensures !writeOk ==> store == old(store) && editingField == old(editingField) && editValue == old(editValue)
    {
      if writeOk {
        store := SetFieldValue(store, fieldId, submitted);
        editingField := None;
        editValue := "";
      }
      saving := None;
    }

    method CancelEdit()
      modifies this`editingField, this`editValue
      ensures editingField == None && editValue == ""
    {
      editingField := None;
      editValue := "";
    }
  }
}
