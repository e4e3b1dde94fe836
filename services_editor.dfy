/** The services editor: an edit buffer that is idle, editing one service,
    or creating a new one; saving, deleting and toggling write to the remote
    services collection. */
module ServicesEditing {
  import opened Records

  /** The four fields of a service the buffer holds. */
  datatype EditData = EditData(title: string, description: string, icon: string, isVisible: bool)

  /** The buffer a new service starts from: empty text, the wrench icon, visible. */
  const DefaultEditData := EditData("", "", "wrench", true)

  const CreatedText := "Servicio creado exitosamente"
  const UpdatedText := "Servicio actualizado exitosamente"
  const SaveErrorText := "Error al guardar el servicio"
  const DeletedText := "Servicio eliminado exitosamente"
  const DeleteErrorText := "Error al eliminar el servicio"
  const ToggleErrorText := "Error al cambiar el estado del servicio"

  /** `Math.max(...orderIndexes, 0)`: the largest order index, or 0 when
      every index is below 0 or the list is empty. */
  function MaxOrderIndex(services: seq<Service>): (m: int)
    ensures m >= 0
    ensures forall k :: 0 <= k < |services| ==> services[k].orderIndex <= m
    ensures m == 0 || exists k :: 0 <= k < |services| && services[k].orderIndex == m
  {
    if services == [] then 0
    else
      var rest := MaxOrderIndex(services[..|services| - 1]);
      var last := services[|services| - 1].orderIndex;
      if last > rest then last else rest
  }

  /** The order index a newly created service receives: at least 1, above
      every existing index, and the smallest such value. */
  function NextOrderIndex(services: seq<Service>): (r: int)
    ensures r >= 1
    ensures forall k :: 0 <= k < |services| ==> services[k].orderIndex < r
    ensures r == 1 || exists k :: 0 <= k < |services| && services[k].orderIndex == r - 1
  {
    MaxOrderIndex(services) + 1
  }

  /** The record `createService` stores for a buffer: the store's id, the
      given order index, and the four buffered fields, so that editing the
      new service loads the same buffer back. */
  function NewService(id: Id, d: EditData, orderIndex: int): (r: Service)
    ensures r.id == id && r.orderIndex == orderIndex
    ensures EditData(r.title, r.description, r.icon, r.isVisible) == d
  {
    Service(id, d.title, d.description, d.icon, orderIndex, d.isVisible)
  }

  /** `updateService(id, editData)`: the four buffered fields replace the
      stored ones; id and order index stay. */
  function UpdateWithEdit(store: map<Id, Service>, id: Id, d: EditData): (r: map<Id, Service>)
    ensures r.Keys == store.Keys
    ensures id in store ==> r[id] == store[id].(title := d.title, description := d.description, icon := d.icon, isVisible := d.isVisible)
    ensures forall k :: k in store && k != id ==> r[k] == store[k]
  {
    Patch(store, id, (s: Service) => s.(title := d.title, description := d.description, icon := d.icon, isVisible := d.isVisible))
  }

  /** The icon choices offered by the editor, as (value, label) pairs. */
  const IconOptions: seq<(string, string)> := [
    ("monitor", "Monitor"), ("wifi", "WiFi"), ("download", "Descarga"),
    ("network", "Red"), ("hard-drive", "Disco Duro"), ("lightbulb", "Bombilla"),
    ("wrench", "Llave"), ("shield", "Escudo"), ("smartphone", "Teléfono")]

  /** The label shown for an icon: the first option with that value, else
      the raw icon tag. */
  function IconLabel(options: seq<(string, string)>, icon: string): (r: string)
    ensures (forall k :: 0 <= k < |options| ==> options[k].0 != icon) ==> r == icon
    ensures forall k ::
      (0 <= k < |options| && options[k].0 == icon && options[k].1 != "" &&
       (forall j :: 0 <= j < k ==> options[j].0 != icon)) ==> r == options[k].1
  {
    if options == [] then icon
    else if options[0].0 == icon then (if options[0].1 != "" then options[0].1 else icon)
    else IconLabel(options[1..], icon)
  }

  const ActivatedText := "Servicio activado exitosamente"
  const DeactivatedText := "Servicio desactivado exitosamente"

  /** The message after a successful visibility toggle names the state the
      service was switched to. */
  function ToggleText(wasVisible: bool): (r: string)
    ensures r == ActivatedText <==> !wasVisible
    ensures r == DeactivatedText <==> wasVisible
    ensures r != ToggleErrorText
  {
    if !wasVisible then ActivatedText else DeactivatedText
  }

  class ServicesEditor {
    var editingId: Option<Id>
    var isCreating: bool
    var editData: EditData
    var saving: bool
    var message: Option<Message>
    /** The remote services collection. */
    var store: map<Id, Service>

    /** The buffer never edits an existing service and a new one at once. */
    ghost predicate Valid()
      reads this
    {
      !(isCreating && editingId.Some?)
    }

    /** `editingId` is a non-empty id (the source tests it for truthiness). */
    predicate HasEditTarget()
      reads this
    {
      editingId.Some? && editingId.value != ""
    }

    constructor (remote: map<Id, Service>)
      ensures Valid()
      ensures editingId == None && !isCreating && editData == DefaultEditData
      ensures !saving && message == None && store == remote
    {
      editingId, isCreating, editData := None, false, DefaultEditData;
      saving, message, store := false, None, remote;
    }

    method StartEditing(service: Service)
      modifies this`editingId, this`isCreating, this`editData, this`message
      ensures Valid()
      ensures editingId == Some(service.id) && !isCreating && message == None
      ensures editData == EditData(service.title, service.description, service.icon, service.isVisible)
    {
      editingId := Some(service.id);
      editData := EditData(service.title, service.description, service.icon, service.isVisible);
      isCreating := false;
      message := None;
    }

    method StartCreating()
      modifies this`editingId, this`isCreating, this`editData, this`message
      ensures Valid()
      ensures isCreating && editingId == None && editData == DefaultEditData && message == None
    {
      isCreating := true;
      editingId := None;
      editData := DefaultEditData;
      message := None;
    }

    method CancelEditing()
      modifies this`editingId, this`isCreating, this`editData, this`message
      ensures Valid()
      ensures editingId == None && !isCreating && editData == DefaultEditData && message == None
    {
      editingId := None;
      isCreating := false;
      editData := DefaultEditData;
      message := None;
    }

    /** The change handlers of the buffer's inputs: each replaces one
        field of the buffer and leaves the other three. */
    method EditTitle(v: string)
      modifies this`editData
      ensures editData == old(editData).(title := v)
      ensures v == "" ==> CreateDisabled()
    {
      editData := editData.(title := v);
    }

    method EditDescription(v: string)
      modifies this`editData
      ensures editData == old(editData).(description := v)
      ensures v == "" ==> CreateDisabled()
    {
      editData := editData.(description := v);
    }

    method EditIcon(v: string)
      modifies this`editData
      ensures editData == old(editData).(icon := v)
      ensures CreateDisabled() == old(CreateDisabled())
    {
      editData := editData.(icon := v);
    }

    method EditVisible(v: bool)
      modifies this`editData
      ensures editData == old(editData).(isVisible := v)
      ensures CreateDisabled() == old(CreateDisabled())
    {
      editData := editData.(isVisible := v);
    }

    /** The create button is disabled while saving or while the title or
        the description is empty. */
    function CreateDisabled(): (r: bool)
      reads this
      ensures !r ==> !saving && |editData.title| > 0 && |editData.description| > 0
      ensures r ==> saving || editData.title == "" || editData.description == ""
    {
      saving || editData.title == "" || editData.description == ""
    }

    /** Saves the buffer. `services` is the list the editor shows, `newId`
        the fresh id the store assigns to a created record; `writeOk` and
        `refetchOk` say whether the write and the (unawaited) refetch call
        returned normally. */
    method SaveChanges(services: seq<Service>, newId: Id, writeOk: bool, refetchOk: bool)
      requires Valid()
      requires newId !in store
      modifies this`editingId, this`isCreating, this`saving, this`message, this`store
      ensures Valid() && !saving && editData == old(editData)
      // a failed write keeps the buffer's target and reports an error
      ensures !writeOk && (old(isCreating) || old(HasEditTarget())) ==>
        && editingId == old(editingId) && isCreating == old(isCreating)
        && store == old(store) && message == Some(Error(SaveErrorText))
      // otherwise the editor returns to idle
      ensures writeOk || !(old(isCreating) || old(HasEditTarget())) ==>
        && editingId == None && !isCreating
        && message == (if !refetchOk then Some(Error(SaveErrorText))
                       else if old(isCreating) then Some(Success(CreatedText))
                       else if old(HasEditTarget()) then Some(Success(UpdatedText))
                       else old(message))
      ensures old(isCreating) && writeOk ==>
        && store == old(store)[newId := NewService(newId, editData, NextOrderIndex(services))]
        && store.Keys == old(store).Keys + {newId}
      ensures old(isCreating) && writeOk && !old(CreateDisabled()) ==>
        store[newId].title != "" && store[newId].description != ""
      ensures !old(isCreating) && old(HasEditTarget()) && writeOk ==>
        store == UpdateWithEdit(old(store), old(editingId).value, editData)
      ensures !old(isCreating) && !old(HasEditTarget()) ==> store == old(store)
    {
      saving := true;
      if isCreating {
        if !writeOk {
          message := Some(Error(SaveErrorText));
          saving := false;
          return;
        }
        var maxOrder := MaxOrderIndex(services);
        store := store[newId := NewService(newId, editData, maxOrder + 1)];
        message := Some(Success(CreatedText));
      } else if HasEditTarget() {
        if !writeOk {
          message := Some(Error(SaveErrorText));
          saving := false;
          return;
        }
        store := UpdateWithEdit(store, editingId.value, editData);
        message := Some(Success(UpdatedText));
      }
      editingId := None;
      isCreating := false;
      if !refetchOk {
        message := Some(Error(SaveErrorText));
      }
      saving := false;
    }

    /** Deletes a service after the user confirms the dialog. */
    method HandleDelete(id: Id, confirmed: bool, writeOk: bool, refetchOk: bool)
      modifies this`message, this`store
      ensures !confirmed ==> store == old(store) && message == old(message)
      ensures confirmed ==> store == (if writeOk then old(store) - {id} else old(store))
      ensures confirmed ==> message == Some(if writeOk && refetchOk then Success(DeletedText) else Error(DeleteErrorText))
    {
      if !confirmed {
        return;
      }
      if writeOk {
        store := store - {id};
        message := Some(Success(DeletedText));
        if !refetchOk {
          message := Some(Error(DeleteErrorText));
        }
      } else {
        message := Some(Error(DeleteErrorText));
      }
    }

    /** Writes the negation of the shown flag for that service only. */
    method ToggleActive(service: Service, writeOk: bool, refetchOk: bool)
      modifies this`message, this`store
      ensures store == if writeOk then SetServiceVisible(old(store), service.id, !service.isVisible) else old(store)
      ensures message == Some(if writeOk && refetchOk then Success(ToggleText(service.isVisible)) else Error(ToggleErrorText))
    {
      if writeOk {
        store := SetServiceVisible(store, service.id, !service.isVisible);
        message := Some(Success(ToggleText(service.isVisible)));
        if !refetchOk {
          message := Some(Error(ToggleErrorText));
        }
      } else {
        message := Some(Error(ToggleErrorText));
      }
    }
  }
}
