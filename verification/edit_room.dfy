/**
 * The "edit room" screen: the room is loaded into the form, changes are
 * tracked against the loaded copy with strict comparison, the form can be
 * reset to that copy, and a valid form is sent as an update.
 */
module EditRoom {
  import opened Common
  import opened JsStrings
  import opened Rooms
  import opened RoomForm

  const NotFoundMsg := "Комната не найдена"
  const LoadFailedMsg := "Не удалось загрузить данные комнаты"
  const UpdateFailedMsg := "Не удалось обновить комнату. Попробуйте позже."

  /** What fetching the room by id gave: an error, or the room (absent when the service found none). */
  datatype LoadResult = LoadFailed | Loaded(room: Option<Room>)

  /** The arguments of `update_room(id, payload)`: the room id from the URL and the payload. */
  datatype UpdateRequest = UpdateRequest(id: string, payload: RoomPayload)

  /** The form a loaded room fills in: missing values become "", the price its decimal text. */
  function FormOf(room: Room): (form: RoomFormData)
    ensures form.name == NameOrEmpty(room)
    ensures form.pricePerDay == "" <==> room.pricePerDay.None?
    ensures form.status == Num(room.status)
    ensures form.description == room.description.GetOr("")
  {
    RoomFormData(
      NameOrEmpty(room),
      if room.pricePerDay.Some? then IntToString(room.pricePerDay.value) else "",
      Num(room.status),
      room.description.GetOr(""))
  }

  /** A loaded price reads back as the number stored, so it passes validation exactly when it is positive. */
  lemma LoadedPriceValidity(room: Room)
    ensures room.pricePerDay.Some? ==> ParseNumber(FormOf(room).pricePerDay) == Some(room.pricePerDay.value as real)
    ensures PriceAcceptable(FormOf(room).pricePerDay) <==> room.pricePerDay.Some? && room.pricePerDay.value > 0
  {
    if room.pricePerDay.Some? {
      ParseNumberOfIntToString(room.pricePerDay.value);
    }
  }

  /**
   * The change check: some field differs strictly from the loaded copy.
   * Before anything is loaded the copy is `{}`, whose fields are all
   * undefined, so every form counts as changed.
   */
  function Changed(data: RoomFormData, original: Option<RoomFormData>): (changed: bool)
    ensures original.None? ==> changed
    ensures original.Some? ==> (changed <==> exists f :: FieldOf(data, f) != FieldOf(original.value, f))
  {
    assert original.Some? ==>
      && FieldOf(data, NameField) == Str(data.name) && FieldOf(original.value, NameField) == Str(original.value.name)
      && FieldOf(data, PriceField) == Str(data.pricePerDay) && FieldOf(original.value, PriceField) == Str(original.value.pricePerDay)
      && FieldOf(data, StatusField) == data.status && FieldOf(original.value, StatusField) == original.value.status
      && FieldOf(data, DescriptionField) == Str(data.description) && FieldOf(original.value, DescriptionField) == Str(original.value.description);
    original.None?
    || data.name != original.value.name
    || data.pricePerDay != original.value.pricePerDay
    || data.status != original.value.status
    || data.description != original.value.description
  }

  /** The loaded copy itself is unchanged, and any edit of a field to a different value is a change. */
  lemma ChangedAgainstCopy(original: RoomFormData, field: RoomField, value: string)
    ensures !Changed(original, Some(original))
    ensures Changed(WithField(original, field, value), Some(original)) <==> FieldOf(original, field) != Str(value)
  {
    var edited := WithField(original, field, value);
    if FieldOf(original, field) != Str(value) {
      assert FieldOf(edited, field) != FieldOf(original, field);
    } else {
      forall f ensures FieldOf(edited, f) == FieldOf(original, f) {
      }
      assert FieldOf(edited, NameField) == FieldOf(original, NameField);
      assert FieldOf(edited, PriceField) == FieldOf(original, PriceField);
      assert FieldOf(edited, StatusField) == FieldOf(original, StatusField);
      assert FieldOf(edited, DescriptionField) == FieldOf(original, DescriptionField);
    }
  }

  /**
   * The status select writes strings while the loaded status is a number,
   * so choosing the status the room already has still counts as a change.
   */
  lemma ReselectedStatusIsChange(room: Room)
    ensures Changed(WithField(FormOf(room), StatusField, IntToString(room.status)), Some(FormOf(room)))
  {
    ChangedAgainstCopy(FormOf(room), StatusField, IntToString(room.status));
  }

  class EditRoomForm {
    const roomId: string
    var roomData: RoomFormData
    var originalData: Option<RoomFormData>
    var errors: map<RoomField, string>
    var loading: bool
    var loadingData: bool
    var serverError: string
    var success: bool
    var hasChanges: bool

    /** The change flag as the change effect leaves it after every update of the form or the copy. */
    ghost predicate Valid()
      reads this
    {
      hasChanges == Changed(roomData, originalData)
    }

    constructor (id: string)
      ensures Valid()
      ensures roomId == id && roomData == EmptyForm && originalData.None? && errors == InitialErrors
      ensures !loading && loadingData && serverError == "" && !success && hasChanges
    {
      roomId := id;
      roomData := EmptyForm;
      originalData := None;
      errors := InitialErrors;
      loading := false;
      loadingData := true;
      serverError := "";
      success := false;
      hasChanges := true;
    }

    /** The mount effect: a found room fills both the form and the copy; otherwise the matching message is shown. */
    method Load(result: LoadResult)
      requires Valid()
      modifies this`roomData, this`originalData, this`serverError, this`loadingData, this`hasChanges
      ensures Valid() && !loadingData
      ensures result.Loaded? && result.room.Some? ==>
        roomData == FormOf(result.room.value) && originalData == Some(FormOf(result.room.value)) &&
        serverError == old(serverError) && !hasChanges
      ensures result.Loaded? && result.room.None? ==>
        roomData == old(roomData) && originalData == old(originalData) && serverError == NotFoundMsg
      ensures result.LoadFailed? ==>
        roomData == old(roomData) && originalData == old(originalData) && serverError == LoadFailedMsg
    {
      loadingData := true;
      match result {
        case LoadFailed =>
          serverError := LoadFailedMsg;
        case Loaded(room) =>
          if room.Some? {
            roomData := FormOf(room.value);
            originalData := Some(FormOf(room.value));
          } else {
            serverError := NotFoundMsg;
          }
      }
      loadingData := false;
      ChangedAgainstCopy(roomData, NameField, roomData.name);
      hasChanges := Changed(roomData, originalData);
    }

    /** `handleChange`: store the value, clear that field's message and the server error, recheck for changes. */
    method HandleChange(field: RoomField, value: string)
      requires Valid()
      modifies this`roomData, this`errors, this`serverError, this`hasChanges
      ensures Valid()
      ensures roomData == WithField(old(roomData), field, value)
      ensures errors == ClearError(old(errors), field)
      ensures serverError == ""
      ensures originalData.Some? && old(roomData) == originalData.value ==>
        (hasChanges <==> FieldOf(originalData.value, field) != Str(value))
    {
      if originalData.Some? && roomData == originalData.value {
        ChangedAgainstCopy(roomData, field, value);
      }
      roomData := WithField(roomData, field, value);
      if HasError(errors, field) {
        errors := errors[field := ""];
      }
      serverError := "";
      hasChanges := Changed(roomData, originalData);
    }

    /** `validateRoom`: the error object is replaced by the failing fields' messages. */
    method Validate() returns (isValid: bool)
      modifies this`errors
      ensures errors == RoomErrors(roomData)
      ensures isValid <==> errors == map[]
    {
      errors, isValid := ValidateFields(roomData);
    }

    /**
     * `handleSubmit`: an invalid form sends nothing; a valid one sends the
     * normalised payload with this room's id, and the service's answer
     * (`updateOk`) decides between the success view and the server error.
     */
    method HandleSubmit(updateOk: bool) returns (sent: Option<UpdateRequest>)
      modifies this`errors, this`loading, this`serverError, this`success
      ensures errors == RoomErrors(roomData)
      ensures sent.Some? <==> errors == map[]
      ensures sent.Some? ==> sent.value == UpdateRequest(roomId, Payload(roomData))
      ensures sent.Some? ==> |sent.value.payload.name| >= 3 && sent.value.payload.pricePerDay.Some?
                             && sent.value.payload.pricePerDay.value > 0.0
      ensures sent.Some? ==> !loading && success == (old(success) || updateOk)
      ensures sent.None? ==> loading == old(loading) && success == old(success)
      ensures serverError == if sent.Some? && !updateOk then UpdateFailedMsg else ""
    {
      serverError := "";
      var isValid := Validate();
      if !isValid {
        return None;
      }
      ValidFormPayload(roomData);
      sent := Some(UpdateRequest(roomId, Payload(roomData)));
      loading := true;
      if updateOk {
        success := true;
      } else {
        serverError := UpdateFailedMsg;
      }
      loading := false;
    }

    /** `handleReset`: back to the loaded copy, with no messages, so nothing is left to save. */
    method HandleReset()
      requires Valid()
      modifies this`roomData, this`errors, this`serverError, this`hasChanges
      ensures Valid()
      ensures roomData == if originalData.Some? then originalData.value else old(roomData)
      ensures errors == map[] && serverError == ""
      ensures originalData.Some? ==> !hasChanges && !SubmitEnabled()
    {
      if originalData.Some? {
        roomData := originalData.value;
        ChangedAgainstCopy(roomData, NameField, roomData.name);
      }
      errors := map[];
      serverError := "";
      hasChanges := Changed(roomData, originalData);
    }

    /** The save button: disabled while saving or when nothing changed since the load. */
    function SubmitEnabled(): (enabled: bool)
      reads this
      ensures Valid() ==> (enabled <==> !loading && Changed(roomData, originalData))
    {
      !(loading || !hasChanges)
    }
  }
}
