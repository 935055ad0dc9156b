/**
 * The "create room" screen: the room form with its field updates,
 * validation and submission to the room service.
 */
module CreateRoom {
  import opened Common
  import opened JsStrings
  import opened RoomForm

  const CreateFailedMsg := "Не удалось создать комнату. Попробуйте позже."

  /** The inputs the screen shows; there is no status input, so the status stays 0. */
  predicate IsInput(field: RoomField) {
    field != StatusField
  }

  class CreateRoomForm {
    var roomData: RoomFormData
    var errors: map<RoomField, string>
    var loading: bool
    var serverError: string
    var success: bool

    constructor ()
      ensures roomData == EmptyForm && errors == InitialErrors
      ensures !loading && serverError == "" && !success
    {
      roomData := EmptyForm;
      errors := InitialErrors;
      loading := false;
      serverError := "";
      success := false;
    }

    /** `handleChange`: store the typed value, clear that field's message and the server error. */
    method HandleChange(field: RoomField, value: string)
      requires IsInput(field)
      modifies this`roomData, this`errors, this`serverError
      ensures roomData == WithField(old(roomData), field, value)
      ensures errors == ClearError(old(errors), field)
      ensures serverError == ""
    {
      roomData := WithField(roomData, field, value);
      if HasError(errors, field) {
        errors := errors[field := ""];
      }
      serverError := "";
    }

    /** `validateroom`: the error object is replaced by the failing fields' messages. */
    method Validate() returns (isValid: bool)
      modifies this`errors
      ensures errors == RoomErrors(roomData)
      ensures isValid <==> errors == map[]
    {
      errors, isValid := ValidateFields(roomData);
    }

    /**
     * `handleSubmit`: an invalid form sends nothing; a valid one sends the
     * normalised payload, and the service's answer (`createOk`) decides
     * between the success view and the server error.
     */
    method HandleSubmit(createOk: bool) returns (sent: Option<RoomPayload>)
      modifies this`errors, this`loading, this`serverError, this`success
      ensures errors == RoomErrors(roomData)
      ensures sent.Some? <==> errors == map[]
      ensures sent.Some? ==> sent.value == Payload(roomData)
      ensures sent.Some? ==> |sent.value.name| >= 3 && sent.value.pricePerDay.Some? && sent.value.pricePerDay.value > 0.0
      ensures sent.Some? ==> !loading && success == (old(success) || createOk)
      ensures sent.None? ==> loading == old(loading) && success == old(success)
      ensures serverError == if sent.Some? && !createOk then CreateFailedMsg else ""
    {
      serverError := "";
      var isValid := Validate();
      if !isValid {
        return None;
      }
      ValidFormPayload(roomData);
      sent := Some(Payload(roomData));
      loading := true;
      if createOk {
        success := true;
      } else {
        serverError := CreateFailedMsg;
      }
      loading := false;
    }

    /** The submit and cancel buttons are disabled while a request is in flight, and only then: the form's validity does not enter. */
    function SubmitEnabled(): (enabled: bool)
      reads this
      ensures enabled <==> !loading
    {
      !loading
    }
  }
}
