/**
 * What the login and registration screens do with the authentication
 * service's answer: on failure they show the error text the server sent,
 * or a generic message when it sent none.
 */
module Auth {
  import opened Common

  const ServerFailureMsg := "Ошибка сервера"

  /** The service call's result; a failure may carry `response.data.error`. */
  datatype AuthOutcome = Succeeded | Failed(error: Option<string>)

  /** `err.response?.data?.error || "Ошибка сервера"`: the server's text unless it is missing or empty. */
  function ServerErrorText(error: Option<string>): (text: string)
    ensures text != ""
    ensures error.Some? && error.value != "" ==> text == error.value
    ensures error.None? || error.value == "" ==> text == ServerFailureMsg
  {
    if error.Some? && error.value != "" then error.value else ServerFailureMsg
  }
}
