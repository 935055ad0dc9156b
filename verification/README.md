# Room booking front end — a Dafny model

This project models the client-side logic of a small React application for
renting rooms. Owners list, create, edit, archive and restore their rooms.
Guests filter the available rooms, compose a booking of several rooms over a
date range, and review or cancel their bookings. Everyone registers and signs
in through two validated forms. A token in local storage decides which routes
a visitor may open.

Each component's state becomes a Dafny `class` whose fields are the
component's `useState` slots. Its event handlers become methods that update
those fields. The pure parts become functions with contracts, and lemmas
state what the screens promise: which rooms a filter shows, that a form is
sent exactly when it validates and then sends a clean payload, what the
booking total is, and that every URL settles on a page that agrees with the
token.

Modules, one per source file plus shared helpers:

- `Common`: `Option` (JavaScript's `null`/`undefined`), order-preserving subsequences, and the conditional `map` used by the status rewrites.
- `JsStrings`: the JavaScript primitives the components rely on: `trim`, `toLowerCase`, `includes`, `Number`, `parseInt`, `toString` and the `\s`/`\d` classes.
- `Rooms`: the room record and the per-id status rewrite.
- `RoomsList`: the room list screen (`src/components/RoomsList.jsx`).
- `AddBookings`: the booking composer (`src/components/AddBookings.jsx`).
- `MyBookings`: the booking list (`src/components/MyBookings.jsx`).
- `RoomForm`: the room form's field update, validation and payload, shared by `CreateRoom` (`src/components/CreateRoom.jsx`) and `EditRoom` (`src/components/EditRoom.jsx`).
- `Auth`: the server error text shared by `Register` (`src/components/Register.jsx`) and `Login` (`src/components/Login.jsx`).
- `App`: the routes and their two guards (`src/App.js`).

Services are not called. Each handler takes the service's answer as a
parameter (`callOk`, `outcome`, `fetched`, ...). The submit handlers return
what they would send: the booking request, the room payload (with the room's
id for an update), or the credentials. The archive, restore and cancel
handlers send only the id they are given; they return nothing but a notice,
and their contracts state the list that results.

## Model

| member | source | states |
|---|---|---|
| JsStrings.TrimStart | src/components/CreateRoom.jsx:47 | what is left after the leading whitespace is empty or starts with a non-space, and is no longer than the input |
| JsStrings.TrimEnd | src/components/CreateRoom.jsx:47 | what is left before the trailing whitespace is empty or ends with a non-space, and is no longer than the input |
| JsStrings.Trim | src/components/CreateRoom.jsx:47-53 | the trimmed name neither starts nor ends with whitespace and is no longer than the input |
| JsStrings.TrimSlice | src/components/CreateRoom.jsx:80 | the trimmed text is a slice of the input with only whitespace outside it |
| JsStrings.TrimEmptyIffBlank | src/components/CreateRoom.jsx:47 | `!name.trim()` holds exactly when the name is all whitespace |
| JsStrings.TrimOfNoWhitespace | src/components/RoomsList.jsx:114-117 | a string without whitespace is its own trim |
| JsStrings.TrimIdempotent | src/components/CreateRoom.jsx:79-84 | trimming twice is trimming once, so a sent name or description is already clean |
| JsStrings.LowerChar | src/components/RoomsList.jsx:109-111 | a Latin capital becomes a small Latin letter and a basic Cyrillic capital a small Cyrillic letter, so no capital of either survives; anything else is left as it is |
| JsStrings.ToLower | src/components/RoomsList.jsx:109-111 | lowercasing keeps the length and lowers each character on its own |
| JsStrings.ToLowerIdempotent | src/components/RoomsList.jsx:109-111 | lowering a lowered string changes nothing |
| JsStrings.Includes | src/components/RoomsList.jsx:109-111 | every name includes the empty search term, and no name includes a term longer than itself |
| JsStrings.IncludesIffOccurs | src/components/RoomsList.jsx:109-111 | `includes` holds exactly when the term occurs at some index |
| JsStrings.ParseNumber | src/components/CreateRoom.jsx:58-61 | `Number` of a blank string is 0, and a negative value comes only from a leading minus |
| JsStrings.ParseNumberOfDigits | src/components/RoomsList.jsx:114-117 | a trimmed run of digits reads as its decimal value |
| JsStrings.ParseNumberRejectsOtherChars | src/components/CreateRoom.jsx:58-61 | a character other than a digit, a dot or a sign makes the price NaN |
| JsStrings.DecimalValue | src/components/CreateRoom.jsx:81 | a decimal literal's value is never negative |
| JsStrings.DecimalValueOfFraction | src/components/CreateRoom.jsx:81 | `a.b` is worth the digits `a` plus the digits `b` over ten to the length of `b` |
| JsStrings.DecimalHasOnlyDigitsAndDot | src/components/CreateRoom.jsx:58-61 | a decimal literal holds only digits and the dot |
| JsStrings.DigitsAreDecimal | src/components/RoomsList.jsx:114-117 | a run of digits is a decimal literal with the digits' value |
| JsStrings.ParseInt | src/components/AddBookings.jsx:35 | `parseInt` yields a number only when the text holds a digit |
| JsStrings.ParseSigned | src/components/AddBookings.jsx:35 | after the whitespace, a number comes only from text that starts with a digit or with one character and then a digit |
| JsStrings.ParseUnsigned | src/components/AddBookings.jsx:35 | after the sign, a number comes only from text that starts with a digit |
| JsStrings.ParseUnsignedDecimal | src/components/AddBookings.jsx:35 | decimal digits followed by a non-digit read as their decimal value, unless they are a lone `0` before `x`/`X` |
| JsStrings.ParseIntSkipsWhitespace | src/components/AddBookings.jsx:35 | leading whitespace does not change what `parseInt` reads |
| JsStrings.ParseSignedOfSign | src/components/AddBookings.jsx:35 | a leading `-` negates what follows it and a leading `+` keeps it |
| JsStrings.ParseSignedDigits | src/components/AddBookings.jsx:35 | unsigned decimal digits are read up to the first non-digit |
| JsStrings.ParseSignedSignDigits | src/components/AddBookings.jsx:35 | after a sign, decimal digits are read up to the first non-digit and negated for `-` |
| JsStrings.ParseIntSkipsAndStops | src/components/AddBookings.jsx:35 | whitespace, an optional sign, decimal digits and any text after them read as the signed value of the digits (`parseInt(" 12abc")` is 12), unless the digits are a lone `0` before `x`/`X` |
| JsStrings.CharValue | src/components/AddBookings.jsx:35 | a character's digit value is below 10 exactly for the decimal digits, and for them it is the digit |
| JsStrings.LeadingRun | src/components/AddBookings.jsx:35 | the digits `parseInt` reads are the longest prefix of digits of the radix |
| JsStrings.LeadingRunOfDigits | src/components/AddBookings.jsx:35 | text made only of digits of the radix is read whole |
| JsStrings.RadixTenIsDecimal | src/components/AddBookings.jsx:35 | read in radix 10, a digit string has its decimal value |
| JsStrings.ParseIntReadsHex | src/components/AddBookings.jsx:35 | `parseInt("0x" + h)` is the hexadecimal value of the digits `h` |
| JsStrings.NatToString | src/components/EditRoom.jsx:50 | the decimal text of a number is non-empty digits whose value is that number |
| JsStrings.IntToString | src/components/EditRoom.jsx:50 | `toString` of a price is non-empty and has no whitespace |
| JsStrings.ParseNumberOfIntToString | src/components/EditRoom.jsx:50 | `Number(n.toString())` gives `n` back |
| JsStrings.ParseIntOfIntToString | src/components/RoomsList.jsx:148-150 | `parseInt(n.toString())` gives `n` back, so the id in a booking link reads back as itself |
| JsStrings.FirstIndex | src/components/Register.jsx:47 | the index of the first occurrence, with no occurrence before it |
| Common.MapWhere | src/components/RoomsList.jsx:79-81 | the elements that match are replaced by their image, the others stay, the length is kept |
| Rooms.WithStatus | src/components/RoomsList.jsx:78-82 | every room with the id gets the new status, every other room is unchanged, the length is kept |
| Rooms.WithStatusTwice | src/components/RoomsList.jsx:74-133 | two status rewrites of the same id: the second wins |
| Rooms.WithStatusAbsentId | src/components/RoomsList.jsx:78-82 | a rewrite for an id no room has changes nothing |
| RoomsList.MeetsMin | src/components/RoomsList.jsx:113-114 | an empty minimum admits every price, one `Number` reads as NaN admits none, and a blank one reads as 0 |
| RoomsList.MeetsMax | src/components/RoomsList.jsx:115-116 | an empty maximum admits every price, one `Number` reads as NaN admits none, and a blank one reads as 0 |
| RoomsList.Matches | src/components/RoomsList.jsx:108-120 | without price bounds a room passes exactly when its name matches the search, and without a search term too every room passes |
| RoomsList.Filtered | src/components/RoomsList.jsx:108-120 | every shown room is in the list and passes all three tests, and each room that passes is shown as often as it is listed while the others are not shown |
| RoomsList.FilteredMembership | src/components/RoomsList.jsx:108-120 | a room is shown exactly when it is in the list and passes the search, minimum and maximum tests |
| RoomsList.FilteredIsSubsequence | src/components/RoomsList.jsx:108 | filtering only drops rooms and keeps their order |
| RoomsList.FilteredWithoutCriteria | src/components/RoomsList.jsx:248-257 | with no search term and no price bounds every room is shown |
| RoomsList.DigitBoundsAreInclusive | src/components/RoomsList.jsx:113-117 | for a bound the input accepts, the price tests are inclusive comparisons with the bound's value |
| RoomsList.PriceInputAccepted | src/components/RoomsList.jsx:136 | a typed bound is accepted exactly when it is empty or all digits |
| RoomsList.GetStatusInfo | src/components/RoomsList.jsx:49-53 | a known status gets its mapped label; the "unknown" label exactly for any other |
| RoomsList.MinPrice | src/components/RoomsList.jsx:152-153 | 0 for no rooms, otherwise a price of the list that is at most every price |
| RoomsList.MaxPrice | src/components/RoomsList.jsx:154-155 | 0 for no rooms, otherwise a price of the list that is at least every price |
| RoomsList.MinPriceAtMostMaxPrice | src/components/RoomsList.jsx:152-155 | the placeholder range is never inverted |
| RoomsList.EnabledActions | src/components/RoomsList.jsx:290-322 | owners get restore for an archived room and edit with archive otherwise; guests can book only an available room |
| RoomsList.ClearFiltersEnabled | src/components/RoomsList.jsx:216-220 | the clear button is disabled exactly when both bounds are empty |
| RoomsList.RoomsListView.Shown | src/components/RoomsList.jsx:108-120 | the shown rooms are a subsequence of the fetched ones |
| RoomsList.RoomsListView.constructor | src/components/RoomsList.jsx:66-72 | no rooms, loading, empty search and bounds |
| RoomsList.RoomsListView.Load | src/components/RoomsList.jsx:88-106 | a successful fetch replaces the list, a failed one keeps it; loading ends either way |
| RoomsList.RoomsListView.SetSearchTerm | src/components/RoomsList.jsx:180 | the search term becomes the typed text |
| RoomsList.RoomsListView.HandlePriceFilterChange | src/components/RoomsList.jsx:134-142 | digits or "" go into the named bound only, anything else is ignored; the bounds stay digit strings |
| RoomsList.RoomsListView.ClearPriceFilters | src/components/RoomsList.jsx:144-146 | both bounds become empty |
| RoomsList.RoomsListView.ResetAllFilters | src/components/RoomsList.jsx:248-257 | search and bounds cleared, and then every room is shown |
| RoomsList.RoomsListView.HandleDeleteRoom | src/components/RoomsList.jsx:74-86 | after a successful call the room is archived and nothing else changes; a failed call changes nothing |
| RoomsList.RoomsListView.HandleRestoreRoom | src/components/RoomsList.jsx:121-133 | after a successful call the room is available and nothing else changes; a failed call changes nothing |
| RoomsList.ArchiveThenRestore | src/components/RoomsList.jsx:74-133 | archiving then restoring a room is the same as restoring it |
| AddBookings.RemoveId | src/components/AddBookings.jsx:86 | exactly the rooms with the id are dropped: each other room keeps its number of occurrences, and the order is kept |
| AddBookings.RemoveAbsentId | src/components/AddBookings.jsx:195-197 | removing an id nobody has changes nothing |
| AddBookings.RemoveIdAppend | src/components/AddBookings.jsx:86 | removal distributes over concatenation |
| AddBookings.Toggle | src/components/AddBookings.jsx:82-90 | a selected room's id is removed from the selection, an unselected room is appended at the end |
| AddBookings.ToggleKeepsDistinct | src/components/AddBookings.jsx:82-90 | toggling never selects the same id twice |
| AddBookings.SubsequenceKeepsDistinct | src/components/AddBookings.jsx:86 | dropping rooms keeps the ids distinct |
| AddBookings.SubsequenceMember | src/components/AddBookings.jsx:86 | every room left after a removal was in the selection |
| AddBookings.ToggleTwiceRestores | src/components/AddBookings.jsx:82-90 | selecting then deselecting a room gives the selection back |
| AddBookings.FindById | src/components/AddBookings.jsx:36 | the first room with the id, or none exactly when no room has it |
| AddBookings.SeedSelection | src/components/AddBookings.jsx:25-48 | at most one room is preselected, the first cached room whose id is `parseInt` of the parameter, and it is preselected whenever such a room exists |
| AddBookings.BookLinkPreselects | src/components/RoomsList.jsx:148-150 | following a room's "Book" link preselects the first cached room with that id, whenever one is cached |
| AddBookings.RoomIds | src/components/AddBookings.jsx:124 | the ids of the selection, in selection order |
| AddBookings.CeilDiv | src/components/AddBookings.jsx:65 | the least number of whole days covering the time difference |
| AddBookings.TotalPrice | src/components/AddBookings.jsx:75-77 | the total is the nights times the sum of the daily prices |
| AddBookings.ComputeTotals | src/components/AddBookings.jsx:51-80 | zero without both dates or rooms; otherwise the nights round the absolute difference up to whole days and the total is nights times the daily rate |
| AddBookings.NightsOfWholeDays | src/components/AddBookings.jsx:62-65 | for whole-day dates the nights are the day difference in either order |
| AddBookings.SubmitBlocker | src/components/AddBookings.jsx:103-116 | the first failing check in the order rooms, dates, range |
| AddBookings.SubmitDisabled | src/components/AddBookings.jsx:349-355 | the button is disabled exactly while loading or when a submit would be refused |
| AddBookings.RangeCheckOnlyRejectsEqualDates | src/components/AddBookings.jsx:113-116 | the range check only rejects identical dates; an end before the start passes |
| AddBookings.BookingComposer.constructor | src/components/AddBookings.jsx:10-48 | the cached rooms are offered and the URL's room is preselected; no dates, zero totals; the invariant (distinct ids, settled totals) holds |
| AddBookings.BookingComposer.Recompute | src/components/AddBookings.jsx:51-80 | the nights and total agree with the dates and the selection |
| AddBookings.BookingComposer.HandleRoomSelect | src/components/AddBookings.jsx:82-90 | the selection is toggled and keeps its ids distinct, the totals follow, nothing else changes |
| AddBookings.BookingComposer.RemoveRoom | src/components/AddBookings.jsx:195-197 | the room is dropped and the ids stay distinct, the totals follow, nothing else changes |
| AddBookings.BookingComposer.HandleDateChange | src/components/AddBookings.jsx:92-98 | only the named date changes and the totals follow |
| AddBookings.BookingComposer.HandleSubmit | src/components/AddBookings.jsx:100-181 | a request is sent exactly when no check fails; otherwise the first failure's message is shown; the request carries the selected ids in order and the dates |
| MyBookings.StatusText | src/components/MyBookings.jsx:49-70 | a label exactly for the four known statuses |
| MyBookings.ExpandedActions | src/components/MyBookings.jsx:249-279 | cancel exactly while pending or confirmed, review exactly once completed, messaging always, a room link to the first room exactly when there is one |
| MyBookings.WithStatus | src/components/MyBookings.jsx:80-86 | the booking with the id gets the status, the others are unchanged |
| MyBookings.ToggledExpansion | src/components/MyBookings.jsx:72-74 | a click collapses the expanded booking and expands any other |
| MyBookings.ToggleTwiceFromNone | src/components/MyBookings.jsx:72-74 | two clicks on a card close it again |
| MyBookings.BookingsView.constructor | src/components/MyBookings.jsx:22-24 | no bookings, not loading, nothing expanded |
| MyBookings.BookingsView.AtMostOneExpanded | src/components/MyBookings.jsx:24 | no two bookings are expanded at once |
| MyBookings.BookingsView.Load | src/components/MyBookings.jsx:26-40 | a successful fetch replaces the list, a failed one keeps it; loading ends |
| MyBookings.BookingsView.ToggleBookingDetails | src/components/MyBookings.jsx:72-74 | the expanded booking is toggled |
| MyBookings.BookingsView.HandleCancelBooking | src/components/MyBookings.jsx:76-93 | only a confirmed, successful cancellation marks the booking cancelled; the alert matches the outcome |
| RoomForm.WithField | src/components/CreateRoom.jsx:30-33 | the named field takes the typed string, the others stay |
| RoomForm.ClearError | src/components/CreateRoom.jsx:35-37 | only that field's message is cleared; the keys stay |
| RoomForm.NameMessage | src/components/CreateRoom.jsx:47-53 | required for an empty name, too short for one or two characters, none from three |
| RoomForm.PriceMessage | src/components/CreateRoom.jsx:55-64 | required for an empty price, invalid for NaN or a value up to 0, none for a positive number |
| RoomForm.RoomErrors | src/components/CreateRoom.jsx:42-68 | a message exactly for a trimmed name under three characters and for an unacceptable price, and for no other field |
| RoomForm.ValidateFields | src/components/EditRoom.jsx:102-129 | the step-by-step validation builds that error object, and the flag is set exactly when it is empty |
| RoomForm.Payload | src/components/CreateRoom.jsx:79-84 | the name is trimmed; the description is trimmed, or null when blank |
| RoomForm.ValidFormPayload | src/components/EditRoom.jsx:136-147 | a form that validates sends a clean name of three or more characters and a positive price |
| CreateRoom.CreateRoomForm.constructor | src/components/CreateRoom.jsx:10-25 | the empty form with status 0 and the initial error object |
| CreateRoom.CreateRoomForm.HandleChange | src/components/CreateRoom.jsx:27-40 | the field is stored, its message and the server error cleared |
| CreateRoom.CreateRoomForm.Validate | src/components/CreateRoom.jsx:42-68 | the error object is replaced, and the result is whether it is empty |
| CreateRoom.CreateRoomForm.HandleSubmit | src/components/CreateRoom.jsx:70-105 | the payload is sent exactly when the form validates, with a name of three or more characters and a positive price; the server error follows the answer |
| CreateRoom.CreateRoomForm.SubmitEnabled | src/components/CreateRoom.jsx:242-247 | the buttons are disabled exactly while a request is in flight, whatever the form holds |
| EditRoom.FormOf | src/components/EditRoom.jsx:47-59 | missing values become "", the price its decimal text, the status stays a number |
| EditRoom.Changed | src/components/EditRoom.jsx:75-83 | before a load every form is changed; after it, a form is changed exactly when some field differs from the loaded copy |
| EditRoom.LoadedPriceValidity | src/components/EditRoom.jsx:50 | a loaded price reads back as itself and passes exactly when positive |
| EditRoom.ChangedAgainstCopy | src/components/EditRoom.jsx:75-83 | the loaded copy is unchanged, and an edit is a change exactly when the field's value differs |
| EditRoom.ReselectedStatusIsChange | src/components/EditRoom.jsx:75-83 | picking the room's own status in the select still counts as a change |
| EditRoom.EditRoomForm.constructor | src/components/EditRoom.jsx:20-38 | the empty form, no copy yet, loading the room |
| EditRoom.EditRoomForm.Load | src/components/EditRoom.jsx:41-72 | a found room fills the form and the copy with nothing changed; otherwise the matching message |
| EditRoom.EditRoomForm.HandleChange | src/components/EditRoom.jsx:86-99 | the field is stored, its message and the server error cleared, and an edit of the unchanged copy is a change exactly when the value differs |
| EditRoom.EditRoomForm.Validate | src/components/EditRoom.jsx:102-129 | the error object is replaced, and the result is whether it is empty |
| EditRoom.EditRoomForm.HandleSubmit | src/components/EditRoom.jsx:132-168 | the room's id and the payload are sent exactly when the form validates, with a name of three or more characters and a positive price; the server error follows the answer |
| EditRoom.EditRoomForm.HandleReset | src/components/EditRoom.jsx:171-175 | back to the loaded copy with no messages, so nothing is left to save |
| EditRoom.EditRoomForm.SubmitEnabled | src/components/EditRoom.jsx:396 | the save button is enabled exactly when nothing is being saved and the form differs from the loaded copy |
| Auth.ServerErrorText | src/components/Login.jsx:59 | the server's text unless it is missing or empty, then the generic message; never empty |
| Register.WithInput | src/components/Register.jsx:20-27 | the named input takes the value, the others stay |
| Register.IsEmail | src/components/Register.jsx:47 | an accepted e-mail has no whitespace, at least five characters, and neither starts nor ends with `@` |
| Register.IsEmailMatchesPattern | src/components/Register.jsx:47 | the scan accepts exactly the strings of the form `a@b.c` with non-empty parts free of whitespace and `@` |
| Register.ScanMatchesPattern | src/components/Register.jsx:47 | every string the scan accepts splits as `a@b.c` with clean non-empty parts |
| Register.PatternPassesScan | src/components/Register.jsx:47 | every string of the form `a@b.c` with clean non-empty parts passes the scan |
| Register.RegisterErrorsOf | src/components/Register.jsx:29-72 | each input's message is empty or names the rule it breaks, exactly when it breaks it |
| Register.RegisterValidIff | src/components/Register.jsx:29-72 | the form passes exactly when the name is non-empty, the e-mail matches, the password has six characters and the confirmation repeats it |
| Register.ComputeRegisterErrors | src/components/Register.jsx:29-72 | the step-by-step validation builds that error object, and the flag is set exactly when it is clean |
| Register.RegisterForm.constructor | src/components/Register.jsx:7-19 | empty inputs and messages |
| Register.RegisterForm.HandleChange | src/components/Register.jsx:20-27 | only the form changes |
| Register.RegisterForm.ValidateForm | src/components/Register.jsx:29-72 | the messages are replaced, and the result is whether they are all empty |
| Register.RegisterForm.HandleSubmit | src/components/Register.jsx:74-92 | the request is sent exactly for a valid form, so with a matching e-mail and a six-character password; the notice or server error follows the answer |
| Login.WithInput | src/components/Login.jsx:16-23 | the named input takes the value, the other stays |
| Login.LoginErrorsOf | src/components/Login.jsx:25-46 | each input's message is "required" exactly when it is empty |
| Login.ComputeLoginErrors | src/components/Login.jsx:25-46 | the step-by-step validation builds that error object, and the flag is set exactly when both inputs are filled |
| Login.LoginForm.constructor | src/components/Login.jsx:7-15 | empty inputs and messages |
| Login.LoginForm.HandleChange | src/components/Login.jsx:16-23 | only the form changes |
| Login.LoginForm.ValidateForm | src/components/Login.jsx:25-46 | the messages are replaced, and the result is whether both are empty |
| Login.LoginForm.HandleSubmit | src/components/Login.jsx:48-62 | the credentials are sent exactly when both inputs are filled; the notice or server error follows the answer |
| App.ProtectedRoute | src/App.js:17-25 | the page renders exactly with a token, otherwise a redirect to the login page |
| App.PublicRoute | src/App.js:27-35 | the page renders exactly without a token, otherwise a redirect to the owner's rooms |
| App.GuardsAreComplementary | src/App.js:17-35 | for any token exactly one of the two guards lets its page through |
| App.Match | src/App.js:42-117 | the public paths, the protected paths with `/edit-room/:id`, and the catch-all partition every path |
| App.Resolve | src/App.js:42-117 | a path renders directly exactly when its guard admits the token, a rendered page is protected exactly when there is a token, and a redirect goes to "/", "/login" or "/my_rooms" |
| App.Follow | src/App.js:17-117 | wherever navigation renders, the page is protected exactly when there is a token |
| App.EveryPathSettles | src/App.js:17-117 | every path settles on a page within two redirects, and the page is protected exactly when there is a token |
| App.EmptyTokenIsNoToken | src/App.js:18-20 | an empty stored token routes like no token |

## Left out

- Services and the network: every call to the room, booking and authentication services is replaced by a parameter holding its answer. The submit handlers return what they would send; the archive, restore and cancel handlers send only the id they are given and return nothing but a notice.
- `localStorage`: the token and the cached room list are parameters; writing the fetched rooms to storage is not modelled.
- Asynchrony: each handler runs to completion, and the effects that React would run after a render (price recalculation, change tracking) run at the end of the handler that triggers them.
- Timers, navigation after success, `window.confirm` and `alert`: the confirmation is part of the cancel outcome, the alert is a returned notice, and the redirects after a successful submit are not modelled.
- AddBookings.BookingComposer.HandleSubmit: the classification of an HTTP failure into a message (HTML response, parse failure, no response, request setup) is not modelled; the message arrives inside the outcome.
- Rendering: JSX, CSS, icons, the date and price formatting of the booking cards, and `getMinEndDate`/`getTodayDate` (which only set the date pickers' `min`) are not modelled.
- The header, the "my rooms" and "available rooms" wrappers and the service modules are not part of this model.
- JsStrings.ParseNumber: exponents, hexadecimal, binary and octal literals and `Infinity` are not recognised, so for such text the model says NaN where JavaScript gives a number. The value is the exact rational the literal denotes, where `Number` rounds it to the nearest double: a tiny positive fraction such as `0.` followed by 400 zeros and a `1` is 0 in JavaScript, so the create form rejects it as a price while the model accepts it, and a bound above 2^53 such as `9007199254740993` reads as 9007199254740992 in JavaScript, so the list admits a room at that price while the model does not.
- JsStrings.ToLower: only ASCII letters and the basic Cyrillic capitals are lowered; other Unicode case mappings are left as they are.
- String lengths count Unicode scalar values, where JavaScript counts UTF-16 code units; they differ only for characters outside the Basic Multilingual Plane.
- Rooms.Room: prices, statuses, capacities and areas from the API are integers; fractional prices in a fetched room are not modelled.
- Dates are integer millisecond timestamps, `None` for an empty date input; parsing the date text is not modelled.
- App.Match: exact, case-sensitive path matching without a trailing slash; the router's case-insensitive and trailing-slash matching is not modelled.
- EditRoom.EditRoomForm.HandleReset: before a room is loaded the source copies the empty object `{}` into the form; the model keeps the form as it was in that case.
- CreateRoom.CreateRoomForm.HandleChange: the create screen has no status input, so it requires a field other than the status.
- Browser constraint validation: the `required` and `min` attributes of the date inputs and the end date's `disabled` without a start date (src/components/AddBookings.jsx:224-237), `type="email"` (src/components/Login.jsx:73, src/components/Register.jsx:116) and `type="number" min="1" step="1"` on the price (src/components/CreateRoom.jsx:188-197, src/components/EditRoom.jsx:285-294) are not modelled. The contracts describe what the handlers do with the values they receive; a browser may refuse some of those values before a handler runs (an end date before the start, for example).
- JsStrings.ParseInt: the value is an exact integer, where JavaScript rounds a value beyond 2^53 to the nearest double.
