/**
 * The booking composer: a selection of rooms (optionally seeded from the
 * `roomId` query parameter and the cached room list), a start and an end
 * date, the nights and total price derived from them, and the submit handler
 * with its ordered checks and the `roomIds` payload.
 *
 * Dates are millisecond timestamps (`new Date(value)` of a date input);
 * `None` stands for the empty input.
 */
module AddBookings {
  import opened Common
  import opened JsStrings
  import opened Rooms

  const DayMs := 1000 * 60 * 60 * 24

  const NoRoomsMsg := "Выберите хотя бы одну комнату"
  const NoDatesMsg := "Укажите даты бронирования"
  const BadRangeMsg := "Дата окончания должна быть позже даты начала"

  // ---------------------------------------------------------------- selection

  /** `selectedRooms.some(r => r.id === id)`. */
  predicate IsSelected(selected: seq<Room>, id: int) {
    exists i :: 0 <= i < |selected| && selected[i].id == id
  }

  /** No id occurs twice. */
  predicate DistinctIds(rooms: seq<Room>) {
    forall i, j :: 0 <= i < j < |rooms| ==> rooms[i].id != rooms[j].id
  }

  /** `rooms.filter(r => r.id !== id)`: exactly the rooms with that id are dropped. */
  function RemoveId(rooms: seq<Room>, id: int): (r: seq<Room>)
    ensures !IsSelected(r, id)
    ensures forall x :: x in r <==> x in rooms && x.id != id
    ensures IsSubsequence(r, rooms)
    ensures forall x :: multiset(r)[x] == if x.id == id then 0 else multiset(rooms)[x]
    decreases |rooms|
  {
    if rooms == [] then []
    else
      assert rooms == [rooms[0]] + rooms[1..];
      var rest := RemoveId(rooms[1..], id);
      if rooms[0].id == id then rest
      else
        assert ([rooms[0]] + rest)[1..] == rest;
        [rooms[0]] + rest
  }

  /** Removing an id nobody has changes nothing. */
  lemma {:induction false} RemoveAbsentId(rooms: seq<Room>, id: int)
    requires !IsSelected(rooms, id)
    ensures RemoveId(rooms, id) == rooms
    decreases |rooms|
  {
    if rooms != [] {
      assert rooms[0].id != id;
      assert !IsSelected(rooms[1..], id) by {
        forall i | 0 <= i < |rooms| - 1 ensures rooms[1..][i].id != id {
          assert rooms[1..][i] == rooms[i + 1];
        }
      }
      RemoveAbsentId(rooms[1..], id);
    }
  }

  /** Filtering distributes over concatenation. */
  lemma {:induction false} RemoveIdAppend(a: seq<Room>, b: seq<Room>, id: int)
    ensures RemoveId(a + b, id) == RemoveId(a, id) + RemoveId(b, id)
    decreases |a|
  {
    if a == [] {
      assert a + b == b;
    } else {
      assert (a + b)[1..] == a[1..] + b;
      RemoveIdAppend(a[1..], b, id);
    }
  }

  /** `handleRoomSelect`: deselect every room with that id, or append the room at the end. */
  function Toggle(selected: seq<Room>, room: Room): (r: seq<Room>)
    ensures IsSelected(selected, room.id) ==> !IsSelected(r, room.id) && IsSubsequence(r, selected)
    ensures IsSelected(selected, room.id) ==> r == RemoveId(selected, room.id)
    ensures !IsSelected(selected, room.id) ==> r == selected + [room]
  {
    if IsSelected(selected, room.id) then RemoveId(selected, room.id) else selected + [room]
  }

  /** Toggling keeps the ids of a selection distinct. */
  lemma ToggleKeepsDistinct(selected: seq<Room>, room: Room)
    requires DistinctIds(selected)
    ensures DistinctIds(Toggle(selected, room))
  {
    if IsSelected(selected, room.id) {
      SubsequenceKeepsDistinct(RemoveId(selected, room.id), selected);
    }
  }

  /** A subsequence of a list with distinct ids has distinct ids. */
  lemma {:induction false} SubsequenceKeepsDistinct(a: seq<Room>, b: seq<Room>)
    requires IsSubsequence(a, b) && DistinctIds(b)
    ensures DistinctIds(a)
    decreases |b|
  {
    if a != [] {
      assert DistinctIds(b[1..]) by {
        forall i, j | 0 <= i < j < |b| - 1 ensures b[1..][i].id != b[1..][j].id {
          assert b[1..][i] == b[i + 1] && b[1..][j] == b[j + 1];
        }
      }
      if a[0] == b[0] && IsSubsequence(a[1..], b[1..]) {
        SubsequenceKeepsDistinct(a[1..], b[1..]);
        forall j | 0 < j < |a| ensures a[0].id != a[j].id {
          assert a[j] == a[1..][j - 1];
          SubsequenceMember(a[1..], b[1..], j - 1);
        }
      } else {
        SubsequenceKeepsDistinct(a, b[1..]);
      }
    }
  }

  /** Every element of a subsequence comes from a later-or-equal position of the whole. */
  lemma {:induction false} SubsequenceMember(a: seq<Room>, b: seq<Room>, k: int)
    requires IsSubsequence(a, b) && 0 <= k < |a|
    ensures exists m :: 0 <= m < |b| && b[m] == a[k]
    decreases |b|
  {
    if a[0] == b[0] && IsSubsequence(a[1..], b[1..]) {
      if k == 0 {
        assert b[0] == a[0];
      } else {
        SubsequenceMember(a[1..], b[1..], k - 1);
        var m :| 0 <= m < |b| - 1 && b[1..][m] == a[1..][k - 1];
        assert b[m + 1] == a[k];
      }
    } else {
      SubsequenceMember(a, b[1..], k);
      var m :| 0 <= m < |b| - 1 && b[1..][m] == a[k];
      assert b[m + 1] == a[k];
    }
  }

  /** Toggling an unselected room twice gives the original selection back. */
  lemma ToggleTwiceRestores(selected: seq<Room>, room: Room)
    requires !IsSelected(selected, room.id)
    ensures Toggle(Toggle(selected, room), room) == selected
  {
    var once := selected + [room];
    assert once[|selected|].id == room.id;
    RemoveIdAppend(selected, [room], room.id);
    RemoveAbsentId(selected, room.id);
    assert RemoveId([room], room.id) == [];
  }

  /** The first room with the given id, as `rooms.find` returns it. */
  function FindById(rooms: seq<Room>, id: int): (r: Option<Room>)
    ensures r.None? <==> !IsSelected(rooms, id)
    ensures r.Some? ==> exists i :: 0 <= i < |rooms| && rooms[i] == r.value && r.value.id == id
                                    && forall j :: 0 <= j < i ==> rooms[j].id != id
    decreases |rooms|
  {
    if rooms == [] then None
    else if rooms[0].id == id then Some(rooms[0])
    else
      var r := FindById(rooms[1..], id);
      if r.Some? then
        var i :| 0 <= i < |rooms| - 1 && rooms[1..][i] == r.value && r.value.id == id
                 && forall j :: 0 <= j < i ==> rooms[1..][j].id != id;
        assert rooms[i + 1] == r.value;
        assert forall j :: 0 <= j < i + 1 ==> rooms[j].id != id by {
          forall j | 0 < j < i + 1 ensures rooms[j].id != id {
            assert rooms[j] == rooms[1..][j - 1];
          }
        }
        r
      else
        assert !IsSelected(rooms, id) by {
          forall i | 0 < i < |rooms| ensures rooms[i].id != id {
            assert rooms[i] == rooms[1..][i - 1];
          }
        }
        r
  }

  /**
   * The initial selection: with a cached room list and a non-empty `roomId`
   * parameter, the first cached room whose id equals `parseInt(roomId)`;
   * otherwise nothing.
   */
  function SeedSelection(cached: Option<seq<Room>>, roomIdParam: Option<string>): (r: seq<Room>)
    ensures |r| <= 1
    ensures |r| == 1 ==> cached.Some? && roomIdParam.Some? && ParseInt(roomIdParam.value) == Some(r[0].id)
    ensures |r| == 1 ==> exists i :: 0 <= i < |cached.value| && cached.value[i] == r[0]
                                     && forall j :: 0 <= j < i ==> cached.value[j].id != r[0].id
    ensures (&& cached.Some? && roomIdParam.Some? && roomIdParam.value != ""
             && ParseInt(roomIdParam.value).Some?
             && IsSelected(cached.value, ParseInt(roomIdParam.value).value)) ==> |r| == 1
  {
    if cached.None? || roomIdParam.None? || roomIdParam.value == "" then []
    else match ParseInt(roomIdParam.value)
      case None => []
      case Some(id) =>
        match FindById(cached.value, id)
        case None => []
        case Some(room) => [room]
  }

  /**
   * The "Book" link of a room in the list carries its id as `roomId`; when
   * that room is cached, the first cached room with the id is preselected.
   */
  lemma BookLinkPreselects(cached: seq<Room>, id: int)
    requires IsSelected(cached, id)
    ensures SeedSelection(Some(cached), Some(IntToString(id))) == [FindById(cached, id).value]
  {
    ParseIntOfIntToString(id);
  }

  /** `selectedRooms.map(room => room.id)`. */
  function RoomIds(rooms: seq<Room>): (ids: seq<int>)
    ensures |ids| == |rooms|
    ensures forall i :: 0 <= i < |rooms| ==> ids[i] == rooms[i].id
    decreases |rooms|
  {
    if rooms == [] then [] else [rooms[0].id] + RoomIds(rooms[1..])
  }

  // ---------------------------------------------------------------- nights and price

  function Abs(x: int): nat {
    if x < 0 then -x else x
  }

  /** `Math.ceil(a / b)` for a non-negative `a` and a positive `b`. */
  function CeilDiv(a: nat, b: nat): (q: nat)
    requires b > 0
    ensures q * b >= a
    ensures q > 0 ==> (q - 1) * b < a
    ensures q == 0 <==> a == 0
  {
    if a == 0 then 0
    else
      var q := (a - 1) / b + 1;
      assert (a - 1) / b * b <= a - 1 < ((a - 1) / b + 1) * b;
      q
  }

  /** The sum of the daily prices (missing: 0) of the selection. */
  function DailyRate(rooms: seq<Room>): int
    decreases |rooms|
  {
    if rooms == [] then 0 else DailyRate(rooms[..|rooms| - 1]) + PriceOrZero(rooms[|rooms| - 1])
  }

  /**
   * `rooms.reduce((sum, room) => sum + (room.pricePerDay || 0) * nights, 0)`:
   * the nights times the daily rate of the whole selection.
   */
  function TotalPrice(rooms: seq<Room>, nights: int): (total: int)
    ensures total == nights * DailyRate(rooms)
    decreases |rooms|
  {
    if rooms == [] then 0
    else
      var init := rooms[..|rooms| - 1];
      var price := PriceOrZero(rooms[|rooms| - 1]);
      assert nights * DailyRate(init) + price * nights == nights * (DailyRate(init) + price) by {
        assert price * nights == nights * price;
      }
      TotalPrice(init, nights) + price * nights
  }

  /** The price-recalculation effect: the nights and total shown for dates and a selection. */
  datatype Totals = Totals(nights: nat, total: int)

  function ComputeTotals(start: Option<int>, end: Option<int>, selected: seq<Room>): (t: Totals)
    ensures start.None? || end.None? || selected == [] ==> t == Totals(0, 0)
    ensures start.Some? && end.Some? && selected != [] ==>
      var diff := Abs(end.value - start.value);
      && (t.nights == 0 <==> diff == 0)
      && t.nights * DayMs >= diff
      && (t.nights > 0 ==> (t.nights - 1) * DayMs < diff)
    ensures t.total == t.nights * DailyRate(selected)
  {
    if start.None? || end.None? || selected == [] then Totals(0, 0)
    else
      var diffDays := CeilDiv(Abs(end.value - start.value), DayMs);
      if diffDays <= 0 then Totals(0, 0)
      else Totals(diffDays, TotalPrice(selected, diffDays))
  }

  /** For whole-day dates the nights are the day difference, in either order. */
  lemma NightsOfWholeDays(startDay: int, endDay: int, selected: seq<Room>)
    requires selected != []
    ensures ComputeTotals(Some(startDay * DayMs), Some(endDay * DayMs), selected).nights == Abs(endDay - startDay)
  {
    var n := ComputeTotals(Some(startDay * DayMs), Some(endDay * DayMs), selected).nights;
    var d := Abs(endDay - startDay);
    assert Abs(endDay * DayMs - startDay * DayMs) == d * DayMs;
    MulStrictCancel(n, d, DayMs);
    if n > 0 {
      MulStrictCancel(n - 1, d, DayMs);
    }
  }

  /** Multiplying by a positive factor keeps a strict order, and only it. */
  lemma MulStrictCancel(x: int, y: int, k: int)
    requires k > 0
    ensures x * k < y * k <==> x < y
  {
    if x < y {
      MulMonotone(x + 1, y, k);
    } else {
      MulMonotone(y, x, k);
    }
  }

  lemma MulMonotone(x: int, y: int, k: int)
    requires x <= y && k >= 0
    ensures x * k <= y * k
  {
    assert y * k - x * k == (y - x) * k;
  }

  // ---------------------------------------------------------------- submit

  datatype BookingError = NoRooms | NoDates | BadRange

  /** The submit checks in their order; the first that fails is reported. */
  function SubmitBlocker(selected: seq<Room>, start: Option<int>, end: Option<int>, nights: int): (r: Option<BookingError>)
    ensures r == Some(NoRooms) <==> selected == []
    ensures r == Some(NoDates) <==> selected != [] && (start.None? || end.None?)
    ensures r == Some(BadRange) <==> selected != [] && start.Some? && end.Some? && nights <= 0
  {
    if selected == [] then Some(NoRooms)
    else if start.None? || end.None? then Some(NoDates)
    else if nights <= 0 then Some(BadRange)
    else None
  }

  function ErrorMessage(e: BookingError): string {
    match e
    case NoRooms => NoRoomsMsg
    case NoDates => NoDatesMsg
    case BadRange => BadRangeMsg
  }

  /** The submit button's `disabled` expression: disabled while loading or when a submit would be refused. */
  function SubmitDisabled(loading: bool, selected: seq<Room>, start: Option<int>, end: Option<int>, nights: int): (d: bool)
    ensures d <==> loading || SubmitBlocker(selected, start, end, nights).Some?
  {
    loading || selected == [] || start.None? || end.None? || nights <= 0
  }

  /** With settled totals, the range check fails only for identical dates: end before start is accepted. */
  lemma RangeCheckOnlyRejectsEqualDates(selected: seq<Room>, start: int, end: int)
    requires selected != []
    ensures var t := ComputeTotals(Some(start), Some(end), selected);
      SubmitBlocker(selected, Some(start), Some(end), t.nights) == Some(BadRange) <==> start == end
  {
  }

  /** The request sent to the booking service. */
  datatype BookingRequest = BookingRequest(roomIds: seq<int>, startDate: int, endDate: int)

  /** The outcome of the create call: success, or the message the error handling produced. */
  datatype CreateOutcome = Created | Failed(message: string)

  // ---------------------------------------------------------------- screen state

  class BookingComposer {
    var availableRooms: seq<Room>
    var selectedRooms: seq<Room>
    var startDate: Option<int>
    var endDate: Option<int>
    var loading: bool
    var error: string
    var success: bool
    var totalPrice: int
    var nights: nat

    /** The selection holds each id once, and the nights and total agree with the dates and the selection (the effect has run). */
    ghost predicate Valid()
      reads this
    {
      && DistinctIds(selectedRooms)
      && Totals(nights, totalPrice) == ComputeTotals(startDate, endDate, selectedRooms)
    }

    /** Mount: the cached list becomes the choice, and the URL's room is preselected. */
    constructor (cached: Option<seq<Room>>, roomIdParam: Option<string>)
      ensures Valid()
      ensures availableRooms == cached.GetOr([])
      ensures selectedRooms == SeedSelection(cached, roomIdParam)
      ensures startDate.None? && endDate.None? && nights == 0 && totalPrice == 0
      ensures !loading && error == "" && !success
    {
      availableRooms := cached.GetOr([]);
      selectedRooms := SeedSelection(cached, roomIdParam);
      startDate, endDate := None, None;
      loading, error, success := false, "", false;
      totalPrice, nights := 0, 0;
    }

    /** Re-run the recalculation effect. */
    method Recompute()
      requires DistinctIds(selectedRooms)
      modifies this`nights, this`totalPrice
      ensures Valid()
    {
      var t := ComputeTotals(startDate, endDate, selectedRooms);
      nights, totalPrice := t.nights, t.total;
    }

    /** `handleRoomSelect`. */
    method HandleRoomSelect(room: Room)
      requires Valid()
      modifies this
      ensures Valid()
      ensures selectedRooms == Toggle(old(selectedRooms), room)
      ensures startDate == old(startDate) && endDate == old(endDate)
      ensures availableRooms == old(availableRooms) && error == old(error) && success == old(success)
      ensures loading == old(loading)
    {
      if IsSelected(selectedRooms, room.id) {
        selectedRooms := RemoveId(selectedRooms, room.id);
      } else {
        selectedRooms := selectedRooms + [room];
      }
      ToggleKeepsDistinct(old(selectedRooms), room);
      Recompute();
    }

    /** `removeRoom`. */
    method RemoveRoom(roomId: int)
      requires Valid()
      modifies this
      ensures Valid()
      ensures selectedRooms == RemoveId(old(selectedRooms), roomId)
      ensures startDate == old(startDate) && endDate == old(endDate)
      ensures availableRooms == old(availableRooms) && error == old(error) && success == old(success)
      ensures loading == old(loading)
    {
      SubsequenceKeepsDistinct(RemoveId(selectedRooms, roomId), selectedRooms);
      selectedRooms := RemoveId(selectedRooms, roomId);
      Recompute();
    }

    /** `handleDateChange`: only the named date changes. */
    method HandleDateChange(isStart: bool, value: Option<int>)
      requires Valid()
      modifies this
      ensures Valid()
      ensures startDate == if isStart then value else old(startDate)
      ensures endDate == if isStart then old(endDate) else value
      ensures selectedRooms == old(selectedRooms) && availableRooms == old(availableRooms)
      ensures error == old(error) && success == old(success) && loading == old(loading)
    {
      if isStart {
        startDate := value;
      } else {
        endDate := value;
      }
      Recompute();
    }

    /**
     * `handleSubmit`: the checks run in order and the first failure sets its
     * message; otherwise the request carries the selected ids in selection
     * order and the dates.
     */
    method HandleSubmit(outcome: CreateOutcome) returns (request: Option<BookingRequest>)
      requires Valid()
      modifies this`loading, this`error, this`success
      ensures Valid()
      ensures var blocker := SubmitBlocker(selectedRooms, startDate, endDate, nights);
        && (request.None? <==> blocker.Some?)
        && (blocker.Some? ==> error == ErrorMessage(blocker.value) && success == old(success) && loading == old(loading))
      ensures request.Some? ==> request.value == BookingRequest(RoomIds(selectedRooms), startDate.value, endDate.value)
      ensures request.Some? ==> !loading && success == (old(success) || outcome.Created?)
      ensures request.Some? ==> error == if outcome.Created? then "" else outcome.message
    {
      if selectedRooms == [] {
        error := NoRoomsMsg;
        return None;
      }
      if startDate.None? || endDate.None? {
        error := NoDatesMsg;
        return None;
      }
      if nights <= 0 {
        error := BadRangeMsg;
        return None;
      }
      loading := true;
      error := "";
      request := Some(BookingRequest(RoomIds(selectedRooms), startDate.value, endDate.value));
      if outcome.Created? {
        success := true;
      } else {
        error := outcome.message;
      }
      loading := false;
    }
  }
}
