/**
 * The room list screen (used both for "my rooms", with owner actions, and for
 * the available rooms, with booking actions): the search and price filters,
 * the status labels, the price range shown as placeholders, which buttons a
 * room card offers, and the handlers that archive and restore rooms.
 */
module RoomsList {
  import opened Common
  import opened JsStrings
  import opened Rooms

  // ---------------------------------------------------------------- filtering

  /** The two price-bound inputs, kept as the strings typed. */
  datatype PriceFilter = PriceFilter(min: string, max: string)

  datatype Bound = Min | Max

  const NoPriceFilter := PriceFilter("", "")

  /** The lowercased name (missing: "") contains the lowercased search term. */
  predicate MatchesSearch(room: Room, term: string) {
    Includes(ToLower(NameOrEmpty(room)), ToLower(term))
  }

  /**
   * `min === "" || price >= Number(min)`: an empty bound admits every price,
   * a bound `Number` reads as NaN admits none (a comparison with NaN is
   * false), and a blank but non-empty bound reads as 0.
   */
  function MeetsMin(price: int, min: string): (ok: bool)
    ensures min == "" ==> ok
    ensures min != "" && ParseNumber(min).None? ==> !ok
    ensures min != "" && Trim(min) == "" ==> (ok <==> price >= 0)
  {
    min == "" || (ParseNumber(min).Some? && price as real >= ParseNumber(min).value)
  }

  /**
   * `max === "" || price <= Number(max)`: an empty bound admits every price,
   * a bound `Number` reads as NaN admits none, and a blank but non-empty
   * bound reads as 0.
   */
  function MeetsMax(price: int, max: string): (ok: bool)
    ensures max == "" ==> ok
    ensures max != "" && ParseNumber(max).None? ==> !ok
    ensures max != "" && Trim(max) == "" ==> (ok <==> price <= 0)
  {
    max == "" || (ParseNumber(max).Some? && price as real <= ParseNumber(max).value)
  }

  /** The callback of `rooms.filter`: without a search term or price bounds every room passes. */
  function Matches(room: Room, term: string, filter: PriceFilter): (ok: bool)
    ensures filter == NoPriceFilter ==> (ok <==> MatchesSearch(room, term))
    ensures term == "" && filter == NoPriceFilter ==> ok
  {
    && MatchesSearch(room, term)
    && MeetsMin(PriceOrZero(room), filter.min)
    && MeetsMax(PriceOrZero(room), filter.max)
  }

  /** `rooms.filter(...)`: the rooms that match, in their original order. */
  function Filtered(rooms: seq<Room>, term: string, filter: PriceFilter): (r: seq<Room>)
    ensures |r| <= |rooms|
    ensures forall i :: 0 <= i < |r| ==> r[i] in rooms && Matches(r[i], term, filter)
    ensures forall x :: multiset(r)[x] == if Matches(x, term, filter) then multiset(rooms)[x] else 0
    decreases |rooms|
  {
    if rooms == [] then []
    else
      assert rooms == [rooms[0]] + rooms[1..];
      if Matches(rooms[0], term, filter) then [rooms[0]] + Filtered(rooms[1..], term, filter)
      else Filtered(rooms[1..], term, filter)
  }

  /** A room is shown exactly when it is in the list and matches all three conditions. */
  lemma {:induction false} FilteredMembership(rooms: seq<Room>, term: string, filter: PriceFilter, room: Room)
    ensures room in Filtered(rooms, term, filter) <==> room in rooms && Matches(room, term, filter)
    decreases |rooms|
  {
    if rooms != [] {
      FilteredMembership(rooms[1..], term, filter, room);
      assert rooms == [rooms[0]] + rooms[1..];
    }
  }

  /** Filtering only drops rooms; the survivors keep their order. */
  lemma {:induction false} FilteredIsSubsequence(rooms: seq<Room>, term: string, filter: PriceFilter)
    ensures IsSubsequence(Filtered(rooms, term, filter), rooms)
    decreases |rooms|
  {
    if rooms != [] {
      FilteredIsSubsequence(rooms[1..], term, filter);
      var rest := Filtered(rooms[1..], term, filter);
      if Matches(rooms[0], term, filter) {
        assert ([rooms[0]] + rest)[1..] == rest;
      }
    }
  }

  /** With an empty search term and no price bounds every room is shown. */
  lemma {:induction false} FilteredWithoutCriteria(rooms: seq<Room>)
    ensures Filtered(rooms, "", NoPriceFilter) == rooms
    decreases |rooms|
  {
    if rooms != [] {
      assert Matches(rooms[0], "", NoPriceFilter);
      FilteredWithoutCriteria(rooms[1..]);
      assert rooms == [rooms[0]] + rooms[1..];
    }
  }

  /** For a bound the input guard accepts, the price test is an inclusive integer comparison. */
  lemma DigitBoundsAreInclusive(price: int, bound: string)
    requires bound != "" && DigitsOnly(bound)
    ensures MeetsMin(price, bound) <==> price >= DigitsValue(bound)
    ensures MeetsMax(price, bound) <==> price <= DigitsValue(bound)
  {
    TrimOfNoWhitespace(bound);
    ParseNumberOfDigits(bound);
  }

  /** The guard of `handlePriceFilterChange`: `value === "" || /^\d+$/.test(value)`. */
  function PriceInputAccepted(value: string): (ok: bool)
    ensures ok <==> DigitsOnly(value)
  {
    value == "" || (|value| > 0 && DigitsOnly(value))
  }

  // ---------------------------------------------------------------- status labels

  datatype StatusInfo = StatusInfo(text: string, className: string)

  /** `STATUS_MAP`: the label and CSS class of each known room status. */
  const StatusMap: map<int, StatusInfo> := map[
    Available := StatusInfo("Доступна", "status-available"),
    Maintenance := StatusInfo("На обслуживании", "status-maintenance"),
    Blocked := StatusInfo("Заблокирована", "status-blocked"),
    Archived := StatusInfo("В архиве", "status-archived")]

  const UnknownStatus := StatusInfo("Неизвестно", "status-unknown")

  /** `getStatusInfo`: the mapped entry for a known status, the "unknown" entry otherwise. */
  function GetStatusInfo(status: int): (r: StatusInfo)
    ensures Available <= status <= Archived ==> status in StatusMap && r == StatusMap[status]
    ensures r == UnknownStatus <==> !(Available <= status <= Archived)
  {
    match status
    case 0 => StatusInfo("Доступна", "status-available")
    case 1 => StatusInfo("На обслуживании", "status-maintenance")
    case 2 => StatusInfo("Заблокирована", "status-blocked")
    case 3 => StatusInfo("В архиве", "status-archived")
    case _ => UnknownStatus
  }

  // ---------------------------------------------------------------- price range

  /** `Math.min` over the prices (missing: 0), or 0 for an empty list. */
  function MinPrice(rooms: seq<Room>): (r: int)
    ensures rooms == [] ==> r == 0
    ensures rooms != [] ==> exists i :: 0 <= i < |rooms| && r == PriceOrZero(rooms[i])
    ensures forall i :: 0 <= i < |rooms| ==> r <= PriceOrZero(rooms[i])
    decreases |rooms|
  {
    if |rooms| == 0 then 0
    else if |rooms| == 1 then PriceOrZero(rooms[0])
    else
      var rest := MinPrice(rooms[1..]);
      if PriceOrZero(rooms[0]) <= rest then PriceOrZero(rooms[0]) else rest
  }

  /** `Math.max` over the prices (missing: 0), or 0 for an empty list. */
  function MaxPrice(rooms: seq<Room>): (r: int)
    ensures rooms == [] ==> r == 0
    ensures rooms != [] ==> exists i :: 0 <= i < |rooms| && r == PriceOrZero(rooms[i])
    ensures forall i :: 0 <= i < |rooms| ==> PriceOrZero(rooms[i]) <= r
    decreases |rooms|
  {
    if |rooms| == 0 then 0
    else if |rooms| == 1 then PriceOrZero(rooms[0])
    else
      var rest := MaxPrice(rooms[1..]);
      if PriceOrZero(rooms[0]) >= rest then PriceOrZero(rooms[0]) else rest
  }

  /** The placeholder range is never inverted. */
  lemma MinPriceAtMostMaxPrice(rooms: seq<Room>)
    ensures MinPrice(rooms) <= MaxPrice(rooms)
  {
    if rooms != [] {
      assert MinPrice(rooms) <= PriceOrZero(rooms[0]) <= MaxPrice(rooms);
    }
  }

  // ---------------------------------------------------------------- buttons

  datatype RoomAction = Book | Edit | Archive | Restore

  /**
   * The actions a room card lets the user take. In owner mode an archived
   * room offers "restore", any other "edit" and "archive"; otherwise the
   * book button is shown for every room and enabled only for an available one.
   */
  function EnabledActions(status: int, ownerMode: bool): (r: set<RoomAction>)
    ensures Book in r <==> !ownerMode && status == Available
    ensures Restore in r <==> ownerMode && status == Archived
    ensures Edit in r <==> ownerMode && status != Archived
    ensures Archive in r <==> Edit in r
    ensures ownerMode ==> r != {}
  {
    if ownerMode then
      if status == Archived then {Restore} else {Edit, Archive}
    else if status == Available then {Book}
    else {}
  }

  /** The "clear price filters" button is enabled unless both bounds are empty. */
  function ClearFiltersEnabled(filter: PriceFilter): (enabled: bool)
    ensures !enabled <==> filter == NoPriceFilter
  {
    !(filter.min == "" && filter.max == "")
  }

  // ---------------------------------------------------------------- screen state

  /** The state of one mounted room list. */
  class RoomsListView {
    const ownerMode: bool
    var rooms: seq<Room>
    var loading: bool
    var searchTerm: string
    var priceFilter: PriceFilter

    /** The price inputs only ever hold "" or digits. */
    ghost predicate Valid()
      reads this
    {
      DigitsOnly(priceFilter.min) && DigitsOnly(priceFilter.max)
    }

    /** The rooms currently on screen. */
    function Shown(): (r: seq<Room>)
      reads this
      ensures IsSubsequence(r, rooms)
    {
      FilteredIsSubsequence(rooms, searchTerm, priceFilter);
      Filtered(rooms, searchTerm, priceFilter)
    }

    constructor (ownerMode: bool)
      ensures Valid() && this.ownerMode == ownerMode
      ensures rooms == [] && loading && searchTerm == "" && priceFilter == NoPriceFilter
    {
      this.ownerMode := ownerMode;
      rooms := [];
      loading := true;
      searchTerm := "";
      priceFilter := NoPriceFilter;
    }

    /** The mount effect: on a successful fetch the list is replaced; either way loading ends. */
    method Load(fetched: Option<seq<Room>>)
      requires Valid()
      modifies this
      ensures Valid() && !loading
      ensures rooms == if fetched.Some? then fetched.value else old(rooms)
      ensures searchTerm == old(searchTerm) && priceFilter == old(priceFilter)
    {
      loading := true;
      if fetched.Some? {
        rooms := fetched.value;
      }
      loading := false;
    }

    /** Typing in the search box. */
    method SetSearchTerm(term: string)
      requires Valid()
      modifies this`searchTerm
      ensures Valid() && searchTerm == term
    {
      searchTerm := term;
    }

    /** `handlePriceFilterChange`: accept "" or digits into one bound, ignore anything else. */
    method HandlePriceFilterChange(value: string, bound: Bound)
      requires Valid()
      modifies this`priceFilter
      ensures Valid()
      ensures !DigitsOnly(value) ==> priceFilter == old(priceFilter)
      ensures DigitsOnly(value) && bound == Min ==> priceFilter == old(priceFilter).(min := value)
      ensures DigitsOnly(value) && bound == Max ==> priceFilter == old(priceFilter).(max := value)
    {
      if PriceInputAccepted(value) {
        priceFilter := if bound == Min then priceFilter.(min := value) else priceFilter.(max := value);
      }
    }

    /** `clearPriceFilters`. */
    method ClearPriceFilters()
      requires Valid()
      modifies this`priceFilter
      ensures Valid() && priceFilter == NoPriceFilter
    {
      priceFilter := NoPriceFilter;
    }

    /** The "reset all filters" button of the empty state: afterwards every room is shown. */
    method ResetAllFilters()
      requires Valid()
      modifies this`searchTerm, this`priceFilter
      ensures Valid() && searchTerm == "" && priceFilter == NoPriceFilter
      ensures Shown() == rooms
    {
      searchTerm := "";
      priceFilter := NoPriceFilter;
      FilteredWithoutCriteria(rooms);
    }

    /** `handleDeleteRoom`: after a successful archive call the room's status becomes 3. */
    method HandleDeleteRoom(roomId: int, callOk: bool)
      requires Valid()
      modifies this`rooms
      ensures Valid()
      ensures !callOk ==> rooms == old(rooms)
      ensures callOk ==> rooms == WithStatus(old(rooms), roomId, Archived)
    {
      if callOk {
        rooms := WithStatus(rooms, roomId, Archived);
      }
    }

    /** `handleRestoreRoom`: after a successful restore call the room's status becomes 0. */
    method HandleRestoreRoom(roomId: int, callOk: bool)
      requires Valid()
      modifies this`rooms
      ensures Valid()
      ensures !callOk ==> rooms == old(rooms)
      ensures callOk ==> rooms == WithStatus(old(rooms), roomId, Available)
    {
      if callOk {
        rooms := WithStatus(rooms, roomId, Available);
      }
    }
  }

  /** Archiving then restoring a room leaves it available; nothing else changes. */
  lemma ArchiveThenRestore(rooms: seq<Room>, roomId: int)
    ensures WithStatus(WithStatus(rooms, roomId, Archived), roomId, Available)
         == WithStatus(rooms, roomId, Available)
  {
    WithStatusTwice(rooms, roomId, Archived, Available);
  }
}
