/** The booking screen of one service: it groups the fetched slots by day,
    shows the days as a sorted strip, shows the slots of the chosen day with
    their availability, and walks the user through a confirmation dialog. */
module CalendarScreen {
  import opened Js
  import opened Types
  import StringOrder
  import CalendarSlice
  import ScreenView

  // ---------------------------------------------------------------------
  // Grouping the slots by day

  /** The slots of `slots` whose day is `d`, in input order. */
  function SlotsOn(slots: seq<CalendarSlot>, d: string): seq<CalendarSlot> {
    if slots == [] then []
    else
      var last := slots[|slots| - 1];
      SlotsOn(slots[..|slots| - 1], d) + if last.day == d then [last] else []
  }

  /** `SlotsOn` keeps every slot of day `d` as often as it occurs, and no
      other slot. */
  lemma {:induction false} SlotsOnCounts(slots: seq<CalendarSlot>, d: string, x: CalendarSlot)
    ensures multiset(SlotsOn(slots, d))[x] == if x.day == d then multiset(slots)[x] else 0
  {
    if slots != [] {
      var init, last := slots[..|slots| - 1], slots[|slots| - 1];
      assert slots == init + [last];
      SlotsOnCounts(init, d, x);
    }
  }

  /** A day no slot has gets no slots. */
  lemma {:induction false} SlotsOnAbsentDay(slots: seq<CalendarSlot>, d: string)
    requires forall i | 0 <= i < |slots| :: slots[i].day != d
    ensures SlotsOn(slots, d) == []
  {
    if slots != [] {
      SlotsOnAbsentDay(slots[..|slots| - 1], d);
    }
  }

  ghost predicate HasDay(slots: seq<CalendarSlot>, d: string) {
    exists i | 0 <= i < |slots| :: slots[i].day == d
  }

  /** The distinct days of `slots` in order of first appearance: the key order
      of the object the grouping loop fills. */
  function DayOrder(slots: seq<CalendarSlot>): (days: seq<string>)
    ensures StringOrder.Distinct(days)
    ensures forall i | 0 <= i < |slots| :: slots[i].day in days
    ensures forall k | 0 <= k < |days| :: HasDay(slots, days[k])
  {
    if slots == [] then []
    else
      var init, last := slots[..|slots| - 1], slots[|slots| - 1];
      var days := DayOrder(init);
      assert forall i | 0 <= i < |init| :: slots[i] == init[i];
      if last.day in days then days else days + [last.day]
  }

  /** `grouped` and its key order `keys` are what the grouping loop builds
      from `slots`: one key per distinct day, in order of first appearance,
      each holding that day's slots in input order. */
  ghost predicate IsGrouping(slots: seq<CalendarSlot>, grouped: map<string, seq<CalendarSlot>>, keys: seq<string>) {
    && keys == DayOrder(slots)
    && (forall d :: d in grouped <==> d in keys)
    && (forall d | d in grouped :: grouped[d] == SlotsOn(slots, d))
  }

  /** Extending the slots by `slots[i]` adds its day to the key order when the
      day is new. */
  lemma DayOrderStep(slots: seq<CalendarSlot>, i: nat)
    requires i < |slots|
    ensures DayOrder(slots[..i + 1]) ==
              if slots[i].day in DayOrder(slots[..i]) then DayOrder(slots[..i])
              else DayOrder(slots[..i]) + [slots[i].day]
  {
    assert slots[..i + 1][..i] == slots[..i];
  }

  /** Extending the slots by `slots[i]` appends it to its own day's slots. */
  lemma SlotsOnStep(slots: seq<CalendarSlot>, i: nat, d: string)
    requires i < |slots|
    ensures SlotsOn(slots[..i + 1], d) == SlotsOn(slots[..i], d) + if slots[i].day == d then [slots[i]] else []
  {
    assert slots[..i + 1][..i] == slots[..i];
  }

  /** The loop body for a slot whose day already has a bucket: the slot is
      appended to it. */
  lemma GroupingStepKnownDay(slots: seq<CalendarSlot>, i: nat, grouped: map<string, seq<CalendarSlot>>, keys: seq<string>)
    requires i < |slots| && slots[i].day in grouped
    requires IsGrouping(slots[..i], grouped, keys)
    ensures IsGrouping(slots[..i + 1], grouped[slots[i].day := grouped[slots[i].day] + [slots[i]]], keys)
  {
    DayOrderStep(slots, i);
    var grouped' := grouped[slots[i].day := grouped[slots[i].day] + [slots[i]]];
    forall d | d in grouped' ensures grouped'[d] == SlotsOn(slots[..i + 1], d) {
      SlotsOnStep(slots, i, d);
    }
  }

  /** The loop body for a slot whose day has no bucket yet: a bucket holding
      the slot is created, and the day becomes the last key. */
  lemma GroupingStepNewDay(slots: seq<CalendarSlot>, i: nat, grouped: map<string, seq<CalendarSlot>>, keys: seq<string>)
    requires i < |slots| && slots[i].day !in grouped
    requires IsGrouping(slots[..i], grouped, keys)
    ensures IsGrouping(slots[..i + 1], grouped[slots[i].day := [slots[i]]], keys + [slots[i].day])
  {
    DayOrderStep(slots, i);
    SlotsOnAbsentDay(slots[..i], slots[i].day);
    var grouped' := grouped[slots[i].day := [slots[i]]];
    forall d | d in grouped' ensures grouped'[d] == SlotsOn(slots[..i + 1], d) {
      SlotsOnStep(slots, i, d);
    }
  }

  /** The object the grouping loop has built after visiting `slots`, as a
      map from day to bucket. */
  function GroupOf(slots: seq<CalendarSlot>): map<string, seq<CalendarSlot>> {
    if slots == [] then map[]
    else
      var grouped, x := GroupOf(slots[..|slots| - 1]), slots[|slots| - 1];
      if x.day in grouped then grouped[x.day := grouped[x.day] + [x]] else grouped[x.day := [x]]
  }

  /** `GroupOf` and `DayOrder` are a grouping of the slots. */
  lemma {:induction false} GroupOfGroups(slots: seq<CalendarSlot>)
    ensures IsGrouping(slots, GroupOf(slots), DayOrder(slots))
  {
    if slots == [] {
      assert DayOrder(slots) == [];
    } else {
      var i := |slots| - 1;
      GroupOfGroups(slots[..i]);
      assert slots[..i + 1] == slots;
      if slots[i].day in GroupOf(slots[..i]) {
        GroupingStepKnownDay(slots, i, GroupOf(slots[..i]), DayOrder(slots[..i]));
      } else {
        GroupingStepNewDay(slots, i, GroupOf(slots[..i]), DayOrder(slots[..i]));
      }
    }
  }

  /** The `forEach` loop that fills `groupedSlots`. `keys` is the order in
      which it creates the buckets, which `Object.keys` reports. */
  method GroupSlots(slots: seq<CalendarSlot>) returns (grouped: map<string, seq<CalendarSlot>>, keys: seq<string>)
    ensures grouped == GroupOf(slots) && keys == DayOrder(slots)
    ensures IsGrouping(slots, grouped, keys)
  {
    grouped, keys := map[], [];
    var i := 0;
    while i < |slots|
      invariant 0 <= i <= |slots|
      invariant grouped == GroupOf(slots[..i]) && keys == DayOrder(slots[..i])
    {
      var slot := slots[i];
      assert slots[..i + 1][..i] == slots[..i];
      GroupingInvariant(slots[..i], grouped, keys);
      if slot.day in grouped {
        grouped := grouped[slot.day := grouped[slot.day] + [slot]];
      } else {
        grouped := grouped[slot.day := [slot]];
        keys := keys + [slot.day];
      }
      i := i + 1;
    }
    assert slots[..i] == slots;
    GroupOfGroups(slots);
  }

  /** The buckets built so far are keyed by exactly the days seen so far. */
  lemma GroupingInvariant(slots: seq<CalendarSlot>, grouped: map<string, seq<CalendarSlot>>, keys: seq<string>)
    requires grouped == GroupOf(slots) && keys == DayOrder(slots)
    ensures forall d :: d in grouped <==> d in keys
  {
    GroupOfGroups(slots);
  }

  /** The sum of the bucket lengths of the keys `ks`. */
  function BucketTotal(grouped: map<string, seq<CalendarSlot>>, ks: seq<string>): nat {
    if ks == [] then 0
    else (if ks[0] in grouped then |grouped[ks[0]]| else 0) + BucketTotal(grouped, ks[1..])
  }

  function DayTotal(slots: seq<CalendarSlot>, ks: seq<string>): nat {
    if ks == [] then 0 else |SlotsOn(slots, ks[0])| + DayTotal(slots, ks[1..])
  }

  function Occurrences(ks: seq<string>, d: string): nat {
    if ks == [] then 0 else (if ks[0] == d then 1 else 0) + Occurrences(ks[1..], d)
  }

  lemma {:induction false} OccursOnce(ks: seq<string>, d: string)
    requires StringOrder.Distinct(ks)
    ensures Occurrences(ks, d) == if d in ks then 1 else 0
  {
    if ks != [] {
      OccursOnce(ks[1..], d);
      if ks[0] == d {
        assert d !in ks[1..];
      }
    }
  }

  lemma {:induction false} DayTotalSnoc(init: seq<CalendarSlot>, x: CalendarSlot, ks: seq<string>)
    ensures DayTotal(init + [x], ks) == DayTotal(init, ks) + Occurrences(ks, x.day)
  {
    if ks != [] {
      assert (init + [x])[..|init|] == init;
      DayTotalSnoc(init, x, ks[1..]);
    }
  }

  lemma {:induction false} DayTotalCovers(slots: seq<CalendarSlot>, ks: seq<string>)
    requires StringOrder.Distinct(ks)
    requires forall i | 0 <= i < |slots| :: slots[i].day in ks
    ensures DayTotal(slots, ks) == |slots|
  {
    if slots == [] {
      DayTotalEmpty(ks);
    } else {
      var init, last := slots[..|slots| - 1], slots[|slots| - 1];
      assert slots == init + [last];
      DayTotalCovers(init, ks);
      DayTotalSnoc(init, last, ks);
      OccursOnce(ks, last.day);
    }
  }

  lemma {:induction false} DayTotalEmpty(ks: seq<string>)
    ensures DayTotal([], ks) == 0
  {
    if ks != [] {
      DayTotalEmpty(ks[1..]);
    }
  }

  lemma {:induction false} BucketTotalIsDayTotal(slots: seq<CalendarSlot>, grouped: map<string, seq<CalendarSlot>>, ks: seq<string>)
    requires forall k | k in ks :: k in grouped && grouped[k] == SlotsOn(slots, k)
    ensures BucketTotal(grouped, ks) == DayTotal(slots, ks)
  {
    if ks != [] {
      BucketTotalIsDayTotal(slots, grouped, ks[1..]);
    }
  }

  /** No slot is dropped or duplicated: the buckets' lengths add up to the
      number of slots. */
  lemma GroupingKeepsEverySlot(slots: seq<CalendarSlot>, grouped: map<string, seq<CalendarSlot>>, keys: seq<string>)
    requires IsGrouping(slots, grouped, keys)
    ensures BucketTotal(grouped, keys) == |slots|
  {
    BucketTotalIsDayTotal(slots, grouped, keys);
    DayTotalCovers(slots, keys);
  }

  // ---------------------------------------------------------------------
  // The date strip and the visible bucket

  /** `Object.keys(groupedSlots).sort()` */
  function Dates(keys: seq<string>): (dates: seq<string>)
    ensures StringOrder.Sorted(dates)
    ensures multiset(dates) == multiset(keys)
  {
    StringOrder.Sort(keys)
  }

  /** The date strip lists every day that has a slot, and nothing else, in
      strictly ascending order; no slots give no dates. */
  lemma DatesAreSortedDays(slots: seq<CalendarSlot>, grouped: map<string, seq<CalendarSlot>>, keys: seq<string>)
    requires IsGrouping(slots, grouped, keys)
    ensures StringOrder.Ascending(Dates(keys))
    ensures forall i | 0 <= i < |slots| :: slots[i].day in Dates(keys)
    ensures forall k | 0 <= k < |Dates(keys)| :: HasDay(slots, Dates(keys)[k])
    ensures slots == [] ==> Dates(keys) == []
  {
    var dates := Dates(keys);
    StringOrder.SortDistinct(keys);
    StringOrder.SortMembers(keys);
    forall k | 0 <= k < |dates| ensures HasDay(slots, dates[k]) {
      assert dates[k] in dates;
      var j :| 0 <= j < |keys| && keys[j] == dates[k];
    }
  }

  /** `selectedDate ? groupedSlots[selectedDate] || [] : []` */
  function DisplayedSlots(grouped: map<string, seq<CalendarSlot>>, selectedDate: Option<string>): seq<CalendarSlot> {
    if Truthy(selectedDate) && selectedDate.value in grouped then grouped[selectedDate.value] else []
  }

  /** The visible slots are exactly the chosen day's slots in input order, and
      none when no day is chosen or the chosen day has no slots. */
  lemma DisplayedSlotsAreThatDay(slots: seq<CalendarSlot>, grouped: map<string, seq<CalendarSlot>>, keys: seq<string>,
                                 selectedDate: Option<string>)
    requires IsGrouping(slots, grouped, keys)
    ensures DisplayedSlots(grouped, selectedDate) == if Truthy(selectedDate) then SlotsOn(slots, selectedDate.value) else []
  {
    if Truthy(selectedDate) && selectedDate.value !in grouped {
      SlotsOnAbsentDay(slots, selectedDate.value);
    }
  }

  // ---------------------------------------------------------------------
  // Availability

  const FewLeftColor := "#FF6B6B"
  const SlotsLeftColor := "#666"

  /** A slot card can be pressed only while the slot has capacity left. */
  predicate IsAvailable(slot: CalendarSlot) {
    slot.remainingRequests > 0
  }

  /** The colour of a card's "N slots left" line. */
  function SlotsColor(slot: CalendarSlot): (color: string)
    ensures color == FewLeftColor <==> slot.remainingRequests <= 3
    ensures color == SlotsLeftColor <==> slot.remainingRequests > 3
  {
    if slot.remainingRequests <= 3 then FewLeftColor else SlotsLeftColor
  }

  /** The warning colour also marks fully booked slots (and negative counts,
      which are not clamped). */
  lemma UnavailableSlotsWarn(slot: CalendarSlot)
    ensures !IsAvailable(slot) ==> SlotsColor(slot) == FewLeftColor
  {
  }

  // ---------------------------------------------------------------------
  // Rendering

  /** What the screen renders: the skeleton, the error view, or the date strip
      and the slots of the chosen day. */
  datatype Screen =
    | Loading
    | Failed(message: string)
    | Booking(dates: seq<string>, displayedSlots: seq<CalendarSlot>)

  // ---------------------------------------------------------------------
  // The booking session

  /** The screen's four pieces of local state, and the store whose
      `selectedSlot` a slot press also sets. */
  class BookingSession {
    const store: CalendarSlice.CalendarStore
    var selectedDate: Option<string>
    var modalVisible: bool
    var selectedSlotForBooking: Option<CalendarSlot>
    var bookingSuccess: bool

    /** The dialog is open exactly while a slot is chosen for booking, and the
        success view shows only inside the open dialog. */
    ghost predicate Valid()
      reads this
    {
      && modalVisible == selectedSlotForBooking.Some?
      && (bookingSuccess ==> modalVisible)
    }

    constructor (store: CalendarSlice.CalendarStore)
      ensures this.store == store
      ensures selectedDate == None && !modalVisible && selectedSlotForBooking == None && !bookingSuccess
      ensures Valid()
    {
      this.store := store;
      selectedDate := None;
      modalVisible := false;
      selectedSlotForBooking := None;
      bookingSuccess := false;
    }

    /** The render body: grouping, the early returns for loading and error,
        then the date strip and the visible bucket. */
    method Render() returns (screen: Screen)
      ensures screen.Loading? <==> store.loading && store.slots == []
      ensures screen.Failed? <==> !store.loading && store.slots == [] && Truthy(store.error)
      ensures screen.Failed? ==> screen.message == store.error.value
      ensures screen.Booking? ==>
                && StringOrder.Ascending(screen.dates)
                && (forall i | 0 <= i < |store.slots| :: store.slots[i].day in screen.dates)
                && (forall k | 0 <= k < |screen.dates| :: HasDay(store.slots, screen.dates[k]))
                && screen.displayedSlots == if Truthy(selectedDate) then SlotsOn(store.slots, selectedDate.value) else []
    {
      var grouped, keys := GroupSlots(store.slots);
      var dates := Dates(keys);
      DatesAreSortedDays(store.slots, grouped, keys);
      match ScreenView.ChooseView(store.loading, store.error, |store.slots|)
      case Skeleton =>
        screen := Loading;
      case ErrorView(message) =>
        screen := Failed(message);
      case Content =>
        DisplayedSlotsAreThatDay(store.slots, grouped, keys, selectedDate);
        screen := Booking(dates, DisplayedSlots(grouped, selectedDate));
    }

    /** `handleDatePress`: no check that the date is in the strip. */
    method HandleDatePress(date: string)
      modifies this`selectedDate
      ensures selectedDate == Some(date)
      ensures Valid() == old(Valid())
    {
      selectedDate := Some(date);
    }

    /** `handleSlotPress`: records the slot in the store and opens the dialog
        on it, whatever the dialog showed before; the chosen date stays. */
    method HandleSlotPress(slot: CalendarSlot)
      modifies store`selectedSlot, this`selectedSlotForBooking, this`modalVisible, this`bookingSuccess
      ensures store.State() == CalendarSlice.Reduce(old(store.State()), CalendarSlice.SelectSlot(slot))
      ensures selectedSlotForBooking == Some(slot) && modalVisible && !bookingSuccess
      ensures Valid()
    {
      store.SelectSlot(slot);
      selectedSlotForBooking := Some(slot);
      modalVisible := true;
      bookingSuccess := false;
    }

    /** A slot card's `onPress`: an unavailable slot is ignored. */
    method PressSlotCard(slot: CalendarSlot)
      modifies store`selectedSlot, this`selectedSlotForBooking, this`modalVisible, this`bookingSuccess
      ensures IsAvailable(slot) ==>
                && store.selectedSlot == Some(slot)
                && selectedSlotForBooking == Some(slot) && modalVisible && !bookingSuccess
                && Valid()
      ensures !IsAvailable(slot) ==> unchanged(this) && unchanged(store)
    {
      if IsAvailable(slot) {
        HandleSlotPress(slot);
      }
    }

    /** `handleConfirmBooking`: only shows the success view; no booking is
        sent anywhere. The dialog stays open until the timer fires. */
    method HandleConfirmBooking()
      modifies this`bookingSuccess
      ensures bookingSuccess
      ensures old(Valid()) && modalVisible ==> Valid()
    {
      bookingSuccess := true;
    }

    /** The callback `handleConfirmBooking` schedules 2 seconds later. It
        closes the dialog but keeps the chosen date, and it fires whatever
        happened in between. */
    method TimerFires()
      modifies this`modalVisible, this`bookingSuccess, this`selectedSlotForBooking
      ensures !modalVisible && !bookingSuccess && selectedSlotForBooking == None
      ensures Valid()
    {
      modalVisible := false;
      bookingSuccess := false;
      selectedSlotForBooking := None;
    }

    /** `handleCancelBooking`: closes the dialog; the chosen date and the
        store's `selectedSlot` stay. */
    method HandleCancelBooking()
      modifies this`modalVisible, this`selectedSlotForBooking, this`bookingSuccess
      ensures !modalVisible && selectedSlotForBooking == None && !bookingSuccess
      ensures Valid()
    {
      modalVisible := false;
      selectedSlotForBooking := None;
      bookingSuccess := false;
    }
  }
}
