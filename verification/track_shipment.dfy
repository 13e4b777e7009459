/** The Track Shipment page (src/pages/TrackShipment.tsx): the search box with its
    suggestion list, and the tracking timeline synthesised from the selected booking. */
module TrackShipment {
  import opened Wrappers
  import opened Types
  import opened Seqs
  import opened Text

  /** Milliseconds in one hour: timestamps are `Date.getTime()` values. */
  const HourMs: int := 60 * 60 * 1000

  /** The fields of a booking the page reads. `date` is in milliseconds since the epoch. */
  datatype TrackedBooking = TrackedBooking(id: string, status: Status, date: int, pickup: string, drop: string)

  /** One timeline entry. `time` is in milliseconds; the page formats it for display. */
  datatype Event = Event(time: int, stage: string, location: string)

  /** The six stages of a delivered parcel, independent of how far a booking has got. */
  function FullCourse(b: TrackedBooking): seq<Event> {
    [ Event(b.date - 24 * HourMs, "Order Placed", b.pickup),
      Event(b.date - 18 * HourMs, "Pickup Scheduled", b.pickup),
      Event(b.date - 12 * HourMs, "Picked Up", b.pickup),
      Event(b.date - 6 * HourMs, "In Transit", "Distribution Center"),
      Event(b.date + 24 * HourMs, "Out for Delivery", b.drop),
      Event(b.date + 30 * HourMs, "Delivered", b.drop) ]
  }

  /** `trackingUpdates`: three pickup events, then `In Transit` for in-transit and delivered
      bookings, then the two drop events for delivered ones; nothing without a selection. */
  function Timeline(selected: Option<TrackedBooking>): (r: seq<Event>)
    ensures selected.None? ==> r == []
    ensures selected.Some? ==>
              var b := selected.value;
              && |r| >= 3
              && r[0] == Event(b.date - 24 * HourMs, "Order Placed", b.pickup)
              && r[1] == Event(b.date - 18 * HourMs, "Pickup Scheduled", b.pickup)
              && r[2] == Event(b.date - 12 * HourMs, "Picked Up", b.pickup)
              && (|r| > 3 <==> b.status == Delivered || b.status == InTransit)
              && (|r| > 3 ==> r[3] == Event(b.date - 6 * HourMs, "In Transit", "Distribution Center"))
              && (|r| > 4 <==> b.status == Delivered)
              && (|r| > 4 ==> |r| == 6 && r[4] == Event(b.date + 24 * HourMs, "Out for Delivery", b.drop)
                                       && r[5] == Event(b.date + 30 * HourMs, "Delivered", b.drop))
              && |r| <= 6
  {
    match selected
    case None => []
    case Some(b) =>
      var d := b.date;
      [ Event(d - 24 * HourMs, "Order Placed", b.pickup),
        Event(d - 18 * HourMs, "Pickup Scheduled", b.pickup),
        Event(d - 12 * HourMs, "Picked Up", b.pickup) ]
      + (if b.status == Delivered || b.status == InTransit
         then [Event(d - 6 * HourMs, "In Transit", "Distribution Center")] else [])
      + (if b.status == Delivered
         then [ Event(d + 24 * HourMs, "Out for Delivery", b.drop),
                Event(d + 30 * HourMs, "Delivered", b.drop) ] else [])
  }

  /** Every timeline is the first 6, 4 or 3 stages of the full course, by status. */
  lemma TimelineIsPrefixOfCourse(b: TrackedBooking)
    ensures var r := Timeline(Some(b));
            && |r| == (if b.status == Delivered then 6 else if b.status == InTransit then 4 else 3)
            && r == FullCourse(b)[..|r|]
  {
  }

  /** Event times strictly increase along the full course, hence along every timeline. */
  lemma TimelineIsChronological(selected: Option<TrackedBooking>)
    ensures var r := Timeline(selected);
            forall i, j :: 0 <= i < j < |r| ==> r[i].time < r[j].time
  {
    if selected.Some? {
      var b := selected.value;
      var c := FullCourse(b);
      assert forall i, j :: 0 <= i < j < 6 ==> c[i].time < c[j].time;
      TimelineIsPrefixOfCourse(b);
    }
  }

  /** Stage names are pairwise different, so a name identifies its stage. */
  lemma CourseLabelsDistinct(b: TrackedBooking)
    ensures var c := FullCourse(b);
            forall i, j :: 0 <= i < j < |c| ==> c[i].stage != c[j].stage
  {
  }

  /** An `In Transit` entry appears exactly for in-transit and delivered bookings, and a
      `Delivered` entry exactly for delivered ones. */
  lemma StageAppearsIff(b: TrackedBooking)
    ensures (exists i :: 0 <= i < |Timeline(Some(b))| && Timeline(Some(b))[i].stage == "In Transit")
            <==> b.status == Delivered || b.status == InTransit
    ensures (exists i :: 0 <= i < |Timeline(Some(b))| && Timeline(Some(b))[i].stage == "Delivered")
            <==> b.status == Delivered
  {
    var r := Timeline(Some(b));
    TimelineIsPrefixOfCourse(b);
    CourseLabelsDistinct(b);
    if b.status == Delivered || b.status == InTransit {
      assert r[3].stage == "In Transit";
    }
    if b.status == Delivered {
      assert r[5].stage == "Delivered";
    }
  }

  /** Example: a delivered booking dated 2024-01-10T00:00:00Z has
      `Out for Delivery` at 2024-01-11T00:00:00Z, at the drop location. */
  lemma DeliveredExample()
    ensures Timeline(Some(TrackedBooking("BD1", Delivered, 1704844800000, "A", "B")))[4]
            == Event(1704931200000, "Out for Delivery", "B")
  {
  }

  /** The search box's state. */
  datatype SearchState = SearchState(term: string, showSuggestions: bool, selected: Option<TrackedBooking>)

  const InitialSearch: SearchState := SearchState("", false, None)

  /** `filteredBookings`: bookings, in order, whose lower-cased id contains the lower-cased term. */
  function Suggestions(bookings: seq<TrackedBooking>, term: string): (r: seq<TrackedBooking>)
    ensures IsSubseq(r, bookings)
    ensures forall i :: 0 <= i < |r| ==> r[i] in bookings && IsSubstring(Lower(term), Lower(r[i].id))
    ensures forall i :: 0 <= i < |bookings| && IsSubstring(Lower(term), Lower(bookings[i].id)) ==> bookings[i] in r
    ensures forall b :: multiset(r)[b] ==
              if IsSubstring(Lower(term), Lower(b.id)) then multiset(bookings)[b] else 0
  {
    FilterMultiset(bookings, (b: TrackedBooking) => Includes(Lower(b.id), Lower(term)));
    Filter(bookings, (b: TrackedBooking) => Includes(Lower(b.id), Lower(term)))
  }

  /** An empty term suggests every booking. */
  lemma EmptyTermSuggestsAll(bookings: seq<TrackedBooking>)
    ensures Suggestions(bookings, "") == bookings
  {
    forall i | 0 <= i < |bookings| ensures Includes(Lower(bookings[i].id), Lower("")) {
      IncludesEmpty(Lower(bookings[i].id));
    }
    FilterKeepsAll(bookings, (b: TrackedBooking) => Includes(Lower(b.id), Lower("")));
  }

  /** The suggestion list is drawn when suggestions are on and at least one matches. */
  predicate SuggestionListShown(st: SearchState, bookings: seq<TrackedBooking>) {
    st.showSuggestions && |Suggestions(bookings, st.term)| > 0
  }

  /** What the user can do to the search box. */
  datatype Action = Type(value: string) | Choose(booking: TrackedBooking) | Focus | Blur

  /** `handleSearchChange`: store the term, show suggestions iff it is non-empty, and drop
      the selection when it is empty (a non-empty term keeps the previous selection). */
  function SearchChange(st: SearchState, value: string): (r: SearchState)
    ensures r.term == value
    ensures r.showSuggestions <==> |value| > 0
    ensures |value| == 0 ==> r.selected.None?
    ensures |value| > 0 ==> r.selected == st.selected
  {
    SearchState(value, |value| > 0, if |value| == 0 then None else st.selected)
  }

  /** `handleBookingSelect`: select the booking, put its id in the box, hide suggestions. */
  function BookingSelect(st: SearchState, b: TrackedBooking): (r: SearchState)
    ensures r.selected == Some(b) && r.term == b.id && !r.showSuggestions
  {
    SearchState(b.id, false, Some(b))
  }

  /** One user action. Focus re-shows suggestions for a non-empty term; blur hides them
      (the page does so after a 200 ms delay). */
  function Step(st: SearchState, a: Action): (r: SearchState)
    ensures r.showSuggestions ==> |r.term| > 0
    ensures a.Focus? ==> r.term == st.term && r.selected == st.selected && (r.showSuggestions <==> |st.term| > 0)
    ensures a.Blur? ==> r.term == st.term && r.selected == st.selected && !r.showSuggestions
  {
    match a
    case Type(v) => SearchChange(st, v)
    case Choose(b) => BookingSelect(st, b)
    case Focus => st.(showSuggestions := |st.term| > 0)
    case Blur => st.(showSuggestions := false)
  }

  /** Suggestions are only ever on for a non-empty term. */
  predicate SearchInvariant(st: SearchState) {
    st.showSuggestions ==> |st.term| > 0
  }

  /** Every action keeps the invariant; the initial state has it. */
  lemma StepKeepsInvariant(st: SearchState, a: Action)
    requires SearchInvariant(st)
    ensures SearchInvariant(Step(st, a))
    ensures SearchInvariant(InitialSearch)
  {
  }

  /** Choosing a listed booking makes it a suggestion for the new term, and its timeline
      is what the page shows. */
  lemma ChosenBookingIsSuggested(st: SearchState, bookings: seq<TrackedBooking>, b: TrackedBooking)
    requires b in bookings
    ensures b in Suggestions(bookings, BookingSelect(st, b).term)
    ensures Timeline(BookingSelect(st, b).selected) == Timeline(Some(b))
  {
    var k :| 0 <= k < |bookings| && bookings[k] == b;
    IncludesSelf(Lower(b.id));
  }
}
