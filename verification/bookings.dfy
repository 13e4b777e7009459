/** The Bookings management page (src/pages/Bookings.tsx): coercion of fetched rows at the
    boundary, the status-tab and search filter, and the multi-select checkboxes. */
module Bookings {
  import opened Wrappers
  import opened Types
  import opened Seqs
  import opened Text

  /** The status spellings the page accepts, in the page's own order. */
  const ValidStatuses: seq<string> := [
    "pending", "in-transit", "delivered", "cancelled",
    "active", "blocked", "open", "closed", "Confirmed", "failed"
  ]

  /** The delivery-type spellings the page accepts. */
  const ValidDeliveryTypes: seq<string> := ["normal", "expressdelivery"]

  /** `isValidStatus`: membership of the spelling in the accepted list. */
  predicate IsValidStatus(s: string) {
    s in ValidStatuses
  }

  /** `isValidDeliveryType`: membership of the spelling in the accepted list. */
  predicate IsValidDeliveryType(s: string) {
    s in ValidDeliveryTypes
  }

  /** The accepted status list is exactly the spellings of the `StatusType` vocabulary. */
  lemma IsValidStatusIff(s: string)
    ensures IsValidStatus(s) <==> exists t: Status :: StatusName(t) == s
  {
    if IsValidStatus(s) {
      var k :| 0 <= k < |ValidStatuses| && ValidStatuses[k] == s;
      assert StatusName(AllStatuses[k]) == s;
    }
  }

  /** The accepted delivery-type list is exactly the spellings of `DeliveryType`. */
  lemma IsValidDeliveryTypeIff(s: string)
    ensures IsValidDeliveryType(s) <==> exists d: DeliveryType :: DeliveryName(d) == s
  {
    if IsValidDeliveryType(s) {
      if s == "normal" {
        assert DeliveryName(Normal) == s;
      } else {
        assert DeliveryName(ExpressDelivery) == s;
      }
    }
  }

  /** The fallbacks used by coercion are themselves accepted values. */
  lemma FallbacksAreValid()
    ensures IsValidStatus(StatusName(Pending))
    ensures IsValidDeliveryType(DeliveryName(Normal))
  {
  }

  /** The status an accepted spelling denotes. */
  function StatusOf(s: string): (t: Status)
    requires IsValidStatus(s)
    ensures StatusName(t) == s
  {
    if s == "pending" then Pending
    else if s == "in-transit" then InTransit
    else if s == "delivered" then Delivered
    else if s == "cancelled" then Cancelled
    else if s == "active" then Active
    else if s == "blocked" then Blocked
    else if s == "open" then Open
    else if s == "closed" then Closed
    else if s == "Confirmed" then Confirmed
    else Failed
  }

  /** The delivery type an accepted spelling denotes. */
  function DeliveryTypeOf(s: string): (d: DeliveryType)
    requires IsValidDeliveryType(s)
    ensures DeliveryName(d) == s
  {
    if s == "normal" then Normal else ExpressDelivery
  }

  /** A parcel row as the server returns it. `status` and `delivery_type` are untrusted:
      `None` stands for a missing field or a value that is not a string. `deliverytype`
      (no underscore) is a separate column, and it is the one the table displays. */
  datatype RawBooking = RawBooking(
    parcel_id: string,
    user_id: string,
    pickup_location: string,
    drop_location: string,
    deliverytype: string,
    created_at: string,
    status: Option<string>,
    delivery_type: Option<string>)

  /** A booking after `convertBooking`: status and `delivery_type` are from the vocabularies. */
  datatype Booking = Booking(
    parcel_id: string,
    user_id: string,
    pickup_location: string,
    drop_location: string,
    deliverytype: string,
    created_at: string,
    status: Status,
    delivery_type: DeliveryType)

  /** `convertBooking`: keep an accepted status, otherwise `pending`; keep an accepted
      `delivery_type`, otherwise `normal`; copy every other field, including the displayed
      `deliverytype`, unchanged. */
  function ConvertBooking(raw: RawBooking): (b: Booking)
    ensures b.parcel_id == raw.parcel_id && b.user_id == raw.user_id
    ensures b.pickup_location == raw.pickup_location && b.drop_location == raw.drop_location
    ensures b.created_at == raw.created_at
    ensures b.deliverytype == raw.deliverytype
    ensures raw.status.Some? && IsValidStatus(raw.status.value) ==> StatusName(b.status) == raw.status.value
    ensures !(raw.status.Some? && IsValidStatus(raw.status.value)) ==> b.status == Pending
    ensures raw.delivery_type.Some? && IsValidDeliveryType(raw.delivery_type.value) ==>
              DeliveryName(b.delivery_type) == raw.delivery_type.value
    ensures !(raw.delivery_type.Some? && IsValidDeliveryType(raw.delivery_type.value)) ==>
              b.delivery_type == Normal
    ensures IsValidStatus(StatusName(b.status)) && IsValidDeliveryType(DeliveryName(b.delivery_type))
  {
    var status := if raw.status.Some? && IsValidStatus(raw.status.value) then StatusOf(raw.status.value) else Pending;
    var dtype :=
      if raw.delivery_type.Some? && IsValidDeliveryType(raw.delivery_type.value)
      then DeliveryTypeOf(raw.delivery_type.value) else Normal;
    IsValidStatusIff(StatusName(status));
    IsValidDeliveryTypeIff(DeliveryName(dtype));
    Booking(raw.parcel_id, raw.user_id, raw.pickup_location, raw.drop_location,
            raw.deliverytype, raw.created_at, status, dtype)
  }

  /** The JSON form of a converted booking, as it would be fed back through the boundary. */
  function ToRaw(b: Booking): RawBooking {
    RawBooking(b.parcel_id, b.user_id, b.pickup_location, b.drop_location, b.deliverytype,
               b.created_at, Some(StatusName(b.status)), Some(DeliveryName(b.delivery_type)))
  }

  /** Converting the JSON form of a converted booking gives that booking back. */
  lemma ConvertToRawRoundTrip(b: Booking)
    ensures ConvertBooking(ToRaw(b)) == b
  {
    var c := ConvertBooking(ToRaw(b));
    IsValidStatusIff(StatusName(b.status));
    StatusNameInjective(c.status, b.status);
  }

  /** `convertBooking` is idempotent on `status` and `delivery_type`. */
  lemma ConvertIdempotent(raw: RawBooking)
    ensures ConvertBooking(ToRaw(ConvertBooking(raw))) == ConvertBooking(raw)
  {
    ConvertToRawRoundTrip(ConvertBooking(raw));
  }

  /** The status tab: `'all'` or one status. */
  datatype Tab = AllTab | StatusTab(status: Status)

  predicate TabMatches(tab: Tab, b: Booking) {
    tab.AllTab? || tab.status == b.status
  }

  /** One search field matches when the lower-cased term occurs in the lower-cased field. */
  predicate FieldMatches(term: string, field: string) {
    Includes(Lower(field), Lower(term))
  }

  /** The row predicate of `filteredBookings`. */
  predicate Keep(tab: Tab, term: string, b: Booking) {
    TabMatches(tab, b) &&
    (FieldMatches(term, b.parcel_id) || FieldMatches(term, b.user_id) ||
     FieldMatches(term, b.pickup_location) || FieldMatches(term, b.drop_location))
  }

  /** Declarative form of the search condition: the lower-cased term occurs in one of the
      four lower-cased fields. */
  ghost predicate SearchHit(term: string, b: Booking) {
    IsSubstring(Lower(term), Lower(b.parcel_id)) || IsSubstring(Lower(term), Lower(b.user_id)) ||
    IsSubstring(Lower(term), Lower(b.pickup_location)) || IsSubstring(Lower(term), Lower(b.drop_location))
  }

  /** `filteredBookings`: the rows on the current tab that match the search, in list order. */
  function FilterBookings(bookings: seq<Booking>, tab: Tab, term: string): (r: seq<Booking>)
    ensures IsSubseq(r, bookings)
    ensures forall i :: 0 <= i < |r| ==> r[i] in bookings && TabMatches(tab, r[i]) && SearchHit(term, r[i])
    ensures forall i :: 0 <= i < |bookings| && TabMatches(tab, bookings[i]) && SearchHit(term, bookings[i]) ==>
              bookings[i] in r
    ensures forall b :: multiset(r)[b] ==
              if TabMatches(tab, b) && SearchHit(term, b) then multiset(bookings)[b] else 0
  {
    FilterMultiset(bookings, b => Keep(tab, term, b));
    Filter(bookings, b => Keep(tab, term, b))
  }

  /** With tab `'all'` and an empty search, every booking is shown, in order. */
  lemma FilterAllEmptyIsIdentity(bookings: seq<Booking>)
    ensures FilterBookings(bookings, AllTab, "") == bookings
  {
    forall i | 0 <= i < |bookings| ensures Keep(AllTab, "", bookings[i]) {
      IncludesEmpty(Lower(bookings[i].parcel_id));
    }
    FilterKeepsAll(bookings, b => Keep(AllTab, "", b));
  }

  /** `handleSelectBooking`: remove every occurrence of a selected id, or append an
      unselected one. */
  function Toggle(selection: seq<string>, id: string): (r: seq<string>)
    ensures id in selection ==> id !in r && IsSubseq(r, selection)
    ensures id in selection ==> forall x :: x in r <==> x in selection && x != id
    ensures id in selection ==> forall x :: multiset(r)[x] == if x == id then 0 else multiset(selection)[x]
    ensures id !in selection ==> |r| == |selection| + 1 && r[..|selection|] == selection && r[|selection|] == id
  {
    if id in selection then
      FilterMultiset(selection, (x: string) => x != id);
      Filter(selection, (x: string) => x != id)
    else selection + [id]
  }

  /** The row checkbox (`selectedBookings.includes(parcel_id)`) flips on every toggle. */
  lemma ToggleFlipsRow(selection: seq<string>, id: string)
    ensures (id in Toggle(selection, id)) <==> id !in selection
  {
  }

  /** A duplicate-free selection stays duplicate-free under toggling. */
  lemma ToggleKeepsNoDup(selection: seq<string>, id: string)
    requires NoDup(selection)
    ensures NoDup(Toggle(selection, id))
  {
    if id in selection {
      FilterNoDup(selection, (x: string) => x != id);
    } else {
      AppendFreshNoDup(selection, id);
    }
  }

  /** Toggling an unselected id twice restores the selection exactly. */
  lemma ToggleTwiceRestoresAbsent(selection: seq<string>, id: string)
    requires id !in selection
    ensures Toggle(Toggle(selection, id), id) == selection
  {
    var p := (x: string) => x != id;
    FilterAppend(selection, [id], p);
    FilterKeepsAll(selection, p);
    assert Filter([id], p) == [];
  }

  /** Toggling a selected id twice keeps the same members, but the id moves to the end. */
  lemma ToggleTwiceKeepsMembers(selection: seq<string>, id: string)
    requires id in selection
    ensures forall x :: x in Toggle(Toggle(selection, id), id) <==> x in selection
    ensures Toggle(Toggle(selection, id), id)[|Toggle(Toggle(selection, id), id)| - 1] == id
  {
  }

  /** Toggling twice need not restore the order of the selection. */
  lemma ToggleTwiceMayReorder()
    ensures Toggle(Toggle(["a", "b"], "a"), "a") == ["b", "a"]
  {
    assert "a" in ["a", "b"];
    assert Filter(["a", "b"], (x: string) => x != "a") == ["b"];
  }

  /** `handleSelectAll`: checking selects the ids of the shown rows, in shown order;
      unchecking clears the selection. */
  function SelectAll(filtered: seq<Booking>, checked: bool): (r: seq<string>)
    ensures checked ==> |r| == |filtered|
    ensures checked ==> forall i :: 0 <= i < |r| ==> r[i] == filtered[i].parcel_id
    ensures !checked ==> r == []
  {
    if checked then seq(|filtered|, i requires 0 <= i < |filtered| => filtered[i].parcel_id) else []
  }

  /** The header checkbox: checked when the selection is as long as the shown list and
      the shown list is not empty. Only the lengths are compared. */
  function HeaderChecked(selection: seq<string>, filtered: seq<Booking>): (checked: bool)
    ensures checked ==> |selection| > 0 && |filtered| > 0
  {
    |selection| == |filtered| && |filtered| > 0
  }

  /** After select-all the header shows checked exactly when some row is shown; after
      clearing it shows unchecked. */
  lemma SelectAllDrivesHeader(filtered: seq<Booking>)
    ensures HeaderChecked(SelectAll(filtered, true), filtered) <==> |filtered| > 0
    ensures !HeaderChecked(SelectAll(filtered, false), filtered)
  {
  }

  /** The header can show checked although no shown row is selected. */
  lemma HeaderComparesLengthsOnly()
    ensures var shown := [Booking("P1", "U1", "A", "B", "normal", "", Pending, Normal)];
            HeaderChecked(["P9"], shown) && "P1" !in ["P9"]
  {
  }
}
