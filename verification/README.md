# ParcelEase admin dashboard: model of the computing core

This project models, as pure Dafny functions, the four pieces of the parcel-delivery
admin dashboard that compute something rather than only fetching and rendering data.

- **Vocabulary** (`types.dfy`, module `Types`). These are the closed `StatusType` (ten
  values; `Confirmed` is the only capitalised one) and `DeliveryType` (`normal`,
  `expressdelivery`) sets, with their wire spellings.
- **Bookings page** (`bookings.dfy`, module `Bookings`). This covers:
  - the boundary coercion `convertBooking`, which turns an unknown status into
    `pending` and an unknown `delivery_type` into `normal`;
  - the status-tab plus case-insensitive search filter;
  - the row toggle, select-all and the header checkbox.

  The model keeps the source's field-name mismatch. Coercion writes `delivery_type`,
  but the table displays the untouched `deliverytype`.
- **Track Shipment page** (`track_shipment.dfy`, module `TrackShipment`). This covers
  the tracking timeline built from one booking, and the search box.
  - The timeline has 3, 4 or 6 events at fixed hour offsets from the booking date.
  - The search box has its id suggestions and its change, select, focus and blur
    transitions.
- **Dashboard revenue endpoint** (`server.dfy`, module `Server`). This covers:
  - the seven day labels ending today;
  - the Monday-based current and previous week windows;
  - the projection of per-day sums onto the labels, with 0 for a missing or NULL day;
  - the `|| 0` default of the revenue KPI.

  The SQL is an injected query function. A query either returns per-day sums or fails,
  and a failure turns into the 500 reply.

The helpers are `Seqs` (order-preserving filter, subsequence, duplicate-freedom),
`Text` (lower-casing and `includes`) and `Wrappers` (`Option`, `Result`).

Time is plain integers. Timestamps are milliseconds, so the timeline offsets are
multiples of `HourMs`. Days are day numbers counted from 1970-01-01, which was a
Thursday. `Weekday` numbers days as `Date.getDay` does. `StartOfWeek` repeats date-fns'
offset formula for `weekStartsOn: 1`.

The revenue endpoint is modelled as written. Both the "This Week" and the "Last Week"
series are looked up under the current seven labels, not under each window's own dates.
`SeriesSplitAtMonday` proves what that means:
- a label before this week's Monday can carry only last week's revenue;
- a label from Monday on can carry only this week's revenue.

`LastWeekBlankOnSunday` proves that on a Sunday the "Last Week" series is all zeros.
The model replicates this misalignment and does not correct it.

## Model

| member | source | states |
|---|---|---|
| Types.StatusIsClosedSetOfTen | src/utils/types.ts:2-12 | exactly ten statuses, every status is listed, and the ten spellings are pairwise different |
| Types.StatusNameInjective | src/utils/types.ts:2-12 | two statuses with the same spelling are the same status |
| Types.StatusSpellingIsCaseSensitive | src/utils/types.ts:11 | `"confirmed"` spells no status; only `"Confirmed"` does |
| Types.DeliveryTypeIsClosedSetOfTwo | src/utils/types.ts:14 | every delivery type is spelled `normal` or `expressdelivery`, and the two differ |
| Text.Includes | src/pages/Bookings.tsx:92-95 | the left-to-right `includes` search is true iff the term occurs at some position of the text |
| Text.Lower | src/pages/Bookings.tsx:89-95 | lower-casing keeps the length, maps each character through the ASCII fold, and leaves no upper-case ASCII letter |
| Seqs.FilterMultiset | src/pages/Bookings.tsx:87 | `filter` keeps every occurrence of an element the predicate accepts and no occurrence of one it rejects |
| Bookings.IsValidStatusIff | src/pages/Bookings.tsx:17-25 | `isValidStatus(s)` holds iff `s` is the spelling of some `StatusType` value |
| Bookings.IsValidDeliveryTypeIff | src/pages/Bookings.tsx:21-28 | `isValidDeliveryType(s)` holds iff `s` is the spelling of some `DeliveryType` value |
| Bookings.FallbacksAreValid | src/pages/Bookings.tsx:32-33 | the fallbacks `pending` and `normal` are accepted values themselves |
| Bookings.ConvertBooking | src/pages/Bookings.tsx:29-35 | an accepted status or delivery type is kept; a missing or unaccepted one becomes `pending` / `normal`; the result is always accepted; every other field, including the displayed `deliverytype`, is copied unchanged |
| Bookings.ConvertToRawRoundTrip | src/pages/Bookings.tsx:29-35 | converting the JSON form of a converted booking returns that booking |
| Bookings.ConvertIdempotent | src/pages/Bookings.tsx:29-35 | converting twice gives the same booking as converting once |
| Bookings.FilterBookings | src/pages/Bookings.tsx:87-97 | the result is an order-preserving subsequence of the bookings; a booking is in it iff the tab is `all` or equals its status and the lower-cased term occurs in one of the four lower-cased fields; a kept booking occurs exactly as often as in the input, any other not at all |
| Bookings.FilterAllEmptyIsIdentity | src/pages/Bookings.tsx:87-97 | with tab `all` and an empty search the filtered list is the whole list |
| Bookings.Toggle | src/pages/Bookings.tsx:65-69 | a present id is removed everywhere, in order, while every other id keeps its exact number of occurrences; an absent id is appended at the end |
| Bookings.ToggleFlipsRow | src/pages/Bookings.tsx:65-69 | after a toggle the row checkbox shows the opposite of before |
| Bookings.ToggleKeepsNoDup | src/pages/Bookings.tsx:65-69 | a duplicate-free selection stays duplicate-free |
| Bookings.ToggleTwiceRestoresAbsent | src/pages/Bookings.tsx:65-69 | toggling an unselected id twice restores the selection exactly |
| Bookings.ToggleTwiceKeepsMembers | src/pages/Bookings.tsx:65-69 | toggling a selected id twice keeps the same members and moves the id to the end |
| Bookings.ToggleTwiceMayReorder | src/pages/Bookings.tsx:65-69 | concrete case where toggling twice changes the order: `[a, b]` becomes `[b, a]` |
| Bookings.SelectAll | src/pages/Bookings.tsx:71-77 | checking selects the ids of the shown rows, one per row, in shown order; unchecking selects nothing |
| Bookings.HeaderChecked | src/pages/Bookings.tsx:164 | the header checkbox is never checked for an empty selection or an empty shown list |
| Bookings.SelectAllDrivesHeader | src/pages/Bookings.tsx:71-77 | after select-all the header is checked iff some row is shown; after clearing it is unchecked |
| Bookings.HeaderComparesLengthsOnly | src/pages/Bookings.tsx:164 | the header can be checked although no shown row is selected, because only lengths are compared |
| TrackShipment.Timeline | src/pages/TrackShipment.tsx:32-67 | no selection gives no events. Otherwise the first three events are Order Placed, Pickup Scheduled and Picked Up at date-24h, -18h and -12h, at pickup. In Transit at date-6h in the Distribution Center comes iff the status is delivered or in-transit. Out for Delivery and Delivered at +24h and +30h, at drop, come iff the status is delivered |
| TrackShipment.TimelineIsPrefixOfCourse | src/pages/TrackShipment.tsx:32-67 | every timeline is the first 6 (delivered), 4 (in-transit) or 3 (otherwise) stages of the full six-stage course |
| TrackShipment.TimelineIsChronological | src/pages/TrackShipment.tsx:34-62 | event times strictly increase along every timeline |
| TrackShipment.CourseLabelsDistinct | src/pages/TrackShipment.tsx:35-63 | the six stage names are pairwise different |
| TrackShipment.StageAppearsIff | src/pages/TrackShipment.tsx:48-66 | an In Transit entry appears iff the status is delivered or in-transit; a Delivered entry appears iff it is delivered |
| TrackShipment.DeliveredExample | src/pages/TrackShipment.tsx:55-60 | a delivered booking of 2024-01-10T00:00Z has Out for Delivery at 2024-01-11T00:00Z at its drop |
| TrackShipment.Suggestions | src/pages/TrackShipment.tsx:27-29 | the suggestions are an order-preserving subsequence of the bookings; a booking is in it iff its lower-cased id contains the lower-cased term; a matching booking occurs exactly as often as in the input |
| TrackShipment.EmptyTermSuggestsAll | src/pages/TrackShipment.tsx:27-29 | an empty term suggests every booking, in order |
| TrackShipment.SearchChange | src/pages/TrackShipment.tsx:11-19 | the term is stored; suggestions show iff it is non-empty; an empty term clears the selection, a non-empty one keeps it |
| TrackShipment.BookingSelect | src/pages/TrackShipment.tsx:21-25 | selecting sets the selection and the term to the booking's id and hides suggestions |
| TrackShipment.Step | src/pages/TrackShipment.tsx:84-85 | after any action, suggestions show only for a non-empty term; focus shows them iff the term is non-empty and blur hides them, neither touching the term or the selection |
| TrackShipment.StepKeepsInvariant | src/pages/TrackShipment.tsx:11-85 | from the initial state, typing, selecting, focus and blur never show suggestions for an empty term |
| TrackShipment.ChosenBookingIsSuggested | src/pages/TrackShipment.tsx:21-29 | a chosen booking is among the suggestions for its own id, and its timeline is the one shown |
| Server.StartOfWeek | server.js:134 | the result is a Monday, 0 to 6 days before today, and no later day up to today is a Monday |
| Server.Labels | server.js:128-130 | seven labels, today-6 first and today last, each one day after the previous |
| Server.LabelsDistinct | server.js:128-130 | the seven labels strictly increase, hence are pairwise distinct |
| Server.WindowsAreAdjacent | server.js:134-136 | last week is a full Monday-to-Sunday week ending the day before this week's Monday; the two windows share no day; this week holds 1 to 7 days |
| Server.RevenueAt | server.js:147 | a day's non-NULL sum is returned as is; a missing day or a NULL sum gives 0 |
| Server.Project | server.js:146-147 | one value per label in label order; a label with a non-NULL sum shows that sum; a label without a row or with a NULL sum gives 0 |
| Server.RevenueHandler | server.js:127-174 | the reply fails iff either window query fails, with the fixed error text; otherwise it has today's seven labels, and both series are the per-label projections of their own window's rows onto those same current labels |
| Server.SeriesSplitAtMonday | server.js:134-151 | with queries that answer inside their window, labels before this week's Monday have a zero This Week value, later labels a zero Last Week value, so at every label at least one series is 0 |
| Server.LastWeekBlankOnSunday | server.js:134-151 | on a Sunday the Last Week series is all zeros, whatever last week earned |
| Server.LastWeekShownBeforeMonday | server.js:134-151 | a label before this week's Monday lies in last week's window, and the Last Week series shows last week's own sum for that day there |
| Server.ThisWeekFullyShown | server.js:128-150 | every day of this week's window appears under its own label with its own sum |
| Server.RevenueKpi | server.js:213 | a NULL 30-day revenue sum is reported as 0; any other sum is reported as is |

## Left out

- Rendering, `useState`/`useEffect` wiring and the `fetch` calls (src/pages/Bookings.tsx:51-59) are UI plumbing; the model starts from the fetched rows.
- Text.Lower: lower-cases ASCII letters only, whereas `toLowerCase` also folds non-ASCII letters; the search predicates inherit this.
- The 200 ms delay before blur hides the suggestions is timing; `Step` applies blur's eventual effect at once.
- Locale formatting (`toLocaleString`, `toLocaleDateString`, the `'MMM dd'` text) is not modelled: times are milliseconds, labels are day numbers, which the `'MMM dd'` text distinguishes for any seven consecutive days.
- Time zones are left out, including `new Date(r.day)` parsing. So is the chance that the two `new Date()` calls of the revenue handler fall on different days.
- The `BETWEEN` upper bound of last week is a midnight instant, so most of that Sunday is excluded by the store. The whole-day window model cannot see this. `QueryWithin` still holds because excluded rows only shrink the answer.
- Amounts are integers, for example cents. The driver may return `SUM(amount)` as a decimal string, and then `|| 0` would behave differently. That case is left out.
- Every other handler in server.js is a single SQL statement against a schema that is not part of this model. This covers users, bookings, tickets, payments, FAQs, the deletes, and the KPI counts and `change` constants.
- The user delete removes parcels before it checks existence, without a transaction. This is noted in the `Server` module comment.
- The mock booking data and `StatusBadge` are not part of this model. The tracked bookings' `status` is taken to be a `StatusType` value.
- Fields that `convertBooking` copies through `...raw` beyond the six listed ones, such as `amount`, are not modelled. Text fields are assumed to be strings. A non-string `status` or `delivery_type` is represented as missing, which `includes` rejects in the same way.
