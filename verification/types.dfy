/** The closed vocabularies shared by every page and the server: booking status and
    delivery type (src/utils/types.ts). */
module Types {

  /** `StatusType`: ten values. Note that `Confirmed` is the only capitalised one. */
  datatype Status =
    | Pending | InTransit | Delivered | Cancelled | Active
    | Blocked | Open | Closed | Confirmed | Failed

  /** The wire spelling of each status. */
  function StatusName(s: Status): string {
    match s
    case Pending => "pending"
    case InTransit => "in-transit"
    case Delivered => "delivered"
    case Cancelled => "cancelled"
    case Active => "active"
    case Blocked => "blocked"
    case Open => "open"
    case Closed => "closed"
    case Confirmed => "Confirmed"
    case Failed => "failed"
  }

  /** Every status, in declaration order. */
  const AllStatuses: seq<Status> :=
    [Pending, InTransit, Delivered, Cancelled, Active, Blocked, Open, Closed, Confirmed, Failed]

  /** `DeliveryType`: two values. */
  datatype DeliveryType = Normal | ExpressDelivery

  function DeliveryName(d: DeliveryType): string {
    match d
    case Normal => "normal"
    case ExpressDelivery => "expressdelivery"
  }

  /** The status vocabulary is exactly ten values with ten different spellings. */
  lemma StatusIsClosedSetOfTen()
    ensures |AllStatuses| == 10
    ensures forall s: Status :: s in AllStatuses
    ensures forall i, j :: 0 <= i < j < |AllStatuses| ==>
              StatusName(AllStatuses[i]) != StatusName(AllStatuses[j])
  {
    forall s: Status ensures s in AllStatuses {
      match s
      case Pending => assert AllStatuses[0] == s;
      case InTransit => assert AllStatuses[1] == s;
      case Delivered => assert AllStatuses[2] == s;
      case Cancelled => assert AllStatuses[3] == s;
      case Active => assert AllStatuses[4] == s;
      case Blocked => assert AllStatuses[5] == s;
      case Open => assert AllStatuses[6] == s;
      case Closed => assert AllStatuses[7] == s;
      case Confirmed => assert AllStatuses[8] == s;
      case Failed => assert AllStatuses[9] == s;
    }
  }

  /** Distinct statuses are spelled differently, so a spelling names at most one status. */
  lemma StatusNameInjective(a: Status, b: Status)
    ensures StatusName(a) == StatusName(b) ==> a == b
  {
  }

  /** Spelling is case-sensitive: `"confirmed"` is not a status, `"Confirmed"` is. */
  lemma StatusSpellingIsCaseSensitive()
    ensures forall s: Status :: StatusName(s) != "confirmed"
    ensures StatusName(Confirmed) == "Confirmed"
  {
  }

  /** The delivery-type vocabulary is exactly `normal` and `expressdelivery`. */
  lemma DeliveryTypeIsClosedSetOfTwo()
    ensures forall d: DeliveryType :: DeliveryName(d) == "normal" || DeliveryName(d) == "expressdelivery"
    ensures DeliveryName(Normal) != DeliveryName(ExpressDelivery)
  {
  }
}
