/** The Donation document: one batch of surplus food a restaurant offers,
    with its enums, its defaults and what saving it validates. */
module DonationModel {
  import opened Common

  datatype DonationStatus = Available | Claimed | PickedUp | Completed | Expired

  datatype Unit = Kg | Plates | Servings | Pieces

  function StatusName(s: DonationStatus): string {
    match s
    case Available => "available"
    case Claimed => "claimed"
    case PickedUp => "picked-up"
    case Completed => "completed"
    case Expired => "expired"
  }

  /** The enum check Mongoose applies to `status` on save: a string outside the
      enum is refused. */
  function ParseStatus(s: string): (r: Option<DonationStatus>)
    ensures r.Some? ==> StatusName(r.value) == s
    ensures r.None? ==> forall st :: StatusName(st) != s
  {
    if s == "available" then Some(Available)
    else if s == "claimed" then Some(Claimed)
    else if s == "picked-up" then Some(PickedUp)
    else if s == "completed" then Some(Completed)
    else if s == "expired" then Some(Expired)
    else None
  }

  function UnitName(u: Unit): string {
    match u
    case Kg => "kg"
    case Plates => "plates"
    case Servings => "servings"
    case Pieces => "pieces"
  }

  /** The enum check on `unit`. */
  function ParseUnit(s: string): (r: Option<Unit>)
    ensures r.Some? ==> UnitName(r.value) == s
    ensures r.None? ==> forall u :: UnitName(u) != s
  {
    if s == "kg" then Some(Kg)
    else if s == "plates" then Some(Plates)
    else if s == "servings" then Some(Servings)
    else if s == "pieces" then Some(Pieces)
    else None
  }

  /** The sub-record an NGO attaches when it acknowledges a donation. */
  datatype Acknowledgement = Acknowledgement(photo: string, note: string, addedAt: Time)

  /** Optional fields are Option (absent until set); absent strings are "". */
  datatype Donation = Donation(
    restaurant: Id,
    restaurantName: string,
    foodType: string,
    quantity: int,
    unit: Unit,
    description: string,
    pickupAddress: string,
    expiryTime: Time,
    status: DonationStatus,
    claimedBy: Option<Id>,
    claimedByName: Option<string>,
    claimedAt: Option<Time>,
    completedAt: Option<Time>,
    mealsServed: int,
    beneficiaries: int,
    acknowledgement: Option<Acknowledgement>,
    createdAt: Time)

  /** What save() validates beyond the enums, which the types already enforce:
      the required strings restaurantName, foodType and pickupAddress are
      non-empty (Mongoose's `required` refuses ""). */
  predicate SchemaValid(d: Donation) {
    d.restaurantName != "" && d.foodType != "" && d.pickupAddress != ""
  }

  /** A new document with the schema's defaults: status available, nothing
      claimed or completed, mealsServed and beneficiaries 0. */
  function NewDonation(restaurant: Id, restaurantName: string, foodType: string,
                       quantity: int, unit: Unit, description: string,
                       pickupAddress: string, expiryTime: Time, createdAt: Time): (d: Donation)
    ensures d.status == Available
    ensures d.claimedBy.None? && d.claimedByName.None? && d.claimedAt.None?
    ensures d.completedAt.None? && d.acknowledgement.None?
    ensures d.mealsServed == 0 && d.beneficiaries == 0
    ensures d.restaurant == restaurant && d.restaurantName == restaurantName
    ensures d.unit == unit && d.expiryTime == expiryTime && d.createdAt == createdAt
    ensures SchemaValid(d) <==> restaurantName != "" && foodType != "" && pickupAddress != ""
  {
    Donation(restaurant, restaurantName, foodType, quantity, unit, description,
             pickupAddress, expiryTime, Available, None, None, None, None, 0, 0, None,
             createdAt)
  }
}
